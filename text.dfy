/**
 String joining and splitting on a one-character separator. `Join` stands
 for JavaScript's `Array.prototype.join`, with which index.js:43 joins the
 six cron fields by spaces. `Split` is never called by the program: it is
 the reading direction, used only to state that the joined fields, and the
 parameters of a query string, come back out unchanged.
 */
module Text {

  /** The parts with `sep` between neighbours; the empty list joins to "". */
  function Join(parts: seq<string>, sep: char): string
  {
    if |parts| == 0 then ""
    else if |parts| == 1 then parts[0]
    else parts[0] + [sep] + Join(parts[1..], sep)
  }

  /** The pieces of `s` between occurrences of `sep`; there is always at least one. */
  function Split(s: string, sep: char): (r: seq<string>)
    ensures |r| >= 1
  {
    if |s| == 0 then [""]
    else
      var rest := Split(s[1..], sep);
      if s[0] == sep then [""] + rest
      else [[s[0]] + rest[0]] + rest[1..]
  }

  /** A character other than the separator extends the first piece. */
  lemma SplitCons(c: char, s: string, sep: char)
    requires c != sep
    ensures Split([c] + s, sep) == [[c] + Split(s, sep)[0]] + Split(s, sep)[1..]
  {
    assert ([c] + s)[1..] == s;
  }

  /** A prefix free of the separator simply extends the first piece. */
  lemma {:induction false} SplitPrefix(a: string, s: string, sep: char)
    requires sep !in a
    ensures Split(a + s, sep) == [a + Split(s, sep)[0]] + Split(s, sep)[1..]
  {
    var rs := Split(s, sep);
    if a == [] {
      assert a + s == s && a + rs[0] == rs[0] && rs == [rs[0]] + rs[1..];
    } else {
      SplitPrefix(a[1..], s, sep);
      var t := Split(a[1..] + s, sep);
      assert t[0] == a[1..] + rs[0] && t[1..] == rs[1..];
      assert a + s == [a[0]] + (a[1..] + s);
      SplitCons(a[0], a[1..] + s, sep);
      assert [a[0]] + (a[1..] + rs[0]) == a + rs[0];
    }
  }

  /** Splitting a join gives the parts back, provided no part holds the separator. */
  lemma {:induction false} SplitJoin(parts: seq<string>, sep: char)
    requires |parts| >= 1
    requires forall i :: 0 <= i < |parts| ==> sep !in parts[i]
    ensures Split(Join(parts, sep), sep) == parts
  {
    if |parts| == 1 {
      SplitPrefix(parts[0], "", sep);
      assert parts[0] + "" == parts[0];
    } else {
      var tail := Join(parts[1..], sep);
      assert Join(parts, sep) == parts[0] + ([sep] + tail);
      SplitPrefix(parts[0], [sep] + tail, sep);
      assert ([sep] + tail)[1..] == tail;
      SplitJoin(parts[1..], sep);
      assert parts[0] + "" == parts[0];
      assert parts == [parts[0]] + parts[1..];
    }
  }
}

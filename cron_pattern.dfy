/**
 The schedule pattern compiler of index.js: either the configured cron
 expression verbatim, or a six-field expression built from a (unit, value)
 pair by walking the fixed field order.
 */
module CronPattern {
  import Text

  /** The six fields of the cron expression, finest first. */
  const Order: seq<string> := ["seconds", "minutes", "hours", "daymonth", "months", "dayweek"]

  /** Position of the first entry of `order` equal to `unit`, or |order| when there is none. */
  function IndexOf(order: seq<string>, unit: string): (k: nat)
    ensures k <= |order|
    ensures k < |order| ==> order[k] == unit
    ensures forall j :: 0 <= j < k ==> order[j] != unit
  {
    if |order| == 0 then 0
    else if order[0] == unit then 0
    else 1 + IndexOf(order[1..], unit)
  }

  /** The field the manual pattern holds at position `i`: "0" before the unit's field, the value at it, "*" after it. */
  function FieldAt(unit: string, value: string, i: nat): string
  {
    var k := IndexOf(Order, unit);
    if i < k then "0" else if i == k then value else "*"
  }

  /** The manual pattern as a specification: the six fields of `FieldAt`, joined by single spaces. */
  function ManualPattern(unit: string, value: string): string
  {
    Text.Join(seq(|Order|, i requires 0 <= i => FieldAt(unit, value, i)), ' ')
  }

  /** No field name occurs twice in the order, so at most one field receives the value. */
  lemma OrderDistinct()
    ensures forall i, j :: 0 <= i < j < |Order| ==> Order[i] != Order[j]
  {
  }

  /**
   The pattern the job runs on: a non-empty configured `cronPattern` is used
   as it is; otherwise the order is walked once, pushing the value at the
   unit's field, "*" after it and "0" before it (or everywhere, when the unit
   names no field).
   */
  method CompilePattern(cronPattern: string, unit: string, value: string) returns (pattern: string)
    ensures cronPattern != "" ==> pattern == cronPattern
    ensures cronPattern == "" ==> pattern == ManualPattern(unit, value)
  {
    if cronPattern != "" {
      return cronPattern;
    }
    var parts: seq<string> := [];
    var found := false;
    OrderDistinct();
    for x := 0 to |Order|
      invariant |parts| == x
      invariant found <==> IndexOf(Order, unit) < x
      invariant forall i :: 0 <= i < x ==> parts[i] == FieldAt(unit, value, i)
    {
      if Order[x] == unit {
        found := true;
        parts := parts + [value];
      } else if found {
        parts := parts + ["*"];
      } else {
        parts := parts + ["0"];
      }
    }
    assert parts == seq(|Order|, i requires 0 <= i => FieldAt(unit, value, i));
    pattern := Text.Join(parts, ' ');
  }

  /**
   A manual pattern always splits back into exactly six fields: "0" before
   the unit's field, the value at it, "*" after it (a value holding a space
   would itself be split).
   */
  lemma ManualPatternFields(unit: string, value: string)
    requires ' ' !in value
    ensures |Text.Split(ManualPattern(unit, value), ' ')| == 6
    ensures forall i :: 0 <= i < 6 && i < IndexOf(Order, unit) ==> Text.Split(ManualPattern(unit, value), ' ')[i] == "0"
    ensures IndexOf(Order, unit) < 6 ==> Text.Split(ManualPattern(unit, value), ' ')[IndexOf(Order, unit)] == value
    ensures forall i :: IndexOf(Order, unit) < i < 6 ==> Text.Split(ManualPattern(unit, value), ' ')[i] == "*"
  {
    var parts := seq(|Order|, i requires 0 <= i => FieldAt(unit, value, i));
    assert forall i :: 0 <= i < |parts| ==> ' ' !in parts[i];
    Text.SplitJoin(parts, ' ');
  }

  /** Joining six literal fields, one neighbour at a time. */
  lemma JoinSix(p: seq<string>, j: string)
    requires |p| == 6
    requires j == p[0] + " " + (p[1] + " " + (p[2] + " " + (p[3] + " " + (p[4] + " " + p[5]))))
    ensures Text.Join(p, ' ') == j
  {
    assert p[1..][1..] == p[2..] && p[2..][1..] == p[3..] && p[3..][1..] == p[4..] && p[4..][1..] == p[5..];
    calc {
      Text.Join(p, ' ');
      p[0] + " " + Text.Join(p[1..], ' ');
      p[0] + " " + (p[1] + " " + Text.Join(p[2..], ' '));
      p[0] + " " + (p[1] + " " + (p[2] + " " + Text.Join(p[3..], ' ')));
      p[0] + " " + (p[1] + " " + (p[2] + " " + (p[3] + " " + Text.Join(p[4..], ' '))));
      p[0] + " " + (p[1] + " " + (p[2] + " " + (p[3] + " " + (p[4] + " " + Text.Join(p[5..], ' ')))));
    }
  }

  /** A unit that names no field yields six "0" fields, so the value is used nowhere. */
  lemma UnmatchedUnit(unit: string, value: string)
    requires unit !in Order
    ensures ManualPattern(unit, value) == "0 0 0 0 0 0"
  {
    assert IndexOf(Order, unit) == 6;
    var parts := ["0", "0", "0", "0", "0", "0"];
    assert seq(|Order|, i requires 0 <= i => FieldAt(unit, value, i)) == parts;
    JoinSix(parts, "0 0 0 0 0 0");
  }

  /** Unit "minutes" with value "30" runs at second 0 of every thirtieth minute. */
  lemma EveryThirtyMinutes()
    ensures ManualPattern("minutes", "30") == "0 30 * * * *"
  {
    assert IndexOf(Order, "minutes") == 1;
    var parts := ["0", "30", "*", "*", "*", "*"];
    assert seq(|Order|, i requires 0 <= i => FieldAt("minutes", "30", i)) == parts;
    JoinSix(parts, "0 30 * * * *");
  }
}

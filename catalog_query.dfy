/**
 The catalog client's query URL (index.js, requestRecentMovies): the list
 endpoint under the base URL, followed by the minimum-rating, quality and
 genre filters, in that order, each only when its configured value is set.
 The request itself is not part of this model.
 */
module CatalogQuery {
  import Text

  /** The query filters of the configuration; 0 and "" stand for an unset filter. */
  datatype Query = Query(minimumRating: nat, quality: string, genre: string)

  /** The endpoint appended to the base URL. */
  const ListPath: string := "/list_movies.json?"

  /** The decimal digits of `n`, as a JavaScript number below 10^21 converts to a string. */
  function Decimal(n: nat): (s: string)
    ensures |s| >= 1
    ensures forall i :: 0 <= i < |s| ==> '0' <= s[i] <= '9'
    ensures n != 0 ==> s[0] != '0'
  {
    if n < 10 then ["0123456789"[n]]
    else Decimal(n / 10) + ["0123456789"[n % 10]]
  }

  /** The number a string of decimal digits denotes, most significant digit first. */
  function DigitsValue(s: string): nat
    requires forall i :: 0 <= i < |s| ==> '0' <= s[i] <= '9'
  {
    if s == [] then 0
    else 10 * DigitsValue(s[..|s| - 1]) + (s[|s| - 1] as int - '0' as int)
  }

  /** The digits of `n` denote `n`: the rating reaches the catalog unchanged. */
  lemma {:induction false} DecimalValue(n: nat)
    ensures DigitsValue(Decimal(n)) == n
    decreases n
  {
    var s := Decimal(n);
    if n < 10 {
      assert s[..0] == [];
      assert "0123456789"[n] as int - '0' as int == n;
    } else {
      DecimalValue(n / 10);
      var d := Decimal(n / 10);
      assert s[..|s| - 1] == d;
      assert "0123456789"[n % 10] as int - '0' as int == n % 10;
    }
  }

  /** The (name, value) parameters the URL carries, in the fixed order, each only when its filter is set. */
  function Params(q: Query): seq<(string, string)>
  {
    (if q.minimumRating != 0 then [("minimum_rating", Decimal(q.minimumRating))] else [])
    + (if q.quality != "" then [("quality", q.quality)] else [])
    + (if q.genre != "" then [("genre", q.genre)] else [])
  }

  /** One parameter as the query string carries it: "name=value". */
  function Item(p: (string, string)): string
  {
    p.0 + "=" + p.1
  }

  /** Each parameter written as "&name=value", in order. */
  function Render(ps: seq<(string, string)>): string
  {
    if ps == [] then "" else ("&" + Item(ps[0])) + Render(ps[1..])
  }

  /** The "name=value" items of a parameter list. */
  function Items(ps: seq<(string, string)>): seq<string>
  {
    seq(|ps|, i requires 0 <= i < |ps| => Item(ps[i]))
  }

  /** Reads one "name=value" item back; an item without "=" has an empty value. */
  function ParseItem(item: string): (string, string)
  {
    var f := Text.Split(item, '=');
    (f[0], if |f| > 1 then f[1] else "")
  }

  /** Reads a query string of the form "&name=value&name=value" back into its parameters. */
  function ParseQuery(s: string): seq<(string, string)>
  {
    if s == "" then []
    else
      var items := Text.Split(s, '&');
      seq(|items| - 1, i requires 0 <= i < |items| - 1 => ParseItem(items[i + 1]))
  }

  /** A name or value that the query string can carry without ambiguity. */
  predicate Plain(s: string)
  {
    '&' !in s && '=' !in s
  }

  /**
   The URL requested from the catalog: the base URL and endpoint, then
   "&minimum_rating=", "&quality=" and "&genre=" appended in that order,
   each only when its filter is set.
   */
  method RequestUrl(baseurl: string, q: Query) returns (url: string)
    ensures url == baseurl + ListPath + Render(Params(q))
    ensures Params(q) == [] ==> url == baseurl + ListPath
    ensures Plain(q.quality) && Plain(q.genre) ==> ParseQuery(url[|baseurl + ListPath|..]) == Params(q)
  {
    var prefix := baseurl + "/list_movies.json?";
    url := prefix;
    ghost var ps: seq<(string, string)> := [];
    if q.minimumRating != 0 {
      AppendParam(prefix, url, ps, "&minimum_rating=", "minimum_rating", Decimal(q.minimumRating));
      url := url + ("&minimum_rating=" + Decimal(q.minimumRating));
      ps := ps + [("minimum_rating", Decimal(q.minimumRating))];
    }
    if q.quality != "" {
      AppendParam(prefix, url, ps, "&quality=", "quality", q.quality);
      url := url + ("&quality=" + q.quality);
      ps := ps + [("quality", q.quality)];
    }
    if q.genre != "" {
      AppendParam(prefix, url, ps, "&genre=", "genre", q.genre);
      url := url + ("&genre=" + q.genre);
      ps := ps + [("genre", q.genre)];
    }
    assert ps == Params(q);
    assert url[|prefix|..] == Render(Params(q));
    if Plain(q.quality) && Plain(q.genre) {
      ParamsPlain(q);
      ParseRender(Params(q));
    }
  }

  /** Appending one "&name=value" keeps the URL equal to the prefix and the rendering of the parameters so far. */
  lemma AppendParam(prefix: string, url: string, ps: seq<(string, string)>, lead: string, name: string, value: string)
    requires url == prefix + Render(ps)
    requires lead == "&" + name + "="
    ensures url + (lead + value) == prefix + Render(ps + [(name, value)])
  {
    RenderAppend(ps, [(name, value)]);
    assert Render([(name, value)]) == ("&" + Item((name, value))) + Render([]);
    assert lead + value == "&" + Item((name, value));
  }

  /** Rendering distributes over concatenation. */
  lemma {:induction false} RenderAppend(xs: seq<(string, string)>, ys: seq<(string, string)>)
    ensures Render(xs + ys) == Render(xs) + Render(ys)
  {
    if xs == [] {
      assert xs + ys == ys;
    } else {
      assert (xs + ys)[0] == xs[0] && (xs + ys)[1..] == xs[1..] + ys;
      RenderAppend(xs[1..], ys);
      var h := "&" + Item(xs[0]);
      assert Render(xs + ys) == h + (Render(xs[1..]) + Render(ys));
      assert h + (Render(xs[1..]) + Render(ys)) == (h + Render(xs[1..])) + Render(ys);
    }
  }

  /** A parameter is present exactly when its filter is set, in the fixed order, with the configured value. */
  lemma ParamsPresence(q: Query)
    ensures ("minimum_rating", Decimal(q.minimumRating)) in Params(q) <==> q.minimumRating != 0
    ensures ("quality", q.quality) in Params(q) <==> q.quality != ""
    ensures ("genre", q.genre) in Params(q) <==> q.genre != ""
    ensures forall p :: p in Params(q) ==> p.0 in ["minimum_rating", "quality", "genre"]
    ensures forall i, j :: 0 <= i < j < |Params(q)| ==> Rank(Params(q)[i].0) < Rank(Params(q)[j].0)
    ensures Params(q) == [] <==> q.minimumRating == 0 && q.quality == "" && q.genre == ""
  {
  }

  /** Position of a parameter name in the fixed order. */
  function Rank(name: string): nat
  {
    if name == "minimum_rating" then 0 else if name == "quality" then 1 else 2
  }

  /** The parameters of a query carry no separator when its string filters carry none. */
  lemma ParamsPlain(q: Query)
    requires Plain(q.quality) && Plain(q.genre)
    ensures forall i :: 0 <= i < |Params(q)| ==> Plain(Params(q)[i].0) && Plain(Params(q)[i].1)
  {
    var d := Decimal(q.minimumRating);
    assert forall i :: 0 <= i < |d| ==> d[i] != '&' && d[i] != '=';
  }

  /** A non-empty rendering is "&" followed by the items joined with "&". */
  lemma {:induction false} RenderJoin(ps: seq<(string, string)>)
    requires ps != []
    ensures Render(ps) == "&" + Text.Join(Items(ps), '&')
  {
    if |ps| == 1 {
      assert Items(ps) == [Item(ps[0])];
      assert Render(ps[1..]) == "";
    } else {
      RenderJoin(ps[1..]);
      assert Items(ps)[1..] == Items(ps[1..]);
      var i0, j := Item(ps[0]), Text.Join(Items(ps[1..]), '&');
      assert Text.Join(Items(ps), '&') == i0 + ['&'] + j;
      assert Render(ps) == ("&" + i0) + ("&" + j);
      assert ("&" + i0) + ("&" + j) == "&" + (i0 + ['&'] + j);
    }
  }

  /** One item reads back as the parameter it was written from. */
  lemma ParseItemRoundTrip(p: (string, string))
    requires Plain(p.0) && Plain(p.1)
    ensures ParseItem(Item(p)) == p
  {
    assert Text.Join([p.0, p.1], '=') == p.0 + ['='] + Text.Join([p.1], '=');
    Text.SplitJoin([p.0, p.1], '=');
  }

  /** No item of plain parameters holds "&". */
  lemma ItemsPlain(ps: seq<(string, string)>)
    requires forall i :: 0 <= i < |ps| ==> Plain(ps[i].0) && Plain(ps[i].1)
    ensures forall i :: 0 <= i < |Items(ps)| ==> '&' !in Items(ps)[i]
  {
    forall i | 0 <= i < |ps|
      ensures '&' !in Items(ps)[i]
    {
      assert Items(ps)[i] == ps[i].0 + "=" + ps[i].1;
    }
  }

  /** The pieces of a rendering: an empty one before the first "&", then the items. */
  lemma SplitRender(ps: seq<(string, string)>)
    requires ps != []
    requires forall i :: 0 <= i < |ps| ==> Plain(ps[i].0) && Plain(ps[i].1)
    ensures Text.Split(Render(ps), '&') == [""] + Items(ps)
  {
    var j := Text.Join(Items(ps), '&');
    RenderJoin(ps);
    ItemsPlain(ps);
    Text.SplitJoin(Items(ps), '&');
    assert ("&" + j)[1..] == j;
  }

  /** Parsing a rendered parameter list gives the list back. */
  lemma ParseRender(ps: seq<(string, string)>)
    requires forall i :: 0 <= i < |ps| ==> Plain(ps[i].0) && Plain(ps[i].1)
    ensures ParseQuery(Render(ps)) == ps
  {
    if ps != [] {
      var s := Render(ps);
      SplitRender(ps);
      assert s == ("&" + Item(ps[0])) + Render(ps[1..]);
      assert s != "";
      var r := ParseQuery(s);
      assert |r| == |ps|;
      forall i | 0 <= i < |ps|
        ensures r[i] == ps[i]
      {
        assert r[i] == ParseItem(Items(ps)[i]);
        ParseItemRoundTrip(ps[i]);
      }
    }
  }
}

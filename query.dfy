/** `k1=v1&k2=v2...` query strings: how the signed URLs lay out their parameters,
    and how a reader splits them apart again. */
module Query {
  import opened PyText

  datatype Param = Param(key: string, value: string)

  function Render(p: Param): string {
    p.key + "=" + p.value
  }

  /** "&".join(f"{k}={v}" for k, v in params). */
  function QueryString(ps: seq<Param>): string {
    if ps == [] then ""
    else if |ps| == 1 then Render(ps[0])
    else Render(ps[0]) + "&" + QueryString(ps[1..])
  }

  /** Appending one more parameter appends "&k=v". */
  lemma {:induction false} QueryStringSnoc(ps: seq<Param>, p: Param)
    requires ps != []
    ensures QueryString(ps + [p]) == QueryString(ps) + "&" + Render(p)
  {
    if |ps| == 1 {
      assert ps + [p] == [ps[0], p];
      assert [ps[0], p][1..] == [p];
    } else {
      QueryStringSnoc(ps[1..], p);
      assert (ps + [p])[1..] == ps[1..] + [p];
    }
  }

  /** The same for a query string that follows a prefix and a head. */
  lemma AppendParam(prefix: string, head: string, ps: seq<Param>, p: Param)
    requires ps != []
    ensures prefix + (head + QueryString(ps)) + ("&" + Render(p)) == prefix + head + QueryString(ps + [p])
  {
    QueryStringSnoc(ps, p);
  }

  /** The flat form the URL builders write: a prefix, the query, then
      "&key=" and the value. */
  lemma AppendParamFlat(prefix: string, ps: seq<Param>, key: string, v: string)
    requires ps != []
    ensures prefix + QueryString(ps) + ("&" + key + "=") + v == prefix + QueryString(ps + [Param(key, v)])
  {
    QueryStringSnoc(ps, Param(key, v));
  }

  predicate Lacks(s: string, c: char) {
    forall i :: 0 <= i < |s| ==> s[i] != c
  }

  /** `s.split(sep)` for a one-character separator. */
  function Split(s: string, sep: char): (r: seq<string>)
    ensures |r| >= 1
  {
    if s == [] then [""]
    else
      var rest := Split(s[1..], sep);
      if s[0] == sep then [""] + rest else [[s[0]] + rest[0]] + rest[1..]
  }

  lemma {:induction false} SplitLacking(s: string, sep: char)
    requires Lacks(s, sep)
    ensures Split(s, sep) == [s]
  {
    if s != [] {
      SplitLacking(s[1..], sep);
      assert [s[0]] + s[1..] == s;
    }
  }

  lemma {:induction false} SplitAfter(a: string, sep: char, b: string)
    requires Lacks(a, sep)
    ensures Split(a + [sep] + b, sep) == [a] + Split(b, sep)
  {
    if a == [] {
      assert a + [sep] + b == [sep] + b;
      assert ([sep] + b)[1..] == b;
    } else {
      SplitAfter(a[1..], sep, b);
      assert (a + [sep] + b)[1..] == a[1..] + [sep] + b;
      assert [a[0]] + a[1..] == a;
    }
  }

  /** `part.partition("=")` read as a parameter: the key runs to the first '='. */
  function SplitParam(part: string): Param {
    if part == [] then Param("", "")
    else if part[0] == '=' then Param("", part[1..])
    else
      var p := SplitParam(part[1..]);
      Param([part[0]] + p.key, p.value)
  }

  lemma {:induction false} SplitParamRender(p: Param)
    requires Lacks(p.key, '=')
    ensures SplitParam(Render(p)) == p
    decreases |p.key|
  {
    if p.key == [] {
      assert Render(p) == ['='] + p.value;
    } else {
      var q := Param(p.key[1..], p.value);
      SplitParamRender(q);
      assert Render(p)[1..] == Render(q);
      assert [p.key[0]] + p.key[1..] == p.key;
    }
  }

  /** A reader's view of a query string: split on '&', then on the first '='. */
  function ParseQuery(s: string): seq<Param> {
    var parts := Split(s, '&');
    seq(|parts|, i requires 0 <= i < |parts| => SplitParam(parts[i]))
  }

  /** Parameters whose keys hold neither '&' nor '=' and whose values hold no '&'. */
  predicate Separable(ps: seq<Param>) {
    forall i :: 0 <= i < |ps| ==> Lacks(ps[i].key, '&') && Lacks(ps[i].key, '=') && Lacks(ps[i].value, '&')
  }

  lemma SeparableSnoc(ps: seq<Param>, p: Param)
    requires Separable(ps) && Separable([p])
    ensures Separable(ps + [p])
  {
    assert forall i :: 0 <= i < |ps| ==> (ps + [p])[i] == ps[i];
    assert (ps + [p])[|ps|] == p == [p][0];
  }

  lemma RenderLacksAmp(p: Param)
    requires Lacks(p.key, '&') && Lacks(p.value, '&')
    ensures Lacks(Render(p), '&')
  {
    var r := Render(p);
    forall i | 0 <= i < |r| ensures r[i] != '&' {
      if i < |p.key| { assert r[i] == p.key[i]; }
      else if i > |p.key| { assert r[i] == p.value[i - |p.key| - 1]; }
    }
  }

  lemma {:induction false} SplitQueryString(ps: seq<Param>)
    requires ps != [] && Separable(ps)
    ensures Split(QueryString(ps), '&') == seq(|ps|, i requires 0 <= i < |ps| => Render(ps[i]))
  {
    RenderLacksAmp(ps[0]);
    if |ps| == 1 {
      SplitLacking(Render(ps[0]), '&');
    } else {
      SplitQueryString(ps[1..]);
      SplitAfter(Render(ps[0]), '&', QueryString(ps[1..]));
      assert Render(ps[0]) + "&" + QueryString(ps[1..]) == Render(ps[0]) + ['&'] + QueryString(ps[1..]);
    }
  }

  /** Splitting a rendered query string gives back exactly its parameters, in order. */
  lemma ParseQueryString(ps: seq<Param>)
    requires ps != [] && Separable(ps)
    ensures ParseQuery(QueryString(ps)) == ps
  {
    SplitQueryString(ps);
    var parts := Split(QueryString(ps), '&');
    forall i | 0 <= i < |ps| ensures SplitParam(parts[i]) == ps[i] {
      SplitParamRender(ps[i]);
    }
  }

  /** Python's `<` on str: code point by code point, a proper prefix first. */
  predicate LexLess(a: string, b: string) {
    if a == [] then b != []
    else if b == [] then false
    else a[0] < b[0] || (a[0] == b[0] && LexLess(a[1..], b[1..]))
  }

  /** Keys in strictly ascending order, as `sorted(params.items())` lays them out. */
  predicate KeysAscending(ps: seq<Param>) {
    forall i :: 0 <= i < |ps| - 1 ==> LexLess(ps[i].key, ps[i + 1].key)
  }

  function Keys(ps: seq<Param>): seq<string> {
    seq(|ps|, i requires 0 <= i < |ps| => ps[i].key)
  }

  /** A printed integer holds only a sign and digits, so no separator. */
  lemma NumeralLacks(i: int, c: char)
    requires c != '-' && !IsDigit(c)
    ensures Lacks(IntToString(i), c)
  {
    var s := IntToString(i);
    if i < 0 {
      var d := NatToString(-i);
      forall k | 0 <= k < |s| ensures s[k] != c {
        if k > 0 { assert s[k] == d[k - 1]; }
      }
    }
  }
}

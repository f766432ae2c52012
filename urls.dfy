/**
 * URLs with a query part, as both halves of the system manipulate them:
 * Go's `url.Values` (`query.Set`) on the backend, `URLSearchParams.set`
 * on the frontend.  A URL is its part before `?` and its query as a map
 * from parameter name to the values in order of appearance.
 *
 * Percent-encoding, `+` for space, fragments and parameter order are not
 * modelled: no property here depends on them.
 */
module Urls {
  import opened Wrappers

  datatype Url = Url(base: string, query: map<string, seq<string>>)

  /** `Values.Get` / `URLSearchParams.get`: the first value of a parameter. */
  function QueryGet(u: Url, key: string): Option<string> {
    if key in u.query && |u.query[key]| > 0 then Some(u.query[key][0]) else None
  }

  /** JavaScript truthiness of `searchParams.get(...)`: present and non-empty. */
  predicate Truthy(v: Option<string>) {
    v.Some? && v.value != ""
  }

  /** `Values.Set` / `URLSearchParams.set`: the parameter gets exactly one value; everything else is kept. */
  function SetParam(u: Url, key: string, value: string): (r: Url)
    ensures r.base == u.base
    ensures key in r.query && r.query[key] == [value] && QueryGet(r, key) == Some(value)
    ensures forall k :: k != key ==> (k in r.query <==> k in u.query)
    ensures forall k :: k != key && k in u.query ==> r.query[k] == u.query[k]
  {
    Url(u.base, u.query[key := [value]])
  }

  /** Position of the first `c` in `s`, or `|s|` when there is none. */
  function IndexOf(s: string, c: char): (i: nat)
    ensures i <= |s|
    ensures i < |s| ==> s[i] == c
    ensures forall j :: 0 <= j < i ==> s[j] != c
  {
    if s == [] then 0 else if s[0] == c then 0 else 1 + IndexOf(s[1..], c)
  }

  lemma {:induction false} IndexOfConcat(a: string, b: string, c: char)
    requires c !in a
    ensures IndexOf(a + b, c) == |a| + IndexOf(b, c)
  {
    if a != [] {
      assert (a + b)[1..] == a[1..] + b;
      IndexOfConcat(a[1..], b, c);
    } else {
      assert a + b == b;
    }
  }

  /** The pieces of `s` between the occurrences of `sep`. */
  function SplitOn(s: string, sep: char): (parts: seq<string>)
    ensures |parts| >= 1
    decreases |s|
  {
    var i := IndexOf(s, sep);
    if i == |s| then [s] else [s[..i]] + SplitOn(s[i + 1..], sep)
  }

  lemma SplitOnConcat(a: string, b: string, sep: char)
    requires sep !in a
    ensures SplitOn(a + [sep] + b, sep) == [a] + SplitOn(b, sep)
  {
    IndexOfConcat(a, [sep] + b, sep);
    assert a + [sep] + b == a + ([sep] + b);
    assert (a + [sep] + b)[..|a|] == a;
    assert (a + [sep] + b)[|a| + 1..] == b;
  }

  lemma SplitOnSingle(a: string, sep: char)
    requires sep !in a
    ensures SplitOn(a, sep) == [a]
  {
    IndexOfConcat(a, [], sep);
    assert a + [] == a;
  }

  /** Adds the `name=value` pieces of a query string to `m`, in order; a piece without `=` has value "". */
  function AddPairs(m: map<string, seq<string>>, pieces: seq<string>): map<string, seq<string>>
    decreases |pieces|
  {
    if pieces == [] then m
    else
      var p := pieces[0];
      var i := IndexOf(p, '=');
      var key := p[..i];
      var value := if i < |p| then p[i + 1..] else "";
      var m' := if p == "" then m else m[key := (if key in m then m[key] else []) + [value]];
      AddPairs(m', pieces[1..])
  }

  /** The query part after the first `?`, split at `&`. */
  function ParseUrl(s: string): Url {
    var i := IndexOf(s, '?');
    if i == |s| then Url(s, map[]) else Url(s[..i], AddPairs(map[], SplitOn(s[i + 1..], '&')))
  }

  /** A `name=value` piece whose name contains no `=` adds `value` under `name`. */
  lemma AddPairStep(m: map<string, seq<string>>, name: string, value: string, rest: seq<string>)
    requires '=' !in name
    ensures AddPairs(m, [name + "=" + value] + rest)
         == AddPairs(m[name := (if name in m then m[name] else []) + [value]], rest)
  {
    var p := name + "=" + value;
    IndexOfConcat(name, "=" + value, '=');
    assert p == name + ("=" + value);
    assert p[..|name|] == name;
    assert p[|name| + 1..] == value;
    assert ([p] + rest)[0] == p;
    assert ([p] + rest)[1..] == rest;
  }

  /** The parameter lists of name/value pairs appended in order (`URLSearchParams.append`, a form body). */
  function PairsToQuery(pairs: seq<(string, string)>): (m: map<string, seq<string>>)
    ensures forall k :: k in m <==> exists i :: 0 <= i < |pairs| && pairs[i].0 == k
    decreases |pairs|
  {
    if pairs == [] then map[]
    else
      var m := PairsToQuery(pairs[..|pairs| - 1]);
      var last := pairs[|pairs| - 1];
      m[last.0 := (if last.0 in m then m[last.0] else []) + [last.1]]
  }

  /** With distinct names, each name of a form gets exactly its one value. */
  lemma {:induction false} PairsToQueryDistinct(pairs: seq<(string, string)>)
    requires forall i, j :: 0 <= i < j < |pairs| ==> pairs[i].0 != pairs[j].0
    ensures forall i :: 0 <= i < |pairs| ==> pairs[i].0 in PairsToQuery(pairs) && PairsToQuery(pairs)[pairs[i].0] == [pairs[i].1]
    decreases |pairs|
  {
    if pairs != [] {
      var init := pairs[..|pairs| - 1];
      PairsToQueryDistinct(init);
      var last := pairs[|pairs| - 1];
      forall i | 0 <= i < |pairs|
        ensures pairs[i].0 in PairsToQuery(pairs) && PairsToQuery(pairs)[pairs[i].0] == [pairs[i].1]
      {
        if i < |pairs| - 1 {
          assert init[i] == pairs[i];
        }
      }
    }
  }
}

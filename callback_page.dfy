/**
 * The test client's redirect endpoint (`/oauth/test-client/callback`): it
 * forwards what the authorization server sent back to the test client page
 * by `router.push` of a template string.
 */
module CallbackPage {
  import opened Wrappers
  import opened Urls

  /** `${v}` of a `string | null`: `null` prints as the text "null". */
  function Interpolate(v: Option<string>): string {
    if v.Some? then v.value else "null"
  }

  const TestClientPath: string := "/oauth/test-client"

  /**
   * Where the page sends the browser, or `None`: an error wins over a code,
   * and the state is passed along as it came, or as "null" when it did not.
   * Nothing is URL-encoded.
   */
  function CallbackTarget(code: Option<string>, error: Option<string>, state: Option<string>): (r: Option<string>)
    ensures r.None? <==> !Truthy(error) && !Truthy(code)
    ensures Truthy(error) ==> r == Some(TestClientPath + "?error=" + error.value)
    ensures !Truthy(error) && Truthy(code) ==>
              r == Some(TestClientPath + "?code=" + code.value + "&state=" + Interpolate(state))
  {
    if Truthy(error) then Some(TestClientPath + "?error=" + error.value)
    else if Truthy(code) then Some(TestClientPath + "?code=" + code.value + "&state=" + Interpolate(state))
    else None
  }

  /** Splitting off the query of `path?q`. */
  lemma QueryOf(path: string, q: string)
    requires '?' !in path
    ensures ParseUrl(path + "?" + q) == Url(path, AddPairs(map[], SplitOn(q, '&')))
  {
    var s := path + "?" + q;
    assert s == path + ("?" + q);
    IndexOfConcat(path, "?" + q, '?');
    assert IndexOf("?" + q, '?') == 0 by {
      assert ("?" + q)[0] == '?';
    }
    assert s[..|path|] == path && s[|path| + 1..] == q;
  }

  /** `path?n=v` reads back as one parameter when `v` holds no `&`. */
  lemma OneParam(path: string, n: string, v: string)
    requires '?' !in path && '=' !in n && '&' !in n + "=" + v
    ensures ParseUrl(path + "?" + n + "=" + v) == Url(path, map[n := [v]])
  {
    var a := n + "=" + v;
    assert path + "?" + n + "=" + v == path + "?" + a;
    QueryOf(path, a);
    SplitOnSingle(a, '&');
    assert [a] == [a] + [];
    AddPairStep(map[], n, v, []);
    assert AddPairs(map[], [a]) == AddPairs(map[][n := [] + [v]], []);
    var empty: map<string, seq<string>> := map[];
    assert [] + [v] == [v];
    assert empty[n := [] + [v]] == map[n := [v]];
  }

  /** `path?n1=v1&n2=v2` reads back as two parameters when neither value holds an `&`. */
  lemma TwoParams(path: string, n1: string, v1: string, n2: string, v2: string)
    requires '?' !in path && '=' !in n1 && '=' !in n2 && n1 != n2
    requires '&' !in n1 + "=" + v1 && '&' !in n2 + "=" + v2
    ensures ParseUrl(path + "?" + n1 + "=" + v1 + "&" + n2 + "=" + v2) == Url(path, map[n1 := [v1], n2 := [v2]])
  {
    var a, b := n1 + "=" + v1, n2 + "=" + v2;
    var q := a + ['&'] + b;
    assert path + "?" + n1 + "=" + v1 + "&" + n2 + "=" + v2 == path + "?" + q;
    QueryOf(path, q);
    SplitTwo(a, b);
    AddTwo(n1, v1, n2, v2);
  }

  lemma SplitTwo(a: string, b: string)
    requires '&' !in a && '&' !in b
    ensures SplitOn(a + ['&'] + b, '&') == [a, b]
  {
    SplitOnConcat(a, b, '&');
    SplitOnSingle(b, '&');
  }

  lemma SplitThree(a: string, b: string, c: string)
    requires '&' !in a && '&' !in b && '&' !in c
    ensures SplitOn(a + ['&'] + (b + ['&'] + c), '&') == [a, b, c]
  {
    SplitOnConcat(a, b + ['&'] + c, '&');
    SplitTwo(b, c);
  }

  lemma AddTwo(n1: string, v1: string, n2: string, v2: string)
    requires '=' !in n1 && '=' !in n2 && n1 != n2
    ensures AddPairs(map[], [n1 + "=" + v1, n2 + "=" + v2]) == map[n1 := [v1], n2 := [v2]]
  {
    var a, b := n1 + "=" + v1, n2 + "=" + v2;
    var empty: map<string, seq<string>> := map[];
    var m1 := map[n1 := [v1]];
    assert AddPairs(empty, [a, b]) == AddPairs(m1, [b]) by {
      assert [a, b] == [a] + [b];
      AddPairStep(empty, n1, v1, [b]);
      assert [] + [v1] == [v1];
      assert empty[n1 := [] + [v1]] == m1;
    }
    assert AddPairs(m1, [b]) == map[n1 := [v1], n2 := [v2]] by {
      assert [b] == [b] + [];
      AddPairStep(m1, n2, v2, []);
      assert [] + [v2] == [v2];
      assert m1[n2 := [] + [v2]] == map[n1 := [v1], n2 := [v2]];
    }
  }

  /** `n1=v1&n2=v2&n2=v3`: the repeated name gets both values, in order. */
  lemma AddRepeated(n1: string, v1: string, n2: string, v2: string, v3: string)
    requires '=' !in n1 && '=' !in n2 && n1 != n2
    ensures AddPairs(map[], [n1 + "=" + v1, n2 + "=" + v2, n2 + "=" + v3]) == map[n1 := [v1], n2 := [v2, v3]]
  {
    var a, b, c := n1 + "=" + v1, n2 + "=" + v2, n2 + "=" + v3;
    var m2 := map[n1 := [v1], n2 := [v2]];
    assert [a, b, c] == [a, b] + [c];
    AddTwo(n1, v1, n2, v2);
    AddPairsPrefix(map[], [a, b], [c]);
    assert [c] == [c] + [];
    AddPairStep(m2, n2, v3, []);
    assert m2[n2] + [v3] == [v2, v3];
    assert m2[n2 := [v2, v3]] == map[n1 := [v1], n2 := [v2, v3]];
  }

  /** Adding two runs of pieces is adding the first, then the second. */
  lemma {:induction false} AddPairsPrefix(m: map<string, seq<string>>, p: seq<string>, rest: seq<string>)
    ensures AddPairs(m, p + rest) == AddPairs(AddPairs(m, p), rest)
    decreases |p|
  {
    if p == [] {
      assert p + rest == rest;
    } else {
      assert (p + rest)[0] == p[0] && (p + rest)[1..] == p[1..] + rest;
      var piece := p[0];
      var i := IndexOf(piece, '=');
      var key := piece[..i];
      var value := if i < |piece| then piece[i + 1..] else "";
      var m' := if piece == "" then m else m[key := (if key in m then m[key] else []) + [value]];
      AddPairsPrefix(m', p[1..], rest);
    }
  }

  /** `path?n1=v1&n2=v2&n2=v3` reads back with both values of `n2`, in order. */
  lemma RepeatedParam(path: string, n1: string, v1: string, n2: string, v2: string, v3: string)
    requires '?' !in path && '=' !in n1 && '=' !in n2 && n1 != n2
    requires '&' !in n1 + "=" + v1 && '&' !in n2 + "=" + v2 && '&' !in n2 + "=" + v3
    ensures ParseUrl(path + "?" + n1 + "=" + v1 + "&" + n2 + "=" + v2 + "&" + n2 + "=" + v3)
         == Url(path, map[n1 := [v1], n2 := [v2, v3]])
  {
    var a, b, c := n1 + "=" + v1, n2 + "=" + v2, n2 + "=" + v3;
    var q := a + ['&'] + (b + ['&'] + c);
    assert path + "?" + n1 + "=" + v1 + "&" + n2 + "=" + v2 + "&" + n2 + "=" + v3 == path + "?" + q;
    QueryOf(path, q);
    SplitThree(a, b, c);
    AddRepeated(n1, v1, n2, v2, v3);
  }

  /** An error reaches the test client as its only parameter, when it holds no `&`. */
  lemma ErrorTargetReadsBack(code: Option<string>, error: Option<string>, state: Option<string>)
    requires Truthy(error) && '&' !in error.value
    ensures ParseUrl(CallbackTarget(code, error, state).value) == Url(TestClientPath, map["error" := [error.value]])
  {
    assert '?' !in TestClientPath;
    assert '&' !in "error" + "=" + error.value;
    assert CallbackTarget(code, error, state).value == TestClientPath + "?" + "error" + "=" + error.value;
    OneParam(TestClientPath, "error", error.value);
  }

  /**
   * A code reaches the test client with the state beside it, "null" when
   * none came back, as long as neither holds an `&`.
   */
  lemma CodeTargetReadsBack(code: Option<string>, error: Option<string>, state: Option<string>)
    requires !Truthy(error) && Truthy(code)
    requires '&' !in code.value && '&' !in Interpolate(state)
    ensures ParseUrl(CallbackTarget(code, error, state).value)
         == Url(TestClientPath, map["code" := [code.value], "state" := [Interpolate(state)]])
  {
    assert '?' !in TestClientPath;
    assert '&' !in "code" + "=" + code.value && '&' !in "state" + "=" + Interpolate(state);
    assert CallbackTarget(code, error, state).value
        == TestClientPath + "?" + "code" + "=" + code.value + "&" + "state" + "=" + Interpolate(state);
    TwoParams(TestClientPath, "code", code.value, "state", Interpolate(state));
  }

  /**
   * Because the code is not encoded, a code `x&state=f` makes the test
   * client see the code `x` and, first, a state `f` the authorization server
   * never sent.
   */
  lemma UnencodedCodeForgesState(x: string, f: string, st: string)
    requires x != "" && '&' !in x && '&' !in f && '&' !in st
    ensures var target := CallbackTarget(Some(x + "&state=" + f), None, Some(st)).value;
      ParseUrl(target) == Url(TestClientPath, map["code" := [x], "state" := [f, st]])
      && QueryGet(ParseUrl(target), "state") == Some(f)
  {
    var target := CallbackTarget(Some(x + "&state=" + f), None, Some(st)).value;
    assert target == TestClientPath + "?" + "code" + "=" + x + "&" + "state" + "=" + f + "&" + "state" + "=" + st;
    assert '?' !in TestClientPath;
    RepeatedParam(TestClientPath, "code", x, "state", f, st);
  }
}

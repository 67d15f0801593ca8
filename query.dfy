/**
 * The query string of `ApiService.get`: every parameter, in `Object.keys`
 * order, whose value is neither `undefined` nor `null` is appended to the URL's
 * search parameters as `String(value)`; the others are skipped.
 */
module Query {
  import opened Js

  /** The search parameters appended for `params` (defined from the last entry backwards). */
  function QueryOf(params: seq<(string, JsValue)>): seq<(string, string)>
  {
    if params == [] then []
    else
      var last := params[|params| - 1];
      QueryOf(params[..|params| - 1]) + (if Defined(last.1) then [(last.0, ToStr(last.1))] else [])
  }

  /** The `forEach` loop of `get`, appending one search parameter at a time. */
  method BuildQuery(params: seq<(string, JsValue)>) returns (query: seq<(string, string)>)
    ensures query == QueryOf(params)
  {
    query := [];
    var i := 0;
    while i < |params|
      invariant 0 <= i <= |params|
      invariant query == QueryOf(params[..i])
    {
      var (key, value) := params[i];
      assert params[..i + 1][..i] == params[..i];
      if Defined(value) {
        query := query + [(key, ToStr(value))];
      }
      i := i + 1;
    }
    assert params[..i] == params;
  }

  /** Appending parameters appends their search parameters: the order of `params` is kept. */
  lemma {:induction false} QueryOfAppend(a: seq<(string, JsValue)>, b: seq<(string, JsValue)>)
    ensures QueryOf(a + b) == QueryOf(a) + QueryOf(b)
    decreases |b|
  {
    if b == [] {
      assert a + b == a;
    } else {
      var b' := b[..|b| - 1];
      assert (a + b)[..|a + b| - 1] == a + b';
      QueryOfAppend(a, b');
    }
  }

  /** A pair is appended iff some parameter with that key holds a defined value rendering to it. */
  lemma {:induction false} QueryOfMembers(params: seq<(string, JsValue)>, key: string, text: string)
    ensures (key, text) in QueryOf(params) <==>
      exists i :: 0 <= i < |params| && params[i].0 == key && Defined(params[i].1) && ToStr(params[i].1) == text
  {
    if params != [] {
      var init := params[..|params| - 1];
      QueryOfMembers(init, key, text);
      if (key, text) in QueryOf(params) && (key, text) !in QueryOf(init) {
        var n := |params| - 1;
        assert params[n].0 == key && Defined(params[n].1) && ToStr(params[n].1) == text;
      }
      if exists i :: 0 <= i < |params| && params[i].0 == key && Defined(params[i].1) && ToStr(params[i].1) == text {
        var i :| 0 <= i < |params| && params[i].0 == key && Defined(params[i].1) && ToStr(params[i].1) == text;
        if i < |params| - 1 {
          assert init[i] == params[i];
        }
      }
    }
  }

  /** No parameter defined: the URL is left without a query. Every parameter defined: one pair each, in order. */
  lemma {:induction false} QueryOfExtremes(params: seq<(string, JsValue)>)
    ensures (forall i :: 0 <= i < |params| ==> !Defined(params[i].1)) ==> QueryOf(params) == []
    ensures (forall i :: 0 <= i < |params| ==> Defined(params[i].1)) ==>
      |QueryOf(params)| == |params| &&
      forall i :: 0 <= i < |params| ==> QueryOf(params)[i] == (params[i].0, ToStr(params[i].1))
  {
    if params != [] {
      var init := params[..|params| - 1];
      assert forall i :: 0 <= i < |init| ==> init[i] == params[i];
      QueryOfExtremes(init);
    }
  }
}

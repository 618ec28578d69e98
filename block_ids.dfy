/** Exit-id lists of a scenario block and their resolution to blocks
    (lib/scenario_block.js: `block_ids_when_true`, `block_ids_when_false`,
    and the lookup loops of `getEntranceBlocks` and `getNextBlocks`). */
module BlockIds {

  import opened Js

  /** The entries of `s` that are truthy, in their original order. */
  function TruthyOnly(s: seq<JsValue>): (r: seq<JsValue>)
    ensures |r| <= |s|
    ensures forall i :: 0 <= i < |r| ==> Truthy(r[i])
    decreases |s|
  {
    if s == [] then []
    else
      var n := |s| - 1;
      TruthyOnly(s[..n]) + if Truthy(s[n]) then [s[n]] else []
  }

  /** An entry is kept exactly when it is in the list and truthy. */
  lemma {:induction false} TruthyOnlyMembers(s: seq<JsValue>, x: JsValue)
    ensures x in TruthyOnly(s) <==> x in s && Truthy(x)
    decreases |s|
  {
    if s != [] {
      var n := |s| - 1;
      assert s == s[..n] + [s[n]];
      TruthyOnlyMembers(s[..n], x);
    }
  }

  /** Filtering commutes with concatenation, so the kept ids stay in list order. */
  lemma {:induction false} TruthyOnlyAppend(a: seq<JsValue>, b: seq<JsValue>)
    ensures TruthyOnly(a + b) == TruthyOnly(a) + TruthyOnly(b)
    decreases |b|
  {
    if b == [] {
      assert a + b == a;
    } else {
      var n := |b| - 1;
      assert a + b == (a + b[..n]) + [b[n]];
      assert (a + b)[..|a + b| - 1] == a + b[..n];
      TruthyOnlyAppend(a, b[..n]);
    }
  }

  /** A list without falsy entries is kept as it is; in particular filtering twice
      is filtering once. */
  lemma {:induction false} TruthyOnlyOfTruthy(s: seq<JsValue>)
    requires forall i :: 0 <= i < |s| ==> Truthy(s[i])
    ensures TruthyOnly(s) == s
    decreases |s|
  {
    if s != [] {
      var n := |s| - 1;
      TruthyOnlyOfTruthy(s[..n]);
      assert s == s[..n] + [s[n]];
    }
  }

  /** The loop body shared by `block_ids_when_true` and `block_ids_when_false`. */
  method CollectTruthy(list: Option<seq<JsValue>>) returns (r: seq<JsValue>)
    ensures list.None? ==> r == []
    ensures list.Some? ==> r == TruthyOnly(list.value)
  {
    r := [];
    if list.Some? && |list.value| > 0 {
      var ids := list.value;
      var i := 0;
      while i < |ids|
        invariant 0 <= i <= |ids|
        invariant r == TruthyOnly(ids[..i])
      {
        assert ids[..i + 1] == ids[..i] + [ids[i]];
        if Truthy(ids[i]) {
          r := r + [ids[i]];
        }
        i := i + 1;
      }
      assert ids[..|ids|] == ids;
    }
  }

  /** The object keys an id list looks up: `scenario_blocks[id]` uses `String(id)`. */
  function PropertyKeys(ids: seq<JsValue>): (r: seq<string>)
    ensures |r| == |ids|
    ensures forall i :: 0 <= i < |ids| ==> r[i] == ToString(ids[i])
  {
    seq(|ids|, i requires 0 <= i < |ids| => ToString(ids[i]))
  }

  /** The entries of `m` named by `keys`, in key order, skipping keys `m` lacks. */
  function Resolve<T>(keys: seq<string>, m: map<string, T>): (r: seq<T>)
    ensures |r| <= |keys|
    decreases |keys|
  {
    if keys == [] then []
    else
      var n := |keys| - 1;
      Resolve(keys[..n], m) + if keys[n] in m then [m[keys[n]]] else []
  }

  /** Resolution distributes over concatenation: results come out in id order. */
  lemma {:induction false} ResolveAppend<T>(a: seq<string>, b: seq<string>, m: map<string, T>)
    ensures Resolve(a + b, m) == Resolve(a, m) + Resolve(b, m)
    decreases |b|
  {
    if b == [] {
      assert a + b == a;
    } else {
      var n := |b| - 1;
      assert (a + b)[..|a + b| - 1] == a + b[..n];
      assert (a + b)[|a + b| - 1] == b[n];
      ResolveAppend(a, b[..n], m);
    }
  }

  /** What resolution yields: exactly the live entries named by some key. */
  lemma {:induction false} ResolveMembers<T>(keys: seq<string>, m: map<string, T>, x: T)
    ensures x in Resolve(keys, m) <==> exists k :: k in keys && k in m && m[k] == x
    decreases |keys|
  {
    if keys != [] {
      var n := |keys| - 1;
      ResolveMembers(keys[..n], m, x);
      assert keys == keys[..n] + [keys[n]];
      if x in Resolve(keys, m) && x !in Resolve(keys[..n], m) {
        assert keys[n] in keys && keys[n] in m && m[keys[n]] == x;
      }
      if exists k :: k in keys && k in m && m[k] == x {
        var k :| k in keys && k in m && m[k] == x;
        if k !in keys[..n] {
          assert k == keys[n];
        }
      }
    }
  }

  /** Dangling ids resolve to nothing rather than to an error. */
  lemma {:induction false} ResolveDangling<T>(keys: seq<string>, m: map<string, T>)
    requires forall i :: 0 <= i < |keys| ==> keys[i] !in m
    ensures Resolve(keys, m) == []
    decreases |keys|
  {
    if keys != [] {
      ResolveDangling(keys[..|keys| - 1], m);
    }
  }

  /** When every key is live, nothing is dropped. */
  lemma {:induction false} ResolveAllLive<T>(keys: seq<string>, m: map<string, T>)
    requires forall i :: 0 <= i < |keys| ==> keys[i] in m
    ensures |Resolve(keys, m)| == |keys|
    ensures forall i :: 0 <= i < |keys| ==> Resolve(keys, m)[i] == m[keys[i]]
    decreases |keys|
  {
    if keys != [] {
      ResolveAllLive(keys[..|keys| - 1], m);
    }
  }

  /** The lookup loop of `getEntranceBlocks` and `getNextBlocks`. */
  method ResolveKeys<T>(keys: seq<string>, m: map<string, T>) returns (r: seq<T>)
    ensures r == Resolve(keys, m)
  {
    r := [];
    var i := 0;
    while i < |keys|
      invariant 0 <= i <= |keys|
      invariant r == Resolve(keys[..i], m)
    {
      assert keys[..i + 1][..i] == keys[..i];
      if keys[i] in m {
        r := r + [m[keys[i]]];
      }
      i := i + 1;
    }
    assert keys[..|keys|] == keys;
  }
}

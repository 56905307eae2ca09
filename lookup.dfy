/**
 * Dictionary and key-order helpers the source gets from JavaScript objects and
 * Maps: building a dictionary where a later entry overwrites an earlier one
 * with the same key, and listing integer keys in ascending order (the order
 * `Object.keys` gives integer-like property names, and the order that
 * `Array.from(keys).sort((a, b) => a - b)` produces).
 */
module Lookup {

  /** The dictionary obtained by setting `key(x) := val(x)` for each `x` of `xs` in turn. */
  function LastWins<T, V>(xs: seq<T>, key: T -> int, val: T -> V): map<int, V>
  {
    if xs == [] then map[]
    else LastWins(xs[..|xs| - 1], key, val)[key(xs[|xs| - 1]) := val(xs[|xs| - 1])]
  }

  /** `i` is the last position of `xs` carrying its key. */
  ghost predicate LastWithKey<T>(xs: seq<T>, key: T -> int, i: int)
  {
    0 <= i < |xs| && forall j :: i < j < |xs| ==> key(xs[j]) != key(xs[i])
  }

  /**
   * Every key of the input is present and nothing else is; the value stored
   * under a key comes from the last element carrying it.
   */
  lemma {:induction false} LastWinsSpec<T, V>(xs: seq<T>, key: T -> int, val: T -> V)
    ensures forall k :: k in LastWins(xs, key, val) <==> exists i :: 0 <= i < |xs| && key(xs[i]) == k
    ensures forall i :: LastWithKey(xs, key, i) ==> LastWins(xs, key, val)[key(xs[i])] == val(xs[i])
  {
    if xs != [] {
      var init := xs[..|xs| - 1];
      LastWinsSpec(init, key, val);
      forall i | LastWithKey(xs, key, i) ensures LastWins(xs, key, val)[key(xs[i])] == val(xs[i]) {
        if i < |xs| - 1 {
          assert LastWithKey(init, key, i);
          assert init[i] == xs[i];
        }
      }
      forall k | k in LastWins(xs, key, val) ensures exists i :: 0 <= i < |xs| && key(xs[i]) == k {
        if k != key(xs[|xs| - 1]) {
          var i :| 0 <= i < |init| && key(init[i]) == k;
          assert key(xs[i]) == k;
        }
      }
      forall k | (exists i :: 0 <= i < |xs| && key(xs[i]) == k) ensures k in LastWins(xs, key, val) {
        var i :| 0 <= i < |xs| && key(xs[i]) == k;
        if i < |xs| - 1 {
          assert key(init[i]) == k;
        }
      }
    }
  }

  lemma {:induction false} MinimumExists(s: set<int>)
    requires s != {}
    ensures exists m :: m in s && forall j :: j in s ==> m <= j
  {
    if forall y :: y !in s {
      assert false;
    }
    var x :| x in s;
    if s != {x} {
      MinimumExists(s - {x});
      var m :| m in s - {x} && forall j :: j in s - {x} ==> m <= j;
      var least := if x < m then x else m;
      forall j | j in s ensures least <= j {
        if j != x {
          assert j in s - {x};
        }
      }
    }
  }

  ghost predicate StrictlyAscending(s: seq<int>)
  {
    forall i, j :: 0 <= i < j < |s| ==> s[i] < s[j]
  }

  /** The keys of `m` in ascending order. */
  method AscendingKeys<V>(m: map<int, V>) returns (keys: seq<int>)
    ensures forall k :: k in m <==> k in keys
    ensures |keys| == |m|
    ensures StrictlyAscending(keys)
  {
    var rest := m.Keys;
    keys := [];
    while rest != {}
      invariant rest <= m.Keys
      invariant forall k :: k in m <==> k in keys || k in rest
      invariant forall k :: k in keys ==> k !in rest
      invariant forall i, k :: 0 <= i < |keys| && k in rest ==> keys[i] < k
      invariant StrictlyAscending(keys)
      invariant |keys| + |rest| == |m.Keys|
      decreases |rest|
    {
      MinimumExists(rest);
      var k :| k in rest && forall j :: j in rest ==> k <= j;
      keys := keys + [k];
      rest := rest - {k};
    }
    assert |m.Keys| == |m|;
  }

  /** The distinct values of `xs` in ascending order. */
  method DistinctAscending(xs: seq<int>) returns (r: seq<int>)
    ensures forall v :: v in r <==> v in xs
    ensures StrictlyAscending(r)
  {
    var seen: map<int, bool> := map[];
    var i := 0;
    while i < |xs|
      invariant 0 <= i <= |xs|
      invariant forall v :: v in seen <==> v in xs[..i]
    {
      seen := seen[xs[i] := true];
      i := i + 1;
    }
    assert xs[..i] == xs;
    r := AscendingKeys(seen);
  }
}

/** The ordered merge of several maps in which the last map holding a key wins. */
module Merger {

  /** The merge of `maps`, taken in order: each map overrides the keys it
      holds in the merge of those before it. */
  function LastWins<K, V>(maps: seq<map<K, V>>): map<K, V>
  {
    if maps == [] then map[] else LastWins(maps[..|maps| - 1]) + maps[|maps| - 1]
  }

  /** The merged keys are those held by at least one of the maps. */
  lemma {:induction false} LastWinsKeys<K, V>(maps: seq<map<K, V>>, k: K)
    ensures k in LastWins(maps) <==> exists i :: 0 <= i < |maps| && k in maps[i]
  {
    if maps != [] {
      var init := maps[..|maps| - 1];
      LastWinsKeys(init, k);
      assert forall i :: 0 <= i < |init| ==> init[i] == maps[i];
    }
  }

  /** A key's merged value is its value in the last map that holds it. */
  lemma {:induction false} LastWinsValue<K, V>(maps: seq<map<K, V>>, i: nat, k: K)
    requires i < |maps| && k in maps[i]
    requires forall j :: i < j < |maps| ==> k !in maps[j]
    ensures k in LastWins(maps) && LastWins(maps)[k] == maps[i][k]
  {
    if i < |maps| - 1 {
      var init := maps[..|maps| - 1];
      assert init[i] == maps[i];
      assert forall j :: i < j < |init| ==> init[j] == maps[j];
      LastWinsValue(init, i, k);
    }
  }

  /** Merging one map gives that map. */
  lemma LastWinsSingle<K, V>(m: map<K, V>)
    ensures LastWins([m]) == m
  {
    assert [m][..0] == [];
  }

  /** `Map`: inserts every entry of every map, in order, into a fresh map. */
  method Map<K, V>(maps: seq<map<K, V>>) returns (merged: map<K, V>)
    ensures merged == LastWins(maps)
    ensures maps == [] ==> merged == map[]
  {
    merged := map[];
    for n := 0 to |maps|
      invariant merged == LastWins(maps[..n])
    {
      var current := maps[n];
      var pending := current.Keys;
      while pending != {}
        invariant pending <= current.Keys
        invariant merged == LastWins(maps[..n]) + map k | k in current.Keys - pending :: current[k]
        decreases pending
      {
        var key :| key in pending;
        merged := merged[key := current[key]];
        pending := pending - {key};
      }
      assert maps[..n + 1][..n] == maps[..n];
      assert (map k | k in current.Keys - pending :: current[k]) == current;
    }
    assert maps[..|maps|] == maps;
  }
}

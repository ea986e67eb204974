/** `Object.fromEntries`: building a keyed object from a list of pairs. */
module Entries {

  /** Entry i is the last one in the list with its key. */
  ghost predicate IsLast<K, V>(entries: seq<(K, V)>, i: int) {
    0 <= i < |entries| && forall j :: i < j < |entries| ==> entries[j].0 != entries[i].0
  }

  /** The object built from `entries`, a later pair overwriting an earlier one with the same key. */
  function FromEntries<K, V>(entries: seq<(K, V)>): map<K, V>
    decreases |entries|
  {
    if entries == [] then map[]
    else FromEntries(entries[..|entries| - 1])[entries[|entries| - 1].0 := entries[|entries| - 1].1]
  }

  /** The object has exactly the keys of the pairs. */
  lemma {:induction false} KeyOfEntries<K, V>(entries: seq<(K, V)>, k: K)
    ensures k in FromEntries(entries) <==> exists i :: 0 <= i < |entries| && entries[i].0 == k
    decreases |entries|
  {
    if entries != [] {
      var n := |entries| - 1;
      var init := entries[..n];
      KeyOfEntries(init, k);
      if k != entries[n].0 && (exists i :: 0 <= i < |entries| && entries[i].0 == k) {
        var i :| 0 <= i < |entries| && entries[i].0 == k;
        assert init[i].0 == k;
      }
    }
  }

  /** The value under a key is the one of the last pair with that key. */
  lemma {:induction false} LastEntryWins<K, V>(entries: seq<(K, V)>, i: int)
    requires IsLast(entries, i)
    ensures entries[i].0 in FromEntries(entries) && FromEntries(entries)[entries[i].0] == entries[i].1
    decreases |entries|
  {
    var n := |entries| - 1;
    if i < n {
      var init := entries[..n];
      assert IsLast(init, i);
      LastEntryWins(init, i);
    }
  }

  /** Every key of the object comes from a last pair with that key. */
  lemma {:induction false} EntryOfKey<K, V>(entries: seq<(K, V)>, k: K)
    requires k in FromEntries(entries)
    ensures exists i :: IsLast(entries, i) && entries[i].0 == k
    decreases |entries|
  {
    var n := |entries| - 1;
    if k == entries[n].0 {
      assert IsLast(entries, n);
    } else {
      var init := entries[..n];
      EntryOfKey(init, k);
      var i :| IsLast(init, i) && init[i].0 == k;
      assert IsLast(entries, i);
    }
  }
}

/**
 * Python dictionaries filled by assignment in order: `d[k] = v` for each
 * item that gives an entry, so that a later entry overwrites an earlier one
 * with the same key. Both the settings loader and the table-header
 * normalisation build their dictionaries this way.
 */
module Dict {
  import opened Wrappers

  /**
   * The dictionary filled by going through the items in order and, for each
   * item x for which entry(x) is `Some((k, v))`, assigning `d[k] = v`.
   */
  function Assign<T, K, V>(items: seq<T>, entry: T -> Option<(K, V)>): map<K, V>
  {
    if items == [] then map[]
    else
      var earlier := Assign(items[..|items| - 1], entry);
      match entry(items[|items| - 1])
      case None => earlier
      case Some((k, v)) => earlier[k := v]
  }

  /** One more item updates the dictionary by its own entry alone. */
  lemma AssignSnoc<T, K, V>(items: seq<T>, entry: T -> Option<(K, V)>, x: T)
    ensures Assign(items + [x], entry) ==
      match entry(x)
      case None => Assign(items, entry)
      case Some((k, v)) => Assign(items, entry)[k := v]
  {
    assert (items + [x])[..|items|] == items;
  }

  /** A key is present exactly when some item's entry assigns it; items without an entry assign nothing. */
  lemma {:induction false} AssignKeys<T, K, V>(items: seq<T>, entry: T -> Option<(K, V)>, k: K)
    ensures k in Assign(items, entry) <==>
      exists i :: 0 <= i < |items| && entry(items[i]).Some? && entry(items[i]).value.0 == k
  {
    if items != [] {
      var n := |items| - 1;
      var init := items[..n];
      AssignKeys(init, entry, k);
      assert forall i :: 0 <= i < n ==> init[i] == items[i];
    }
  }

  /** A relation every entry's key and value stand in holds between every key of the dictionary and its value. */
  lemma {:induction false} AssignAll<T, K, V>(items: seq<T>, entry: T -> Option<(K, V)>, p: (K, V) -> bool)
    requires forall x :: entry(x).Some? ==> p(entry(x).value.0, entry(x).value.1)
    ensures forall k :: k in Assign(items, entry) ==> p(k, Assign(items, entry)[k])
  {
    if items != [] {
      AssignAll(items[..|items| - 1], entry, p);
    }
  }

  /**
   * The value of a key is the one given by the last item that assigns it:
   * a later entry overwrites every earlier one with the same key.
   */
  lemma {:induction false} AssignLastWins<T, K, V>(items: seq<T>, entry: T -> Option<(K, V)>, k: K, i: nat)
    requires i < |items| && entry(items[i]).Some? && entry(items[i]).value.0 == k
    requires forall j :: i < j < |items| ==> entry(items[j]).None? || entry(items[j]).value.0 != k
    ensures k in Assign(items, entry) && Assign(items, entry)[k] == entry(items[i]).value.1
  {
    var n := |items| - 1;
    if i < n {
      var init := items[..n];
      assert init[i] == items[i];
      assert forall j :: i < j < n ==> init[j] == items[j];
      AssignLastWins(init, entry, k, i);
    }
  }
}

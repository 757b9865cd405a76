/**
 List discovery (`_lists`): every array embedded in a nested structure, found
 depth-first in key order. Objects are searched, an array is taken whole (its
 elements are not searched), scalars contribute nothing.
 */
module ListDiscovery {
  import opened Wrappers
  import opened JsonData

  function Lists(blob: Json): seq<seq<Json>>
  {
    match blob
    case Arr(items) => [items]
    case Obj(entries) => EntryLists(entries)
    case _ => []
  }

  /** The lists found under the values of `entries`, entry by entry. */
  function EntryLists(entries: seq<Entry>): seq<seq<Json>>
  {
    if entries == [] then [] else Lists(entries[0].value) + EntryLists(entries[1..])
  }

  /** The value reached from `blob` by following entry indices through nested
      objects; arrays are not entered. */
  function Descend(blob: Json, path: seq<nat>): Option<Json>
  {
    if path == [] then Some(blob)
    else match blob
      case Obj(entries) =>
        if path[0] < |entries| then Descend(entries[path[0]].value, path[1..]) else None
      case _ => None
  }

  /** Key order: the lists under earlier entries come before those under later ones. */
  lemma {:induction false} EntryListsAppend(a: seq<Entry>, b: seq<Entry>)
    ensures EntryLists(a + b) == EntryLists(a) + EntryLists(b)
  {
    if a == [] {
      assert a + b == b;
    } else {
      assert (a + b)[1..] == a[1..] + b;
      EntryListsAppend(a[1..], b);
    }
  }

  /** Every array reachable through objects is discovered. */
  lemma {:induction false} ReachableIsDiscovered(blob: Json, path: seq<nat>, items: seq<Json>)
    requires Descend(blob, path) == Some(Arr(items))
    ensures items in Lists(blob)
    decreases path
  {
    if path != [] {
      var entries := blob.entries;
      ReachableIsDiscovered(entries[path[0]].value, path[1..], items);
      EntryListsHas(entries, path[0], items);
    }
  }

  lemma {:induction false} EntryListsHas(entries: seq<Entry>, k: nat, items: seq<Json>)
    requires k < |entries| && items in Lists(entries[k].value)
    ensures items in EntryLists(entries)
    decreases k
  {
    if k > 0 {
      EntryListsHas(entries[1..], k - 1, items);
    }
  }

  /** Every discovered list is an array reachable through objects. */
  lemma {:induction false} DiscoveredIsReachable(blob: Json, items: seq<Json>)
    requires items in Lists(blob)
    ensures exists path :: Descend(blob, path) == Some(Arr(items))
    decreases blob, 1
  {
    match blob
    case Arr(xs) =>
      assert Descend(blob, []) == Some(Arr(items));
    case Obj(entries) =>
      var k, path := EntryListsWitness(entries, items);
      assert Descend(blob, [k] + path) == Descend(entries[k].value, path);
  }

  lemma {:induction false} EntryListsWitness(entries: seq<Entry>, items: seq<Json>)
    returns (k: nat, path: seq<nat>)
    requires items in EntryLists(entries)
    ensures k < |entries| && Descend(entries[k].value, path) == Some(Arr(items))
    decreases entries, 0
  {
    assert entries != [];
    if items in Lists(entries[0].value) {
      DiscoveredIsReachable(entries[0].value, items);
      k := 0;
      path :| Descend(entries[0].value, path) == Some(Arr(items));
    } else {
      var k', path' := EntryListsWitness(entries[1..], items);
      k, path := k' + 1, path';
    }
  }

  /** The discovered lists are exactly the arrays reachable through objects. */
  lemma DiscoveredIffReachable(blob: Json, items: seq<Json>)
    ensures items in Lists(blob) <==> exists path :: Descend(blob, path) == Some(Arr(items))
  {
    if items in Lists(blob) {
      DiscoveredIsReachable(blob, items);
    }
    if exists path :: Descend(blob, path) == Some(Arr(items)) {
      var path :| Descend(blob, path) == Some(Arr(items));
      ReachableIsDiscovered(blob, path, items);
    }
  }
}

/**
 The records of one source: every discovered list of records is merged index
 by index into one table, later lists overwriting earlier ones on a shared key.
 A field "exists" in a source when the first merged record has it.
 */
module SourceTable {
  import opened JsonData
  import opened ListDiscovery

  /** A list of records: non-empty, every element an object, and no element
      has a key that the first element lacks. */
  predicate IsDatapoints(l: seq<Json>)
  {
    && |l| > 0
    && (forall i :: 0 <= i < |l| ==> l[i].Obj?)
    && forall i :: 0 <= i < |l| ==> ToRecord(l[i].entries).Keys <= ToRecord(l[0].entries).Keys
  }

  /** The records of a list of objects. */
  function Rows(l: seq<Json>): (rows: seq<Record>)
    requires forall i :: 0 <= i < |l| ==> l[i].Obj?
    ensures |rows| == |l|
  {
    seq(|l|, i requires 0 <= i < |l| => ToRecord(l[i].entries))
  }

  /** The record lists among the discovered lists, in discovery order. */
  function RecordLists(lists: seq<seq<Json>>): seq<seq<Record>>
  {
    if lists == [] then []
    else if IsDatapoints(lists[0]) then [Rows(lists[0])] + RecordLists(lists[1..])
    else RecordLists(lists[1..])
  }

  /** The record lists are the rows of exactly those discovered lists that are
      lists of records. */
  lemma {:induction false} RecordListsOf(lists: seq<seq<Json>>, rows: seq<Record>)
    ensures rows in RecordLists(lists) <==> exists l :: l in lists && IsDatapoints(l) && rows == Rows(l)
  {
    if lists != [] {
      RecordListsOf(lists[1..], rows);
      if exists l :: l in lists && IsDatapoints(l) && rows == Rows(l) {
        var l :| l in lists && IsDatapoints(l) && rows == Rows(l);
        if l != lists[0] {
          assert l in lists[1..];
        }
      }
    }
  }

  function Max(a: nat, b: nat): nat
  {
    if a < b then b else a
  }

  function RowAt(rows: seq<Record>, i: nat): Record
  {
    if i < |rows| then rows[i] else map[]
  }

  /** One pass of the merge: row `i` of `rows` updates row `i` of the table,
      and the table grows to the longer length. */
  function MergeRows(table: seq<Record>, rows: seq<Record>): seq<Record>
  {
    var n := Max(|table|, |rows|);
    seq(n, i requires 0 <= i < n => RowAt(table, i) + RowAt(rows, i))
  }

  /** The table built from `lists`, merged first to last. */
  function MergeAll(lists: seq<seq<Record>>): seq<Record>
  {
    if lists == [] then [] else MergeRows(MergeAll(lists[..|lists| - 1]), lists[|lists| - 1])
  }

  /** The merged table of a source's content. */
  function Datapoints(content: Json): seq<Record>
  {
    MergeAll(RecordLists(Lists(content)))
  }

  /** `k` is set at index `i` of list `t`. */
  predicate HasAt(lists: seq<seq<Record>>, t: nat, i: nat, k: string)
    requires t < |lists|
  {
    i < |lists[t]| && k in lists[t][i]
  }

  /** No list after `t` sets `k` at index `i`. */
  predicate LastWith(lists: seq<seq<Record>>, t: nat, i: nat, k: string)
    requires t < |lists|
  {
    forall u :: t < u < |lists| ==> !HasAt(lists, u, i, k)
  }

  /** The merged table is as long as the longest list. */
  lemma {:induction false} MergeAllLength(lists: seq<seq<Record>>)
    ensures forall t :: 0 <= t < |lists| ==> |lists[t]| <= |MergeAll(lists)|
    ensures |MergeAll(lists)| > 0 ==> exists t :: 0 <= t < |lists| && |lists[t]| == |MergeAll(lists)|
  {
    if lists != [] {
      var init := lists[..|lists| - 1];
      MergeAllLength(init);
      assert forall t :: 0 <= t < |init| ==> init[t] == lists[t];
    }
  }

  /** Record `i` of the merged table has a key exactly when some list sets
      that key at index `i`. */
  lemma {:induction false} MergeAllHas(lists: seq<seq<Record>>, i: nat, k: string)
    requires i < |MergeAll(lists)|
    ensures k in MergeAll(lists)[i] <==> exists t :: 0 <= t < |lists| && HasAt(lists, t, i, k)
  {
    var init := lists[..|lists| - 1];
    var last := lists[|lists| - 1];
    var n := |lists| - 1;
    var m := MergeAll(init);
    assert MergeAll(lists)[i] == RowAt(m, i) + RowAt(last, i);
    assert forall t :: 0 <= t < |init| ==> init[t] == lists[t];
    if k in MergeAll(lists)[i] {
      if k in RowAt(last, i) {
        assert HasAt(lists, n, i, k);
      } else {
        MergeAllHas(init, i, k);
        var t :| 0 <= t < |init| && HasAt(init, t, i, k);
        assert HasAt(lists, t, i, k);
      }
    }
    if exists t :: 0 <= t < |lists| && HasAt(lists, t, i, k) {
      var t :| 0 <= t < |lists| && HasAt(lists, t, i, k);
      if t < n {
        assert HasAt(init, t, i, k);
        MergeAllLength(init);
        MergeAllHas(init, i, k);
      }
    }
  }

  /** On a key set by several lists at index `i`, the last of them wins. */
  lemma {:induction false} MergeAllValue(lists: seq<seq<Record>>, t: nat, i: nat, k: string)
    requires t < |lists| && HasAt(lists, t, i, k) && LastWith(lists, t, i, k)
    ensures i < |MergeAll(lists)| && k in MergeAll(lists)[i] && MergeAll(lists)[i][k] == lists[t][i][k]
  {
    var init := lists[..|lists| - 1];
    var n := |lists| - 1;
    MergeAllLength(lists);
    assert MergeAll(lists)[i] == RowAt(MergeAll(init), i) + RowAt(lists[n], i);
    if t < n {
      assert !HasAt(lists, n, i, k);
      assert init[t] == lists[t];
      forall u | t < u < |init|
        ensures !HasAt(init, u, i, k)
      {
        assert init[u] == lists[u] && !HasAt(lists, u, i, k);
      }
      assert HasAt(init, t, i, k);
      MergeAllValue(init, t, i, k);
    }
  }

  /** A field is present in record `i` of a source's table exactly when some
      discovered record list of the source has it at index `i`. */
  lemma FieldInTable(content: Json, i: nat, k: string)
    requires i < |Datapoints(content)|
    ensures k in Datapoints(content)[i] <==>
              exists l: seq<Json> :: l in Lists(content) && IsDatapoints(l) && i < |l| && k in Rows(l)[i]
  {
    if k in Datapoints(content)[i] {
      var l := FieldFromList(content, i, k);
    }
    if exists l: seq<Json> :: l in Lists(content) && IsDatapoints(l) && i < |l| && k in Rows(l)[i] {
      var l: seq<Json> :| l in Lists(content) && IsDatapoints(l) && i < |l| && k in Rows(l)[i];
      ListFieldInTable(content, l, i, k);
    }
  }

  /** A field of the table comes from some record list. */
  lemma FieldFromList(content: Json, i: nat, k: string) returns (l: seq<Json>)
    requires i < |Datapoints(content)| && k in Datapoints(content)[i]
    ensures l in Lists(content) && IsDatapoints(l) && i < |l| && k in Rows(l)[i]
  {
    var lists := RecordLists(Lists(content));
    MergeAllHas(lists, i, k);
    var t :| 0 <= t < |lists| && HasAt(lists, t, i, k);
    RecordListsOf(Lists(content), lists[t]);
    l :| l in Lists(content) && IsDatapoints(l) && lists[t] == Rows(l);
  }

  /** A field of a record list reaches the table. */
  lemma ListFieldInTable(content: Json, l: seq<Json>, i: nat, k: string)
    requires i < |Datapoints(content)|
    requires l in Lists(content) && IsDatapoints(l) && i < |l| && k in Rows(l)[i]
    ensures k in Datapoints(content)[i]
  {
    var lists := RecordLists(Lists(content));
    RecordListsOf(Lists(content), Rows(l));
    var t :| 0 <= t < |lists| && lists[t] == Rows(l);
    assert HasAt(lists, t, i, k);
    MergeAllHas(lists, i, k);
  }
}

/**
 The parsed metric files: nested objects and arrays over scalar leaves, and the
 flat records (field name to value) the converter works with.
 */
module JsonData {

  /** A parsed value. Numbers are only carried, never computed on, so a number
      is kept as a decimal `mantissa * 10^-exponent` (0.1 is `Num(1, 1)`). */
  datatype Json =
    | Num(mantissa: int, exponent: nat)
    | Str(text: string)
    | Arr(items: seq<Json>)
    | Obj(entries: seq<Entry>)

  /** One key/value pair of an object, in the object's iteration order. */
  datatype Entry = Entry(key: string, value: Json)

  /** A record, i.e. a dictionary: key order does not matter for equality. */
  type Record = map<string, Json>

  /** An integer as a value (the synthesised `step` index). */
  function Int(n: int): Json
  {
    Num(n, 0)
  }

  /** The dictionary of an object: every key of it, each with the value of
      its last occurrence. */
  function ToRecord(entries: seq<Entry>): (r: Record)
    ensures r.Keys == set e | e in entries :: e.key
    ensures forall i :: 0 <= i < |entries| && LastOccurrence(entries, i) ==>
              r[entries[i].key] == entries[i].value
  {
    if entries == [] then map[]
    else
      var init := entries[..|entries| - 1];
      var last := entries[|entries| - 1];
      assert forall i :: 0 <= i < |init| && LastOccurrence(entries, i) ==> LastOccurrence(init, i);
      assert entries == init + [last];
      ToRecord(init)[last.key := last.value]
  }

  /** No later entry has the same key as `entries[i]`. */
  predicate LastOccurrence(entries: seq<Entry>, i: nat)
    requires i < |entries|
  {
    forall j :: i < j < |entries| ==> entries[j].key != entries[i].key
  }
}

/**
 Small facts about concrete inputs that the test-case lemmas are built from:
 the tables of one- and two-list sources, the record passes on one or two
 records, and the step from a plan whose parts are known to the result of
 `flat_datapoints`.
 */
module CaseSupport {
  import opened Wrappers
  import opened JsonData
  import opened ListDiscovery
  import opened SourceTable
  import opened PlotProperties
  import opened RenderKeys
  import opened Vega

  /** The revision every test case converts. */
  const Revision := "r"

  /** A record with the provenance of a series of `Revision`. */
  function Datapoint(r: Record, file: string, field: string): Record
  {
    r[REVISION := Str(Revision)][FILENAME := Str(file)][FIELD := Str(field)]
  }

  /** A source holding one list of records under `key`. */
  function OneList(key: string, items: seq<Json>): Json
  {
    Obj([Entry(key, Arr(items))])
  }

  /** Merging one list into an empty table gives that list. */
  lemma MergeIntoEmpty(rows: seq<Record>)
    ensures MergeAll([rows]) == rows
  {
    var l := [rows];
    assert l[..|l| - 1] == [] && l[|l| - 1] == rows;
    assert MergeAll(l) == MergeRows([], rows);
    var m := MergeAll(l);
    forall i | 0 <= i < |rows|
      ensures m[i] == rows[i]
    {
      assert RowAt([], i) == map[];
      assert map[] + rows[i] == rows[i];
    }
  }

  /** Merging two lists of equal length joins their records index by index. */
  lemma MergeTwo(a: seq<Record>, b: seq<Record>)
    requires |a| == |b|
    ensures |MergeAll([a, b])| == |a|
    ensures forall i :: 0 <= i < |a| ==> MergeAll([a, b])[i] == a[i] + b[i]
  {
    var l := [a, b];
    assert l[..|l| - 1] == [a] && l[|l| - 1] == b;
    MergeIntoEmpty(a);
    assert MergeAll(l) == MergeRows(a, b);
  }

  /** A source with a single list of records has that list's records as its table. */
  lemma SingleListTable(content: Json, items: seq<Json>)
    requires Lists(content) == [items] && IsDatapoints(items)
    ensures Datapoints(content) == Rows(items)
  {
    assert RecordLists([items]) == [Rows(items)];
    MergeIntoEmpty(Rows(items));
  }

  /** The only list of a one-list source is found, and its records are the table. */
  lemma OneListTable(key: string, items: seq<Json>)
    requires IsDatapoints(items)
    ensures Lists(OneList(key, items)) == [items]
    ensures Datapoints(OneList(key, items)) == Rows(items)
  {
    assert EntryLists([Entry(key, Arr(items))]) == [items] + EntryLists([]);
    SingleListTable(OneList(key, items), items);
  }

  /** A list of two objects, the second with no key the first lacks, is a
      list of records: the objects' dictionaries. */
  lemma RowsOfTwoObjects(es1: seq<Entry>, es2: seq<Entry>)
    requires ToRecord(es2).Keys <= ToRecord(es1).Keys
    ensures IsDatapoints([Obj(es1), Obj(es2)])
    ensures Rows([Obj(es1), Obj(es2)]) == [ToRecord(es1), ToRecord(es2)]
  {
    var l := [Obj(es1), Obj(es2)];
    assert l[0].entries == es1 && l[1].entries == es2;
    assert forall i :: 0 <= i < |l| ==> l[i].Obj? && ToRecord(l[i].entries).Keys <= ToRecord(es1).Keys;
    var rows := Rows(l);
    assert rows[0] == ToRecord(es1) && rows[1] == ToRecord(es2);
  }

  /** A single x name spread over a two-source y mapping: one x name per y name. */
  lemma InferXOverTwo(plotId: string, n: string, a: string, sa: FieldSel, b: string, sb: FieldSel)
    ensures InferX(plotId, Field(n), PerSource([(a, sa), (b, sb)])) ==
      PerSource([(a, if sa.One? then One(n) else Many(Repeat(n, |sa.names|))),
                 (b, if sb.One? then One(n) else Many(Repeat(n, |sb.names|)))])
  {
    var r := InferX(plotId, Field(n), PerSource([(a, sa), (b, sb)])).sources;
    assert |r| == 2;
    assert r[0].1 == (if sa.One? then One(n) else Many(Repeat(n, |sa.names|)));
    assert r[1].1 == (if sb.One? then One(n) else Many(Repeat(n, |sb.names|)));
  }

  /** A one-list source of a single object has that object's dictionary as its table. */
  lemma OneObjectTable(key: string, es: seq<Entry>)
    ensures Datapoints(OneList(key, [Obj(es)])) == [ToRecord(es)]
  {
    assert IsDatapoints([Obj(es)]);
    OneListTable(key, [Obj(es)]);
  }

  /** A one-list source of two objects has their dictionaries as its table. */
  lemma TwoObjectTable(key: string, es1: seq<Entry>, es2: seq<Entry>)
    requires ToRecord(es2).Keys <= ToRecord(es1).Keys
    ensures IsDatapoints([Obj(es1), Obj(es2)])
    ensures Lists(OneList(key, [Obj(es1), Obj(es2)])) == [[Obj(es1), Obj(es2)]]
    ensures Datapoints(OneList(key, [Obj(es1), Obj(es2)])) == [ToRecord(es1), ToRecord(es2)]
  {
    RowsOfTwoObjects(es1, es2);
    OneListTable(key, [Obj(es1), Obj(es2)]);
  }

  /** Two lists of records in a row are both kept. */
  lemma RecordListsOfTwo(a: seq<Json>, b: seq<Json>)
    requires IsDatapoints(a) && IsDatapoints(b)
    ensures RecordLists([a, b]) == [Rows(a), Rows(b)]
  {
    assert [a, b][1..] == [b];
    assert RecordLists([b]) == [Rows(b)] + RecordLists([]);
  }

  lemma TablesOfOne(file: string, content: Json)
    ensures Tables(map[file := content]) == map[file := Datapoints(content)]
  {
  }

  lemma TablesOfTwo(f1: string, c1: Json, f2: string, c2: Json)
    requires f1 != f2
    ensures Tables(map[f1 := c1, f2 := c2]) == map[f1 := Datapoints(c1), f2 := Datapoints(c2)]
  {
  }

  lemma RecordOfOne(k: string, v: Json)
    ensures ToRecord([Entry(k, v)]) == map[k := v]
  {
    assert [Entry(k, v)][..0] == [];
  }

  lemma RecordOfTwo(k1: string, v1: Json, k2: string, v2: Json)
    ensures ToRecord([Entry(k1, v1), Entry(k2, v2)]) == map[k1 := v1][k2 := v2]
  {
    assert [Entry(k1, v1), Entry(k2, v2)][..1] == [Entry(k1, v1)];
    RecordOfOne(k1, v1);
  }

  lemma RecordOfThree(k1: string, v1: Json, k2: string, v2: Json, k3: string, v3: Json)
    ensures ToRecord([Entry(k1, v1), Entry(k2, v2), Entry(k3, v3)]) == map[k1 := v1][k2 := v2][k3 := v3]
  {
    assert [Entry(k1, v1), Entry(k2, v2), Entry(k3, v3)][..2] == [Entry(k1, v1), Entry(k2, v2)];
    RecordOfTwo(k1, v1, k2, v2);
  }

  lemma FromIndexTwo(a: Record, b: Record, key: string)
    ensures FromIndex([a, b], key) == [a[key := Int(0)], b[key := Int(1)]]
  {
  }

  lemma FromFieldOne(a: Record, key: string, c: Record, field: string)
    requires field in c
    ensures FromField([a], key, [c], field) == [a[key := c[field]]]
  {
  }

  lemma FromFieldTwo(a: Record, b: Record, key: string, c: Record, d: Record, field: string)
    requires field in c && field in d
    ensures FromField([a, b], key, [c, d], field) == [a[key := c[field]], b[key := d[field]]]
  {
  }

  /** Copying a field onto itself changes nothing. */
  lemma FromFieldSelf(rows: seq<Record>, field: string)
    requires forall j :: 0 <= j < |rows| ==> field in rows[j]
    ensures FromField(rows, field, rows, field) == rows
  {
    var r := FromField(rows, field, rows, field);
    forall j | 0 <= j < |rows|
      ensures r[j] == rows[j]
    {
      assert rows[j][field := rows[j][field]] == rows[j];
    }
  }

  lemma WithAllOne(a: Record, file: string, field: string)
    ensures WithAll([a], Revision, file, field) == [Datapoint(a, file, field)]
  {
  }

  lemma WithAllTwo(a: Record, b: Record, file: string, field: string)
    ensures WithAll([a, b], Revision, file, field) == [Datapoint(a, file, field), Datapoint(b, file, field)]
  {
  }

  /** Two joinable series whose blocks split `points` at `k` produce `points`. */
  lemma TwoSeries(plan: Plan, points: seq<Record>, k: nat)
    requires plan.Paired() && |plan.ys| == 2 && !plan.Unequal(0) && !plan.Unequal(1)
    requires k <= |points| && plan.Block(0) == points[..k] && plan.Block(1) == points[k..]
    ensures plan.JoinableBelow(2) && plan.Points(2) == points
  {
    assert plan.JoinableBelow(2);
    assert plan.Points(1) == plan.Block(0);
    assert points == points[..k] + points[k..];
  }

  predicate Ready(plan: Plan)
  {
    && (forall d :: d in plan.xs ==> !Missing(plan.tables, d))
    && (forall d :: d in plan.ys ==> !Missing(plan.tables, d))
    && plan.ys != []
    && plan.Paired()
    && plan.JoinableBelow(|plan.ys|)
  }

  /** A conversion whose plan is ready and yields datapoints succeeds with
      them and the resolved properties. */
  lemma FlatByPlan(plotId: string, data: map<string, Json>, props: Config, cfg: Config, plan: Plan,
                   points: seq<Record>, properties: Properties)
    requires InferredConfig(plotId, data, props) == cfg
    requires PlanOf(cfg, data, Revision) == plan
    requires Ready(plan)
    requires plan.Points(|plan.ys|) == points && points != []
    requires plan.Resolve(cfg) == properties
    ensures Flat(plotId, data, props, Revision) == Success((points, properties))
  {
    assert FirstMissing(plan.tables, plan.xs, 0).None?;
    assert FirstMissing(plan.tables, plan.ys, 0).None?;
    assert plan.FirstUnequal(0).None?;
  }

  /** A series without x and with an inferred y over two records: each record
      gets the inferred y value, its index as step, and its provenance. */
  lemma StepSeries(plan: Plan, i: nat, a: Record, b: Record)
    requires plan.xs == [] && plan.ManyY() && i < |plan.ys| && plan.revision == Revision
    requires plan.YRows(i) == [a, b] && plan.ys[i].field in a && plan.ys[i].field in b
    ensures plan.Paired() && !plan.Unequal(i)
    ensures
      var y := plan.ys[i];
      plan.Block(i) == [
        Datapoint(a[INFERRED_Y := a[y.field]][STEP := Int(0)], Basename(y.file), y.field),
        Datapoint(b[INFERRED_Y := b[y.field]][STEP := Int(1)], Basename(y.file), y.field)]
  {
    var y := plan.ys[i];
    FromFieldTwo(a, b, INFERRED_Y, a, b, y.field);
    FromIndexTwo(a[INFERRED_Y := a[y.field]], b[INFERRED_Y := b[y.field]], STEP);
    WithAllTwo(a[INFERRED_Y := a[y.field]][STEP := Int(0)], b[INFERRED_Y := b[y.field]][STEP := Int(1)],
      Basename(y.file), y.field);
  }

  /** A series with one y field whose x field is read from the y records
      themselves: the records get only their provenance. */
  lemma OwnXSeries(plan: Plan, i: nat)
    requires plan.Paired() && i < |plan.ys| && !plan.ManyY() && plan.revision == Revision
    requires plan.XFor(i).Some? && plan.XFor(i).value.file == plan.ys[i].file
    requires plan.XKey(i) == plan.XFor(i).value.field
    requires forall j :: 0 <= j < |plan.YRows(i)| ==> plan.XFor(i).value.field in plan.YRows(i)[j]
    ensures !plan.Unequal(i)
    ensures plan.Block(i) == WithAll(plan.YRows(i), Revision, Basename(plan.ys[i].file), plan.ys[i].field)
  {
    FromFieldSelf(plan.YRows(i), plan.XFor(i).value.field);
  }

  /** A series with an inferred y over one record whose x field is read from
      that record itself. */
  lemma OwnXInferredYSeries(plan: Plan, i: nat, r: Record)
    requires plan.Paired() && i < |plan.ys| && plan.ManyY() && plan.revision == Revision
    requires plan.XFor(i).Some? && plan.XFor(i).value.file == plan.ys[i].file
    requires plan.XKey(i) == plan.XFor(i).value.field && plan.XKey(i) != INFERRED_Y
    requires plan.YRows(i) == [r] && plan.XKey(i) in r && plan.ys[i].field in r
    ensures !plan.Unequal(i)
    ensures plan.Block(i) == [Datapoint(r[INFERRED_Y := r[plan.ys[i].field]], Basename(plan.ys[i].file), plan.ys[i].field)]
  {
    var y := plan.ys[i];
    var x := plan.XKey(i);
    FromFieldOne(r, INFERRED_Y, r, y.field);
    FromFieldOne(r[INFERRED_Y := r[y.field]], x, r, x);
    assert r[INFERRED_Y := r[y.field]][x := r[x]] == r[INFERRED_Y := r[y.field]];
    WithAllOne(r[INFERRED_Y := r[y.field]], Basename(y.file), y.field);
  }

  /** A series with one y field over one record whose x value comes from one
      record of another table. */
  lemma OneRecordXSeries(plan: Plan, i: nat, r: Record, xr: Record)
    requires plan.Paired() && i < |plan.ys| && !plan.ManyY() && plan.revision == Revision
    requires plan.XFor(i).Some? && plan.YRows(i) == [r] && plan.XRows(i) == [xr]
    requires plan.XFor(i).value.field in xr
    ensures !plan.Unequal(i)
    ensures plan.Block(i) ==
      [Datapoint(r[plan.XKey(i) := xr[plan.XFor(i).value.field]], Basename(plan.ys[i].file), plan.ys[i].field)]
  {
    var y, x := plan.ys[i], plan.XFor(i).value;
    FromFieldOne(r, plan.XKey(i), xr, x.field);
    WithAllOne(r[plan.XKey(i) := xr[x.field]], Basename(y.file), y.field);
  }

  /** A series with an inferred y over two records whose x values come from two
      records of a (possibly other) table. */
  lemma TwoRecordXYSeries(plan: Plan, i: nat, a: Record, b: Record, c: Record, d: Record)
    requires plan.Paired() && i < |plan.ys| && plan.ManyY() && plan.revision == Revision
    requires plan.XFor(i).Some? && plan.YRows(i) == [a, b] && plan.XRows(i) == [c, d]
    requires plan.ys[i].field in a && plan.ys[i].field in b
    requires plan.XFor(i).value.field in c && plan.XFor(i).value.field in d
    ensures !plan.Unequal(i)
    ensures
      var y, x, k := plan.ys[i], plan.XFor(i).value.field, plan.XKey(i);
      plan.Block(i) == [
        Datapoint(a[INFERRED_Y := a[y.field]][k := c[x]], Basename(y.file), y.field),
        Datapoint(b[INFERRED_Y := b[y.field]][k := d[x]], Basename(y.file), y.field)]
  {
    var y, x, k := plan.ys[i], plan.XFor(i).value.field, plan.XKey(i);
    FromFieldTwo(a, b, INFERRED_Y, a, b, y.field);
    FromFieldTwo(a[INFERRED_Y := a[y.field]], b[INFERRED_Y := b[y.field]], k, c, d, x);
    WithAllTwo(a[INFERRED_Y := a[y.field]][k := c[x]], b[INFERRED_Y := b[y.field]][k := d[x]],
      Basename(y.file), y.field);
  }

  /** The anchors of a plan with two series. */
  lemma AnchorsOfTwo(plan: Plan)
    requires |plan.ys| == 2
    ensures plan.Anchors() == [YDefinition(Basename(plan.ys[0].file), plan.ys[0].field),
                               YDefinition(Basename(plan.ys[1].file), plan.ys[1].field)]
  {
  }

  /** The (source, field) pairs of a two-source mapping. */
  lemma SourceDefsOfTwo(a: string, sa: FieldSel, b: string, sb: FieldSel)
    ensures SourceDefs([(a, sa), (b, sb)]) == SelDefs(a, sa) + SelDefs(b, sb)
  {
    assert [(a, sa), (b, sb)][1..] == [(b, sb)];
    assert SourceDefs([(b, sb)]) == SelDefs(b, sb) + SourceDefs([]);
  }

  /** Once the fields are found and the axes pair, a first series whose x and
      y tables differ in length fails the conversion. */
  lemma FlatFailsUnequal(plotId: string, data: map<string, Json>, props: Config, cfg: Config, plan: Plan)
    requires InferredConfig(plotId, data, props) == cfg
    requires PlanOf(cfg, data, Revision) == plan
    requires forall d :: d in plan.xs ==> !Missing(plan.tables, d)
    requires forall d :: d in plan.ys ==> !Missing(plan.tables, d)
    requires plan.Paired() && plan.ys != [] && plan.Unequal(0)
    ensures Flat(plotId, data, props, Revision) == Failure(UnequalLengths(plan.XFor(0).value, plan.ys[0]))
  {
    assert FirstMissing(plan.tables, plan.xs, 0).None?;
    assert FirstMissing(plan.tables, plan.ys, 0).None?;
    assert plan.FirstUnequal(0) == Some(0);
  }

  /** The first missing x field fails the conversion with `FieldNotFoundError`. */
  lemma FlatFailsMissingX(plotId: string, data: map<string, Json>, props: Config, cfg: Config, plan: Plan, k: nat)
    requires InferredConfig(plotId, data, props) == cfg
    requires PlanOf(cfg, data, Revision) == plan
    requires k < |plan.xs| && Missing(plan.tables, plan.xs[k])
    requires forall j :: 0 <= j < k ==> !Missing(plan.tables, plan.xs[j])
    ensures Flat(plotId, data, props, Revision) == Failure(FieldNotFound(plan.xs[k].file, plan.xs[k].field))
  {
    FirstMissingIsFirst(plan.tables, plan.xs, 0, k);
  }

  /** The file names of the sources the cases use. */
  lemma NameOfF()
    ensures Basename("f") == "f"
  {
  }

  lemma NameOfF2()
    ensures Basename("f2") == "f2"
  {
  }

  lemma NamesInDir()
    ensures Basename("dir/f") == "f" && Basename("dir/f2") == "f2"
  {
    assert "dir/f"[1..] == "ir/f" && "ir/f"[1..] == "r/f" && "r/f"[1..] == "/f" && "/f"[1..] == "f";
    assert "dir/f2"[1..] == "ir/f2" && "ir/f2"[1..] == "r/f2" && "r/f2"[1..] == "/f2" && "/f2"[1..] == "f2";
  }
}

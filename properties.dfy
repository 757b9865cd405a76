/**
 What the conversion guarantees, for all inputs: the number and order of the
 datapoints, what each datapoint holds, when the inferred x/y values appear,
 and when each error is raised.
 */
module VegaProperties {
  import opened Wrappers
  import opened JsonData
  import opened ListDiscovery
  import opened SourceTable
  import opened PlotProperties
  import opened RenderKeys
  import opened Vega

  /** There is one datapoint per record behind each series. */
  lemma {:induction false} PointsLength(plan: Plan, n: nat)
    requires plan.Paired() && n <= |plan.ys| && plan.JoinableBelow(n)
    ensures |plan.Points(n)| == plan.RowCount(n)
  {
    if n > 0 {
      PointsLength(plan, n - 1);
    }
  }

  /** Source-major, then field, then record order: record `j` of series `i`
      sits after all records of the earlier series. */
  lemma PointsStep(plan: Plan, n: nat)
    requires plan.Paired() && 0 < n <= |plan.ys| && plan.JoinableBelow(n)
    ensures plan.JoinableBelow(n - 1) && !plan.Unequal(n - 1)
    ensures plan.Points(n) == plan.Points(n - 1) + plan.Block(n - 1)
    ensures |plan.Points(n - 1)| == plan.RowCount(n - 1)
    ensures plan.RowCount(n) == plan.RowCount(n - 1) + |plan.Block(n - 1)|
  {
    PointsLength(plan, n - 1);
  }

  /** Later series only append: a datapoint among the first `m` series keeps
      its index among the first `n`. */
  lemma {:induction false} PointsKeep(plan: Plan, m: nat, n: nat, k: nat)
    requires plan.Paired() && m <= n <= |plan.ys| && plan.JoinableBelow(n)
    requires plan.JoinableBelow(m) && k < |plan.Points(m)|
    ensures k < |plan.Points(n)| && plan.Points(n)[k] == plan.Points(m)[k]
  {
    if m < n {
      PointsStep(plan, n);
      PointsKeep(plan, m, n - 1, k);
      AppendKeeps(plan.Points(n - 1), plan.Block(n - 1), k);
    }
  }

  lemma AppendKeeps(a: seq<Record>, b: seq<Record>, k: nat)
    requires k < |a|
    ensures (a + b)[k] == a[k]
  {
  }

  lemma AppendAt(a: seq<Record>, b: seq<Record>, j: nat)
    requires j < |b|
    ensures (a + b)[|a| + j] == b[j]
  {
  }

  lemma {:induction false} PointsAt(plan: Plan, n: nat, i: nat, j: nat)
    requires plan.Paired() && n <= |plan.ys| && plan.JoinableBelow(n)
    requires i < n && j < |plan.YRows(i)|
    ensures plan.RowCount(i) + j < |plan.Points(n)|
    ensures plan.Points(n)[plan.RowCount(i) + j] == plan.Block(i)[j]
  {
    if n == i + 1 {
      LastBlockAt(plan, i, j);
    } else {
      PointsStep(plan, n);
      PointsAt(plan, n - 1, i, j);
      AppendKeeps(plan.Points(n - 1), plan.Block(n - 1), plan.RowCount(i) + j);
    }
  }

  /** Record `j` of the last of the first `i + 1` series follows the records
      of the first `i`. */
  lemma LastBlockAt(plan: Plan, i: nat, j: nat)
    requires plan.Paired() && i < |plan.ys| && plan.JoinableBelow(i + 1) && j < |plan.YRows(i)|
    ensures plan.RowCount(i) + j < |plan.Points(i + 1)|
    ensures plan.Points(i + 1)[plan.RowCount(i) + j] == plan.Block(i)[j]
  {
    PointsStep(plan, i + 1);
    AppendAt(plan.Points(i), plan.Block(i), j);
  }

  /** Record `j` of series `i`: it carries the source record, its provenance,
      its inferred y value in multi-series mode (and none otherwise), and its
      x value: the step index, or the paired x field's value. */
  lemma BlockPoint(plan: Plan, i: nat, j: nat)
    requires plan.Paired() && i < |plan.ys| && !plan.Unequal(i) && j < |plan.YRows(i)|
    ensures var p, row, y := plan.Block(i)[j], plan.YRows(i)[j], plan.ys[i];
      && p[REVISION] == Str(plan.revision)
      && p[FILENAME] == Str(Basename(y.file))
      && p[FIELD] == Str(y.field)
      && (forall k :: k in row && k !in Reserved() && k != plan.XKey(i) ==> k in p && p[k] == row[k])
      && p.Keys == row.Keys + {REVISION, FILENAME, FIELD}
           + (if plan.ManyY() && y.field in row then {INFERRED_Y} else {})
           + (match plan.XFor(i)
              case None => {STEP}
              case Some(x) => if x.field in plan.XRows(i)[j] then {plan.XKey(i)} else {})
      && (plan.ManyY() && y.field in row && plan.XKey(i) != INFERRED_Y ==> p[INFERRED_Y] == row[y.field])
      && (!plan.ManyY() && INFERRED_Y !in row && plan.XKey(i) != INFERRED_Y ==> INFERRED_Y !in p)
      && (plan.XFor(i).None? ==> p[STEP] == Int(j))
      && (plan.XFor(i).Some? && plan.XFor(i).value.field in plan.XRows(i)[j]
          && plan.XKey(i) !in {REVISION, FILENAME, FIELD} ==>
            p[plan.XKey(i)] == plan.XRows(i)[j][plan.XFor(i).value.field])
  {
  }

  /** A series with an x definition gets no `step` key: the step index is
      added only when no x is configured. */
  lemma NoStepWithX(plan: Plan, i: nat, j: nat)
    requires plan.Paired() && i < |plan.ys| && !plan.Unequal(i) && j < |plan.YRows(i)|
    requires plan.XFor(i).Some? && STEP !in plan.YRows(i)[j] && plan.XKey(i) != STEP
    ensures STEP !in plan.Block(i)[j]
  {
    BlockPoint(plan, i, j);
  }

  /** In single-x mode no `dvc_inferred_x_value` key is added: the x value
      keeps its own field name. */
  lemma NoInferredXWithOneX(plan: Plan, i: nat, j: nat)
    requires plan.Paired() && i < |plan.ys| && !plan.Unequal(i) && j < |plan.YRows(i)|
    requires plan.XKey(i) != INFERRED_X && INFERRED_X !in plan.YRows(i)[j]
    ensures INFERRED_X !in plan.Block(i)[j]
  {
    BlockPoint(plan, i, j);
  }

  /** Once the y field and the x field of a series are found, that is in
      every record of their sources, each of its datapoints carries its x
      value (or `step`) and, in multi-y mode, its inferred y value. */
  lemma FoundPointComplete(plan: Plan, i: nat, j: nat)
    requires plan.Paired() && i < |plan.ys| && !plan.Unequal(i) && j < |plan.YRows(i)|
    requires !Missing(plan.tables, plan.ys[i])
    requires plan.XFor(i).Some? ==> !Missing(plan.tables, plan.XFor(i).value)
    ensures var p, row, y := plan.Block(i)[j], plan.YRows(i)[j], plan.ys[i];
      && y.field in row
      && (plan.XFor(i).Some? ==> plan.XFor(i).value.field in plan.XRows(i)[j])
      && plan.XKey(i) in p
      && (plan.ManyY() ==> INFERRED_Y in p)
      && (plan.ManyY() && plan.XKey(i) != INFERRED_Y ==> p[INFERRED_Y] == row[y.field])
  {
    assert plan.ys[i].file in plan.tables;
    if plan.XFor(i).Some? {
      assert plan.XFor(i).value.file in plan.tables;
    }
    BlockPoint(plan, i, j);
  }

  /** With every x and y field found, each datapoint of the first `n` series
      carries `dvc_inferred_y_value` in multi-y mode. */
  lemma {:induction false} PointsInferredY(plan: Plan, n: nat)
    requires plan.Paired() && n <= |plan.ys| && plan.JoinableBelow(n) && plan.ManyY()
    requires forall d :: d in plan.xs ==> !Missing(plan.tables, d)
    requires forall d :: d in plan.ys ==> !Missing(plan.tables, d)
    ensures forall k :: 0 <= k < |plan.Points(n)| ==> INFERRED_Y in plan.Points(n)[k]
  {
    if n > 0 {
      var i := n - 1;
      PointsStep(plan, n);
      PointsInferredY(plan, i);
      assert plan.ys[i] in plan.ys;
      if plan.XFor(i).Some? {
        assert plan.XFor(i).value in plan.xs;
      }
      forall j | 0 <= j < |plan.Block(i)|
        ensures INFERRED_Y in plan.Block(i)[j]
      {
        FoundPointComplete(plan, i, j);
      }
    }
  }

  /** In multi-y mode every datapoint of a successful conversion carries
      `dvc_inferred_y_value`. */
  lemma SuccessInferredY(cfg: Config, data: map<string, Json>, revision: string)
    requires Convert(cfg, data, revision).Success? && PlanOf(cfg, data, revision).ManyY()
    ensures var points := Convert(cfg, data, revision).value.0;
      forall k :: 0 <= k < |points| ==> INFERRED_Y in points[k]
  {
    var plan := PlanOf(cfg, data, revision);
    ConvertSuccess(cfg, data, revision);
    ConvertSucceedsIff(cfg, data, revision);
    PointsInferredY(plan, |plan.ys|);
  }

  /** The x value of a series is written under `dvc_inferred_x_value` exactly
      in multi-x mode, and x definitions pair positionally with y definitions. */
  lemma XKeyMode(plan: Plan, i: nat)
    requires plan.Paired() && i < |plan.ys| && plan.xs != []
    ensures plan.XFor(i) == Some(if |plan.xs| == 1 then plan.xs[0] else plan.xs[i])
    ensures |plan.xs| > 1 && Distinct(plan.xs) ==> plan.XKey(i) == INFERRED_X
    ensures !Distinct(plan.xs) ==> plan.XKey(i) == plan.xs[0].field
  {
    ManyFieldsIff(plan.xs);
    SharedFieldIff(plan.xs, "x");
    if !Distinct(plan.xs) && |plan.xs| > 1 {
      assert plan.xs[i] in plan.xs;
    }
  }

  /** A successful conversion is the plan's datapoints, as many as the records
      behind its series; it is empty exactly when there are no properties. */
  lemma ConvertSuccess(cfg: Config, data: map<string, Json>, revision: string)
    requires Convert(cfg, data, revision).Success?
    ensures var plan, out := PlanOf(cfg, data, revision), Convert(cfg, data, revision).value;
      && plan.Paired() && plan.JoinableBelow(|plan.ys|)
      && out.0 == plan.Points(|plan.ys|)
      && |out.0| == plan.RowCount(|plan.ys|)
      && (out.0 == [] <==> out.1 == NoProperties)
      && (out.1 != NoProperties ==> plan.ys != [] && out.1 == plan.Resolve(cfg))
  {
    var plan := PlanOf(cfg, data, revision);
    PointsLength(plan, |plan.ys|);
  }

  /** Datapoint `j` of series `i` carries the revision and the file name and
      field of anchor `i`. */
  lemma SeriesProvenance(plan: Plan, n: nat, i: nat, j: nat)
    requires plan.Paired() && n <= |plan.ys| && plan.JoinableBelow(n)
    requires i < n && j < |plan.YRows(i)|
    ensures var k, a := plan.RowCount(i) + j, plan.Anchors()[i];
      && k < |plan.Points(n)|
      && {REVISION, FILENAME, FIELD} <= plan.Points(n)[k].Keys
      && plan.Points(n)[k][FILENAME] == Str(a.filename)
      && plan.Points(n)[k][FIELD] == Str(a.field)
      && plan.Points(n)[k][REVISION] == Str(plan.revision)
  {
    PointsAt(plan, n, i, j);
    BlockPoint(plan, i, j);
  }

  /** `anchors_y_definitions` follows the datapoints: the datapoints of series
      `i` carry exactly the file name and field of anchor `i`, and the revision. */
  lemma AnchorsFollowPoints(cfg: Config, data: map<string, Json>, revision: string, i: nat, j: nat)
    requires Convert(cfg, data, revision).Success?
    requires Convert(cfg, data, revision).value.1 != NoProperties
    requires var plan := PlanOf(cfg, data, revision); i < |plan.ys| && j < |plan.YRows(i)|
    ensures var plan, out := PlanOf(cfg, data, revision), Convert(cfg, data, revision).value;
      && |out.1.anchors| == |plan.ys|
      && plan.RowCount(i) + j < |out.0|
      && {REVISION, FILENAME, FIELD} <= out.0[plan.RowCount(i) + j].Keys
      && out.0[plan.RowCount(i) + j][FILENAME] == Str(out.1.anchors[i].filename)
      && out.0[plan.RowCount(i) + j][FIELD] == Str(out.1.anchors[i].field)
      && out.0[plan.RowCount(i) + j][REVISION] == Str(revision)
  {
    var plan, out := PlanOf(cfg, data, revision), Convert(cfg, data, revision).value;
    ConvertSuccess(cfg, data, revision);
    ResolvedProvenance(plan, cfg, out.0, out.1, i, j);
  }

  /** The provenance of datapoint `j` of series `i` matches anchor `i` of the
      resolved properties. */
  lemma ResolvedProvenance(plan: Plan, cfg: Config, points: seq<Record>, props: Properties, i: nat, j: nat)
    requires plan.Paired() && plan.JoinableBelow(|plan.ys|) && plan.ys != []
    requires points == plan.Points(|plan.ys|) && props == plan.Resolve(cfg)
    requires i < |plan.ys| && j < |plan.YRows(i)|
    ensures |props.anchors| == |plan.ys|
    ensures plan.RowCount(i) + j < |points|
    ensures {REVISION, FILENAME, FIELD} <= points[plan.RowCount(i) + j].Keys
    ensures points[plan.RowCount(i) + j][FILENAME] == Str(props.anchors[i].filename)
    ensures points[plan.RowCount(i) + j][FIELD] == Str(props.anchors[i].field)
    ensures points[plan.RowCount(i) + j][REVISION] == Str(plan.revision)
  {
    SeriesProvenance(plan, |plan.ys|, i, j);
  }

  /** The resolved y is `dvc_inferred_y_value` when two y definitions name
      different fields, and otherwise the one field they all name. */
  lemma ResolvedY(cfg: Config, data: map<string, Json>, revision: string)
    requires Convert(cfg, data, revision).Success?
    requires Convert(cfg, data, revision).value.1 != NoProperties
    ensures var ys, props := FileFields(cfg.y), Convert(cfg, data, revision).value.1;
      && ys != []
      && (Distinct(ys) ==> props.y == INFERRED_Y)
      && (!Distinct(ys) ==> forall d :: d in ys ==> d.field == props.y)
  {
    var plan := PlanOf(cfg, data, revision);
    ManyFieldsIff(plan.ys);
    SharedFieldIff(plan.ys, "y");
  }

  /** Without an explicit label, a per-source y mapping is labelled "y" when
      its definitions name several fields, and otherwise by its one field. */
  lemma ResolvedYLabel(plan: Plan, cfg: Config)
    requires cfg.yLabel.None? && cfg.y.PerSource? && plan.ys == FileFields(cfg.y) && plan.ys != []
    ensures plan.Resolve(cfg).yLabel == Some(if plan.ManyY() then "y" else plan.ys[0].field)
  {
    ManyFieldsIff(plan.ys);
    SharedFieldIff(plan.ys, "y");
  }

  /** The resolved x is `dvc_inferred_x_value` when several x definitions name
      different fields, `step` without x definitions, and otherwise the one x
      field they all name. */
  lemma ResolvedX(cfg: Config, data: map<string, Json>, revision: string)
    requires Convert(cfg, data, revision).Success?
    requires Convert(cfg, data, revision).value.1 != NoProperties
    ensures var xs, props := FileFields(cfg.x), Convert(cfg, data, revision).value.1;
      && (|xs| > 1 && Distinct(xs) ==> props.x == INFERRED_X)
      && (xs == [] ==> props.x == STEP)
      && (xs != [] && !Distinct(xs) ==> forall d :: d in xs ==> d.field == props.x)
  {
    var plan := PlanOf(cfg, data, revision);
    ManyFieldsIff(plan.xs);
    SharedFieldIff(plan.xs, "x");
  }

  /** A conversion succeeds exactly when every x and y field is found, the x
      definitions pair with the y definitions, and every series joins. */
  lemma ConvertSucceedsIff(cfg: Config, data: map<string, Json>, revision: string)
    ensures var plan := PlanOf(cfg, data, revision);
      Convert(cfg, data, revision).Success? <==>
        && (forall d :: d in plan.xs ==> !Missing(plan.tables, d))
        && (forall d :: d in plan.ys ==> !Missing(plan.tables, d))
        && plan.Paired()
        && plan.JoinableBelow(|plan.ys|)
  {
    var plan := PlanOf(cfg, data, revision);
    if (forall d :: d in plan.xs ==> !Missing(plan.tables, d)) {
      assert FirstMissing(plan.tables, plan.xs, 0).None?;
    } else {
      var d :| d in plan.xs && Missing(plan.tables, d);
      var k :| 0 <= k < |plan.xs| && plan.xs[k] == d;
      assert FirstMissing(plan.tables, plan.xs, 0).Some?;
    }
    if (forall d :: d in plan.ys ==> !Missing(plan.tables, d)) {
      assert FirstMissing(plan.tables, plan.ys, 0).None?;
    } else {
      var d :| d in plan.ys && Missing(plan.tables, d);
      var k :| 0 <= k < |plan.ys| && plan.ys[k] == d;
      assert FirstMissing(plan.tables, plan.ys, 0).Some?;
    }
  }

  /** Any x or y field that its source lacks raises `FieldNotFoundError`. */
  lemma MissingFieldFails(cfg: Config, data: map<string, Json>, revision: string, d: Def)
    requires var plan := PlanOf(cfg, data, revision);
      (d in plan.xs || d in plan.ys) && Missing(plan.tables, d)
    ensures Convert(cfg, data, revision).Failure?
    ensures Convert(cfg, data, revision).error.FieldNotFound?
  {
    var plan := PlanOf(cfg, data, revision);
    if d in plan.xs {
      var k :| 0 <= k < |plan.xs| && plan.xs[k] == d;
      assert FirstMissing(plan.tables, plan.xs, 0).Some?;
    } else {
      var k :| 0 <= k < |plan.ys| && plan.ys[k] == d;
      assert FirstMissing(plan.tables, plan.ys, 0).Some?;
    }
  }

  /** A field that no record list of a source has is missing in that source. */
  lemma AbsentFieldIsMissing(data: map<string, Json>, file: string, field: string)
    requires file in data
    requires forall l :: l in Lists(data[file]) && IsDatapoints(l) ==> field !in Rows(l)[0]
    ensures Missing(Tables(data), Def(file, field))
  {
    var table := Datapoints(data[file]);
    if table != [] {
      FieldInTable(data[file], 0, field);
    }
  }

  /** Once the fields are found and the axes pair, a series whose x and y
      tables differ in length raises the generic conversion failure. */
  lemma UnequalLengthsFail(cfg: Config, data: map<string, Json>, revision: string, i: nat)
    requires var plan := PlanOf(cfg, data, revision);
      && (forall d :: d in plan.xs ==> !Missing(plan.tables, d))
      && (forall d :: d in plan.ys ==> !Missing(plan.tables, d))
      && plan.Paired() && i < |plan.ys| && plan.Unequal(i)
    ensures Convert(cfg, data, revision).Failure?
    ensures Convert(cfg, data, revision).error.UnequalLengths?
  {
    ConvertSucceedsIff(cfg, data, revision);
  }
}

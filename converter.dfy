/**
 The converter: turns the per-source data and the plot properties into a flat
 list of datapoints and the resolved properties (`VegaConverter.flat_datapoints`).

 After the x/y inference done at construction, the x and y properties are
 per-source mappings (or absent). Each y definition (source, field) is one
 series; each series yields one datapoint per record of its source's table,
 in record order, series after series. The x value of a series comes from the
 x definition paired with it (the only one, or the one at the same position),
 or is the synthesised `step` index when there is no x definition.
 */
module Vega {
  import opened Wrappers
  import opened JsonData
  import opened SourceTable
  import opened PlotProperties
  import opened RenderKeys

  /** `FieldNotFoundError`, and the two generic conversion failures. */
  datatype ConversionError =
    | FieldNotFound(file: string, field: string)
    | UnequalAxisCounts(xCount: nat, yCount: nat)
    | UnequalLengths(x: Def, y: Def)

  /** One entry of `anchors_y_definitions`. */
  datatype YDefinition = YDefinition(filename: string, field: string)

  /** The resolved properties; none at all when there is no datapoint. */
  datatype Properties =
    | NoProperties
    | Properties(x: string, y: string, xLabel: string, yLabel: Option<string>, anchors: seq<YDefinition>)

  type Conversion = Result<(seq<Record>, Properties), ConversionError>

  /** The final component of a path: what is left once everything up to
      each '/' is dropped. */
  function Basename(path: string): string
  {
    if '/' in path then Basename(path[1..]) else path
  }

  /** The file name is the longest suffix of the path without a '/': it ends
      the path, has no '/', and is the whole path or preceded by a '/'. */
  lemma {:induction false} BasenameIsLastComponent(path: string)
    ensures var name := Basename(path);
      && |name| <= |path|
      && name == path[|path| - |name|..]
      && '/' !in name
      && (|name| < |path| ==> path[|path| - |name| - 1] == '/')
  {
    if '/' in path {
      var rest := path[1..];
      BasenameIsLastComponent(rest);
      var name := Basename(rest);
      assert rest[|rest| - |name|..] == path[|path| - |name|..];
      if |name| < |rest| {
        assert path[|path| - |name| - 1] == rest[|rest| - |name| - 1];
      } else {
        assert path == [path[0]] + rest;
      }
    }
  }

  /** The merged table of every source. */
  function Tables(data: map<string, Json>): map<string, seq<Record>>
  {
    map f | f in data :: Datapoints(data[f])
  }

  /** The table of a source; a source without data has no records. */
  function TableOf(tables: map<string, seq<Record>>, file: string): seq<Record>
  {
    if file in tables then tables[file] else []
  }

  /** A definition whose source has data but no records, or a record
      without the definition's field. */
  predicate Missing(tables: map<string, seq<Record>>, d: Def)
  {
    d.file in tables && (tables[d.file] == [] || exists k :: 0 <= k < |tables[d.file]| && d.field !in tables[d.file][k])
  }

  /** The first missing definition from index `k` on. */
  function FirstMissing(tables: map<string, seq<Record>>, defs: seq<Def>, k: nat): (r: Option<Def>)
    ensures r.None? <==> forall j :: k <= j < |defs| ==> !Missing(tables, defs[j])
    ensures r.Some? ==> exists j :: k <= j < |defs| && defs[j] == r.value && Missing(tables, r.value)
    decreases |defs| - k
  {
    if k >= |defs| then None
    else if Missing(tables, defs[k]) then Some(defs[k])
    else FirstMissing(tables, defs, k + 1)
  }

  /** Every record gets `key` set to the `field` value of the record at the
      same index of `sources`, where that record has the field. */
  function FromField(rows: seq<Record>, key: string, sources: seq<Record>, field: string): (r: seq<Record>)
    requires |sources| == |rows|
    ensures |r| == |rows|
  {
    seq(|rows|, j requires 0 <= j < |rows| =>
      if field in sources[j] then rows[j][key := sources[j][field]] else rows[j])
  }

  /** Every record gets `key` set to its index. */
  function FromIndex(rows: seq<Record>, key: string): (r: seq<Record>)
    ensures |r| == |rows|
  {
    seq(|rows|, j requires 0 <= j < |rows| => rows[j][key := Int(j)])
  }

  /** Every record gets its provenance: revision, file name and field. */
  function WithAll(rows: seq<Record>, revision: string, filename: string, field: string): (r: seq<Record>)
    ensures |r| == |rows|
  {
    seq(|rows|, j requires 0 <= j < |rows| =>
      rows[j][REVISION := Str(revision)][FILENAME := Str(filename)][FIELD := Str(field)])
  }

  /** The first missing definition is the first one that is missing. */
  lemma {:induction false} FirstMissingIsFirst(tables: map<string, seq<Record>>, defs: seq<Def>, s: nat, k: nat)
    requires s <= k < |defs| && Missing(tables, defs[k])
    requires forall j :: s <= j < k ==> !Missing(tables, defs[j])
    ensures FirstMissing(tables, defs, s) == Some(defs[k])
    decreases k - s
  {
    if s < k {
      FirstMissingIsFirst(tables, defs, s + 1, k);
    }
  }

  /** The series of one conversion: tables, x and y definitions, revision. */
  datatype Plan = Plan(tables: map<string, seq<Record>>, xs: seq<Def>, ys: seq<Def>, revision: string)
  {
    /** Several x definitions with more than one field name: x is inferred. */
    predicate ManyX()
    {
      |xs| > 1 && |FieldSet(xs)| > 1
    }

    /** More than one y field name: y is inferred. */
    predicate ManyY()
    {
      |FieldSet(ys)| > 1
    }

    /** Several x definitions must be as many as the y definitions. */
    predicate Paired()
    {
      |xs| <= 1 || |xs| == |ys|
    }

    /** The x definition of series `i`, none when x is the step index. */
    function XFor(i: nat): Option<Def>
      requires Paired() && i < |ys|
    {
      if xs == [] then None else if |xs| == 1 then Some(xs[0]) else Some(xs[i])
    }

    /** The key the x value of series `i` is written under. */
    function XKey(i: nat): string
      requires Paired() && i < |ys|
    {
      match XFor(i)
      case None => STEP
      case Some(x) => if ManyX() then INFERRED_X else x.field
    }

    /** The records of series `i`. */
    function YRows(i: nat): seq<Record>
      requires i < |ys|
    {
      TableOf(tables, ys[i].file)
    }

    /** The records the x values of series `i` come from. */
    function XRows(i: nat): seq<Record>
      requires Paired() && i < |ys| && XFor(i).Some?
    {
      TableOf(tables, XFor(i).value.file)
    }

    /** The x and y tables of series `i` cannot be joined index by index. */
    predicate Unequal(i: nat)
      requires Paired() && i < |ys|
    {
      XFor(i).Some? && |XRows(i)| != |YRows(i)|
    }

    /** The first unjoinable series from `i` on. */
    function FirstUnequal(i: nat): (r: Option<nat>)
      requires Paired()
      ensures r.None? <==> forall j :: i <= j < |ys| ==> !Unequal(j)
      ensures r.Some? ==> i <= r.value < |ys| && Unequal(r.value)
      decreases |ys| - i
    {
      if i >= |ys| then None
      else if Unequal(i) then Some(i)
      else FirstUnequal(i + 1)
    }

    predicate JoinableBelow(n: nat)
      requires Paired()
    {
      forall i :: 0 <= i < n && i < |ys| ==> !Unequal(i)
    }

    /** The datapoints of series `i`, one per record. */
    function Block(i: nat): (b: seq<Record>)
      requires Paired() && i < |ys| && !Unequal(i)
      ensures |b| == |YRows(i)|
    {
      seq(|YRows(i)|, j requires 0 <= j < |YRows(i)| => PointOf(i, j))
    }

    /** Datapoint `j` of series `i`: a copy of its record with the inferred
        y value, then the x value, then revision, file name and field. */
    function PointOf(i: nat, j: nat): Record
      requires Paired() && i < |ys| && !Unequal(i) && j < |YRows(i)|
    {
      var y := ys[i];
      var row := YRows(i)[j];
      var withY := if ManyY() && y.field in row then row[INFERRED_Y := row[y.field]] else row;
      var withX :=
        match XFor(i)
        case None => withY[STEP := Int(j)]
        case Some(x) => if x.field in XRows(i)[j] then withY[XKey(i) := XRows(i)[j][x.field]] else withY;
      withX[REVISION := Str(revision)][FILENAME := Str(Basename(y.file))][FIELD := Str(y.field)]
    }

    /** The series as the converter builds it: the inferred y value is set on
        every record, then the x value, then revision, file name and field. */
    function Pipeline(i: nat): seq<Record>
      requires Paired() && i < |ys| && !Unequal(i)
    {
      var y := ys[i];
      var rows := YRows(i);
      var withY := if ManyY() then FromField(rows, INFERRED_Y, rows, y.field) else rows;
      var withX :=
        match XFor(i)
        case None => FromIndex(withY, STEP)
        case Some(x) => FromField(withY, XKey(i), XRows(i), x.field);
      WithAll(withX, revision, Basename(y.file), y.field)
    }

    /** The datapoints of the first `n` series. */
    function Points(n: nat): seq<Record>
      requires Paired() && n <= |ys| && JoinableBelow(n)
    {
      if n == 0 then [] else Points(n - 1) + Block(n - 1)
    }

    /** Number of records behind the first `n` series. */
    function RowCount(n: nat): nat
      requires n <= |ys|
    {
      if n == 0 then 0 else RowCount(n - 1) + |YRows(n - 1)|
    }

    /** `anchors_y_definitions`: one entry per series, in series order. */
    function Anchors(): (a: seq<YDefinition>)
      ensures |a| == |ys|
    {
      seq(|ys|, i requires 0 <= i < |ys| => YDefinition(Basename(ys[i].file), ys[i].field))
    }

    /** The resolved properties, given the labels of the inferred configuration. */
    function Resolve(cfg: Config): Properties
      requires ys != []
    {
      Properties(
        if ManyX() then INFERRED_X else if xs == [] then STEP else xs[0].field,
        if ManyY() then INFERRED_Y else ys[0].field,
        InferXLabel(cfg),
        InferYLabel(cfg),
        Anchors())
    }
  }

  /** The plan of a configuration whose x/y inference is done. */
  function PlanOf(cfg: Config, data: map<string, Json>, revision: string): Plan
  {
    Plan(Tables(data), FileFields(cfg.x), FileFields(cfg.y), revision)
  }

  /** `flat_datapoints` on an inferred configuration: x fields are checked,
      then y fields, then the pairing of x with y, then each series' join. */
  function Convert(cfg: Config, data: map<string, Json>, revision: string): Conversion
  {
    ConvertPlan(PlanOf(cfg, data, revision), cfg)
  }

  /** The conversion of a plan; `cfg` supplies the labels. */
  function ConvertPlan(plan: Plan, cfg: Config): Conversion
  {
    match FirstMissing(plan.tables, plan.xs, 0)
    case Some(d) => Failure(FieldNotFound(d.file, d.field))
    case None =>
      match FirstMissing(plan.tables, plan.ys, 0)
      case Some(d) => Failure(FieldNotFound(d.file, d.field))
      case None =>
        if !plan.Paired() then Failure(UnequalAxisCounts(|plan.xs|, |plan.ys|))
        else
          match plan.FirstUnequal(0)
          case Some(i) => Failure(UnequalLengths(plan.XFor(i).value, plan.ys[i]))
          case None =>
            var points := plan.Points(|plan.ys|);
            if points == [] then Success(([], NoProperties))
            else Success((points, plan.Resolve(cfg)))
  }

  /** `VegaConverter(plotId, data, props).flat_datapoints(revision)`. */
  function Flat(plotId: string, data: map<string, Json>, props: Config, revision: string): Conversion
  {
    Convert(InferredConfig(plotId, data, props), data, revision)
  }

  class VegaConverter {
    const plotId: string
    const data: map<string, Json>
    const properties: Config
    /** The properties after the x/y inference done at construction. */
    const inferred: Config

    constructor (plotId: string, data: map<string, Json>, properties: Config)
      ensures this.plotId == plotId && this.data == data && this.properties == properties
      ensures inferred == InferredConfig(plotId, data, properties)
    {
      this.plotId := plotId;
      this.data := data;
      this.properties := properties;
      inferred := InferredConfig(plotId, data, properties);
    }

    /** Builds the datapoints series by series and record by record. */
    method FlatDatapoints(revision: string) returns (r: Conversion)
      ensures r == Convert(inferred, data, revision)
    {
      var plan := PlanOf(inferred, data, revision);
      var tables, xs, ys := plan.tables, plan.xs, plan.ys;
      var missing := FindMissing(tables, xs);
      if missing.Some? {
        return Failure(FieldNotFound(missing.value.file, missing.value.field));
      }
      missing := FindMissing(tables, ys);
      if missing.Some? {
        return Failure(FieldNotFound(missing.value.file, missing.value.field));
      }
      if |xs| > 1 && |xs| != |ys| {
        return Failure(UnequalAxisCounts(|xs|, |ys|));
      }
      var assembled := AssembleSeries(plan);
      if assembled.Failure? {
        return Failure(assembled.error);
      }
      var points := assembled.value;
      if points == [] {
        return Success(([], NoProperties));
      }
      r := Success((points, plan.Resolve(inferred)));
    }
  }

  /** Building a series field by field over all records gives, record by
      record, the datapoint built from that record alone. */
  lemma BlockPipeline(plan: Plan, i: nat)
    requires plan.Paired() && i < |plan.ys| && !plan.Unequal(i)
    ensures plan.Pipeline(i) == plan.Block(i)
  {
    var p, b := plan.Pipeline(i), plan.Block(i);
    forall j | 0 <= j < |b|
      ensures p[j] == b[j]
    {
      assert b[j] == plan.PointOf(i, j);
    }
  }

  /** Joinable series are skipped over when looking for the first that is not. */
  lemma {:induction false} FirstUnequalSkips(plan: Plan, s: nat, i: nat)
    requires plan.Paired() && s <= i <= |plan.ys| && plan.JoinableBelow(i)
    ensures plan.FirstUnequal(s) == plan.FirstUnequal(i)
    decreases i - s
  {
    if s < i {
      FirstUnequalSkips(plan, s + 1, i);
    }
  }

  /** Series `i` joins: the points so far extend by its block. */
  lemma AssembleStep(plan: Plan, i: nat)
    requires plan.Paired() && i < |plan.ys| && plan.JoinableBelow(i) && !plan.Unequal(i)
    ensures plan.JoinableBelow(i + 1)
    ensures plan.Points(i + 1) == plan.Points(i) + plan.Block(i)
  {
    forall j | 0 <= j < i + 1 && j < |plan.ys|
      ensures !plan.Unequal(j)
    {
      if j < i {
        assert 0 <= j < i && j < |plan.ys|;
      }
    }
  }

  /** All series, one after the other; the first series that cannot be
      joined stops the conversion. */
  method AssembleSeries(plan: Plan) returns (r: Result<seq<Record>, ConversionError>)
    requires plan.Paired()
    ensures plan.FirstUnequal(0).Some? ==>
              var i := plan.FirstUnequal(0).value;
              r == Failure(UnequalLengths(plan.XFor(i).value, plan.ys[i]))
    ensures plan.FirstUnequal(0).None? ==> r == Success(plan.Points(|plan.ys|))
  {
    var points: seq<Record> := [];
    var i := 0;
    while i < |plan.ys|
      invariant 0 <= i <= |plan.ys|
      invariant plan.JoinableBelow(i)
      invariant points == plan.Points(i)
    {
      var block := SeriesDatapoints(plan, i);
      if block.Failure? {
        FirstUnequalSkips(plan, 0, i);
        return Failure(block.error);
      }
      AssembleStep(plan, i);
      points := points + block.value;
      i := i + 1;
    }
    FirstUnequalSkips(plan, 0, i);
    return Success(points);
  }

  /** Checks definitions in order; the first whose field is missing. */
  method FindMissing(tables: map<string, seq<Record>>, defs: seq<Def>) returns (missing: Option<Def>)
    ensures missing == FirstMissing(tables, defs, 0)
  {
    var k := 0;
    while k < |defs|
      invariant 0 <= k <= |defs|
      invariant forall j :: 0 <= j < k ==> !Missing(tables, defs[j])
    {
      if Missing(tables, defs[k]) {
        FirstMissingIsFirst(tables, defs, 0, k);
        return Some(defs[k]);
      }
      k := k + 1;
    }
    return None;
  }

  /** The datapoints of series `i`, or the failure to join its x and y tables. */
  method SeriesDatapoints(plan: Plan, i: nat) returns (r: Result<seq<Record>, ConversionError>)
    requires plan.Paired() && i < |plan.ys|
    ensures plan.Unequal(i) ==> r == Failure(UnequalLengths(plan.XFor(i).value, plan.ys[i]))
    ensures !plan.Unequal(i) ==> r == Success(plan.Block(i))
  {
    var xs, y := plan.xs, plan.ys[i];
    var x: Option<Def> := if xs == [] then None else if |xs| == 1 then Some(xs[0]) else Some(xs[i]);
    var rows := TableOf(plan.tables, y.file);
    var datapoints := rows;
    if |FieldSet(plan.ys)| > 1 {
      datapoints := UpdateFromField(datapoints, INFERRED_Y, datapoints, y.field);
    }
    match x {
      case None =>
        datapoints := UpdateFromIndex(datapoints, STEP);
      case Some(xd) =>
        var xRows := TableOf(plan.tables, xd.file);
        if |xRows| != |datapoints| {
          return Failure(UnequalLengths(xd, y));
        }
        var key := if |xs| > 1 && |FieldSet(xs)| > 1 then INFERRED_X else xd.field;
        datapoints := UpdateFromField(datapoints, key, xRows, xd.field);
    }
    datapoints := UpdateAll(datapoints, plan.revision, Basename(y.file), y.field);
    BlockPipeline(plan, i);
    return Success(datapoints);
  }

  /** Sets `key` from `field` of the paired records, one record at a time. */
  method UpdateFromField(rows: seq<Record>, key: string, sources: seq<Record>, field: string)
    returns (r: seq<Record>)
    requires |sources| == |rows|
    ensures r == FromField(rows, key, sources, field)
  {
    r := rows;
    var j := 0;
    while j < |r|
      invariant 0 <= j <= |r| == |rows|
      invariant forall k :: 0 <= k < j ==> r[k] == FromField(rows, key, sources, field)[k]
      invariant forall k :: j <= k < |r| ==> r[k] == rows[k]
    {
      if field in sources[j] {
        r := r[j := r[j][key := sources[j][field]]];
      }
      j := j + 1;
    }
  }

  /** Sets `key` to the record index, one record at a time. */
  method UpdateFromIndex(rows: seq<Record>, key: string) returns (r: seq<Record>)
    ensures r == FromIndex(rows, key)
  {
    r := rows;
    var j := 0;
    while j < |r|
      invariant 0 <= j <= |r| == |rows|
      invariant forall k :: 0 <= k < j ==> r[k] == FromIndex(rows, key)[k]
      invariant forall k :: j <= k < |r| ==> r[k] == rows[k]
    {
      r := r[j := r[j][key := Int(j)]];
      j := j + 1;
    }
  }

  /** Stamps the provenance, one record at a time. */
  method UpdateAll(rows: seq<Record>, revision: string, filename: string, field: string)
    returns (r: seq<Record>)
    ensures r == WithAll(rows, revision, filename, field)
  {
    r := rows;
    var j := 0;
    while j < |r|
      invariant 0 <= j <= |r| == |rows|
      invariant forall k :: 0 <= k < j ==> r[k] == WithAll(rows, revision, filename, field)[k]
      invariant forall k :: j <= k < |r| ==> r[k] == rows[k]
    {
      r := r[j := r[j][REVISION := Str(revision)][FILENAME := Str(filename)][FIELD := Str(field)]];
      j := j + 1;
    }
  }
}

/**
 The plot properties a caller passes in (`x`, `y`, `x_label`, `y_label`), the
 per-source field definitions they denote, the x/y inference the converter
 performs when it is constructed, and the axis labels.
 */
module PlotProperties {
  import opened Wrappers
  import opened JsonData
  import opened ListDiscovery
  import opened RenderKeys

  /** The value of one source in a per-source mapping: a name or a list of names. */
  datatype FieldSel = One(name: string) | Many(names: seq<string>)

  /** An `x` or `y` property: absent, one field name, a list of field names,
      or a mapping from source name to field name(s), in the mapping's order. */
  datatype FieldRef =
    | Absent
    | Field(name: string)
    | Fields(names: seq<string>)
    | PerSource(sources: seq<(string, FieldSel)>)

  datatype Config = Config(x: FieldRef, y: FieldRef, xLabel: Option<string>, yLabel: Option<string>)

  /** One (source, field) pair. */
  datatype Def = Def(file: string, field: string)

  function SelNames(sel: FieldSel): seq<string>
  {
    match sel
    case One(n) => [n]
    case Many(ns) => ns
  }

  function SelDefs(file: string, sel: FieldSel): (defs: seq<Def>)
    ensures |defs| == |SelNames(sel)|
    ensures forall i :: 0 <= i < |defs| ==> defs[i] == Def(file, SelNames(sel)[i])
  {
    var ns := SelNames(sel);
    seq(|ns|, i requires 0 <= i < |ns| => Def(file, ns[i]))
  }

  /** The (source, field) pairs of a per-source mapping, source by source and,
      within a source, in the listed order (`_file_field`). */
  function SourceDefs(sources: seq<(string, FieldSel)>): seq<Def>
  {
    if sources == [] then [] else SelDefs(sources[0].0, sources[0].1) + SourceDefs(sources[1..])
  }

  /** Only a per-source mapping denotes (source, field) pairs. */
  function FileFields(ref: FieldRef): seq<Def>
  {
    if ref.PerSource? then SourceDefs(ref.sources) else []
  }

  /** The distinct field names of some definitions. */
  function FieldSet(defs: seq<Def>): set<string>
  {
    set d | d in defs :: d.field
  }

  /** Two of the definitions name different fields. */
  predicate Distinct(defs: seq<Def>)
  {
    exists a, b :: 0 <= a < |defs| && 0 <= b < |defs| && defs[a].field != defs[b].field
  }

  function Repeat(name: string, count: nat): (r: seq<string>)
    ensures |r| == count && forall i :: 0 <= i < count ==> r[i] == name
  {
    seq(count, _ => name)
  }

  /** The x mapping inferred from a single x name: every y source gets that
      name once per y field it lists; without a y mapping, the plot's own
      source gets it. Other x values are kept. */
  function InferX(plotId: string, x: FieldRef, y: FieldRef): FieldRef
  {
    match x
    case Field(n) =>
      if y.PerSource? then
        var ss := y.sources;
        PerSource(seq(|ss|, i requires 0 <= i < |ss| =>
          (ss[i].0, match ss[i].1 case One(_) => One(n) case Many(ns) => Many(Repeat(n, |ns|)))))
      else PerSource([(plotId, One(n))])
    case _ => x
  }

  /** The y mapping: a name or list of names applies to the plot's own source;
      an absent y is inferred from that source's data. */
  function InferY(plotId: string, data: map<string, Json>, y: FieldRef): FieldRef
  {
    match y
    case Absent => if plotId in data then DefaultY(plotId, Lists(data[plotId])) else Absent
    case Field(n) => PerSource([(plotId, One(n))])
    case Fields(ns) => PerSource([(plotId, Many(ns))])
    case PerSource(_) => y
  }

  /** A non-empty list whose elements are all objects. */
  predicate AllObjects(l: seq<Json>)
  {
    |l| > 0 && forall i :: 0 <= i < |l| ==> l[i].Obj?
  }

  /** The first discovered list made only of objects decides the default y:
      the last key of its first object. */
  function DefaultY(plotId: string, lists: seq<seq<Json>>): (r: FieldRef)
    ensures r.Absent? || (r.PerSource? && |r.sources| == 1 && r.sources[0].0 == plotId && r.sources[0].1.One?)
  {
    if lists == [] then Absent
    else
      var l := lists[0];
      if AllObjects(l) then
        var es := l[0].entries;
        if es == [] then Absent else PerSource([(plotId, One(es[|es| - 1].key))])
      else DefaultY(plotId, lists[1..])
  }

  /** The default y is the last key of the first object of the first list
      made only of objects, on the plot's own source. */
  lemma {:induction false} DefaultYOfFirst(plotId: string, lists: seq<seq<Json>>, t: nat)
    requires t < |lists| && AllObjects(lists[t])
    requires forall u :: 0 <= u < t ==> !AllObjects(lists[u])
    ensures var es := lists[t][0].entries;
            DefaultY(plotId, lists) == if es == [] then Absent else PerSource([(plotId, One(es[|es| - 1].key))])
    decreases t
  {
    if t > 0 {
      assert !AllObjects(lists[0]);
      forall u | 0 <= u < t - 1
        ensures !AllObjects(lists[1..][u])
      {
        assert lists[1..][u] == lists[u + 1];
      }
      DefaultYOfFirst(plotId, lists[1..], t - 1);
    }
  }

  /** Without a list made only of objects there is no default y. */
  lemma {:induction false} DefaultYAbsent(plotId: string, lists: seq<seq<Json>>)
    requires forall u :: 0 <= u < |lists| ==> !AllObjects(lists[u])
    ensures DefaultY(plotId, lists) == Absent
    decreases |lists|
  {
    if lists != [] {
      assert !AllObjects(lists[0]);
      forall u | 0 <= u < |lists| - 1
        ensures !AllObjects(lists[1..][u])
      {
        assert lists[1..][u] == lists[u + 1];
      }
      DefaultYAbsent(plotId, lists[1..]);
    }
  }

  /** A y name, a list of y names or an inferred y applies to the plot's own
      source only, one definition per name in the listed order. */
  lemma InferYOwnSource(plotId: string, data: map<string, Json>, y: FieldRef)
    requires !y.PerSource?
    ensures forall d :: d in FileFields(InferY(plotId, data, y)) ==> d.file == plotId
    ensures y.Field? ==> FileFields(InferY(plotId, data, y)) == [Def(plotId, y.name)]
    ensures y.Fields? ==>
              var defs := FileFields(InferY(plotId, data, y));
              |defs| == |y.names| && forall i :: 0 <= i < |defs| ==> defs[i] == Def(plotId, y.names[i])
  {
    var inferred := InferY(plotId, data, y);
    if inferred.PerSource? {
      assert |inferred.sources| == 1 && inferred.sources[0].0 == plotId;
      var defs := SelDefs(plotId, inferred.sources[0].1);
      assert inferred.sources[1..] == [] && SourceDefs(inferred.sources[1..]) == [];
      assert SourceDefs(inferred.sources) == defs + [] == defs;
    }
  }

  /** The properties after the inference done at construction. */
  function InferredConfig(plotId: string, data: map<string, Json>, props: Config): Config
  {
    props.(x := InferX(plotId, props.x, props.y), y := InferY(plotId, data, props.y))
  }

  /** The single field name all definitions share, or `fallback`. */
  function SharedField(defs: seq<Def>, fallback: string): string
  {
    if defs != [] && |FieldSet(defs)| == 1 then defs[0].field else fallback
  }

  /** `infer_x_label`: an explicit label wins; otherwise the common field of a
      per-source x mapping, "x" when the sources differ, "step" without one. */
  function InferXLabel(props: Config): string
  {
    if props.xLabel.Some? then props.xLabel.value
    else if !props.x.PerSource? then STEP
    else SharedField(FileFields(props.x), "x")
  }

  /** `infer_y_label`: an explicit label wins; otherwise the y name, "y" for a
      list of names, the common field of a per-source mapping or "y", and no
      label without a y. */
  function InferYLabel(props: Config): Option<string>
  {
    if props.yLabel.Some? then props.yLabel
    else match props.y
      case Absent => None
      case Field(n) => Some(n)
      case Fields(_) => Some("y")
      case PerSource(_) => Some(SharedField(FileFields(props.y), "y"))
  }

  /** More than one distinct field name exactly when two definitions differ. */
  lemma ManyFieldsIff(defs: seq<Def>)
    ensures |FieldSet(defs)| > 1 <==> Distinct(defs)
  {
    if Distinct(defs) {
      var a, b :| 0 <= a < |defs| && 0 <= b < |defs| && defs[a].field != defs[b].field;
      assert {defs[a].field, defs[b].field} <= FieldSet(defs);
      assert |{defs[a].field, defs[b].field}| == 2;
      SubsetSize({defs[a].field, defs[b].field}, FieldSet(defs));
    } else if defs != [] {
      assert FieldSet(defs) == {defs[0].field};
    } else {
      assert FieldSet(defs) == {};
    }
  }

  lemma SubsetSize(a: set<string>, b: set<string>)
    requires a <= b
    ensures |a| <= |b|
  {
    assert b == a + (b - a);
  }

  /** The shared field is the name every definition has, and the fallback as
      soon as two definitions differ (or there are none). */
  lemma SharedFieldIff(defs: seq<Def>, fallback: string)
    ensures !Distinct(defs) && defs != [] ==>
              SharedField(defs, fallback) == defs[0].field
              && forall d :: d in defs ==> d.field == SharedField(defs, fallback)
    ensures Distinct(defs) || defs == [] ==> SharedField(defs, fallback) == fallback
  {
    ManyFieldsIff(defs);
    if defs != [] {
      assert defs[0].field in FieldSet(defs);
    }
  }

  /** The label helper on a per-source x mapping: the common field name when
      every source maps to the same one, "x" when two of them differ. */
  lemma InferXLabelCommon(props: Config, name: string)
    requires props.xLabel.None? && props.x.PerSource?
    ensures FileFields(props.x) != [] && (forall d :: d in FileFields(props.x) ==> d.field == name) ==>
              InferXLabel(props) == name
    ensures Distinct(FileFields(props.x)) ==> InferXLabel(props) == "x"
  {
    SharedFieldIff(FileFields(props.x), "x");
  }

  /** Per-source definitions list every named field of every source, in order. */
  lemma {:induction false} SourceDefsAppend(a: seq<(string, FieldSel)>, b: seq<(string, FieldSel)>)
    ensures SourceDefs(a + b) == SourceDefs(a) + SourceDefs(b)
  {
    if a == [] {
      assert a + b == b;
    } else {
      assert (a + b)[1..] == a[1..] + b;
      SourceDefsAppend(a[1..], b);
    }
  }

  /** An x name given once is paired with every y definition: the inferred x
      mapping yields as many definitions as the y mapping, from the same
      sources in the same order, all naming that x field. */
  lemma {:induction false} InferXPairsWithY(plotId: string, n: string, sources: seq<(string, FieldSel)>)
    ensures var xs := FileFields(InferX(plotId, Field(n), PerSource(sources)));
            var ys := SourceDefs(sources);
            |xs| == |ys| && forall i :: 0 <= i < |xs| ==> xs[i] == Def(ys[i].file, n)
  {
    if sources != [] {
      InferXPairsWithY(plotId, n, sources[1..]);
      var inferred := InferX(plotId, Field(n), PerSource(sources)).sources;
      var rest := InferX(plotId, Field(n), PerSource(sources[1..])).sources;
      assert inferred == [inferred[0]] + rest;
    }
  }
}

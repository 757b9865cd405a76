/**
 The converter's test table, case by case: list discovery, the conversions
 with their datapoints and properties, the two failures and the x label
 helper, each on the exact inputs and outputs the tests list. Every
 conversion is plotted as "f" at revision "r".
 */
module ConverterCases {
  import opened Wrappers
  import opened JsonData
  import opened ListDiscovery
  import opened SourceTable
  import opened PlotProperties
  import opened RenderKeys
  import opened Vega
  import opened CaseSupport

  // test_finding_lists

  /** An empty dictionary holds no list. */
  lemma ListsOfEmpty()
    ensures Lists(Obj([])) == []
  {
  }

  /** A list under a top-level key is found whole. */
  lemma ListsOfFlat()
    ensures Lists(Obj([Entry("x", Arr([Str("a"), Str("b"), Str("c")]))])) == [[Str("a"), Str("b"), Str("c")]]
  {
    assert EntryLists([Entry("x", Arr([Str("a"), Str("b"), Str("c")]))]) ==
           [[Str("a"), Str("b"), Str("c")]] + EntryLists([]);
  }

  /** Lists nested one level down are found in key order. */
  lemma ListsInKeyOrder()
    ensures
      Lists(Obj([Entry("x", Obj([Entry("y", Arr([Str("a"), Str("b")]))])),
                 Entry("z", Obj([Entry("w", Arr([Str("c"), Str("d")]))]))])) ==
        [[Str("a"), Str("b")], [Str("c"), Str("d")]]
  {
    var x := Entry("x", Obj([Entry("y", Arr([Str("a"), Str("b")]))]));
    var z := Entry("z", Obj([Entry("w", Arr([Str("c"), Str("d")]))]));
    assert EntryLists([Entry("y", Arr([Str("a"), Str("b")]))]) == [[Str("a"), Str("b")]] + EntryLists([]);
    assert EntryLists([Entry("w", Arr([Str("c"), Str("d")]))]) == [[Str("c"), Str("d")]] + EntryLists([]);
    assert EntryLists([z]) == Lists(z.value) + EntryLists([]);
    assert EntryLists([x, z]) == Lists(x.value) + EntryLists([z]);
  }

  // default_x_y

  const DefaultItems := [Obj([Entry("v", Int(1))]), Obj([Entry("v", Int(2))])]
  const DefaultData := map["f" := OneList("metric", DefaultItems)]
  const DefaultProps := Config(Absent, Absent, None, None)
  const DefaultCfg := Config(Absent, PerSource([("f", One("v"))]), None, None)
  const DefaultTable: seq<Record> := [map["v" := Int(1)], map["v" := Int(2)]]
  const DefaultPlan := Plan(map["f" := DefaultTable], [], [Def("f", "v")], Revision)
  const DefaultPoints := [
    Datapoint(map["v" := Int(1), STEP := Int(0)], "f", "v"),
    Datapoint(map["v" := Int(2), STEP := Int(1)], "f", "v")]
  const DefaultProperties := Properties(STEP, "v", STEP, Some("v"), [YDefinition("f", "v")])

  lemma DefaultTableOf()
    ensures IsDatapoints(DefaultItems)
    ensures Lists(OneList("metric", DefaultItems)) == [DefaultItems]
    ensures Datapoints(OneList("metric", DefaultItems)) == DefaultTable
  {
    RecordOfOne("v", Int(1));
    RecordOfOne("v", Int(2));
    TwoObjectTable("metric", [Entry("v", Int(1))], [Entry("v", Int(2))]);
  }

  lemma DefaultPlanOf()
    ensures InferredConfig("f", DefaultData, DefaultProps) == DefaultCfg
    ensures PlanOf(DefaultCfg, DefaultData, Revision) == DefaultPlan
  {
    DefaultTableOf();
    TablesOfOne("f", OneList("metric", DefaultItems));
  }

  lemma DefaultSeries()
    ensures Ready(DefaultPlan) && DefaultPlan.Points(1) == DefaultPoints
  {
    var plan := DefaultPlan;
    assert FieldSet(plan.ys) == {"v"};
    NameOfF();
    FromIndexTwo(DefaultTable[0], DefaultTable[1], STEP);
    WithAllTwo(DefaultTable[0][STEP := Int(0)], DefaultTable[1][STEP := Int(1)], "f", "v");
    assert plan.Points(1) == plan.Block(0);
  }

  lemma DefaultLabels()
    ensures InferXLabel(DefaultCfg) == STEP && InferYLabel(DefaultCfg) == Some("v")
  {
    assert FileFields(DefaultCfg.y) == [Def("f", "v")];
    assert FieldSet([Def("f", "v")]) == {"v"};
  }

  lemma DefaultResolved()
    ensures DefaultPlan.Resolve(DefaultCfg) == DefaultProperties
  {
    DefaultLabels();
    NameOfF();
    assert FieldSet(DefaultPlan.ys) == {"v"};
    assert DefaultPlan.Anchors() == [YDefinition("f", "v")];
  }

  /** default_x_y: without x the step index is the x axis; without y the last
      field of the first record of the plot's own source is the y axis. */
  lemma DefaultXY()
    ensures Flat("f", DefaultData, DefaultProps, Revision) == Success((DefaultPoints, DefaultProperties))
  {
    DefaultPlanOf();
    DefaultSeries();
    DefaultResolved();
    FlatByPlan("f", DefaultData, DefaultProps, DefaultCfg, DefaultPlan, DefaultPoints, DefaultProperties);
  }

  // Records shared by several cases.

  const R1 := map["v" := Int(1), "v2" := Num(1, 1)]
  const R2 := map["v" := Int(2), "v2" := Num(2, 1)]
  const Items12 := [Obj([Entry("v", Int(1)), Entry("v2", Num(1, 1))]), Obj([Entry("v", Int(2)), Entry("v2", Num(2, 1))])]

  /** The table of the two-record metric list most cases use. */
  lemma Items12Table()
    ensures IsDatapoints(Items12)
    ensures Lists(OneList("metric", Items12)) == [Items12]
    ensures Datapoints(OneList("metric", Items12)) == [R1, R2]
  {
    RecordOfTwo("v", Int(1), "v2", Num(1, 1));
    RecordOfTwo("v", Int(2), "v2", Num(2, 1));
    TwoObjectTable("metric", [Entry("v", Int(1)), Entry("v2", Num(1, 1))], [Entry("v", Int(2)), Entry("v2", Num(2, 1))]);
  }

  // choose_x_y and find_in_nested_structure

  const ChooseData := map["f" := OneList("metric", Items12)]
  const ChooseCfg := Config(PerSource([("f", One("v"))]), PerSource([("f", One("v2"))]), None, None)
  const ChoosePlan := Plan(map["f" := [R1, R2]], [Def("f", "v")], [Def("f", "v2")], Revision)
  const ChoosePoints := [Datapoint(R1, "f", "v2"), Datapoint(R2, "f", "v2")]

  lemma ChoosePlanOf()
    ensures InferredConfig("f", ChooseData, Config(Field("v"), Field("v2"), None, None)) == ChooseCfg
    ensures PlanOf(ChooseCfg, ChooseData, Revision) == ChoosePlan
  {
    Items12Table();
    TablesOfOne("f", OneList("metric", Items12));
  }

  lemma ChooseSeries()
    ensures Ready(ChoosePlan) && ChoosePlan.Points(1) == ChoosePoints
  {
    var plan := ChoosePlan;
    assert FieldSet(plan.ys) == {"v2"};
    assert plan.XFor(0) == Some(Def("f", "v")) && plan.XKey(0) == "v";
    OwnXSeries(plan, 0);
    NameOfF();
    WithAllTwo(R1, R2, "f", "v2");
    assert plan.Points(1) == plan.Block(0);
  }

  lemma ChooseResolved(cfg: Config, xLabel: string, yLabel: string)
    requires cfg == ChooseCfg.(xLabel := cfg.xLabel, yLabel := cfg.yLabel)
    requires InferXLabel(cfg) == xLabel && InferYLabel(cfg) == Some(yLabel)
    ensures ChoosePlan.Resolve(cfg) == Properties("v", "v2", xLabel, Some(yLabel), [YDefinition("f", "v2")])
  {
    NameOfF();
    assert FieldSet(ChoosePlan.ys) == {"v2"} && !ChoosePlan.ManyX();
    assert ChoosePlan.Anchors() == [YDefinition("f", "v2")];
  }

  lemma ChooseLabels()
    ensures InferXLabel(ChooseCfg) == "v" && InferYLabel(ChooseCfg) == Some("v2")
  {
    assert FileFields(ChooseCfg.x) == [Def("f", "v")] && FieldSet([Def("f", "v")]) == {"v"};
    assert FileFields(ChooseCfg.y) == [Def("f", "v2")] && FieldSet([Def("f", "v2")]) == {"v2"};
  }

  /** choose_x_y: the named fields are the axes and name the axes. */
  lemma ChooseXY()
    ensures
      Flat("f", ChooseData, Config(Field("v"), Field("v2"), None, None), Revision) ==
        Success((ChoosePoints, Properties("v", "v2", "v", Some("v2"), [YDefinition("f", "v2")])))
  {
    ChoosePlanOf();
    ChooseSeries();
    ChooseLabels();
    ChooseResolved(ChooseCfg, "v", "v2");
    FlatByPlan("f", ChooseData, Config(Field("v"), Field("v2"), None, None), ChooseCfg, ChoosePlan,
      ChoosePoints, Properties("v", "v2", "v", Some("v2"), [YDefinition("f", "v2")]));
  }

  const NestedData := map["f" := Obj([
    Entry("some", Str("noise")),
    Entry("very", Obj([Entry("nested", OneList("metric", Items12))]))])]
  const NestedProps := Config(Field("v"), Field("v2"), Some("x"), Some("y"))
  const NestedCfg := ChooseCfg.(xLabel := Some("x"), yLabel := Some("y"))

  lemma NestedPlanOf()
    ensures InferredConfig("f", NestedData, NestedProps) == NestedCfg
    ensures PlanOf(NestedCfg, NestedData, Revision) == ChoosePlan
  {
    Items12Table();
    var very := Entry("very", Obj([Entry("nested", OneList("metric", Items12))]));
    assert EntryLists([Entry("nested", OneList("metric", Items12))]) == [Items12] + EntryLists([]);
    assert EntryLists([very]) == [Items12] + EntryLists([]);
    assert EntryLists([Entry("some", Str("noise")), very]) == [] + EntryLists([very]);
    SingleListTable(NestedData["f"], Items12);
    TablesOfOne("f", NestedData["f"]);
  }

  /** find_in_nested_structure: a list nested below a scalar and two levels of
      objects is found, and explicit labels replace the inferred ones. */
  lemma FindInNestedStructure()
    ensures
      Flat("f", NestedData, NestedProps, Revision) ==
        Success((ChoosePoints, Properties("v", "v2", "x", Some("y"), [YDefinition("f", "v2")])))
  {
    NestedPlanOf();
    ChooseSeries();
    ChooseResolved(NestedCfg, "x", "y");
    FlatByPlan("f", NestedData, NestedProps, NestedCfg, ChoosePlan,
      ChoosePoints, Properties("v", "v2", "x", Some("y"), [YDefinition("f", "v2")]));
  }

  // y_def_list and y_list

  const YListData := map["f" := OneList("metric", Items12)]
  const YListCfg := Config(Absent, PerSource([("f", Many(["v", "v2"]))]), None, None)
  const YListPlan := Plan(map["f" := [R1, R2]], [], [Def("f", "v"), Def("f", "v2")], Revision)
  const YListPoints := [
    Datapoint(R1[INFERRED_Y := Int(1)][STEP := Int(0)], "f", "v"),
    Datapoint(R2[INFERRED_Y := Int(2)][STEP := Int(1)], "f", "v"),
    Datapoint(R1[INFERRED_Y := Num(1, 1)][STEP := Int(0)], "f", "v2"),
    Datapoint(R2[INFERRED_Y := Num(2, 1)][STEP := Int(1)], "f", "v2")]
  const YListProperties :=
    Properties(STEP, INFERRED_Y, STEP, Some("y"), [YDefinition("f", "v"), YDefinition("f", "v2")])

  lemma YListFields()
    ensures FileFields(YListCfg.y) == [Def("f", "v"), Def("f", "v2")]
    ensures FieldSet([Def("f", "v"), Def("f", "v2")]) == {"v", "v2"}
  {
    assert SelDefs("f", Many(["v", "v2"])) == [Def("f", "v"), Def("f", "v2")];
  }

  lemma YListPlanOf(y: FieldRef)
    requires y == YListCfg.y || y == Fields(["v", "v2"])
    ensures InferredConfig("f", YListData, Config(Absent, y, None, None)) == YListCfg
    ensures PlanOf(YListCfg, YListData, Revision) == YListPlan
  {
    Items12Table();
    TablesOfOne("f", OneList("metric", Items12));
    YListFields();
  }

  lemma YListBlock(i: nat)
    requires i < 2
    ensures YListPlan.Paired() && !YListPlan.Unequal(i)
    ensures YListPlan.Block(i) == if i == 0 then YListPoints[..2] else YListPoints[2..]
  {
    var plan := YListPlan;
    YListFields();
    NameOfF();
    assert plan.YRows(i) == [R1, R2] && plan.ys[i].field in R1 && plan.ys[i].field in R2;
    StepSeries(plan, i, R1, R2);
  }

  lemma YListFound()
    ensures forall d :: d in YListPlan.xs ==> !Missing(YListPlan.tables, d)
    ensures forall d :: d in YListPlan.ys ==> !Missing(YListPlan.tables, d)
  {
  }

  lemma YListSeries()
    ensures Ready(YListPlan) && YListPlan.Points(2) == YListPoints
  {
    YListFound();
    YListBlock(0);
    YListBlock(1);
    TwoSeries(YListPlan, YListPoints, 2);
  }

  lemma YListResolved()
    ensures YListPlan.Resolve(YListCfg) == YListProperties
  {
    YListFields();
    NameOfF();
    assert YListPlan.Anchors() == [YDefinition("f", "v"), YDefinition("f", "v2")];
  }

  /** y_def_list: a per-source list of y fields makes one series per field,
      each with its y value under the inferred key and the step index as x. */
  lemma YDefList()
    ensures Flat("f", YListData, YListCfg, Revision) == Success((YListPoints, YListProperties))
  {
    YListPlanOf(YListCfg.y);
    YListSeries();
    YListResolved();
    FlatByPlan("f", YListData, YListCfg, YListCfg, YListPlan, YListPoints, YListProperties);
  }

  /** y_list: a bare list of y fields applies to the plot's own source. */
  lemma YList()
    ensures
      Flat("f", YListData, Config(Absent, Fields(["v", "v2"]), None, None), Revision) ==
        Success((YListPoints, YListProperties))
  {
    YListPlanOf(Fields(["v", "v2"]));
    YListSeries();
    YListResolved();
    FlatByPlan("f", YListData, Config(Absent, Fields(["v", "v2"]), None, None), YListCfg, YListPlan,
      YListPoints, YListProperties);
  }

  // multi_source_json

  const VItems := [Obj([Entry("v", Int(1))]), Obj([Entry("v", Int(2))])]
  const ZItems := [Obj([Entry("z", Int(3))]), Obj([Entry("z", Int(4))])]
  const TwoListContent := Obj([Entry("metric", Arr(VItems)), Entry("other_metric", Arr(ZItems))])
  const M1 := map["v" := Int(1), "z" := Int(3)]
  const M2 := map["v" := Int(2), "z" := Int(4)]
  const TwoListCfg := Config(Absent, PerSource([("f", Many(["v", "z"]))]), None, None)
  const TwoListPlan := Plan(map["f" := [M1, M2]], [], [Def("f", "v"), Def("f", "z")], Revision)
  const TwoListPoints := [
    Datapoint(M1[INFERRED_Y := Int(1)][STEP := Int(0)], "f", "v"),
    Datapoint(M2[INFERRED_Y := Int(2)][STEP := Int(1)], "f", "v"),
    Datapoint(M1[INFERRED_Y := Int(3)][STEP := Int(0)], "f", "z"),
    Datapoint(M2[INFERRED_Y := Int(4)][STEP := Int(1)], "f", "z")]
  const TwoListProperties :=
    Properties(STEP, INFERRED_Y, STEP, Some("y"), [YDefinition("f", "v"), YDefinition("f", "z")])

  lemma TwoListLists()
    ensures Lists(TwoListContent) == [VItems, ZItems]
  {
    assert EntryLists([Entry("other_metric", Arr(ZItems))]) == [ZItems] + EntryLists([]);
    assert EntryLists(TwoListContent.entries) == [VItems] + EntryLists([Entry("other_metric", Arr(ZItems))]);
  }

  lemma TwoListRecords()
    ensures RecordLists([VItems, ZItems]) ==
      [[map["v" := Int(1)], map["v" := Int(2)]], [map["z" := Int(3)], map["z" := Int(4)]]]
  {
    RecordOfOne("v", Int(1));
    RecordOfOne("v", Int(2));
    RecordOfOne("z", Int(3));
    RecordOfOne("z", Int(4));
    RowsOfTwoObjects([Entry("v", Int(1))], [Entry("v", Int(2))]);
    RowsOfTwoObjects([Entry("z", Int(3))], [Entry("z", Int(4))]);
    RecordListsOfTwo(VItems, ZItems);
  }

  lemma TwoListMerge()
    ensures MergeAll([[map["v" := Int(1)], map["v" := Int(2)]], [map["z" := Int(3)], map["z" := Int(4)]]]) == [M1, M2]
  {
    var a := [map["v" := Int(1)], map["v" := Int(2)]];
    var b := [map["z" := Int(3)], map["z" := Int(4)]];
    MergeTwo(a, b);
    assert a[0] + b[0] == M1;
    assert a[1] + b[1] == M2;
  }

  lemma TwoListTable()
    ensures Datapoints(TwoListContent) == [M1, M2]
  {
    TwoListLists();
    TwoListRecords();
    TwoListMerge();
  }

  lemma TwoListFields()
    ensures FileFields(TwoListCfg.y) == [Def("f", "v"), Def("f", "z")]
    ensures FieldSet([Def("f", "v"), Def("f", "z")]) == {"v", "z"}
  {
    assert SelDefs("f", Many(["v", "z"])) == [Def("f", "v"), Def("f", "z")];
  }

  lemma TwoListBlock(i: nat)
    requires i < 2
    ensures TwoListPlan.Paired() && !TwoListPlan.Unequal(i)
    ensures TwoListPlan.Block(i) == if i == 0 then TwoListPoints[..2] else TwoListPoints[2..]
  {
    var plan := TwoListPlan;
    TwoListFields();
    NameOfF();
    assert plan.YRows(i) == [M1, M2] && plan.ys[i].field in M1 && plan.ys[i].field in M2;
    StepSeries(plan, i, M1, M2);
  }

  lemma TwoListFound()
    ensures forall d :: d in TwoListPlan.xs ==> !Missing(TwoListPlan.tables, d)
    ensures forall d :: d in TwoListPlan.ys ==> !Missing(TwoListPlan.tables, d)
  {
  }

  lemma TwoListSeries()
    ensures Ready(TwoListPlan) && TwoListPlan.Points(2) == TwoListPoints
  {
    TwoListFound();
    TwoListBlock(0);
    TwoListBlock(1);
    TwoSeries(TwoListPlan, TwoListPoints, 2);
  }

  lemma TwoListResolved()
    ensures TwoListPlan.Resolve(TwoListCfg) == TwoListProperties
  {
    TwoListFields();
    NameOfF();
    assert TwoListPlan.Anchors() == [YDefinition("f", "v"), YDefinition("f", "z")];
  }

  /** multi_source_json: the two lists of one source are merged record by
      record into one table, and each y field is a series over it. */
  lemma MultiSourceJson()
    ensures
      Flat("f", map["f" := TwoListContent], TwoListCfg, Revision) == Success((TwoListPoints, TwoListProperties))
  {
    TwoListTable();
    TablesOfOne("f", TwoListContent);
    TwoListFields();
    TwoListSeries();
    TwoListResolved();
    FlatByPlan("f", map["f" := TwoListContent], TwoListCfg, TwoListCfg, TwoListPlan, TwoListPoints, TwoListProperties);
  }

  // multi_file_json

  const R3 := map["v" := Int(3), "v2" := Num(3, 1)]
  const R3Items := [Obj([Entry("v", Int(3)), Entry("v2", Num(3, 1))])]
  const MultiFileData := map["f" := OneList("metric", Items12), "f2" := OneList("metric", R3Items)]
  const MultiFileProps := Config(Field("v"), PerSource([("f", One("v2")), ("f2", One("v2"))]), None, None)
  const MultiFileCfg :=
    Config(PerSource([("f", One("v")), ("f2", One("v"))]), PerSource([("f", One("v2")), ("f2", One("v2"))]), None, None)
  const MultiFilePlan :=
    Plan(map["f" := [R1, R2], "f2" := [R3]], [Def("f", "v"), Def("f2", "v")], [Def("f", "v2"), Def("f2", "v2")], Revision)
  const MultiFilePoints := [Datapoint(R1, "f", "v2"), Datapoint(R2, "f", "v2"), Datapoint(R3, "f2", "v2")]
  const MultiFileProperties :=
    Properties("v", "v2", "v", Some("v2"), [YDefinition("f", "v2"), YDefinition("f2", "v2")])

  lemma R3Table()
    ensures Datapoints(OneList("metric", R3Items)) == [R3]
  {
    RecordOfTwo("v", Int(3), "v2", Num(3, 1));
    OneObjectTable("metric", [Entry("v", Int(3)), Entry("v2", Num(3, 1))]);
  }

  lemma MultiFileFields()
    ensures FileFields(MultiFileCfg.x) == [Def("f", "v"), Def("f2", "v")]
    ensures FileFields(MultiFileCfg.y) == [Def("f", "v2"), Def("f2", "v2")]
    ensures FieldSet([Def("f", "v"), Def("f2", "v")]) == {"v"}
    ensures FieldSet([Def("f", "v2"), Def("f2", "v2")]) == {"v2"}
  {
    SourceDefsOfTwo("f", One("v"), "f2", One("v"));
    SourceDefsOfTwo("f", One("v2"), "f2", One("v2"));
  }

  lemma MultiFileInferred()
    ensures InferredConfig("f", MultiFileData, MultiFileProps) == MultiFileCfg
  {
    InferXOverTwo("f", "v", "f", One("v2"), "f2", One("v2"));
  }

  lemma MultiFilePlanOf()
    ensures PlanOf(MultiFileCfg, MultiFileData, Revision) == MultiFilePlan
  {
    Items12Table();
    R3Table();
    TablesOfTwo("f", OneList("metric", Items12), "f2", OneList("metric", R3Items));
    MultiFileFields();
  }

  lemma MultiFileModes()
    ensures MultiFilePlan.Paired() && !MultiFilePlan.ManyY()
    ensures MultiFilePlan.XFor(0) == Some(Def("f", "v")) && MultiFilePlan.XKey(0) == "v"
    ensures MultiFilePlan.XFor(1) == Some(Def("f2", "v")) && MultiFilePlan.XKey(1) == "v"
  {
    MultiFileFields();
  }

  lemma MultiFileFirstBlock()
    ensures MultiFilePlan.Paired() && !MultiFilePlan.Unequal(0)
    ensures MultiFilePlan.Block(0) == MultiFilePoints[..2]
  {
    MultiFileModes();
    NameOfF();
    OwnXSeries(MultiFilePlan, 0);
    WithAllTwo(R1, R2, "f", "v2");
  }

  lemma MultiFileSecondBlock()
    ensures MultiFilePlan.Paired() && !MultiFilePlan.Unequal(1)
    ensures MultiFilePlan.Block(1) == MultiFilePoints[2..]
  {
    MultiFileModes();
    NameOfF2();
    OwnXSeries(MultiFilePlan, 1);
    WithAllOne(R3, "f2", "v2");
  }

  lemma MultiFileFound()
    ensures forall d :: d in MultiFilePlan.xs ==> !Missing(MultiFilePlan.tables, d)
    ensures forall d :: d in MultiFilePlan.ys ==> !Missing(MultiFilePlan.tables, d)
  {
  }

  lemma MultiFileSeries()
    ensures Ready(MultiFilePlan) && MultiFilePlan.Points(2) == MultiFilePoints
  {
    MultiFileFound();
    MultiFileFirstBlock();
    MultiFileSecondBlock();
    TwoSeries(MultiFilePlan, MultiFilePoints, 2);
  }

  lemma MultiFileResolved()
    ensures MultiFilePlan.Resolve(MultiFileCfg) == MultiFileProperties
  {
    MultiFileFields();
    NameOfF();
    NameOfF2();
    assert MultiFilePlan.Anchors() == [YDefinition("f", "v2"), YDefinition("f2", "v2")];
  }

  /** multi_file_json: a single x name applies to every y source, and one y
      field shared by two sources keeps its own name as the y axis. */
  lemma MultiFileJson()
    ensures Flat("f", MultiFileData, MultiFileProps, Revision) == Success((MultiFilePoints, MultiFileProperties))
  {
    MultiFileInferred();
    MultiFilePlanOf();
    MultiFileSeries();
    MultiFileResolved();
    FlatByPlan("f", MultiFileData, MultiFileProps, MultiFileCfg, MultiFilePlan, MultiFilePoints, MultiFileProperties);
  }

  // multi_source_y_single_x

  const S1 := map["v" := Int(1), "v2" := Num(1, 1), "v3" := Num(1, 2)]
  const S1Items := [Obj([Entry("v", Int(1)), Entry("v2", Num(1, 1)), Entry("v3", Num(1, 2))])]
  const R1Items := [Obj([Entry("v", Int(1)), Entry("v2", Num(1, 1))])]
  const SingleXData := map["f" := OneList("metric", S1Items), "f2" := OneList("metric", R1Items)]
  const SingleXY := PerSource([("f", Many(["v2", "v3"])), ("f2", Many(["v2"]))])
  const SingleXCfg := Config(PerSource([("f", Many(["v", "v"])), ("f2", Many(["v"]))]), SingleXY, None, None)
  const SingleXPlan := Plan(map["f" := [S1], "f2" := [R1]],
    [Def("f", "v"), Def("f", "v"), Def("f2", "v")], [Def("f", "v2"), Def("f", "v3"), Def("f2", "v2")], Revision)
  const SingleXPoints := [
    Datapoint(S1[INFERRED_Y := Num(1, 1)], "f", "v2"),
    Datapoint(S1[INFERRED_Y := Num(1, 2)], "f", "v3"),
    Datapoint(R1[INFERRED_Y := Num(1, 1)], "f2", "v2")]
  const SingleXProperties := Properties("v", INFERRED_Y, "v", Some("y"),
    [YDefinition("f", "v2"), YDefinition("f", "v3"), YDefinition("f2", "v2")])

  lemma S1Table()
    ensures Datapoints(OneList("metric", S1Items)) == [S1]
  {
    RecordOfThree("v", Int(1), "v2", Num(1, 1), "v3", Num(1, 2));
    OneObjectTable("metric", [Entry("v", Int(1)), Entry("v2", Num(1, 1)), Entry("v3", Num(1, 2))]);
  }

  lemma R1Table()
    ensures Datapoints(OneList("metric", R1Items)) == [R1]
  {
    RecordOfTwo("v", Int(1), "v2", Num(1, 1));
    OneObjectTable("metric", [Entry("v", Int(1)), Entry("v2", Num(1, 1))]);
  }

  lemma SingleXFields()
    ensures FileFields(SingleXCfg.x) == [Def("f", "v"), Def("f", "v"), Def("f2", "v")]
    ensures FileFields(SingleXY) == [Def("f", "v2"), Def("f", "v3"), Def("f2", "v2")]
    ensures FieldSet([Def("f", "v"), Def("f", "v"), Def("f2", "v")]) == {"v"}
    ensures FieldSet([Def("f", "v2"), Def("f", "v3"), Def("f2", "v2")]) == {"v2", "v3"}
  {
    SourceDefsOfTwo("f", Many(["v", "v"]), "f2", Many(["v"]));
    SourceDefsOfTwo("f", Many(["v2", "v3"]), "f2", Many(["v2"]));
    assert SelDefs("f", Many(["v", "v"])) == [Def("f", "v"), Def("f", "v")];
    assert SelDefs("f", Many(["v2", "v3"])) == [Def("f", "v2"), Def("f", "v3")];
  }

  lemma SingleXInferred()
    ensures InferredConfig("f", SingleXData, Config(Field("v"), SingleXY, None, None)) == SingleXCfg
  {
    InferXOverTwo("f", "v", "f", Many(["v2", "v3"]), "f2", Many(["v2"]));
    assert Repeat("v", 2) == ["v", "v"] && Repeat("v", 1) == ["v"];
  }

  lemma SingleXPlanOf()
    ensures PlanOf(SingleXCfg, SingleXData, Revision) == SingleXPlan
  {
    S1Table();
    R1Table();
    TablesOfTwo("f", OneList("metric", S1Items), "f2", OneList("metric", R1Items));
    SingleXFields();
  }

  lemma SingleXModes()
    ensures SingleXPlan.Paired() && SingleXPlan.ManyY() && !SingleXPlan.ManyX()
    ensures forall i :: 0 <= i < 3 ==> SingleXPlan.XFor(i) == Some(SingleXPlan.xs[i]) && SingleXPlan.XKey(i) == "v"
  {
    SingleXFields();
  }

  lemma SingleXBlock(i: nat)
    requires i < 3
    ensures SingleXPlan.Paired() && !SingleXPlan.Unequal(i)
    ensures SingleXPlan.Block(i) == [SingleXPoints[i]]
  {
    var plan := SingleXPlan;
    SingleXModes();
    NameOfF();
    NameOfF2();
    if i < 2 {
      OwnXInferredYSeries(plan, i, S1);
    } else {
      OwnXInferredYSeries(plan, i, R1);
    }
  }

  lemma SingleXFound()
    ensures forall d :: d in SingleXPlan.xs ==> !Missing(SingleXPlan.tables, d)
    ensures forall d :: d in SingleXPlan.ys ==> !Missing(SingleXPlan.tables, d)
  {
  }

  lemma SingleXFirstPoints()
    ensures SingleXPlan.Paired() && SingleXPlan.JoinableBelow(2)
    ensures SingleXPlan.Points(2) == SingleXPoints[..2]
  {
    var plan := SingleXPlan;
    SingleXBlock(0);
    SingleXBlock(1);
    assert plan.JoinableBelow(2);
    assert plan.Points(1) == plan.Points(0) + plan.Block(0);
    assert plan.Points(2) == plan.Points(1) + plan.Block(1);
  }

  lemma SingleXSeries()
    ensures Ready(SingleXPlan) && SingleXPlan.Points(3) == SingleXPoints
  {
    var plan := SingleXPlan;
    SingleXFound();
    SingleXFirstPoints();
    SingleXBlock(2);
    assert plan.JoinableBelow(3);
    assert plan.Points(3) == plan.Points(2) + plan.Block(2);
    assert SingleXPoints == SingleXPoints[..2] + [SingleXPoints[2]];
  }

  lemma SingleXAnchors()
    ensures SingleXPlan.Anchors() == SingleXProperties.anchors
  {
    NameOfF();
    NameOfF2();
  }

  lemma SingleXLabels()
    ensures InferXLabel(SingleXCfg) == "v" && InferYLabel(SingleXCfg) == Some("y")
  {
    SingleXFields();
  }

  lemma SingleXResolved()
    ensures SingleXPlan.Resolve(SingleXCfg) == SingleXProperties
  {
    SingleXModes();
    SingleXLabels();
    SingleXAnchors();
  }

  /** multi_source_y_single_x: a single x name is repeated for every y field
      of every y source, and several y fields make the y value inferred. */
  lemma MultiSourceYSingleX()
    ensures
      Flat("f", SingleXData, Config(Field("v"), SingleXY, None, None), Revision) ==
        Success((SingleXPoints, SingleXProperties))
  {
    SingleXInferred();
    SingleXPlanOf();
    SingleXSeries();
    SingleXResolved();
    FlatByPlan("f", SingleXData, Config(Field("v"), SingleXY, None, None), SingleXCfg, SingleXPlan,
      SingleXPoints, SingleXProperties);
  }

  // multi_file_y_same_prefix

  const PrefixData := map["dir/f" := OneList("metric", R1Items), "dir/f2" := OneList("metric", R1Items)]
  const PrefixY := PerSource([("dir/f", Many(["v2"])), ("dir/f2", Many(["v2"]))])
  const PrefixProps := Config(Field("v"), PrefixY, None, None)
  const PrefixCfg := Config(PerSource([("dir/f", Many(["v"])), ("dir/f2", Many(["v"]))]), PrefixY, None, None)
  const PrefixPlan := Plan(map["dir/f" := [R1], "dir/f2" := [R1]],
    [Def("dir/f", "v"), Def("dir/f2", "v")], [Def("dir/f", "v2"), Def("dir/f2", "v2")], Revision)
  const PrefixPoints := [Datapoint(R1, "f", "v2"), Datapoint(R1, "f2", "v2")]
  const PrefixProperties := Properties("v", "v2", "v", Some("v2"), [YDefinition("f", "v2"), YDefinition("f2", "v2")])

  lemma PrefixInferred()
    ensures InferredConfig("f", PrefixData, PrefixProps) == PrefixCfg
  {
    InferXOverTwo("f", "v", "dir/f", Many(["v2"]), "dir/f2", Many(["v2"]));
    assert Repeat("v", 1) == ["v"];
  }

  lemma PrefixFields()
    ensures FileFields(PrefixCfg.x) == [Def("dir/f", "v"), Def("dir/f2", "v")]
    ensures FileFields(PrefixY) == [Def("dir/f", "v2"), Def("dir/f2", "v2")]
    ensures FieldSet([Def("dir/f", "v"), Def("dir/f2", "v")]) == {"v"}
    ensures FieldSet([Def("dir/f", "v2"), Def("dir/f2", "v2")]) == {"v2"}
  {
    SourceDefsOfTwo("dir/f", Many(["v"]), "dir/f2", Many(["v"]));
    SourceDefsOfTwo("dir/f", Many(["v2"]), "dir/f2", Many(["v2"]));
    assert SelDefs("dir/f", Many(["v"])) == [Def("dir/f", "v")];
    assert SelDefs("dir/f2", Many(["v"])) == [Def("dir/f2", "v")];
    assert SelDefs("dir/f", Many(["v2"])) == [Def("dir/f", "v2")];
    assert SelDefs("dir/f2", Many(["v2"])) == [Def("dir/f2", "v2")];
  }

  lemma PrefixPlanOf()
    ensures PlanOf(PrefixCfg, PrefixData, Revision) == PrefixPlan
  {
    R1Table();
    TablesOfTwo("dir/f", OneList("metric", R1Items), "dir/f2", OneList("metric", R1Items));
    PrefixFields();
  }

  lemma PrefixFound()
    ensures forall d :: d in PrefixPlan.xs ==> !Missing(PrefixPlan.tables, d)
    ensures forall d :: d in PrefixPlan.ys ==> !Missing(PrefixPlan.tables, d)
  {
  }

  lemma PrefixModes()
    ensures PrefixPlan.Paired() && !PrefixPlan.ManyY()
    ensures PrefixPlan.XFor(0) == Some(Def("dir/f", "v")) && PrefixPlan.XKey(0) == "v"
    ensures PrefixPlan.XFor(1) == Some(Def("dir/f2", "v")) && PrefixPlan.XKey(1) == "v"
    ensures PrefixPlan.YRows(0) == [R1] && PrefixPlan.YRows(1) == [R1]
  {
    PrefixFields();
  }

  lemma PrefixBlocks()
    ensures PrefixPlan.Paired() && !PrefixPlan.Unequal(0) && !PrefixPlan.Unequal(1)
    ensures PrefixPlan.Block(0) == WithAll([R1], Revision, Basename("dir/f"), "v2")
    ensures PrefixPlan.Block(1) == WithAll([R1], Revision, Basename("dir/f2"), "v2")
  {
    PrefixModes();
    OwnXSeries(PrefixPlan, 0);
    OwnXSeries(PrefixPlan, 1);
  }

  lemma PrefixNamed()
    ensures WithAll([R1], Revision, Basename("dir/f"), "v2") == PrefixPoints[..1]
    ensures WithAll([R1], Revision, Basename("dir/f2"), "v2") == PrefixPoints[1..]
  {
    NamesInDir();
    WithAllOne(R1, "f", "v2");
    WithAllOne(R1, "f2", "v2");
  }

  lemma PrefixSeries()
    ensures Ready(PrefixPlan) && PrefixPlan.Points(2) == PrefixPoints
  {
    PrefixFound();
    PrefixBlocks();
    PrefixNamed();
    TwoSeries(PrefixPlan, PrefixPoints, 1);
  }

  lemma PrefixAnchors()
    ensures PrefixPlan.Anchors() == PrefixProperties.anchors
  {
    AnchorsOfTwo(PrefixPlan);
    NamesInDir();
  }

  lemma PrefixResolved()
    ensures PrefixPlan.Resolve(PrefixCfg) == PrefixProperties
  {
    PrefixFields();
    PrefixAnchors();
  }

  /** multi_file_y_same_prefix: sources in a directory are named by their
      file name alone in the datapoints and the anchors. */
  lemma MultiFileYSamePrefix()
    ensures Flat("f", PrefixData, PrefixProps, Revision) == Success((PrefixPoints, PrefixProperties))
  {
    PrefixInferred();
    PrefixPlanOf();
    PrefixSeries();
    PrefixResolved();
    FlatByPlan("f", PrefixData, PrefixProps, PrefixCfg, PrefixPlan, PrefixPoints, PrefixProperties);
  }

  // multiple_x_fields

  const X1 := map["x1" := Int(1), "v" := Num(1, 1)]
  const X2 := map["x2" := Int(100), "v" := Num(1, 1)]
  const X1Items := [Obj([Entry("x1", Int(1)), Entry("v", Num(1, 1))])]
  const X2Items := [Obj([Entry("x2", Int(100)), Entry("v", Num(1, 1))])]
  const MultiXData := map["f" := OneList("metric", X1Items), "f2" := OneList("metric", X2Items)]
  const MultiXCfg := Config(PerSource([("f", One("x1")), ("f2", One("x2"))]),
    PerSource([("f", Many(["v"])), ("f2", Many(["v"]))]), None, None)
  const MultiXPlan := Plan(map["f" := [X1], "f2" := [X2]],
    [Def("f", "x1"), Def("f2", "x2")], [Def("f", "v"), Def("f2", "v")], Revision)
  const MultiXPoints := [Datapoint(X1[INFERRED_X := Int(1)], "f", "v"), Datapoint(X2[INFERRED_X := Int(100)], "f2", "v")]
  const MultiXProperties := Properties(INFERRED_X, "v", "x", Some("v"), [YDefinition("f", "v"), YDefinition("f2", "v")])

  lemma MultiXTables()
    ensures Datapoints(OneList("metric", X1Items)) == [X1]
    ensures Datapoints(OneList("metric", X2Items)) == [X2]
  {
    RecordOfTwo("x1", Int(1), "v", Num(1, 1));
    RecordOfTwo("x2", Int(100), "v", Num(1, 1));
    OneObjectTable("metric", [Entry("x1", Int(1)), Entry("v", Num(1, 1))]);
    OneObjectTable("metric", [Entry("x2", Int(100)), Entry("v", Num(1, 1))]);
  }

  lemma MultiXFields()
    ensures FileFields(MultiXCfg.x) == [Def("f", "x1"), Def("f2", "x2")]
    ensures FileFields(MultiXCfg.y) == [Def("f", "v"), Def("f2", "v")]
    ensures FieldSet([Def("f", "x1"), Def("f2", "x2")]) == {"x1", "x2"}
    ensures FieldSet([Def("f", "v"), Def("f2", "v")]) == {"v"}
  {
    SourceDefsOfTwo("f", One("x1"), "f2", One("x2"));
    SourceDefsOfTwo("f", Many(["v"]), "f2", Many(["v"]));
    assert SelDefs("f", Many(["v"])) == [Def("f", "v")];
    assert SelDefs("f2", Many(["v"])) == [Def("f2", "v")];
  }

  lemma MultiXInferred()
    ensures InferredConfig("f", MultiXData, MultiXCfg) == MultiXCfg
  {
  }

  lemma MultiXPlanOf()
    ensures PlanOf(MultiXCfg, MultiXData, Revision) == MultiXPlan
  {
    MultiXTables();
    TablesOfTwo("f", OneList("metric", X1Items), "f2", OneList("metric", X2Items));
    MultiXFields();
  }

  lemma MultiXFound()
    ensures forall d :: d in MultiXPlan.xs ==> !Missing(MultiXPlan.tables, d)
    ensures forall d :: d in MultiXPlan.ys ==> !Missing(MultiXPlan.tables, d)
  {
  }

  lemma MultiXModes()
    ensures MultiXPlan.Paired() && !MultiXPlan.ManyY()
    ensures MultiXPlan.XFor(0) == Some(Def("f", "x1")) && MultiXPlan.XKey(0) == INFERRED_X
    ensures MultiXPlan.XFor(1) == Some(Def("f2", "x2")) && MultiXPlan.XKey(1) == INFERRED_X
    ensures MultiXPlan.YRows(0) == [X1] && MultiXPlan.YRows(1) == [X2]
    ensures MultiXPlan.XRows(0) == [X1] && MultiXPlan.XRows(1) == [X2]
  {
    MultiXFields();
  }

  lemma MultiXBlock(i: nat)
    requires i < 2
    ensures MultiXPlan.Paired() && !MultiXPlan.Unequal(i)
    ensures MultiXPlan.Block(i) == if i == 0 then MultiXPoints[..1] else MultiXPoints[1..]
  {
    MultiXModes();
    NameOfF();
    NameOfF2();
    if i == 0 {
      OneRecordXSeries(MultiXPlan, 0, X1, X1);
    } else {
      OneRecordXSeries(MultiXPlan, 1, X2, X2);
    }
  }

  lemma MultiXSeries()
    ensures Ready(MultiXPlan) && MultiXPlan.Points(2) == MultiXPoints
  {
    MultiXFound();
    MultiXBlock(0);
    MultiXBlock(1);
    TwoSeries(MultiXPlan, MultiXPoints, 1);
  }

  lemma MultiXLabels()
    ensures InferXLabel(MultiXCfg) == "x" && InferYLabel(MultiXCfg) == Some("v")
  {
    MultiXFields();
  }

  lemma MultiXResolved()
    ensures MultiXPlan.Resolve(MultiXCfg) == MultiXProperties
  {
    MultiXFields();
    MultiXLabels();
    AnchorsOfTwo(MultiXPlan);
    NameOfF();
    NameOfF2();
  }

  /** multiple_x_fields: x fields that differ between sources make the x
      value inferred, and the x label falls back to "x". */
  lemma MultipleXFields()
    ensures Flat("f", MultiXData, MultiXCfg, Revision) == Success((MultiXPoints, MultiXProperties))
  {
    MultiXInferred();
    MultiXPlanOf();
    MultiXSeries();
    MultiXResolved();
    FlatByPlan("f", MultiXData, MultiXCfg, MultiXCfg, MultiXPlan, MultiXPoints, MultiXProperties);
  }

  // y_list_x_dict

  const T1 := map["v" := Int(1), "v2" := Num(1, 1), "x1" := Int(100)]
  const T2 := map["v" := Int(2), "v2" := Num(2, 1), "x1" := Int(1000)]
  const U1 := map["x2" := Int(-2)]
  const U2 := map["x2" := Int(-4)]
  const TItems := [
    Obj([Entry("v", Int(1)), Entry("v2", Num(1, 1)), Entry("x1", Int(100))]),
    Obj([Entry("v", Int(2)), Entry("v2", Num(2, 1)), Entry("x1", Int(1000))])]
  const UItems := [Obj([Entry("x2", Int(-2))]), Obj([Entry("x2", Int(-4))])]
  const XDictData := map["f" := OneList("metric", TItems), "f2" := OneList("metric", UItems)]
  const XDictX := PerSource([("f", One("x1")), ("f2", One("x2"))])
  const XDictProps := Config(XDictX, Fields(["v", "v2"]), None, None)
  const XDictCfg := Config(XDictX, PerSource([("f", Many(["v", "v2"]))]), None, None)
  const XDictPlan := Plan(map["f" := [T1, T2], "f2" := [U1, U2]],
    [Def("f", "x1"), Def("f2", "x2")], [Def("f", "v"), Def("f", "v2")], Revision)
  const XDictPoints := [
    Datapoint(T1[INFERRED_Y := Int(1)][INFERRED_X := Int(100)], "f", "v"),
    Datapoint(T2[INFERRED_Y := Int(2)][INFERRED_X := Int(1000)], "f", "v"),
    Datapoint(T1[INFERRED_Y := Num(1, 1)][INFERRED_X := Int(-2)], "f", "v2"),
    Datapoint(T2[INFERRED_Y := Num(2, 1)][INFERRED_X := Int(-4)], "f", "v2")]
  const XDictProperties :=
    Properties(INFERRED_X, INFERRED_Y, "x", Some("y"), [YDefinition("f", "v"), YDefinition("f", "v2")])

  lemma TTable()
    ensures Datapoints(OneList("metric", TItems)) == [T1, T2]
  {
    RecordOfThree("v", Int(1), "v2", Num(1, 1), "x1", Int(100));
    RecordOfThree("v", Int(2), "v2", Num(2, 1), "x1", Int(1000));
    TwoObjectTable("metric", [Entry("v", Int(1)), Entry("v2", Num(1, 1)), Entry("x1", Int(100))],
      [Entry("v", Int(2)), Entry("v2", Num(2, 1)), Entry("x1", Int(1000))]);
  }

  lemma UTable()
    ensures Datapoints(OneList("metric", UItems)) == [U1, U2]
  {
    RecordOfOne("x2", Int(-2));
    RecordOfOne("x2", Int(-4));
    TwoObjectTable("metric", [Entry("x2", Int(-2))], [Entry("x2", Int(-4))]);
  }

  lemma XDictFields()
    ensures FileFields(XDictX) == [Def("f", "x1"), Def("f2", "x2")]
    ensures FileFields(XDictCfg.y) == [Def("f", "v"), Def("f", "v2")]
    ensures FieldSet([Def("f", "x1"), Def("f2", "x2")]) == {"x1", "x2"}
    ensures FieldSet([Def("f", "v"), Def("f", "v2")]) == {"v", "v2"}
  {
    SourceDefsOfTwo("f", One("x1"), "f2", One("x2"));
    assert SelDefs("f", Many(["v", "v2"])) == [Def("f", "v"), Def("f", "v2")];
  }

  lemma XDictInferred()
    ensures InferredConfig("f", XDictData, XDictProps) == XDictCfg
  {
  }

  lemma XDictPlanOf()
    ensures PlanOf(XDictCfg, XDictData, Revision) == XDictPlan
  {
    TTable();
    UTable();
    TablesOfTwo("f", OneList("metric", TItems), "f2", OneList("metric", UItems));
    XDictFields();
  }

  lemma XDictFound()
    ensures forall d :: d in XDictPlan.xs ==> !Missing(XDictPlan.tables, d)
    ensures forall d :: d in XDictPlan.ys ==> !Missing(XDictPlan.tables, d)
  {
  }

  lemma XDictModes()
    ensures XDictPlan.Paired() && XDictPlan.ManyY()
    ensures XDictPlan.XFor(0) == Some(Def("f", "x1")) && XDictPlan.XKey(0) == INFERRED_X
    ensures XDictPlan.XFor(1) == Some(Def("f2", "x2")) && XDictPlan.XKey(1) == INFERRED_X
    ensures XDictPlan.YRows(0) == [T1, T2] && XDictPlan.YRows(1) == [T1, T2]
    ensures XDictPlan.XRows(0) == [T1, T2] && XDictPlan.XRows(1) == [U1, U2]
  {
    XDictFields();
  }

  lemma XDictBlock(i: nat)
    requires i < 2
    ensures XDictPlan.Paired() && !XDictPlan.Unequal(i)
    ensures XDictPlan.Block(i) == if i == 0 then XDictPoints[..2] else XDictPoints[2..]
  {
    XDictModes();
    NameOfF();
    if i == 0 {
      TwoRecordXYSeries(XDictPlan, 0, T1, T2, T1, T2);
    } else {
      TwoRecordXYSeries(XDictPlan, 1, T1, T2, U1, U2);
    }
  }

  lemma XDictSeries()
    ensures Ready(XDictPlan) && XDictPlan.Points(2) == XDictPoints
  {
    XDictFound();
    XDictBlock(0);
    XDictBlock(1);
    TwoSeries(XDictPlan, XDictPoints, 2);
  }

  lemma XDictResolved()
    ensures XDictPlan.Resolve(XDictCfg) == XDictProperties
  {
    XDictFields();
    NameOfF();
    assert XDictPlan.Anchors() == XDictProperties.anchors;
  }

  /** y_list_x_dict: a bare list of y fields pairs positionally with a
      per-source x mapping, so the second y field takes its x values from
      another source. */
  lemma YListXDict()
    ensures Flat("f", XDictData, XDictProps, Revision) == Success((XDictPoints, XDictProperties))
  {
    XDictInferred();
    XDictPlanOf();
    XDictSeries();
    XDictResolved();
    FlatByPlan("f", XDictData, XDictProps, XDictCfg, XDictPlan, XDictPoints, XDictProperties);
  }

  // test_convert_fail

  const ShortItems := [Obj([Entry("v2", Num(1, 1))])]
  const ShortData := map["f" := OneList("metric", DefaultItems), "f2" := OneList("metric", ShortItems)]
  const ShortCfg := Config(PerSource([("f", One("v"))]), PerSource([("f2", One("v2"))]), None, None)
  const ShortPlan := Plan(map["f" := DefaultTable, "f2" := [map["v2" := Num(1, 1)]]],
    [Def("f", "v")], [Def("f2", "v2")], Revision)

  lemma ShortInferred()
    ensures InferredConfig("f", ShortData, ShortCfg) == ShortCfg
  {
  }

  lemma ShortPlanOf()
    ensures PlanOf(ShortCfg, ShortData, Revision) == ShortPlan
  {
    DefaultTableOf();
    RecordOfOne("v2", Num(1, 1));
    OneObjectTable("metric", [Entry("v2", Num(1, 1))]);
    TablesOfTwo("f", OneList("metric", DefaultItems), "f2", OneList("metric", ShortItems));
  }

  /** unequal_datapoints: an x source of two records cannot be joined with a
      y source of one, and the conversion fails. */
  lemma UnequalDatapoints()
    ensures Flat("f", ShortData, ShortCfg, Revision) == Failure(UnequalLengths(Def("f", "v"), Def("f2", "v2")))
  {
    ShortInferred();
    ShortPlanOf();
    assert ShortPlan.XFor(0) == Some(Def("f", "v")) && ShortPlan.Unequal(0);
    FlatFailsUnequal("f", ShortData, ShortCfg, ShortCfg, ShortPlan);
  }

  const AbsentXData := map["f" := OneList("metric", Items12), "f2" := OneList("metric", R3Items)]
  const AbsentXCfg := Config(PerSource([("f", One("v")), ("f2", One("v3"))]), PerSource([("f", One("v2"))]), None, None)
  const AbsentXPlan := Plan(map["f" := [R1, R2], "f2" := [R3]],
    [Def("f", "v"), Def("f2", "v3")], [Def("f", "v2")], Revision)

  lemma AbsentXInferred()
    ensures InferredConfig("f", AbsentXData, AbsentXCfg) == AbsentXCfg
  {
  }

  lemma AbsentXPlanOf()
    ensures PlanOf(AbsentXCfg, AbsentXData, Revision) == AbsentXPlan
  {
    Items12Table();
    R3Table();
    TablesOfTwo("f", OneList("metric", Items12), "f2", OneList("metric", R3Items));
    SourceDefsOfTwo("f", One("v"), "f2", One("v3"));
  }

  lemma AbsentXMissing()
    ensures !Missing(AbsentXPlan.tables, AbsentXPlan.xs[0]) && Missing(AbsentXPlan.tables, AbsentXPlan.xs[1])
  {
    assert "v3" !in AbsentXPlan.tables["f2"][0];
  }

  /** unequal_x_y: an x field the second source lacks raises
      `FieldNotFoundError` before the x and y counts are compared. */
  lemma UnequalXY()
    ensures Flat("f", AbsentXData, AbsentXCfg, Revision) == Failure(FieldNotFound("f2", "v3"))
  {
    AbsentXInferred();
    AbsentXPlanOf();
    AbsentXMissing();
    FlatFailsMissingX("f", AbsentXData, AbsentXCfg, AbsentXCfg, AbsentXPlan, 1);
  }

  // test_infer_x_label

  /** One source's x field names the x axis. */
  lemma XLabelOfOneSource()
    ensures InferXLabel(Config(PerSource([("actual.csv", One("actual"))]), Absent, None, None)) == "actual"
  {
    var defs := [Def("actual.csv", "actual")];
    assert SelDefs("actual.csv", One("actual")) == defs;
    assert SourceDefs([("actual.csv", One("actual"))]) == defs + SourceDefs([]);
    assert FieldSet(defs) == {"actual"};
    assert FileFields(PerSource([("actual.csv", One("actual"))])) == defs;
    assert |FieldSet(defs)| == 1;
    assert SharedField(defs, "x") == "actual";
  }

  /** Two sources sharing an x field name the x axis with it. */
  lemma XLabelOfSharedField()
    ensures
      InferXLabel(Config(PerSource([("train_actual.csv", One("actual")), ("val_actual.csv", One("actual"))]),
        Absent, None, None)) == "actual"
  {
    var defs := [Def("train_actual.csv", "actual"), Def("val_actual.csv", "actual")];
    SourceDefsOfTwo("train_actual.csv", One("actual"), "val_actual.csv", One("actual"));
    assert SelDefs("train_actual.csv", One("actual")) == defs[..1];
    assert SelDefs("val_actual.csv", One("actual")) == defs[1..];
    assert FileFields(PerSource([("train_actual.csv", One("actual")), ("val_actual.csv", One("actual"))])) == defs;
    assert FieldSet(defs) == {"actual"};
    assert SharedField(defs, "x") == "actual";
  }

  /** Two sources with different x fields fall back to "x". */
  lemma XLabelOfDifferentFields()
    ensures
      InferXLabel(Config(PerSource([("actual.csv", One("actual")), ("predicted.csv", One("predicted"))]),
        Absent, None, None)) == "x"
  {
    var defs := [Def("actual.csv", "actual"), Def("predicted.csv", "predicted")];
    SourceDefsOfTwo("actual.csv", One("actual"), "predicted.csv", One("predicted"));
    assert SelDefs("actual.csv", One("actual")) == defs[..1];
    assert SelDefs("predicted.csv", One("predicted")) == defs[1..];
    assert FileFields(PerSource([("actual.csv", One("actual")), ("predicted.csv", One("predicted"))])) == defs;
    assert FieldSet(defs) == {"actual", "predicted"};
    assert |FieldSet(defs)| == 2;
    assert SharedField(defs, "x") == "x";
  }
}

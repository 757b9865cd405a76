# DVC metric-to-plot converter, modelled in Dafny

This project models the converter in `dvc.render.converter.vega`. The
converter turns parsed metric files into what the Vega plot templates
consume. Its input is the data of one or more sources (file name to parsed
JSON), the plot's properties (`x`, `y`, `x_label`, `y_label`) and a
revision. Its output is a flat list of datapoints plus the resolved
properties (`x`, `y`, the two labels and `anchors_y_definitions`).

The implementation module is not part of this model's sources. Its
behaviour is reconstructed from the table-driven unit tests in
`tests/unit/render/test_vega_converter.py`. Every parametrized case of that
file is a lemma in `cases.dfy`, proved on the exact inputs and outputs the
test lists.

The modules, in dependency order:

- `wrappers.dfy` (`Wrappers`): `Option` and `Result`.
- `json.dfy` (`JsonData`): parsed values. An object keeps its entries in
  iteration order, and a record is the dictionary of an object.
- `keys.dfy` (`RenderKeys`): the keys the converter writes: `step`, the
  three provenance keys, `dvc_inferred_x_value` and `dvc_inferred_y_value`.
- `lists.dfy` (`ListDiscovery`): `_lists`, the depth-first search for
  embedded lists in key order.
- `table.dfy` (`SourceTable`): the record table of one source. Every
  discovered list of records is merged index by index into it.
- `config.dfy` (`PlotProperties`): the `x`/`y` field references, their
  inference at construction time, and the label helpers.
- `converter.dfy` (`Vega`): the conversion. It has a functional
  specification (`Plan`, `Convert`, `Flat`) and the class `VegaConverter`.
  That class's `FlatDatapoints` method builds the datapoints with loops,
  series by series and record by record, and is proved equal to the
  specification.
- `properties.dfy` (`VegaProperties`): the all-inputs guarantees. They
  cover order and count, the content of each datapoint, the inferred keys,
  the anchors, the resolved axes and the error cases.
- `case_support.dfy` (`CaseSupport`) and `cases.dfy` (`ConverterCases`):
  the test table, case by case.

How the model reads the tests:

- A source's table is the index-by-index merge of all its lists of
  records. A later list wins on a shared key. A field is found in a source
  when every merged record has it. In `multi_source_json` the `v`
  datapoints also carry `z`.
- Each y definition (source, field) is one series. The series are ordered
  by source as the y mapping lists them, then by field. Each series yields
  one datapoint per record of its source.
- The y value is inferred (`dvc_inferred_y_value`) when the y definitions
  name more than one distinct field. The x value is inferred when there are
  several x definitions with more than one distinct field.
- One x name is paired with every y definition. Several x definitions pair
  positionally with the y definitions.
- Only the x value is copied from the x record, never the rest of that
  record (`y_list_x_dict`).
- `FILENAME` is the last path component of the source name.

## Model

| member | source | states |
|---|---|---|
| JsonData.ToRecord | tests/unit/render/test_vega_converter.py:32-36 | a parsed object as a dictionary: exactly its keys, each mapped to the value of its last occurrence |
| ListDiscovery.EntryListsAppend | tests/unit/render/test_vega_converter.py:15-18 | the lists under earlier keys come before the lists under later keys |
| ListDiscovery.ReachableIsDiscovered | tests/unit/render/test_vega_converter.py:10-24 | every list reachable through nested objects is found |
| ListDiscovery.DiscoveredIsReachable | tests/unit/render/test_vega_converter.py:10-24 | every list found is reachable from the top through nested objects only |
| ListDiscovery.DiscoveredIffReachable | tests/unit/render/test_vega_converter.py:10-24 | a list is found exactly when it is reachable through nested objects |
| SourceTable.RecordListsOf | tests/unit/render/test_vega_converter.py:180-236 | a source's record lists are the rows of exactly those found lists that are non-empty, whose elements are all objects, and in which no object has a key the first object lacks |
| SourceTable.MergeAllLength | tests/unit/render/test_vega_converter.py:180-236 | the merged table is as long as the longest record list |
| SourceTable.MergeAllHas | tests/unit/render/test_vega_converter.py:180-236 | record `i` of the merged table has a key exactly when some list sets that key at index `i` |
| SourceTable.MergeAllValue | tests/unit/render/test_vega_converter.py:180-236 | on a key set by several lists at index `i`, the value of the last of them wins |
| SourceTable.FieldInTable | tests/unit/render/test_vega_converter.py:546-562 | a field is in record `i` of a source's table exactly when some found record list of that source has it at index `i` |
| PlotProperties.ManyFieldsIff | tests/unit/render/test_vega_converter.py:127-178 | more than one distinct field name exactly when two definitions name different fields |
| PlotProperties.SharedFieldIff | tests/unit/render/test_vega_converter.py:572-587 | the shared name is the field every definition names; it is the fallback as soon as two definitions differ or there is none |
| PlotProperties.InferXLabelCommon | tests/unit/render/test_vega_converter.py:572-587 | `infer_x_label` on a per-source x mapping: the common field name when all sources agree, "x" when two differ |
| PlotProperties.SourceDefsAppend | tests/unit/render/test_vega_converter.py:332-377 | per-source definitions list the sources in mapping order, and each source's fields in their order |
| PlotProperties.InferXPairsWithY | tests/unit/render/test_vega_converter.py:332-377 | a single x name is paired with every y definition: one x definition per y definition, from the same source, in the same order |
| PlotProperties.DefaultY | tests/unit/render/test_vega_converter.py:31-57 | the default y is absent or a single field of the plot's own source |
| PlotProperties.DefaultYOfFirst | tests/unit/render/test_vega_converter.py:31-57 | the default y is the last key of the first object of the first list made only of objects, none when that object is empty |
| PlotProperties.DefaultYAbsent | tests/unit/render/test_vega_converter.py:31-57 | without a list made only of objects there is no default y |
| PlotProperties.InferYOwnSource | tests/unit/render/test_vega_converter.py:279-330 | a y name, a list of y names or a default y applies to the plot's own source only, one definition per name in the listed order |
| Vega.BasenameIsLastComponent | tests/unit/render/test_vega_converter.py:379-411 | the file name is the longest suffix of the source name without '/': it ends the name, holds no '/', and is preceded by '/' unless it is the whole name |
| Vega.FirstMissing | tests/unit/render/test_vega_converter.py:546-562 | no result exactly when no definition from `k` on is missing; otherwise a missing definition from `k` on |
| Vega.FirstMissingIsFirst | tests/unit/render/test_vega_converter.py:546-562 | the first missing definition, in definition order, is the one reported |
| Vega.Plan.FirstUnequal | tests/unit/render/test_vega_converter.py:532-544 | no result exactly when every series from `i` on joins; otherwise a series that cannot be joined |
| Vega.FirstUnequalSkips | tests/unit/render/test_vega_converter.py:532-544 | joinable series are passed over when looking for the first unjoinable one |
| Vega.BlockPipeline | tests/unit/render/test_vega_converter.py:449-512 | setting the inferred y value on all records, then the x value, then the provenance, gives record by record the datapoint built from that record alone |
| Vega.VegaConverter.constructor | tests/unit/render/test_vega_converter.py:516-523 | the converter keeps its plot id, data and properties, and infers the x/y mappings once |
| Vega.VegaConverter.FlatDatapoints | tests/unit/render/test_vega_converter.py:516-527 | `flat_datapoints(revision)` returns exactly the conversion of the inferred properties: the datapoints and resolved properties, or the first error |
| Vega.AssembleSeries | tests/unit/render/test_vega_converter.py:127-178 | the loop over series yields all datapoints in series order, or fails on the first series whose x and y tables differ in length |
| Vega.FindMissing | tests/unit/render/test_vega_converter.py:546-562 | the loop over definitions returns the first one whose field is missing, or none |
| Vega.SeriesDatapoints | tests/unit/render/test_vega_converter.py:449-512 | one series: its block of datapoints, or the unequal-length failure when its x and y tables cannot be joined |
| Vega.UpdateFromField | tests/unit/render/test_vega_converter.py:449-512 | the loop sets `key` on every record from the paired record's field, where that record has it |
| Vega.UpdateFromIndex | tests/unit/render/test_vega_converter.py:31-57 | the loop sets the 0-based record index under `step` |
| Vega.UpdateAll | tests/unit/render/test_vega_converter.py:31-57 | the loop stamps revision, file name and field on every record |
| VegaProperties.PointsLength | tests/unit/render/test_vega_converter.py:127-178 | there are as many datapoints as records behind the series |
| VegaProperties.PointsStep | tests/unit/render/test_vega_converter.py:127-178 | each series appends its block after the datapoints of the earlier series |
| VegaProperties.PointsKeep | tests/unit/render/test_vega_converter.py:127-178 | later series only append: a datapoint keeps its index |
| VegaProperties.PointsAt | tests/unit/render/test_vega_converter.py:127-178 | record `j` of series `i` sits right after all records of the earlier series |
| VegaProperties.LastBlockAt | tests/unit/render/test_vega_converter.py:127-178 | the records of series `i` follow the records of all earlier series |
| VegaProperties.BlockPoint | tests/unit/render/test_vega_converter.py:449-512 | datapoint `j` of series `i` copies every non-reserved key of its source record except the x key; its keys are exactly the record's keys plus revision, file name and field, plus the inferred y key in multi-y mode when the record has the y field, plus `step` without an x definition or the x key when the paired x record has the x field; it carries the revision, the file name and the field; it has the inferred y value in multi-y mode and none otherwise, and the step index or the paired x value |
| VegaProperties.NoStepWithX | tests/unit/render/test_vega_converter.py:59-85 | a series with an x definition gets no `step` key |
| VegaProperties.NoInferredXWithOneX | tests/unit/render/test_vega_converter.py:413-447 | when the x value keeps its own field name, no `dvc_inferred_x_value` key is added |
| VegaProperties.FoundPointComplete | tests/unit/render/test_vega_converter.py:127-178 | once a series' x and y fields are found, each of its datapoints has its x value (or `step`) and, in multi-y mode, the inferred y value equal to the record's value for its field |
| VegaProperties.PointsInferredY | tests/unit/render/test_vega_converter.py:127-178 | with all fields found, every datapoint of the series so far carries `dvc_inferred_y_value` in multi-y mode |
| VegaProperties.SuccessInferredY | tests/unit/render/test_vega_converter.py:127-178 | in multi-y mode every datapoint of a successful conversion carries `dvc_inferred_y_value` |
| VegaProperties.XKeyMode | tests/unit/render/test_vega_converter.py:413-447 | x definitions pair positionally with the y definitions; the x value goes under `dvc_inferred_x_value` exactly when the x fields differ |
| VegaProperties.ConvertSuccess | tests/unit/render/test_vega_converter.py:516-527 | a success is all series' datapoints, as many as the records behind them, with properties exactly when there is a datapoint |
| VegaProperties.SeriesProvenance | tests/unit/render/test_vega_converter.py:238-277 | every datapoint of series `i` carries the revision and the file name and field of anchor `i` |
| VegaProperties.AnchorsFollowPoints | tests/unit/render/test_vega_converter.py:238-277 | `anchors_y_definitions` has one entry per series, in datapoint order, matching each datapoint's file name and field |
| VegaProperties.ResolvedProvenance | tests/unit/render/test_vega_converter.py:238-277 | each datapoint carries the file name and field of the anchor of its series in the resolved properties |
| VegaProperties.ResolvedY | tests/unit/render/test_vega_converter.py:238-277 | resolved `y` is `dvc_inferred_y_value` when two y definitions name different fields, otherwise the one shared field |
| VegaProperties.ResolvedYLabel | tests/unit/render/test_vega_converter.py:332-411 | without an explicit label a per-source y mapping is labelled "y" when it names several fields, otherwise by its one field |
| VegaProperties.ResolvedX | tests/unit/render/test_vega_converter.py:413-447 | resolved `x` is `dvc_inferred_x_value` when several x fields differ, `step` without x, otherwise the one shared x field |
| VegaProperties.ConvertSucceedsIff | tests/unit/render/test_vega_converter.py:529-569 | a conversion succeeds exactly when every x and y field is found, the axes pair, and every series joins |
| VegaProperties.MissingFieldFails | tests/unit/render/test_vega_converter.py:546-562 | any x or y field missing from a record of its source raises `FieldNotFoundError` |
| VegaProperties.AbsentFieldIsMissing | tests/unit/render/test_vega_converter.py:546-562 | a field that no record list of its source has counts as missing |
| VegaProperties.UnequalLengthsFail | tests/unit/render/test_vega_converter.py:532-544 | with all fields found, a series whose x and y tables differ in length raises the generic conversion failure |
| ConverterCases.ListsOfEmpty | tests/unit/render/test_vega_converter.py:13 | `_lists({})` finds nothing |
| ConverterCases.ListsOfFlat | tests/unit/render/test_vega_converter.py:14 | a list under a top-level key is found whole |
| ConverterCases.ListsInKeyOrder | tests/unit/render/test_vega_converter.py:15-18 | two nested lists are found in key order |
| ConverterCases.DefaultXY | tests/unit/render/test_vega_converter.py:31-57 | case `default_x_y`: exact datapoints and properties |
| ConverterCases.ChooseXY | tests/unit/render/test_vega_converter.py:59-85 | case `choose_x_y`: exact datapoints and properties |
| ConverterCases.FindInNestedStructure | tests/unit/render/test_vega_converter.py:87-125 | case `find_in_nested_structure`: exact datapoints and properties |
| ConverterCases.YDefList | tests/unit/render/test_vega_converter.py:127-178 | case `y_def_list`: exact datapoints and properties |
| ConverterCases.MultiSourceJson | tests/unit/render/test_vega_converter.py:180-236 | case `multi_source_json`: exact datapoints and properties |
| ConverterCases.MultiFileJson | tests/unit/render/test_vega_converter.py:238-277 | case `multi_file_json`: exact datapoints and properties |
| ConverterCases.YList | tests/unit/render/test_vega_converter.py:279-330 | case `y_list`: exact datapoints and properties |
| ConverterCases.MultiSourceYSingleX | tests/unit/render/test_vega_converter.py:332-377 | case `multi_source_y_single_x`: exact datapoints and properties |
| ConverterCases.MultiFileYSamePrefix | tests/unit/render/test_vega_converter.py:379-411 | case `multi_file_y_same_prefix`: exact datapoints and properties |
| ConverterCases.MultipleXFields | tests/unit/render/test_vega_converter.py:413-447 | case `multiple_x_fields`: exact datapoints and properties |
| ConverterCases.YListXDict | tests/unit/render/test_vega_converter.py:449-512 | case `y_list_x_dict`: exact datapoints and properties |
| ConverterCases.UnequalDatapoints | tests/unit/render/test_vega_converter.py:532-544 | case `unequal_datapoints`: the generic conversion failure, naming the x and y definitions that cannot be joined |
| ConverterCases.UnequalXY | tests/unit/render/test_vega_converter.py:546-562 | case `unequal_x_y`: `FieldNotFoundError` for source `f2`, field `v3` |
| ConverterCases.XLabelOfOneSource | tests/unit/render/test_vega_converter.py:575 | `infer_x_label` with one source gives its field |
| ConverterCases.XLabelOfSharedField | tests/unit/render/test_vega_converter.py:576-579 | `infer_x_label` with two sources on the same field gives that field |
| ConverterCases.XLabelOfDifferentFields | tests/unit/render/test_vega_converter.py:580-583 | `infer_x_label` with two different fields gives "x" |

## Left out

- The implementation module is not part of this model. Where a behaviour
  is not pinned down by a test case, the model makes a choice, listed below.
- Field lookup: all of a source's record lists are merged index by index,
  a later list winning on a shared key, as `multi_source_json` requires
  (each `v` datapoint there also carries `z` from another list).
- Series mode: y is inferred when the y definitions name more than one
  distinct field, not when there is more than one (source, field) pair.
  `multi_file_json` and `multi_file_y_same_prefix` keep a literal `y` for
  one field read from two sources.
- A bare y name or list of names applies only to the plot's own source,
  as `y_list_x_dict` requires.
- Only the x value is copied from the paired x record, never its other
  keys, as `y_list_x_dict` requires.
- Default y: only a one-field record is tested. The model takes the last
  key of the first record of the first list of objects.
- Several x definitions that are neither one nor as many as the y
  definitions fail with `UnequalAxisCounts`. No test reaches this case.
- A y or x definition for a source missing from the data is not reported
  as missing. It contributes no records. No test reaches this case.
- An empty list, or a list holding a non-object, is not a list of records
  and is skipped.
- A field looked up in a source whose table is empty counts as missing.
- A field counts as found only when every merged record of its source has
  it, so every datapoint carries the value it is stamped with. Record lists
  of different lengths therefore hide a field from the longer list's tail:
  `{"f": {"a": [{"v": 1}, {"v": 2}], "b": [{"z": 3}]}}` with y `["v", "z"]`
  fails with `FieldNotFound("f", "z")`. No test reaches this case.
- `FILENAME` keeps only the last path component, so sources `a/m` and
  `b/m` both give the file name `m`, and their entries in
  `anchors_y_definitions` for the same field coincide. Only `dir/f` next
  to `dir/f2` is tested.
- A list counts as a list of records only when no later object has a key
  that the first object lacks, while the default y only asks that every
  element is an object. So for `{"f": {"metric": [{"v": 1}, {"v": 2, "w": 3}]}}`
  with no x and no y, y defaults to `v`, the table has no record list, and
  the conversion fails with `FieldNotFound("f", "v")` although every record
  has `v`. No test reaches this case.
- When the paired x field has the same name as a key of the y record, the
  x record's value replaces it in the datapoint: the x source wins. No test
  pairs two sources on a shared key.
- A conversion with no datapoints returns `NoProperties`, not the resolved
  axes and labels. No test has an empty result.
- A bare list of x names gives no x definitions: the plot is indexed by
  `step` and its x label is "step". No test gives x as a list.
- Numbers are decimal mantissa/exponent pairs that are only copied, never
  computed on, so floating point is not modelled.
- The three provenance keys are given the strings `rev`, `filename` and
  `field`. Only their distinctness from each other and from the other keys
  matters to the model.
- Errors are values of `ConversionError`, not exceptions.
  `FieldNotFoundError` is `FieldNotFound`. The generic `DvcException` is
  `UnequalLengths` or `UnequalAxisCounts`. The exception hierarchy and the
  message texts are not modelled.
- Properties other than `x`, `y`, `x_label` and `y_label` are not carried
  into the resolved properties.
- File loading, JSON parsing, revision discovery and Vega template
  rendering are input/output or separate components.

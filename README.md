# go-influx-qu in Dafny

go-influx-qu turns annotated Go structs into InfluxDB points and Flux
queries. A struct field annotated `influxqu:"role,name,omitempty"` is read as
the measurement, a tag, a field or the timestamp. Embedded structs are decoded
recursively and merged into their parent.

This project models the library's core and proves properties of it:

- **Record walker.** `getData` and its helpers in `generate_influx_point.go`
  are modelled in `generate_influx_point.dfy`, module `Walker`:
  - a specification (`Decode`, built from `StepSpec`, `TagSpec`, `FieldSpec`
    and `EmbedSpec`);
  - the Go code's in-place updates as the methods of class `DecodeState`;
  - the method `GetData`, proved to compute `Decode`.

  Its laws are in `generate_influx_point_laws.dfy` (`WalkerLaws`).
- **Earlier walker.** The revision of the walker in `impl.go`, which has no
  omitempty handling, is in `impl.dfy` (`LegacyWalker`). Its laws, and where
  it differs from the newer walker, are in `impl_laws.dfy` (`LegacyLaws`).
- **Value conversions.** The emptiness test, the kind test and the two value
  converters of `utility.go` are in `utility.dfy` (`Utility`).
  `strings.Split`, `strings.TrimSpace` and `%d` are in `text.dfy` (`Text`).
- **Key configuration.** The configuration of `influx_qu.go` is in
  `influx_qu.dfy` (`Config`).
- **Flux query assembler.** The assembler of `generate_flux_query.go` is in
  `generate_flux_query.dfy` (`FluxQuery`). It is proved against the function
  `Query`. The query's shape and the worked example of the query test are in
  `generate_flux_query_laws.dfy` (`FluxQueryLaws`).
- **Errors.** The error kinds of `error.go` are in `errors.dfy`.

Reflection is replaced by data. In `values.dfy`, a struct value is a sequence
of `Attribute`s in declaration order. Each attribute records whether it is
embedded, its struct tag as a map, and its value. The value is a closed
datatype: nil, a pointer, a string, an integer, a float, a bool, a time, a
decimal, a value with `String()` or `MarshalText()`, a struct, a slice, or
some other kind.

Go maps are iterated in an unspecified order. The methods that loop over a
map pick the next key with `:|`. The ones whose output depends on the order
return the order they used as a ghost result, and their contracts hold
whatever that order is.

Some library routines the model cannot define are parameters, in the record
`Formats`:
- `%f` formatting;
- `time.Time.String`;
- `decimal.Decimal.String`;
- `Decimal.InexactFloat64`.

The clock reading `time.Now()` is a parameter `now`.

## Model

| member | source | states |
|---|---|---|
| Config.NewInfluxQuWithKeys | influx_qu.go:31-71 | each empty key becomes its default; the result is DuplicatedKey exactly when two of the five defaulted keys are equal, otherwise the configuration holding the defaulted keys, which is Valid |
| Config.NewInfluxQu | influx_qu.go:26-29 | always succeeds, with the default keys "influxqu", "measurement", "tag", "field", "timestamp" |
| Config.EmptyKeysAreDefaults | influx_qu.go:26-50 | five empty arguments select exactly NewInfluxQu's configuration, and it is accepted |
| Config.FiveKeys | influx_qu.go:52-62 | the set of the five keys has five members exactly when no two keys are equal, so the `len(keys) != 5` test is the pairwise-distinctness test |
| Utility.EmptyIsZero | utility.go:10-22 | isValueEmpty agrees with reflect's IsZero; nil is empty; a pointer to "" is not empty |
| Utility.TypeInfoStruct | utility.go:24-45 | the kind is StructKind exactly when the dereferenced input is a struct (time and decimal included), or a slice of structs or of pointers to structs |
| Utility.TypeInfoThroughPointer | utility.go:24-45 | a pointer to a value reports the value's kind, and a pointer to a slice reports the slice's element kind |
| Utility.PointerReadsThrough | utility.go:47-56 | a nil pointer reads as "" with no error; a non-nil pointer reads as its target does |
| Utility.StringKindFirst | utility.go:58-60 | a value of string kind reads as itself, directly or through a pointer |
| Utility.MethodPrecedence | utility.go:62-73 | `String()` is used when present, before `MarshalText()`; a `MarshalText()` error is passed on, directly and through a pointer |
| Utility.ScalarRenderings | utility.go:62-81 | an integer reads as digits that parse back to it (1 reads as "1"); a bool reads as "true"/"false"; a time reads through its `String()` method |
| Utility.ConversionFailures | utility.go:75-86 | the only errors are UnSupportedType and a `MarshalText()` error; nil, slices, method-less structs, a pointer to a nil pointer to a type without `String()`/`MarshalText()` and the other kinds are UnSupportedType |
| Utility.GetFieldAsTime | utility.go:89-106 | succeeds exactly on a time or a non-nil pointer to one, and returns that time unchanged; otherwise UnSupportedType |
| Text.SplitJoin | generate_influx_point.go:209 | splitting comma-joined, comma-free parts on the comma gives the parts back |
| Text.JoinSplit | generate_influx_point.go:209 | joining the result of a split on the separator gives the original text back |
| Text.TrimSpaceFixes | generate_influx_point.go:210-212 | TrimSpace changes exactly the text that starts or ends with white space, and trimming twice is trimming once |
| Text.TrimSpace | generate_influx_point.go:210-212 | the result is the slice of the input left after cutting white space off both ends; it neither starts nor ends with white space, and everything cut is white space |
| Text.SegmentsOfJoin | generate_influx_point.go:209-212 | an annotation written as trimmed, comma-free segments joined by commas has exactly those segments |
| Text.FormatIntRoundTrip | utility.go:76-77 | the `%d` rendering of any integer parses back to the integer |
| Walker.DecodeState.MergeTags | generate_influx_point.go:39-49 | succeeds exactly when the key sets are disjoint, leaving the tags as the union with src's values; otherwise DuplicatedTag |
| Walker.DecodeState.MergeFields | generate_influx_point.go:51-61 | succeeds exactly when the key sets are disjoint, leaving the fields as the union; otherwise DuplicatedField |
| Walker.MergeOmitTags | generate_influx_point.go:19-37 | returns `org ++ src` in order when every name of src is absent from org and from src before it; otherwise DuplicatedTag |
| Walker.DecodeState.ProcessTag | generate_influx_point.go:63-100 | the tag map it leaves and the omitted name it returns are TagSpec of the old map, with the same error |
| Walker.DecodeState.ProcessFields | generate_influx_point.go:102-137 | the field map it leaves is FieldSpec of the old map, with the same error |
| Walker.DecodeState.ProcessSubStruct | generate_influx_point.go:139-179 | fails exactly when the embedded merge fails, with its error; otherwise the state holds the merge except the timestamp, and the embedded struct's timestamp is returned |
| Walker.DecodeState.ProcessAnnotation | generate_influx_point.go:204-256 | the new state is the annotation switch AnnotationSpec applied to the old one, with the same error |
| Walker.DecodeState.Visit | generate_influx_point.go:196-256 | one loop iteration: the new state is StepSpec of the old one, with the timestamp replaced by processSubStruct's result |
| Walker.GetData | generate_influx_point.go:181-260 | the walk's result is Decode of the record |
| Walker.ErrorSticks | generate_influx_point.go:195-257 | once a prefix of the walk fails, every longer prefix fails with the same error |
| Walker.GenerateCommonPointInfo | generate_influx_point.go:262-295 | checks in order: non-struct input gives UnSupportedType, a walk error is passed on, no measurement gives NoValidMeasurement, no field gives NoValidField; a missing timestamp becomes `now` and a present one is kept |
| WalkerLaws.TagErrors | generate_influx_point.go:63-82 | NoTagName for fewer than two segments, UnSupportedTag for a third segment other than omitempty, DuplicatedTag for a used name, in that order, before the value is read; a fourth segment is not refused |
| WalkerLaws.TagStores | generate_influx_point.go:84-99 | without omitempty the value's string is stored, even ""; with omitempty a zero value is reported as omitted and not stored, a non-zero value reading as "" is dropped silently, anything else is stored |
| WalkerLaws.TagOmitemptyCases | impl_test.go:209-212 | "t1" is stored; "" and a nil pointer are reported as omitted; a pointer to "" is dropped silently |
| WalkerLaws.FieldErrors | generate_influx_point.go:102-121 | NoFieldName, UnSupportedTag and DuplicatedField as for tags, and no error from the value |
| WalkerLaws.FieldStores | generate_influx_point.go:123-134 | a new field is stored unless omitempty is given and the value is empty; a decimal is stored as its float, a non-nil pointer as its target, anything else as it is |
| WalkerLaws.FieldOmitemptyCases | impl_test.go:213-217 | with omitempty, 1 is stored; false, 0 and a nil pointer are not |
| WalkerLaws.SwitchRules | generate_influx_point.go:204-256 | no annotation or an unknown first segment changes nothing; a second measurement is DuplicatedMeasurement; a measurement with more segments is UnSupportedTag; a second timestamp is DuplicatedTimestamp |
| WalkerLaws.MeasurementCase | generate_influx_point.go:215-227 | the measurement case: refused after a measurement or with extra segments, otherwise the value's string |
| WalkerLaws.TagCase | generate_influx_point.go:228-236 | the tag case is processTag, with an omitted name appended to the omitted tags |
| WalkerLaws.FieldCase | generate_influx_point.go:237-241 | the field case is processFields |
| WalkerLaws.TimestampCase | generate_influx_point.go:243-255 | the timestamp case: refused after a timestamp, otherwise the value read as a time |
| WalkerLaws.NamedStructNotEntered | generate_influx_point.go:196-207 | an attribute that is neither embedded nor annotated contributes nothing, whatever it holds |
| WalkerLaws.UnannotatedDecodesEmpty | generate_influx_point.go:194-207 | a record with no embedded and no annotated attribute decodes to nothing |
| WalkerLaws.DecodeGrows | generate_influx_point.go:195-257 | along a successful walk nothing collected is removed or overwritten: tags and fields only gain keys, omitted names are only appended, a measurement stays |
| WalkerLaws.StepGrows | generate_influx_point.go:196-256 | one successful iteration extends what was collected |
| WalkerLaws.EmbedCollisions | generate_influx_point.go:147-178 | merging an embedded struct refuses two measurements, two timestamps, and any shared tag, field or omitted-tag name; a successful merge keeps everything from both sides |
| WalkerLaws.EmbeddingReplacesTimestamp | generate_influx_point.go:197-202 | after an embedded struct is merged, the timestamp is the embedded struct's, or none, whatever the parent had |
| WalkerLaws.EmptyEmbedDropsTimestamp | generate_influx_point.go:197-202 | an embedded empty struct changes nothing except that it drops the timestamp collected so far |
| WalkerLaws.TimestampLost | generate_influx_point.go:178-198 | a record with a timestamp attribute and then an embedded empty struct decodes with no timestamp |
| WalkerLaws.OmittedTwice | generate_influx_point.go:234-236 | at top level, two zero `tag,x,omitempty` attributes decode, reporting `x` twice |
| WalkerLaws.OmittedTwiceEmbedded | generate_influx_point.go:170-172 | the same two attributes inside an embedded struct fail with DuplicatedTag |
| WalkerLaws.EmbedFails | generate_influx_point.go:198-201 | a merge that fails fails the iteration before the annotation is read |
| WalkerLaws.DecodeSnoc | generate_influx_point.go:195-257 | walking a record with one more attribute is one more step after walking the record |
| LegacyWalker.GetData | impl.go:20-132 | the walk's result is the legacy Decode of the record |
| LegacyWalker.Visit | impl.go:27-127 | one loop iteration is the legacy StepSpec |
| LegacyWalker.MergeEmbedded | impl.go:34-64 | the inline merge is EmbedSpec: two measurements or two timestamps are refused, tags and fields must not collide, and the parent's timestamp is kept when the embedded struct has none |
| LegacyWalker.InsertAll | impl.go:50-64 | inserting src into org succeeds exactly when the key sets are disjoint, giving the union; otherwise the given duplicate error |
| LegacyWalker.Annotate | impl.go:67-127 | the switch on one annotation is the legacy AnnotationSpec |
| LegacyWalker.ErrorSticks | impl.go:26-129 | once a prefix of the walk fails, every longer prefix fails with the same error |
| LegacyWalker.GenerateInfluxPoint | impl.go:134-150 | a non-struct input gives UnSupportedType and a walk error is passed on; otherwise the decoded tuple with a missing timestamp replaced by `now`, with no measurement or field check |
| LegacyLaws.TagRule | impl.go:87-101 | a tag needs a name (NoTagName) that is unused (DuplicatedTag); later segments are ignored and the string is stored even when empty |
| LegacyLaws.FieldRule | impl.go:102-113 | a field needs a name (NoFieldName) that is unused (DuplicatedField); the raw value is stored |
| LegacyLaws.MeasurementRule | impl.go:78-86 | a measurement is refused only after a measurement; its segment count is not checked |
| LegacyLaws.OmitemptyIgnored | impl.go:87-101 | a zero integer annotated `tag,x,omitempty` is stored as "0" here, while the newer walker reports it as omitted |
| LegacyLaws.FieldStoredRaw | impl.go:113 | a pointer field is stored as the pointer here, and as its target by the newer walker |
| LegacyLaws.MeasurementSegmentsUnchecked | impl.go:78-86 | `measurement,x` is accepted here and refused with UnSupportedTag by the newer walker |
| LegacyLaws.EmbedRules | impl.go:34-64 | an embedded merge refuses two measurements and two timestamps; a successful merge has disjoint tag and field keys, holds their union, and keeps the parent's timestamp when the embedded struct has none |
| LegacyLaws.EmptyEmbedKeepsAll | impl.go:28-65 | an embedded empty struct changes nothing, timestamp included |
| LegacyLaws.TimestampKept | impl.go:42-48 | the record that loses its timestamp in the newer walker keeps it here |
| LegacyLaws.DecodeSnoc | impl.go:26-129 | walking a record with one more attribute is one more step after walking the record |
| FluxQuery.AppendRange | generate_flux_query.go:13-19 | appends the range stage that RangeStages gives |
| FluxQuery.AppendTagFilters | generate_flux_query.go:21-23 | appends one tag filter per key, in a visiting order that lists every key once |
| FluxQuery.FieldPredicate | generate_flux_query.go:25-33 | the predicate is the field terms joined by " or ", and it is empty exactly when there are no fields |
| FluxQuery.AppendFieldFilter | generate_flux_query.go:35-37 | appends the single field stage, or nothing when there are no fields |
| FluxQuery.AppendSuffixes | generate_flux_query.go:39-41 | appends every suffix verbatim as a stage, in order |
| FluxQuery.GenerateFluxQueryText | generate_flux_query.go:5-44 | the query is Query over the inputs, for the order in which the tags were visited |
| FluxQuery.CollectFields | generate_flux_query.go:63-68 | the names it collects list, once each, exactly the fields whose value is not empty |
| FluxQuery.GenerateFluxQuery | generate_flux_query.go:46-71 | a non-struct input gives UnSupportedType and a walk error is passed on; otherwise the query over the decoded tags plus `_measurement`, and the non-empty fields, for the orders the maps yielded |
| FluxQuery.OrderCoversKeys | generate_flux_query.go:21-23 | a visiting order lists only keys, each once, and every key |
| FluxQueryLaws.QueryStart | generate_flux_query.go:11-19 | the query starts with `from(bucket: "<bucket>")`, with the bucket unescaped, followed by its range stage |
| FluxQueryLaws.RangeForms | generate_flux_query.go:13-19 | both bounds give `range(start: S, stop: E)`, the start only gives `range(start: S)`, the stop only gives `range(stop: E)`, and neither gives no stage |
| FluxQueryLaws.OneFilterPerTag | generate_flux_query.go:21-23 | whatever the visiting order, there is one filter stage per tag: each tag has its filter, and every stage filters on a tag |
| FluxQueryLaws.TagFiltersAt | generate_flux_query.go:21-23 | the i-th tag stage filters on the i-th visited tag |
| FluxQueryLaws.FieldStageShape | generate_flux_query.go:25-37 | no fields give no stage; otherwise one stage whose predicate is the first term, then " or " before each later term, in slice order |
| FluxQueryLaws.SuffixesClose | generate_flux_query.go:39-41 | the query is its body followed by the suffix stages verbatim, and it ends with the last suffix |
| FluxQueryLaws.QueryTagsShape | generate_flux_query.go:59-61 | a non-empty measurement joins the tags as `_measurement`; without one the tags are the decoded tags |
| FluxQueryLaws.QueryFieldsShape | generate_flux_query.go:63-68 | a field is filtered on exactly when it was decoded with a value that is not empty |
| FluxQueryLaws.OrdersOfTwo | generate_flux_query.go:21-23 | a map with two keys is visited in one of the two orders |
| FluxQueryLaws.TestRecordDecodes | generate_flux_query_test.go:9-28 | the test's record decodes to measurement "base", tag t1 "abc", t2 reported as omitted, fields f1, f2 and f3, and the timestamp |
| FluxQueryLaws.TestQueryInputs | generate_flux_query_test.go:30-36 | the query filters on tags t1 and `_measurement` and on fields f1 and f2; f3 (holding "") and the omitted t2 are left out |
| FluxQueryLaws.TestExample | generate_flux_query_test.go:8-46 | for any plain names, the record is walkable and decodes as expected, each map is visited in one of two orders, and for t1 before `_measurement` and f1 before f2 the query is the expected text |
| FluxQueryLaws.TestQueryText | generate_flux_query_test.go:30-36 | the expected text, line by line, is the from clause followed by the six stages |
| FluxQueryLaws.TestFluxQuery | generate_flux_query_test.go:8-46 | with the test's own names, the walk succeeds and the query is exactly the text at lines 30-36 when the maps yield t1 before `_measurement` and f1 before f2 |

## Left out

- Reflection (`reflect.Value`, `Type.Field`, `Tag.Get`) is replaced by the `Attribute`/`Value` descriptors. Unexported fields, interface-typed attributes holding non-nil values, and cyclic types are not represented.
- Point construction (`influxdb2.NewPoint`, `influxdb3.NewPoint`) is left out: it is a call into client libraries. `GenerateInfluxPoint` and `GenerateInfluxPointV3` (generate_influx_point.go:297-313) and impl.go:151-153 are modelled up to the `(measurement, tags, fields, timestamp)` tuple, `PointInfo`.
- `%f` float formatting, `time.Time.String`, `decimal.Decimal.String` and `Decimal.InexactFloat64` are left out: they are library routines, and they are parameters in `Formats`. Floats are kept as their bit patterns.
- `time.Now()` is a parameter `now`, because it reads the clock.
- Panics are excluded by preconditions (`Decodable`, `WalkableInput`, `FieldPanics`) rather than modelled:
  - an embedded pointer attribute (`NumField` of a pointer type). The record is excluded wherever the attribute stands, even where Go would first return an earlier attribute's error and never reach `NumField`;
  - a nil pointer field without omitempty in the newer walker (`Interface()` of an invalid value). The record is excluded even where Go would first return an error: an earlier attribute's error, or DuplicatedField for the same name (generate_influx_point.go:119-121), comes before the read at :123-130;
  - a nil or nil-pointer input (`Type()` of an invalid value);
  - every slice input. A slice of structs passes the kind test, and getData then loops over the element type's attributes. Go panics only when one of them is embedded or annotated, because `val.Field(i)` is then called on the slice value (generate_influx_point.go:198, :224-249; impl.go:29). Otherwise the walk returns an empty result: generateCommonPointInfo gives NoValidMeasurement, and GenerateFluxQuery gives the from, range and suffix stages with no filter (generate_flux_query.go:54-71). The model does not cover these outcomes, because `Slice` does not carry the element type's attributes.
- Go map iteration order is not modelled. The methods pick keys arbitrarily, and their contracts hold for every order.
- The `cols` result in the `InfluxQu` interface (influx_qu.go:11) is not modelled: no code computes it.
- Utility.ConversionFailures: a user struct type with its own `String()` or `MarshalText()` method is not represented. `Stringer` and `TextMarshaler` stand for non-struct types only, and `Struct` carries no methods. In Go such a value is read through its method when it is a measurement or tag (utility.go:62-73), and it is still walked as a struct when embedded (generate_influx_point.go:197). So the lemma's "structs are UnSupportedType" holds only for method-less structs.
- Utility.ConversionFailures: a nil pointer does not record its pointee type, so `Ptr(Some(Ptr(None)))` stands only for a `**T` whose inner `*T` is nil and has neither `String()` nor `MarshalText()` in its method set. When `*T` has one (`**time.Time`, `**decimal.Decimal`, whose `*T` carries `T`'s value-receiver `String()`), getFieldAsString removes one pointer (utility.go:50-56) and calls the method on the nil `*T` (utility.go:62-73): a value-receiver method panics, and a pointer-receiver method returns whatever it returns for a nil receiver. The model does not cover these outcomes.
- Utility.GetTypeInfo: returns only the kind half of getTypeInfo's `(Type, Kind)` pair. The entry points only test the kind, and they walk the dereferenced value's own attributes.
- Integer widths are not modelled: every built-in integer type is an unbounded `Int`, and `%d` renders it in decimal.
- The time zone of a `time.Time` is carried as opaque data. Invalid UTF-8 is not represented: strings are sequences of characters.

## Notes on the code as written

- The switch in getFieldAsString has a `time.Time` case using RFC 3339 with nanoseconds (utility.go:82-83). `time.Time` has a `String()` method, so the Stringer test at utility.go:62 takes it first, and that case is never reached. The model follows the code: a time is rendered through `String()`.
- The snapshot is mid-refactor:
  - generate_influx_point.go:249 calls `getFieldAsTime`, but utility.go:89 defines `getFiledAsTime`;
  - impl.go:83 and impl.go:98 call `getFiledAsString`, but utility.go:47 defines `getFieldAsString`;
  - generate_flux_query.go:54 takes five results from getData, as impl.go's getData returns, not the six of generate_influx_point.go.

  The model reads each of these as the one converter or walker that exists.
- `GenerateFluxQuery` is fed by the newer walker, whose omitted-tag names it ignores. Only that walker makes the query test pass: the earlier one would store t2 as "" and add a filter for it.
- The expected text in generate_flux_query_test.go:30-36 fixes one order of the tags and of the fields. Since Go maps have no order, the model proves that text for that order and proves that only one other order is possible.
- processTag and processFields only look for omitempty when there are exactly three segments. A fourth segment neither fails nor enables omitempty.
- After an embedded struct, the newer walker's timestamp is the embedded struct's, or none (generate_influx_point.go:198), so an earlier timestamp is lost. The earlier walker keeps it (impl.go:42-48). Both are modelled as written.
- The targets at impl_test.go:201 list a field `f2` holding the named struct attribute `F`. checkFields (impl_test.go:24-34) only checks that every produced field is among the targets with an equal value (impl_test.go:28), so the test does not require `f2`. Neither walker produces `f2`, because neither enters a named struct attribute without an annotation; `WalkerLaws.NamedStructNotEntered` states this.

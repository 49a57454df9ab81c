/**
 * What the query assembler of generate_flux_query.go promises, stated over
 * the functions of module FluxQuery: the query starts with its `from`
 * clause, then the range stage in one of its forms, one filter per tag, one
 * filter for all fields, and the suffixes; and the worked example of the
 * repository's query test, from the record to the text.
 */
module FluxQueryLaws {
  import opened Errors
  import opened Values
  import opened Text
  import opened Utility
  import opened Config
  import Walker
  import opened WalkerLaws
  import opened FluxQuery

  predicate IsPrefix(p: string, s: string) {
    |p| <= |s| && s[..|p|] == p
  }

  /** Appending stages never changes the text before them. */
  lemma {:induction false} PipelineExtends(head: string, stages: seq<string>)
    ensures IsPrefix(head, Pipeline(head, stages))
    decreases |stages|
  {
    if |stages| > 0 {
      var init := stages[..|stages| - 1];
      PipelineExtends(head, init);
      assert Pipeline(head, stages) == Pipeline(head, init) + (Pipe + stages[|stages| - 1]);
    }
  }

  lemma PrefixTransitive(a: string, b: string, c: string)
    requires IsPrefix(a, b) && IsPrefix(b, c)
    ensures IsPrefix(a, c)
  {
    assert c[..|a|] == c[..|b|][..|a|];
  }

  /** The query starts with its `from` clause, the bucket written as
      given, and then its range stage, if any. */
  lemma QueryStart(bucket: string, start: string, end: string, tags: map<string, string>, order: seq<string>,
                   fields: seq<string>, suffixes: seq<string>)
    requires forall i :: 0 <= i < |order| ==> order[i] in tags
    ensures IsPrefix("from(bucket: \"" + bucket + "\")", Query(bucket, start, end, tags, order, fields, suffixes))
    ensures IsPrefix(Pipeline(FromClause(bucket), RangeStages(start, end)), Query(bucket, start, end, tags, order, fields, suffixes))
  {
    var head := FromClause(bucket);
    var ranged := RangeStages(start, end);
    var rest := TagFilters(tags, order) + FieldStages(fields) + suffixes;
    assert Stages(start, end, tags, order, fields, suffixes) == ranged + rest;
    PipelineAppend(head, ranged, rest);
    PipelineExtends(Pipeline(head, ranged), rest);
    PipelineExtends(head, ranged);
    PrefixTransitive(head, Pipeline(head, ranged), Query(bucket, start, end, tags, order, fields, suffixes));
  }

  /** The range stage in its three forms: both bounds, the start only, the
      stop only; with neither there is no range stage and the tag filters
      follow the `from` clause directly. */
  lemma RangeForms(head: string, start: string, end: string)
    ensures start != "" && end != "" ==>
      Pipeline(head, RangeStages(start, end)) == head + Pipe + "range(start: " + start + ", stop: " + end + ")"
    ensures start != "" && end == "" ==> Pipeline(head, RangeStages(start, end)) == head + Pipe + "range(start: " + start + ")"
    ensures start == "" && end != "" ==> Pipeline(head, RangeStages(start, end)) == head + Pipe + "range(stop: " + end + ")"
    ensures start == "" && end == "" ==> Pipeline(head, RangeStages(start, end)) == head
  {
    var ranged := RangeStages(start, end);
    if |ranged| == 1 {
      PipelineSnoc(head, [], ranged[0]);
      assert [] + [ranged[0]] == ranged;
    }
  }

  /** The `i`-th tag filter is the filter on the `i`-th visited tag. */
  lemma {:induction false} TagFiltersAt(tags: map<string, string>, order: seq<string>, i: nat)
    requires forall j :: 0 <= j < |order| ==> order[j] in tags
    requires i < |order|
    ensures TagFilters(tags, order)[i] == TagFilter(order[i], tags[order[i]])
    decreases |order|
  {
    if i < |order| - 1 {
      var init := order[..|order| - 1];
      TagFiltersAt(tags, init, i);
      assert init[i] == order[i];
    }
  }

  /** Among the stages is the filter on tag `k`. */
  predicate Filtered(tags: map<string, string>, order: seq<string>, k: string)
    requires forall i :: 0 <= i < |order| ==> order[i] in tags
    requires k in tags
  {
    exists i :: 0 <= i < |order| && TagFilters(tags, order)[i] == TagFilter(k, tags[k])
  }

  /** Stage `i` is a filter on some tag. */
  predicate FiltersATag(tags: map<string, string>, order: seq<string>, i: nat)
    requires forall i :: 0 <= i < |order| ==> order[i] in tags
    requires i < |order|
  {
    exists k :: k in tags && TagFilters(tags, order)[i] == TagFilter(k, tags[k])
  }

  /** Whatever the order in which the tags were visited, there is exactly
      one filter stage per tag: each tag `k` with value `v` has the stage
      `filter(fn: (r) => r["k"] == "v")`, and every stage is such a filter. */
  lemma OneFilterPerTag(tags: map<string, string>, order: seq<string>)
    requires IsOrderOf(order, tags.Keys)
    ensures forall i :: 0 <= i < |order| ==> order[i] in tags
    ensures |TagFilters(tags, order)| == |tags|
    ensures forall k :: k in tags ==> Filtered(tags, order, k)
    ensures forall i :: 0 <= i < |order| ==> FiltersATag(tags, order, i)
  {
    OrderCoversKeys(order, tags.Keys);
    assert |tags.Keys| == |tags|;
    forall k | k in tags
      ensures Filtered(tags, order, k)
    {
      var i :| 0 <= i < |order| && order[i] == k;
      TagFiltersAt(tags, order, i);
    }
    forall i | 0 <= i < |order|
      ensures FiltersATag(tags, order, i)
    {
      TagFiltersAt(tags, order, i);
    }
  }

  /** Joined parts read left to right: the first part, then the separator
      before each of the others. */
  lemma {:induction false} JoinWithFront(parts: seq<string>, sep: string)
    requires |parts| >= 2
    ensures JoinWith(parts, sep) == parts[0] + sep + JoinWith(parts[1..], sep)
    decreases |parts|
  {
    if |parts| > 2 {
      var init := parts[..|parts| - 1];
      JoinWithFront(init, sep);
      assert init[1..] == parts[1..][..|parts| - 2];
    } else {
      assert parts[1..] == [parts[1]];
    }
  }

  /** No fields give no field stage; otherwise there is exactly one, whose
      predicate is the first field's term followed by " or " and the
      others' terms, in slice order. */
  lemma FieldStageShape(fields: seq<string>)
    ensures |fields| == 0 ==> FieldStages(fields) == []
    ensures |fields| == 1 ==> FieldStages(fields) == ["filter(fn: (r) => " + FieldTerm(fields[0]) + ")"]
    ensures |fields| >= 2 ==>
      FieldStages(fields) == ["filter(fn: (r) => " + FieldTerm(fields[0]) + " or " + JoinWith(FieldTerms(fields[1..]), " or ") + ")"]
  {
    if |fields| >= 2 {
      var terms := FieldTerms(fields);
      var rest := JoinWith(FieldTerms(fields[1..]), " or ");
      JoinWithFront(terms, " or ");
      assert terms[1..] == FieldTerms(fields[1..]);
      assert JoinWith(terms, " or ") == FieldTerm(fields[0]) + " or " + rest;
      var pre := "filter(fn: (r) => ";
      assert pre + (FieldTerm(fields[0]) + " or " + rest) + ")" == pre + FieldTerm(fields[0]) + " or " + rest + ")";
    }
  }

  /** The suffixes close the query, each as a stage of its own and written
      as given. */
  lemma SuffixesClose(bucket: string, start: string, end: string, tags: map<string, string>, order: seq<string>,
                      fields: seq<string>, suffixes: seq<string>)
    requires forall i :: 0 <= i < |order| ==> order[i] in tags
    ensures var body := Pipeline(FromClause(bucket), RangeStages(start, end) + TagFilters(tags, order) + FieldStages(fields));
      && Query(bucket, start, end, tags, order, fields, suffixes) == Pipeline(body, suffixes)
      && IsPrefix(body, Query(bucket, start, end, tags, order, fields, suffixes))
    ensures |suffixes| > 0 ==>
      var query := Query(bucket, start, end, tags, order, fields, suffixes);
      var last := Pipe + suffixes[|suffixes| - 1];
      |last| <= |query| && query[|query| - |last|..] == last
  {
    var body := RangeStages(start, end) + TagFilters(tags, order) + FieldStages(fields);
    PipelineAppend(FromClause(bucket), body, suffixes);
    PipelineExtends(Pipeline(FromClause(bucket), body), suffixes);
    if |suffixes| > 0 {
      PipelineEnds(Pipeline(FromClause(bucket), body), suffixes);
    }
  }

  /** A pipeline ends with its last stage, introduced by Pipe. */
  lemma PipelineEnds(head: string, stages: seq<string>)
    requires |stages| > 0
    ensures var last := Pipe + stages[|stages| - 1];
      var p := Pipeline(head, stages);
      |last| <= |p| && p[|p| - |last|..] == last
  {
    var init := Pipeline(head, stages[..|stages| - 1]);
    var last := Pipe + stages[|stages| - 1];
    assert Pipeline(head, stages) == init + Pipe + stages[|stages| - 1];
    assert init + Pipe + stages[|stages| - 1] == init + last;
  }

  /** The measurement joins the tags as `_measurement` (replacing a tag of
      that name); without one the tags are the decoded tags. */
  lemma QueryTagsShape(d: Walker.Decoded)
    ensures d.measurement != "" ==>
      && QueryTags(d).Keys == d.tags.Keys + {"_measurement"}
      && QueryTags(d)["_measurement"] == d.measurement
      && forall t :: t in d.tags && t != "_measurement" ==> QueryTags(d)[t] == d.tags[t]
    ensures d.measurement == "" ==> QueryTags(d) == d.tags
  {
  }

  /** A field is filtered on exactly when it was decoded with a value that
      is not empty: a field holding "" is left out. */
  lemma QueryFieldsShape(d: Walker.Decoded, f: string)
    ensures f in QueryFields(d) <==> f in d.fields && !IsValueEmpty(d.fields[f])
    ensures f in d.fields && d.fields[f] == Str("") ==> f !in QueryFields(d)
  {
  }

  /** The orders of a two-key map: one key first, or the other. */
  lemma OrdersOfTwo(order: seq<string>, a: string, b: string)
    requires a != b && IsOrderOf(order, {a, b})
    ensures order == [a, b] || order == [b, a]
  {
    OrderCoversKeys(order, {a, b});
    assert |order| == 2;
    assert a in order && b in order;
  }
  // ---------------------------------------------------------------------
  // The worked example of the query test

  /** The names the test's record uses, as parameters. */
  datatype Names = Names(t1: string, t2: string, f1: string, f2: string, f3: string)

  predicate PlainNames(n: Names) {
    && Word(n.t1) && Word(n.t2) && Word(n.f1) && Word(n.f2) && Word(n.f3)
    && n.t1 != n.t2 && n.t1 != "_measurement"
    && n.f1 != n.f2 && n.f1 != n.f3 && n.f2 != n.f3
  }

  /** The test's record: measurement "base", tag t1 "abc", tag t2 ""
      with omitempty, fields f1 1, f2 true, f3 "", and a timestamp. */
  function TestRecord(q: InfluxQu, t: Instant, n: Names): seq<Attribute> {
    [ Attribute(false, map[q.key := q.measurementKey], Str("base")),
      Attribute(false, map[q.key := q.tagKey + "," + n.t1], Str("abc")),
      Attribute(false, map[q.key := q.tagKey + "," + n.t2 + "," + OmitEmptyKey], Str("")),
      Attribute(false, map[q.key := q.fieldKey + "," + n.f1], Int(1)),
      Attribute(false, map[q.key := q.fieldKey + "," + n.f2], Bool(true)),
      Attribute(false, map[q.key := q.fieldKey + "," + n.f3], Str("")),
      Attribute(false, map[q.key := q.timestampKey], Time(t)) ]
  }

  function TestDecoded(t: Instant, n: Names): Walker.Decoded {
    Walker.Decoded("base", map[n.t1 := "abc"], [n.t2], map[n.f1 := Int(1), n.f2 := Bool(true), n.f3 := Str("")], Some(t))
  }

  /** One more attribute walked. */
  lemma StepUp(q: InfluxQu, fm: Formats, rec: seq<Attribute>, k: nat, d: Walker.Decoded, d': Walker.Decoded)
    requires k < |rec| && Walker.Decodable(q, rec)
    requires Walker.DecodeUpTo(q, fm, rec, k) == Ok(d)
    requires Walker.StepSpec(q, fm, d, rec[k]) == Ok(d')
    ensures Walker.DecodeUpTo(q, fm, rec, k + 1) == Ok(d')
  {
  }

  /** The tag attributes of the test record. */
  lemma TestTagSteps(q: InfluxQu, fm: Formats, t: Instant, n: Names)
    requires PlainKeys(q) && PlainNames(n)
    ensures var rec := TestRecord(q, t, n);
      var d1 := Walker.EmptyDecoded.(measurement := "base");
      var d2 := d1.(tags := map[n.t1 := "abc"]);
      && Walker.AttributeDecodable(q, rec[0]) && Walker.AttributeDecodable(q, rec[1]) && Walker.AttributeDecodable(q, rec[2])
      && Walker.StepSpec(q, fm, Walker.EmptyDecoded, rec[0]) == Ok(d1)
      && Walker.StepSpec(q, fm, d1, rec[1]) == Ok(d2)
      && Walker.StepSpec(q, fm, d2, rec[2]) == Ok(d2.(omitTags := [n.t2]))
  {
    var rec := TestRecord(q, t, n);
    var d1 := Walker.EmptyDecoded.(measurement := "base");
    var d2 := d1.(tags := map[n.t1 := "abc"]);
    assert rec[0] == Attribute(false, map[q.key := q.measurementKey], Str("base"));
    assert rec[1] == Attribute(false, map[q.key := q.tagKey + "," + n.t1], Str("abc"));
    assert rec[2] == Attribute(false, map[q.key := q.tagKey + "," + n.t2 + "," + OmitEmptyKey], Str(""));
    MeasurementStep(q, fm, Walker.EmptyDecoded, "base");
    TagStep(q, fm, d1, n.t1, "abc");
    OmittedTagStep(q, fm, d2, n.t2);
    assert d2.omitTags + [n.t2] == [n.t2];
  }

  /** The field and timestamp attributes of the test record. */
  lemma TestFieldSteps(q: InfluxQu, fm: Formats, t: Instant, n: Names, d3: Walker.Decoded)
    requires PlainKeys(q) && PlainNames(n) && d3.fields == map[] && d3.timestamp.None?
    ensures var rec := TestRecord(q, t, n);
      var d4 := d3.(fields := map[n.f1 := Int(1)]);
      var d5 := d4.(fields := map[n.f1 := Int(1), n.f2 := Bool(true)]);
      var d6 := d5.(fields := map[n.f1 := Int(1), n.f2 := Bool(true), n.f3 := Str("")]);
      && Walker.AttributeDecodable(q, rec[3]) && Walker.AttributeDecodable(q, rec[4])
      && Walker.AttributeDecodable(q, rec[5]) && Walker.AttributeDecodable(q, rec[6])
      && Walker.StepSpec(q, fm, d3, rec[3]) == Ok(d4)
      && Walker.StepSpec(q, fm, d4, rec[4]) == Ok(d5)
      && Walker.StepSpec(q, fm, d5, rec[5]) == Ok(d6)
      && Walker.StepSpec(q, fm, d6, rec[6]) == Ok(d6.(timestamp := Some(t)))
  {
    var rec := TestRecord(q, t, n);
    var d4 := d3.(fields := map[n.f1 := Int(1)]);
    var d5 := d4.(fields := map[n.f1 := Int(1), n.f2 := Bool(true)]);
    assert rec[3] == Attribute(false, map[q.key := q.fieldKey + "," + n.f1], Int(1));
    assert rec[4] == Attribute(false, map[q.key := q.fieldKey + "," + n.f2], Bool(true));
    assert rec[5] == Attribute(false, map[q.key := q.fieldKey + "," + n.f3], Str(""));
    assert rec[6] == Attribute(false, map[q.key := q.timestampKey], Time(t));
    FieldStep(q, fm, d3, n.f1, Int(1));
    FieldStep(q, fm, d4, n.f2, Bool(true));
    FieldStep(q, fm, d5, n.f3, Str(""));
    TimestampStep(q, fm, d5.(fields := map[n.f1 := Int(1), n.f2 := Bool(true), n.f3 := Str("")]), t);
  }

  /** The test record decodes to measurement "base", tag t1, t2 reported
      as omitted, fields f1, f2 and f3, and the timestamp. */
  lemma TestRecordDecodes(q: InfluxQu, fm: Formats, t: Instant, n: Names)
    requires PlainKeys(q) && PlainNames(n)
    ensures Walker.Decodable(q, TestRecord(q, t, n))
    ensures Walker.Decode(q, fm, TestRecord(q, t, n)) == Ok(TestDecoded(t, n))
  {
    var rec := TestRecord(q, t, n);
    var d1 := Walker.EmptyDecoded.(measurement := "base");
    var d2 := d1.(tags := map[n.t1 := "abc"]);
    var d3 := d2.(omitTags := [n.t2]);
    var d4 := d3.(fields := map[n.f1 := Int(1)]);
    var d5 := d4.(fields := map[n.f1 := Int(1), n.f2 := Bool(true)]);
    var d6 := d5.(fields := map[n.f1 := Int(1), n.f2 := Bool(true), n.f3 := Str("")]);
    TestTagSteps(q, fm, t, n);
    TestFieldSteps(q, fm, t, n, d3);
    assert Walker.Decodable(q, rec) by {
      forall i | 0 <= i < 7
        ensures Walker.AttributeDecodable(q, rec[i])
      {
        if i == 0 {} else if i == 1 {} else if i == 2 {} else if i == 3 {} else if i == 4 {} else if i == 5 {} else {}
      }
    }
    StepUp(q, fm, rec, 0, Walker.EmptyDecoded, d1);
    StepUp(q, fm, rec, 1, d1, d2);
    StepUp(q, fm, rec, 2, d2, d3);
    StepUp(q, fm, rec, 3, d3, d4);
    StepUp(q, fm, rec, 4, d4, d5);
    StepUp(q, fm, rec, 5, d5, d6);
    StepUp(q, fm, rec, 6, d6, TestDecoded(t, n));
  }

  /** The query derives the tags t1 and `_measurement` and the fields f1 and
      f2 from it; f3 holds "" and is left out, and so is the omitted t2. */
  lemma TestQueryInputs(t: Instant, n: Names)
    requires PlainNames(n)
    ensures QueryTags(TestDecoded(t, n)) == map[n.t1 := "abc", "_measurement" := "base"]
    ensures QueryTags(TestDecoded(t, n)).Keys == {n.t1, "_measurement"}
    ensures QueryFields(TestDecoded(t, n)) == {n.f1, n.f2}
  {
    var d := TestDecoded(t, n);
    assert IsValueEmpty(Str(""));
    assert forall k :: k in QueryFields(d) <==> k == n.f1 || k == n.f2;
  }

  /** The six stages the test expects. */
  function TestStages(n: Names): seq<string> {
    ["range(start: " + "-1h" + ")", TagFilter(n.t1, "abc"), TagFilter("_measurement", "base"),
     "filter(fn: (r) => " + FieldTerm(n.f1) + " or " + FieldTerm(n.f2) + ")",
     "sort(\"_time\")", "last()"]
  }

  /** With t1 visited before `_measurement` and f1 before f2, the query
      is, stage by stage, the range from "-1h", the two tag filters, the
      field filter and the two suffixes. */
  lemma TestQueryStages(bucket: string, n: Names)
    requires PlainNames(n)
    ensures var tags := map[n.t1 := "abc", "_measurement" := "base"];
      Query(bucket, "-1h", "", tags, [n.t1, "_measurement"], [n.f1, n.f2], ["sort(\"_time\")", "last()"]) ==
        Pipeline(FromClause(bucket), TestStages(n))
  {
    var tags := map[n.t1 := "abc", "_measurement" := "base"];
    var order := [n.t1, "_measurement"];
    var tagged := [TagFilter(n.t1, "abc"), TagFilter("_measurement", "base")];
    assert TagFilters(tags, order) == tagged by {
      TagFiltersSnoc(tags, [], n.t1);
      TagFiltersSnoc(tags, [n.t1], "_measurement");
      assert [] + [n.t1] == [n.t1];
      assert [n.t1] + ["_measurement"] == order;
    }
    var fs := [n.f1, n.f2];
    assert FieldTerms(fs) == [FieldTerm(n.f1), FieldTerm(n.f2)];
    assert JoinWith([FieldTerm(n.f1), FieldTerm(n.f2)], " or ") == FieldTerm(n.f1) + " or " + FieldTerm(n.f2) by {
      assert [FieldTerm(n.f1), FieldTerm(n.f2)][..1] == [FieldTerm(n.f1)];
    }
    var pre := "filter(fn: (r) => ";
    assert pre + (FieldTerm(n.f1) + " or " + FieldTerm(n.f2)) + ")" == pre + FieldTerm(n.f1) + " or " + FieldTerm(n.f2) + ")";
    var filtered := [pre + FieldTerm(n.f1) + " or " + FieldTerm(n.f2) + ")"];
    assert FieldStages(fs) == filtered;
    assert RangeStages("-1h", "") == ["range(start: " + "-1h" + ")"];
    var suffixes := ["sort(\"_time\")", "last()"];
    assert ["range(start: " + "-1h" + ")"] + tagged + filtered + suffixes == TestStages(n);
  }

  /** A pipeline of six stages, written out. */
  lemma PipelineSix(head: string, a: string, b: string, c: string, d: string, e: string, f: string)
    ensures Pipeline(head, [a, b, c, d, e, f]) ==
      head + (Pipe + a) + (Pipe + b) + (Pipe + c) + (Pipe + d) + (Pipe + e) + (Pipe + f)
  {
    PipedSnoc(head, [], a);
    PipedSnoc(head, [a], b);
    PipedSnoc(head, [a, b], c);
    PipedSnoc(head, [a, b, c], d);
    PipedSnoc(head, [a, b, c, d], e);
    PipedSnoc(head, [a, b, c, d, e], f);
    assert [] + [a] == [a];
    assert [a] + [b] == [a, b];
    assert [a, b] + [c] == [a, b, c];
    assert [a, b, c] + [d] == [a, b, c, d];
    assert [a, b, c, d] + [e] == [a, b, c, d, e];
    assert [a, b, c, d, e] + [f] == [a, b, c, d, e, f];
  }

  lemma PipedSnoc(head: string, stages: seq<string>, s: string)
    ensures Pipeline(head, stages + [s]) == Pipeline(head, stages) + (Pipe + s)
  {
    PipelineSnoc(head, stages, s);
    var p := Pipeline(head, stages);
    assert p + Pipe + s == p + (Pipe + s);
  }

  /** The text the test expects, line by line, for the test's names. */
  lemma TestQueryText()
    ensures Pipeline(FromClause("bucket"), TestStages(Names("t1", "t2", "f1", "f2", "f3"))) ==
      "from(bucket: \"bucket\")" +
      "\n |> range(start: -1h)" +
      ("\n |> filter(fn: (r) => r[\"" + "t1" + "\"] == \"" + "abc" + "\")") +
      ("\n |> filter(fn: (r) => r[\"" + "_measurement" + "\"] == \"" + "base" + "\")") +
      ("\n |> filter(fn: (r) => " + "r[\"_field\"] == \"" + "f1" + "\" or r[\"_field\"] == \"" + "f2" + "\")") +
      "\n |> sort(\"_time\")" +
      "\n |> last()"
  {
    var s := TestStages(Names("t1", "t2", "f1", "f2", "f3"));
    PipelineSix(FromClause("bucket"), s[0], s[1], s[2], s[3], s[4], s[5]);
    assert s == [s[0], s[1], s[2], s[3], s[4], s[5]];
    assert FromClause("bucket") == "from(bucket: \"bucket\")";
    assert Pipe + ("range(start: " + "-1h" + ")") == "\n |> range(start: -1h)";
    TagLine("t1", "abc");
    TagLine("_measurement", "base");
    FieldLine("f1", "f2");
    assert Pipe + "sort(\"_time\")" == "\n |> sort(\"_time\")";
    assert Pipe + "last()" == "\n |> last()";
  }

  /** A tag filter as a line of the query. */
  lemma TagLine(k: string, v: string)
    ensures Pipe + TagFilter(k, v) == "\n |> filter(fn: (r) => r[\"" + k + "\"] == \"" + v + "\")"
  {
    var open := "filter(fn: (r) => r[\"";
    assert Pipe + open == "\n |> filter(fn: (r) => r[\"";
    assert Pipe + (open + k + "\"] == \"" + v + "\")") == Pipe + open + k + "\"] == \"" + v + "\")";
  }

  /** The filter on two fields as a line of the query. */
  lemma FieldLine(f1: string, f2: string)
    ensures Pipe + ("filter(fn: (r) => " + FieldTerm(f1) + " or " + FieldTerm(f2) + ")") ==
      "\n |> filter(fn: (r) => " + "r[\"_field\"] == \"" + f1 + "\" or r[\"_field\"] == \"" + f2 + "\")"
  {
    var open, term, quote, sep, close := "filter(fn: (r) => ", "r[\"_field\"] == \"", "\"", " or ", ")";
    assert Pipe + (open + (term + f1 + quote) + sep + (term + f2 + quote) + close) ==
      (Pipe + open + term) + f1 + (quote + sep + term) + f2 + (quote + close);
    assert Pipe + open + term == "\n |> filter(fn: (r) => " + "r[\"_field\"] == \"" by {
      assert Pipe + open == "\n |> filter(fn: (r) => ";
    }
    assert quote + sep + term == "\" or r[\"_field\"] == \"";
    assert quote + close == "\")";
  }

  /** GenerateFluxQuery on the test record, with bucket "bucket", start
      "-1h", no stop and the suffixes `sort("_time")` and `last()`: the
      record is walkable and decodes as the test expects; the tags are
      visited in one of two orders and the fields in one of two; and for
      t1 before `_measurement` and f1 before f2 the query is the text the
      test expects. */
  lemma TestExample(q: InfluxQu, fm: Formats, t: Instant, n: Names, tagOrder: seq<string>, fieldOrder: seq<string>)
    requires PlainKeys(q) && PlainNames(n)
    requires IsOrderOf(tagOrder, QueryTags(TestDecoded(t, n)).Keys)
    requires IsOrderOf(fieldOrder, QueryFields(TestDecoded(t, n)))
    ensures GetTypeInfo(Struct(TestRecord(q, t, n))) == StructKind
    ensures Walker.WalkableInput(q, Struct(TestRecord(q, t, n)))
    ensures Walker.Decode(q, fm, Walker.InputRecord(Struct(TestRecord(q, t, n)))) == Ok(TestDecoded(t, n))
    ensures tagOrder == [n.t1, "_measurement"] || tagOrder == ["_measurement", n.t1]
    ensures fieldOrder == [n.f1, n.f2] || fieldOrder == [n.f2, n.f1]
    ensures tagOrder == [n.t1, "_measurement"] && fieldOrder == [n.f1, n.f2] ==>
      Query("bucket", "-1h", "", QueryTags(TestDecoded(t, n)), tagOrder, fieldOrder, ["sort(\"_time\")", "last()"]) ==
      Pipeline(FromClause("bucket"), TestStages(n))
  {
    TestInput(q, fm, t, n);
    TestQueryInputs(t, n);
    OrdersOfTwo(tagOrder, n.t1, "_measurement");
    OrdersOfTwo(fieldOrder, n.f1, n.f2);
    TestQueryStages("bucket", n);
  }

  /** The test record as GenerateFluxQuery's input. */
  lemma TestInput(q: InfluxQu, fm: Formats, t: Instant, n: Names)
    requires PlainKeys(q) && PlainNames(n)
    ensures GetTypeInfo(Struct(TestRecord(q, t, n))) == StructKind
    ensures Walker.WalkableInput(q, Struct(TestRecord(q, t, n)))
    ensures Walker.Decode(q, fm, Walker.InputRecord(Struct(TestRecord(q, t, n)))) == Ok(TestDecoded(t, n))
  {
    var rec := TestRecord(q, t, n);
    assert Indirect(Struct(rec)) == Struct(rec);
    assert Walker.InputRecord(Struct(rec)) == rec;
    TestRecordDecodes(q, fm, t, n);
  }

  /** The test's names are plain. */
  lemma TestNamesPlain()
    ensures PlainNames(Names("t1", "t2", "f1", "f2", "f3"))
  {
  }

  /** The query test itself, with its names: on the test record the walk
      succeeds, and when the maps yield t1 before `_measurement` and f1
      before f2 the query is the expected text. */
  lemma TestFluxQuery(q: InfluxQu, fm: Formats, t: Instant, tagOrder: seq<string>, fieldOrder: seq<string>)
    requires PlainKeys(q)
    requires IsOrderOf(tagOrder, QueryTags(TestDecoded(t, Names("t1", "t2", "f1", "f2", "f3"))).Keys)
    requires IsOrderOf(fieldOrder, QueryFields(TestDecoded(t, Names("t1", "t2", "f1", "f2", "f3"))))
    ensures var input := Struct(TestRecord(q, t, Names("t1", "t2", "f1", "f2", "f3")));
      && GetTypeInfo(input) == StructKind
      && Walker.WalkableInput(q, input)
      && Walker.Decode(q, fm, Walker.InputRecord(input)) == Ok(TestDecoded(t, Names("t1", "t2", "f1", "f2", "f3")))
    ensures tagOrder == ["t1", "_measurement"] && fieldOrder == ["f1", "f2"] ==>
      Query("bucket", "-1h", "", QueryTags(TestDecoded(t, Names("t1", "t2", "f1", "f2", "f3"))), tagOrder, fieldOrder,
            ["sort(\"_time\")", "last()"]) ==
      "from(bucket: \"bucket\")" +
      "\n |> range(start: -1h)" +
      ("\n |> filter(fn: (r) => r[\"" + "t1" + "\"] == \"" + "abc" + "\")") +
      ("\n |> filter(fn: (r) => r[\"" + "_measurement" + "\"] == \"" + "base" + "\")") +
      ("\n |> filter(fn: (r) => " + "r[\"_field\"] == \"" + "f1" + "\" or r[\"_field\"] == \"" + "f2" + "\")") +
      "\n |> sort(\"_time\")" +
      "\n |> last()"
  {
    var n := Names("t1", "t2", "f1", "f2", "f3");
    TestNamesPlain();
    TestExample(q, fm, t, n, tagOrder, fieldOrder);
    TestQueryText();
  }
}

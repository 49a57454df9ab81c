/**
 * generate_flux_query.go: the Flux query assembler. A query is a `from`
 * clause followed by pipeline stages, each introduced by a line break and
 * ` |> `: an optional range, one filter per tag, one filter that ORs the
 * field names together, then the caller's suffix stages verbatim.
 *
 * The tags and the decoded fields come from Go maps, whose iteration order is
 * unspecified: the methods choose the next key arbitrarily and return, as a
 * ghost result, the order they used.
 */
module FluxQuery {
  import opened Errors
  import opened Values
  import opened Utility
  import opened Config
  import Walker

  /** What introduces every stage after the `from` clause. */
  const Pipe: string := "\n |> "

  function FromClause(bucket: string): string {
    "from(bucket: \"" + bucket + "\")"
  }

  /** The range stage: both bounds, the start only, the stop only, or none. */
  function RangeStages(start: string, end: string): seq<string> {
    if start != "" && end != "" then ["range(start: " + start + ", stop: " + end + ")"]
    else if start != "" then ["range(start: " + start + ")"]
    else if end != "" then ["range(stop: " + end + ")"]
    else []
  }

  function TagFilter(k: string, v: string): string {
    "filter(fn: (r) => r[\"" + k + "\"] == \"" + v + "\")"
  }

  /** One filter stage per tag, in the order the tags were visited. */
  function TagFilters(tags: map<string, string>, order: seq<string>): (r: seq<string>)
    requires forall i :: 0 <= i < |order| ==> order[i] in tags
    ensures |r| == |order|
  {
    if |order| == 0 then []
    else TagFilters(tags, order[..|order| - 1]) + [TagFilter(order[|order| - 1], tags[order[|order| - 1]])]
  }

  function FieldTerm(f: string): string {
    "r[\"_field\"] == \"" + f + "\""
  }

  /** The parts separated by `sep`: "" for no parts. */
  function JoinWith(parts: seq<string>, sep: string): string {
    if |parts| == 0 then ""
    else if |parts| == 1 then parts[0]
    else JoinWith(parts[..|parts| - 1], sep) + sep + parts[|parts| - 1]
  }

  function FieldTerms(fields: seq<string>): (r: seq<string>)
    ensures |r| == |fields|
    ensures forall i :: 0 <= i < |fields| ==> r[i] == FieldTerm(fields[i])
  {
    if |fields| == 0 then [] else FieldTerms(fields[..|fields| - 1]) + [FieldTerm(fields[|fields| - 1])]
  }

  /** The field stage: none for no fields, otherwise one filter whose
      predicate ORs the field terms in slice order. */
  function FieldStages(fields: seq<string>): seq<string> {
    if |fields| == 0 then [] else ["filter(fn: (r) => " + JoinWith(FieldTerms(fields), " or ") + ")"]
  }

  /** `head` followed by every stage, each introduced by Pipe. */
  function Pipeline(head: string, stages: seq<string>): string {
    if |stages| == 0 then head
    else Pipeline(head, stages[..|stages| - 1]) + Pipe + stages[|stages| - 1]
  }

  /** The stages of a query, in order. */
  function Stages(start: string, end: string, tags: map<string, string>, order: seq<string>,
                  fields: seq<string>, suffixes: seq<string>): seq<string>
    requires forall i :: 0 <= i < |order| ==> order[i] in tags
  {
    RangeStages(start, end) + TagFilters(tags, order) + FieldStages(fields) + suffixes
  }

  /** The query text for given inputs and a given tag visiting order. */
  function Query(bucket: string, start: string, end: string, tags: map<string, string>, order: seq<string>,
                 fields: seq<string>, suffixes: seq<string>): string
    requires forall i :: 0 <= i < |order| ==> order[i] in tags
  {
    Pipeline(FromClause(bucket), Stages(start, end, tags, order, fields, suffixes))
  }

  /** `order` lists every member of `keys` exactly once: a visiting order of
      a map with these keys. */
  predicate IsOrderOf(order: seq<string>, keys: set<string>)
    decreases |order|
  {
    if |order| == 0 then keys == {}
    else order[|order| - 1] in keys && IsOrderOf(order[..|order| - 1], keys - {order[|order| - 1]})
  }

  /** A visiting order lists only keys, each key once, and every key. */
  lemma {:induction false} OrderCoversKeys(order: seq<string>, keys: set<string>)
    requires IsOrderOf(order, keys)
    ensures |order| == |keys|
    ensures forall i :: 0 <= i < |order| ==> order[i] in keys
    ensures forall i, j :: 0 <= i < j < |order| ==> order[i] != order[j]
    ensures forall k :: k in keys ==> k in order
    decreases |order|
  {
    if |order| > 0 {
      var n := |order| - 1;
      var last := order[n];
      var init := order[..n];
      OrderCoversKeys(init, keys - {last});
      assert order == init + [last];
      forall k | k in keys
        ensures k in order
      {
        if k != last {
          assert k in init;
        }
      }
    }
  }

  // ---------------------------------------------------------------------
  // Facts the methods use

  lemma PipelineSnoc(head: string, stages: seq<string>, s: string)
    ensures Pipeline(head, stages + [s]) == Pipeline(head, stages) + Pipe + s
  {
    assert (stages + [s])[..|stages|] == stages;
  }

  /** A pipeline over two runs of stages is the second run piped after the
      first. */
  lemma {:induction false} PipelineAppend(head: string, a: seq<string>, b: seq<string>)
    ensures Pipeline(head, a + b) == Pipeline(Pipeline(head, a), b)
    decreases |b|
  {
    if |b| == 0 {
      assert a + b == a;
    } else {
      PipelineAppend(head, a, b[..|b| - 1]);
      assert (a + b)[..|a + b| - 1] == a + b[..|b| - 1];
    }
  }

  /** Visiting one more, unvisited key extends a visiting order. */
  lemma OrderSnoc(order: seq<string>, keys: set<string>, k: string)
    requires IsOrderOf(order, keys) && k !in keys
    ensures IsOrderOf(order + [k], keys + {k})
  {
    assert (order + [k])[..|order|] == order;
    assert (keys + {k}) - {k} == keys;
  }

  lemma TagFiltersSnoc(tags: map<string, string>, order: seq<string>, k: string)
    requires forall i :: 0 <= i < |order| ==> order[i] in tags
    requires k in tags
    ensures TagFilters(tags, order + [k]) == TagFilters(tags, order) + [TagFilter(k, tags[k])]
  {
    assert (order + [k])[..|order|] == order;
  }

  lemma FieldTermsSnoc(fields: seq<string>, i: nat)
    requires i < |fields|
    ensures FieldTerms(fields[..i + 1]) == FieldTerms(fields[..i]) + [FieldTerm(fields[i])]
  {
    assert fields[..i + 1][..i] == fields[..i];
  }

  lemma JoinWithSnoc(parts: seq<string>, sep: string, p: string)
    ensures JoinWith(parts + [p], sep) == if |parts| == 0 then p else JoinWith(parts, sep) + sep + p
  {
    assert (parts + [p])[..|parts|] == parts;
  }

  /** The joined field terms are empty exactly when there are no fields. */
  lemma {:induction false} FieldTermsEmpty(fields: seq<string>)
    ensures JoinWith(FieldTerms(fields), " or ") == "" <==> |fields| == 0
  {
    if |fields| > 1 {
      assert FieldTerms(fields)[..|fields| - 1] == FieldTerms(fields[..|fields| - 1]);
    }
  }

  // ---------------------------------------------------------------------
  // The Go code

  /** generateFluxQuery: builds the query text with `+=`: the `from` clause,
      the range test, the tag loop, the field predicate and the suffix
      loop. */
  method GenerateFluxQueryText(bucket: string, start: string, end: string, tags: map<string, string>,
                               fields: seq<string>, suffixes: seq<string>)
    returns (query: string, ghost order: seq<string>)
    ensures IsOrderOf(order, tags.Keys)
    ensures forall i :: 0 <= i < |order| ==> order[i] in tags
    ensures query == Query(bucket, start, end, tags, order, fields, suffixes)
  {
    ghost var head := FromClause(bucket);
    query := AppendRange(FromClause(bucket), start, end);
    ghost var ranged := RangeStages(start, end);

    query, order := AppendTagFilters(query, tags);
    ghost var tagged := TagFilters(tags, order);
    PipelineAppend(head, ranged, tagged);

    query := AppendFieldFilter(query, fields);
    ghost var filtered := FieldStages(fields);
    PipelineAppend(head, ranged + tagged, filtered);

    query := AppendSuffixes(query, suffixes);
    PipelineAppend(head, ranged + tagged + filtered, suffixes);
  }

  /** generateFluxQuery's range test: a range stage with the bounds given. */
  method AppendRange(prefix: string, start: string, end: string) returns (query: string)
    ensures query == Pipeline(prefix, RangeStages(start, end))
  {
    query := prefix;
    if start != "" && end != "" {
      query := query + Pipe + ("range(start: " + start + ", stop: " + end + ")");
    } else if start != "" {
      query := query + Pipe + ("range(start: " + start + ")");
    } else if end != "" {
      query := query + Pipe + ("range(stop: " + end + ")");
    }
    ghost var ranged := RangeStages(start, end);
    if |ranged| == 1 {
      PipelineSnoc(prefix, [], ranged[0]);
    }
  }

  /** generateFluxQuery's field stage: appended only when the predicate
      is not empty. */
  method AppendFieldFilter(prefix: string, fields: seq<string>) returns (query: string)
    ensures query == Pipeline(prefix, FieldStages(fields))
  {
    query := prefix;
    var m := FieldPredicate(fields);
    if m != "" {
      PipelineSnoc(prefix, [], "filter(fn: (r) => " + m + ")");
      query := query + Pipe + ("filter(fn: (r) => " + m + ")");
    }
  }

  /** generateFluxQuery's suffix loop: every suffix, verbatim, as a stage. */
  method AppendSuffixes(prefix: string, suffixes: seq<string>) returns (query: string)
    ensures query == Pipeline(prefix, suffixes)
  {
    query := prefix;
    for j := 0 to |suffixes|
      invariant query == Pipeline(prefix, suffixes[..j])
    {
      PipelineSnoc(prefix, suffixes[..j], suffixes[j]);
      assert suffixes[..j + 1] == suffixes[..j] + [suffixes[j]];
      query := query + Pipe + suffixes[j];
    }
    assert suffixes[..|suffixes|] == suffixes;
  }

  /** generateFluxQuery's `for k, v := range tags` loop: one filter stage per
      tag, appended in the order the map yields them. */
  method AppendTagFilters(prefix: string, tags: map<string, string>) returns (query: string, ghost order: seq<string>)
    ensures IsOrderOf(order, tags.Keys)
    ensures forall i :: 0 <= i < |order| ==> order[i] in tags
    ensures query == Pipeline(prefix, TagFilters(tags, order))
  {
    query, order := prefix, [];
    ghost var stages: seq<string> := [];
    var rest := tags.Keys;
    while rest != {}
      invariant rest <= tags.Keys
      invariant IsOrderOf(order, tags.Keys - rest)
      invariant forall i :: 0 <= i < |order| ==> order[i] in tags
      invariant stages == TagFilters(tags, order)
      invariant query == Pipeline(prefix, stages)
      decreases rest
    {
      var k :| k in rest;
      ghost var visited := tags.Keys - rest;
      OrderSnoc(order, visited, k);
      assert tags.Keys - (rest - {k}) == visited + {k};
      PipelineSnoc(prefix, stages, TagFilter(k, tags[k]));
      TagFiltersSnoc(tags, order, k);
      query := query + Pipe + TagFilter(k, tags[k]);
      stages := stages + [TagFilter(k, tags[k])];
      order := order + [k];
      rest := rest - {k};
    }
    assert tags.Keys - rest == tags.Keys;
  }

  /** generateFluxQuery's field loop: `m` collects the field terms, with
      " or " before every term but the first. It is empty exactly when there
      are no fields. */
  method FieldPredicate(fields: seq<string>) returns (m: string)
    ensures m == JoinWith(FieldTerms(fields), " or ")
    ensures m == "" <==> |fields| == 0
  {
    m := "";
    for i := 0 to |fields|
      invariant m == JoinWith(FieldTerms(fields[..i]), " or ")
    {
      JoinWithSnoc(FieldTerms(fields[..i]), " or ", FieldTerm(fields[i]));
      FieldTermsSnoc(fields, i);
      if i != 0 {
        m := m + " or ";
      }
      m := m + FieldTerm(fields[i]);
    }
    assert fields[..|fields|] == fields;
    FieldTermsEmpty(fields);
  }

  /** The tags the query filters on: the decoded tags, with the measurement
      added as `_measurement` when there is one. */
  function QueryTags(d: Walker.Decoded): map<string, string> {
    if d.measurement != "" then d.tags["_measurement" := d.measurement] else d.tags
  }

  /** The fields the query filters on: the decoded fields whose value is not
      empty. */
  function QueryFields(d: Walker.Decoded): set<string> {
    set k | k in d.fields && !IsValueEmpty(d.fields[k])
  }

  /** GenerateFluxQuery's `for k, v := range data.fields` loop: the names
      of the fields whose value is not empty, in the order the map yields
      them. */
  method CollectFields(fields: map<string, Value>) returns (names: seq<string>)
    ensures IsOrderOf(names, set k | k in fields && !IsValueEmpty(fields[k]))
  {
    names := [];
    var rest := fields.Keys;
    ghost var kept: set<string> := {};
    while rest != {}
      invariant rest <= fields.Keys
      invariant IsOrderOf(names, kept)
      invariant kept == set k | k in fields.Keys - rest && !IsValueEmpty(fields[k])
      decreases rest
    {
      var k :| k in rest;
      if !IsValueEmpty(fields[k]) {
        OrderSnoc(names, kept, k);
        names := names + [k];
        kept := kept + {k};
      }
      rest := rest - {k};
    }
    assert fields.Keys - rest == fields.Keys;
  }

  /** GenerateFluxQuery: a non-struct input is UnSupportedType, a walk error
      is passed on; otherwise the query over QueryTags and QueryFields, for
      the orders in which the two maps were visited. The walker's omitted
      tag names are not used. */
  method GenerateFluxQuery(q: InfluxQu, fm: Formats, bucket: string, start: string, end: string,
                           input: Value, suffixes: seq<string>)
    returns (r: Result<string>, ghost tagOrder: seq<string>, ghost fieldOrder: seq<string>)
    requires Walker.WalkableInput(q, input)
    ensures GetTypeInfo(input) != StructKind ==> r == Err(UnSupportedType)
    ensures GetTypeInfo(input) == StructKind && Walker.Decode(q, fm, Walker.InputRecord(input)).Err? ==>
      r == Err(Walker.Decode(q, fm, Walker.InputRecord(input)).error)
    ensures GetTypeInfo(input) == StructKind && Walker.Decode(q, fm, Walker.InputRecord(input)).Ok? ==>
      var d := Walker.Decode(q, fm, Walker.InputRecord(input)).value;
      && IsOrderOf(tagOrder, QueryTags(d).Keys)
      && IsOrderOf(fieldOrder, QueryFields(d))
      && (forall i :: 0 <= i < |tagOrder| ==> tagOrder[i] in QueryTags(d))
      && r == Ok(Query(bucket, start, end, QueryTags(d), tagOrder, fieldOrder, suffixes))
  {
    tagOrder, fieldOrder := [], [];
    var valKind := GetTypeInfo(input);
    if valKind != StructKind {
      return Err(UnSupportedType), tagOrder, fieldOrder;
    }
    var data := Walker.GetData(q, fm, Walker.InputRecord(input));
    if data.Err? {
      return Err(data.error), tagOrder, fieldOrder;
    }
    var d := data.value;
    var tags := d.tags;
    if d.measurement != "" {
      tags := tags["_measurement" := d.measurement];
    }

    var fields := CollectFields(d.fields);
    var query;
    query, tagOrder := GenerateFluxQueryText(bucket, start, end, tags, fields, suffixes);
    return Ok(query), tagOrder, fields;
  }
}

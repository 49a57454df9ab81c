/**
 * generate_influx_point.go: the annotation-driven record walker.
 *
 * getData visits a record's attributes in declaration order. An embedded
 * struct is decoded on its own and merged into what has been collected so
 * far (processSubStruct); then the attribute's own annotation, split on
 * commas and trimmed, is dispatched on its first segment to the measurement,
 * tag (processTag), field (processFields) or timestamp handling.
 *
 * The specification is a set of functions over `Decoded` values, ending in
 * `Decode`; the Go code's in-place updates are the methods of `DecodeState`,
 * and the method `GetData` is proved to compute `Decode`.
 */
module Walker {
  import opened Errors
  import opened Values
  import opened Text
  import opened Utility
  import opened Config

  /** What getData returns: the measurement ("" when unset), the tags, the
      names of the omitempty tags that were left out, the fields, and the
      timestamp if one was found. */
  datatype Decoded = Decoded(
    measurement: string,
    tags: map<string, string>,
    omitTags: seq<string>,
    fields: map<string, Value>,
    timestamp: Option<Instant>)

  const EmptyDecoded := Decoded("", map[], [], map[], None)

  /** The case of getData's switch that an annotation's first segment
      selects; the cases are tried in this order. */
  datatype Role = MeasurementRole | TagRole | FieldRole | TimestampRole | NoRole

  function RoleOf(q: InfluxQu, first: string): Role {
    if first == q.measurementKey then MeasurementRole
    else if first == q.tagKey then TagRole
    else if first == q.fieldKey then FieldRole
    else if first == q.timestampKey then TimestampRole
    else NoRole
  }

  /** The attribute's annotation under the configured struct-tag key. */
  function Annotation(q: InfluxQu, a: Attribute): string {
    TagGet(a.annotations, q.key)
  }

  // ---------------------------------------------------------------------
  // Where the Go code panics

  /** processFields panics on a nil pointer it is told to store: without
      omitempty, `reflect.Indirect` of it has no `Interface()`. */
  predicate FieldPanics(segs: seq<string>, v: Value) {
    |segs| >= 2 && |segs| != 3 && v == Ptr(None)
  }

  predicate FieldReadPanics(q: InfluxQu, a: Attribute) {
    var ann := Annotation(q, a);
    ann != "" && RoleOf(q, Segments(ann)[0]) == FieldRole && FieldPanics(Segments(ann), a.value)
  }

  /** The walker never panics on this record: no embedded pointer and no
      nil-pointer field without omitempty, at any depth. */
  predicate Decodable(q: InfluxQu, rec: seq<Attribute>)
    decreases rec, 1
  {
    forall i :: 0 <= i < |rec| ==> AttributeDecodable(q, rec[i])
  }

  predicate AttributeDecodable(q: InfluxQu, a: Attribute)
    decreases a, 0
  {
    && !(a.anonymous && a.value.Ptr?)
    && !FieldReadPanics(q, a)
    && (a.anonymous && a.value.Struct? ==> Decodable(q, a.value.attrs))
  }

  // ---------------------------------------------------------------------
  // Specification

  /** mergeTags / mergeFields: `src` is added to `org` unless a key of `src`
      is already there. */
  function MergeMaps<V>(org: map<string, V>, src: map<string, V>, duplicate: Error): Result<map<string, V>> {
    if org.Keys !! src.Keys then Ok(org + src) else Err(duplicate)
  }

  /** Every name of `src` is new: absent from `org` and from the part of
      `src` before it. */
  predicate FreshNames(org: seq<string>, src: seq<string>) {
    forall j :: 0 <= j < |src| ==> src[j] !in org && src[j] !in src[..j]
  }

  /** mergeOmitTags: `src` appended to `org`, unless a name repeats. */
  function MergedOmitTags(org: seq<string>, src: seq<string>): Result<seq<string>> {
    if FreshNames(org, src) then Ok(org + src) else Err(DuplicatedTag)
  }

  /** processTag: the new tag map and the omitted name ("" when nothing was
      omitted). */
  function TagSpec(fm: Formats, segs: seq<string>, tags: map<string, string>, v: Value): Result<(map<string, string>, string)> {
    if |segs| < 2 then Err(NoTagName)
    else if |segs| == 3 && segs[2] != OmitEmptyKey then Err(UnSupportedTag)
    else
      var omit := |segs| == 3;
      var t := segs[1];
      if t in tags then Err(DuplicatedTag)
      else if IsZero(v) && omit then Ok((tags, t))
      else
        var s :- GetFieldAsString(fm, v);
        Ok((if !omit || s != "" then tags[t := s] else tags, ""))
  }

  /** What processFields stores: a decimal as its nearest float, a non-nil
      pointer as what it points to, anything else as it is. */
  function FieldValue(fm: Formats, v: Value): Value
    requires v != Ptr(None)
  {
    match v
    case Decimal(d) => Float(fm.inexactFloat64(d))
    case Ptr(Some(x)) => x
    case _ => v
  }

  /** processFields: the new field map. */
  function FieldSpec(fm: Formats, segs: seq<string>, fields: map<string, Value>, v: Value): Result<map<string, Value>>
    requires !FieldPanics(segs, v)
  {
    if |segs| < 2 then Err(NoFieldName)
    else if |segs| == 3 && segs[2] != OmitEmptyKey then Err(UnSupportedTag)
    else
      var omit := |segs| == 3;
      var f := segs[1];
      if f in fields then Err(DuplicatedField)
      else if omit && IsValueEmpty(v) then Ok(fields)
      else Ok(fields[f := FieldValue(fm, v)])
  }

  /** processSubStruct, once the embedded struct is decoded as `sub`: the
      measurements may not both be set, nor the timestamps; tags, omitted
      tags and fields are merged; and the timestamp becomes the embedded
      struct's, whatever it was before. */
  function EmbedSpec(acc: Decoded, sub: Decoded): Result<Decoded> {
    if sub.measurement != "" && acc.measurement != "" then Err(DuplicatedMeasurement)
    else if sub.timestamp.Some? && acc.timestamp.Some? then Err(DuplicatedTimestamp)
    else
      var tags :- MergeMaps(acc.tags, sub.tags, DuplicatedTag);
      var omitTags :- MergedOmitTags(acc.omitTags, sub.omitTags);
      var fields :- MergeMaps(acc.fields, sub.fields, DuplicatedField);
      var measurement := if sub.measurement != "" then sub.measurement else acc.measurement;
      Ok(Decoded(measurement, tags, omitTags, fields, sub.timestamp))
  }

  /** The getData switch on one attribute's annotation. */
  function AnnotationSpec(q: InfluxQu, fm: Formats, acc: Decoded, a: Attribute): Result<Decoded>
    requires !FieldReadPanics(q, a)
  {
    var ann := Annotation(q, a);
    if ann == "" then Ok(acc)
    else
      var segs := Segments(ann);
      match RoleOf(q, segs[0])
      case MeasurementRole =>
        if acc.measurement != "" then Err(DuplicatedMeasurement)
        else if |segs| != 1 then Err(UnSupportedTag)
        else
          var m :- GetFieldAsString(fm, a.value);
          Ok(acc.(measurement := m))
      case TagRole =>
        var p :- TagSpec(fm, segs, acc.tags, a.value);
        var (tags, omitted) := p;
        Ok(acc.(tags := tags, omitTags := if omitted != "" then acc.omitTags + [omitted] else acc.omitTags))
      case FieldRole =>
        var fields :- FieldSpec(fm, segs, acc.fields, a.value);
        Ok(acc.(fields := fields))
      case TimestampRole =>
        if acc.timestamp.Some? then Err(DuplicatedTimestamp)
        else
          var t :- GetFieldAsTime(a.value);
          Ok(acc.(timestamp := Some(t)))
      case NoRole => Ok(acc)
  }

  /** Whether getData enters the attribute as an embedded struct. */
  predicate Embeds(a: Attribute) {
    a.anonymous && (KindOf(a.value) == StructKind || KindOf(a.value) == PointerKind)
  }

  /** One iteration of getData's loop. */
  function StepSpec(q: InfluxQu, fm: Formats, acc: Decoded, a: Attribute): Result<Decoded>
    requires AttributeDecodable(q, a)
    decreases a, 1
  {
    var embedded :- if Embeds(a) then EmbedAttributeSpec(q, fm, acc, a) else Ok(acc);
    AnnotationSpec(q, fm, embedded, a)
  }

  /** The embedded attribute decoded on its own and merged. time.Time and
      decimal.Decimal are structs whose fields carry no annotation: they
      decode to nothing. */
  function EmbedAttributeSpec(q: InfluxQu, fm: Formats, acc: Decoded, a: Attribute): Result<Decoded>
    requires AttributeDecodable(q, a) && Embeds(a)
    decreases a, 0
  {
    var sub :- if a.value.Struct? then DecodeUpTo(q, fm, a.value.attrs, |a.value.attrs|) else Ok(EmptyDecoded);
    EmbedSpec(acc, sub)
  }

  /** getData after its first `n` iterations. */
  function DecodeUpTo(q: InfluxQu, fm: Formats, rec: seq<Attribute>, n: nat): Result<Decoded>
    requires n <= |rec| && Decodable(q, rec)
    decreases rec, n
  {
    if n == 0 then Ok(EmptyDecoded)
    else
      var acc :- DecodeUpTo(q, fm, rec, n - 1);
      StepSpec(q, fm, acc, rec[n - 1])
  }

  /** getData on a whole record. */
  function Decode(q: InfluxQu, fm: Formats, rec: seq<Attribute>): Result<Decoded>
    requires Decodable(q, rec)
  {
    DecodeUpTo(q, fm, rec, |rec|)
  }

  /** An error ends the walk: once a prefix fails, every longer one fails
      with the same error. */
  lemma {:induction false} ErrorSticks(q: InfluxQu, fm: Formats, rec: seq<Attribute>, k: nat, n: nat)
    requires k <= n <= |rec| && Decodable(q, rec)
    requires DecodeUpTo(q, fm, rec, k).Err?
    ensures DecodeUpTo(q, fm, rec, n) == DecodeUpTo(q, fm, rec, k)
    decreases n
  {
    if n > k {
      ErrorSticks(q, fm, rec, k, n - 1);
    }
  }

  /** One more iteration of getData's loop is one more step, and a step
      that fails is where the whole walk fails. */
  lemma LoopStep(q: InfluxQu, fm: Formats, rec: seq<Attribute>, i: nat, acc: Decoded)
    requires i < |rec| && Decodable(q, rec)
    requires DecodeUpTo(q, fm, rec, i) == Ok(acc)
    ensures AttributeDecodable(q, rec[i])
    ensures StepSpec(q, fm, acc, rec[i]).Ok? ==> DecodeUpTo(q, fm, rec, i + 1) == StepSpec(q, fm, acc, rec[i])
    ensures StepSpec(q, fm, acc, rec[i]).Err? ==> Decode(q, fm, rec) == StepSpec(q, fm, acc, rec[i])
  {
    if StepSpec(q, fm, acc, rec[i]).Err? {
      ErrorSticks(q, fm, rec, i + 1, |rec|);
    }
  }

  /** A step that gets past the embedded struct is the annotation's switch
      on what the embedding produced; one that does not fails as it did. */
  lemma StepThroughEmbedding(q: InfluxQu, fm: Formats, acc: Decoded, a: Attribute, embedded: Decoded)
    requires AttributeDecodable(q, a)
    requires (if Embeds(a) then EmbedAttributeSpec(q, fm, acc, a) else Ok(acc)) == Ok(embedded)
    ensures StepSpec(q, fm, acc, a) == AnnotationSpec(q, fm, embedded, a)
  {
  }

  // ---------------------------------------------------------------------
  // The Go code's in-place updates

  /** getData's local variables, which processSubStruct, processTag,
      processFields and the merge helpers update in place. */
  class DecodeState {
    var measurement: string
    var tags: map<string, string>
    var omitTags: seq<string>
    var fields: map<string, Value>
    var timestamp: Option<Instant>

    function View(): Decoded
      reads this
    {
      Decoded(measurement, tags, omitTags, fields, timestamp)
    }

    constructor ()
      ensures View() == EmptyDecoded
    {
      measurement, tags, omitTags, fields, timestamp := "", map[], [], map[], None;
    }

    /** mergeTags: each entry of `src` is inserted into the tag map, failing
        on the first key that is already there. */
    method MergeTags(src: map<string, string>) returns (err: Option<Error>)
      modifies this`tags
      ensures err.None? <==> old(tags).Keys !! src.Keys
      ensures err.None? ==> tags == old(tags) + src
      ensures err.Some? ==> err.value == DuplicatedTag
    {
      var rest := src.Keys;
      while rest != {}
        invariant rest <= src.Keys
        invariant tags == old(tags) + map k | k in src.Keys - rest :: src[k]
        invariant old(tags).Keys !! (src.Keys - rest)
        decreases rest
      {
        var k :| k in rest;
        if k in tags {
          return Some(DuplicatedTag);
        }
        tags := tags[k := src[k]];
        rest := rest - {k};
      }
      assert (map k | k in src.Keys - rest :: src[k]) == src;
      return None;
    }

    /** mergeFields: as mergeTags, on the field map. */
    method MergeFields(src: map<string, Value>) returns (err: Option<Error>)
      modifies this`fields
      ensures err.None? <==> old(fields).Keys !! src.Keys
      ensures err.None? ==> fields == old(fields) + src
      ensures err.Some? ==> err.value == DuplicatedField
    {
      var rest := src.Keys;
      while rest != {}
        invariant rest <= src.Keys
        invariant fields == old(fields) + map k | k in src.Keys - rest :: src[k]
        invariant old(fields).Keys !! (src.Keys - rest)
        decreases rest
      {
        var k :| k in rest;
        if k in fields {
          return Some(DuplicatedField);
        }
        fields := fields[k := src[k]];
        rest := rest - {k};
      }
      assert (map k | k in src.Keys - rest :: src[k]) == src;
      return None;
    }

    /** processTag: writes the tag map, and returns the tag's name when it
        was left out by omitempty. */
    method ProcessTag(fm: Formats, segs: seq<string>, v: Value) returns (omitted: string, err: Option<Error>)
      modifies this`tags
      ensures TagSpec(fm, segs, old(tags), v) == if err.None? then Ok((tags, omitted)) else Err(err.value)
    {
      omitted := "";
      if |segs| < 2 {
        return "", Some(NoTagName);
      }
      var isOmitempty := false;
      if |segs| == 3 {
        if segs[2] != OmitEmptyKey {
          return "", Some(UnSupportedTag);
        }
        isOmitempty := true;
      }
      var t := segs[1];
      if t in tags {
        return "", Some(DuplicatedTag);
      }
      if IsZero(v) {
        if isOmitempty {
          return t, None;
        }
      }
      var s := GetFieldAsString(fm, v);
      if s.Err? {
        return "", Some(s.error);
      }
      if !isOmitempty || s.value != "" {
        tags := tags[t := s.value];
      }
      return "", None;
    }

    /** processFields: writes the field map. */
    method ProcessFields(fm: Formats, segs: seq<string>, v: Value) returns (err: Option<Error>)
      requires !FieldPanics(segs, v)
      modifies this`fields
      ensures FieldSpec(fm, segs, old(fields), v) == if err.None? then Ok(fields) else Err(err.value)
    {
      if |segs| < 2 {
        return Some(NoFieldName);
      }
      var isOmitempty := false;
      if |segs| == 3 {
        if segs[2] != OmitEmptyKey {
          return Some(UnSupportedTag);
        }
        isOmitempty := true;
      }
      var f := segs[1];
      if f in fields {
        return Some(DuplicatedField);
      }
      if !isOmitempty || !IsValueEmpty(v) {
        if v.Decimal? {
          fields := fields[f := Float(fm.inexactFloat64(v.d))];
        } else if v.Ptr? {
          fields := fields[f := v.target.value];
        } else {
          fields := fields[f := v];
        }
      }
      return None;
    }

    /** One iteration of getData's loop: an embedded struct is merged first,
        then the attribute's own annotation is handled. */
    method Visit(q: InfluxQu, fm: Formats, a: Attribute) returns (err: Option<Error>)
      requires AttributeDecodable(q, a)
      modifies this
      ensures StepSpec(q, fm, old(View()), a) == if err.None? then Ok(View()) else Err(err.value)
      decreases a, 1
    {
      ghost var before := View();
      if a.anonymous && (KindOf(a.value) == StructKind || KindOf(a.value) == PointerKind) {
        var tp;
        tp, err := ProcessSubStruct(q, fm, a);
        if err.Some? {
          return err;
        }
        timestamp := tp;
      }
      StepThroughEmbedding(q, fm, before, a, View());
      err := ProcessAnnotation(q, fm, a);
    }

    /** The body of getData's switch on one attribute's annotation: the
        first segment selects the measurement, tag, field or timestamp case,
        and an unknown one is ignored. */
    method ProcessAnnotation(q: InfluxQu, fm: Formats, a: Attribute) returns (err: Option<Error>)
      requires !FieldReadPanics(q, a)
      modifies this
      ensures AnnotationSpec(q, fm, old(View()), a) == if err.None? then Ok(View()) else Err(err.value)
    {
      var tag := Annotation(q, a);
      if tag == "" {
        return None;
      }
      var tgs := Segments(tag);
      if tgs[0] == q.measurementKey {
        if measurement != "" {
          return Some(DuplicatedMeasurement);
        }
        if |tgs| != 1 {
          return Some(UnSupportedTag);
        }
        var m := GetFieldAsString(fm, a.value);
        if m.Err? {
          return Some(m.error);
        }
        measurement := m.value;
      } else if tgs[0] == q.tagKey {
        var omiteTag, er := ProcessTag(fm, tgs, a.value);
        if er.Some? {
          return er;
        }
        if omiteTag != "" {
          omitTags := omitTags + [omiteTag];
        }
      } else if tgs[0] == q.fieldKey {
        err := ProcessFields(fm, tgs, a.value);
        if err.Some? {
          return err;
        }
      } else if tgs[0] == q.timestampKey {
        if timestamp.Some? {
          return Some(DuplicatedTimestamp);
        }
        var tmp := GetFieldAsTime(a.value);
        if tmp.Err? {
          return Some(tmp.error);
        }
        timestamp := Some(tmp.value);
      }
      return None;
    }

    /** processSubStruct: decodes the embedded attribute on its own, merges
        its measurement, tags, omitted tags and fields into this state, and
        returns its timestamp for the caller to store. */
    method ProcessSubStruct(q: InfluxQu, fm: Formats, a: Attribute) returns (tp: Option<Instant>, err: Option<Error>)
      requires AttributeDecodable(q, a) && Embeds(a)
      modifies this`measurement, this`tags, this`omitTags, this`fields
      ensures var r := EmbedAttributeSpec(q, fm, old(View()), a);
        && (r.Err? <==> err.Some?)
        && (r.Err? ==> err.value == r.error)
        && (r.Ok? ==> View() == r.value.(timestamp := old(timestamp)) && tp == r.value.timestamp)
      decreases a, 0
    {
      var sub: Result<Decoded>;
      if a.value.Struct? {
        sub := GetData(q, fm, a.value.attrs);
      } else {
        sub := Ok(EmptyDecoded);
      }
      if sub.Err? {
        return None, Some(sub.error);
      }
      var d := sub.value;
      if d.measurement != "" {
        if measurement != "" {
          return None, Some(DuplicatedMeasurement);
        }
        measurement := d.measurement;
      }
      if d.timestamp.Some? {
        if timestamp.Some? {
          return None, Some(DuplicatedTimestamp);
        }
      }
      err := MergeTags(d.tags);
      if err.Some? {
        return None, err;
      }
      var merged := MergeOmitTags(omitTags, d.omitTags);
      if merged.Err? {
        return None, Some(merged.error);
      }
      omitTags := merged.value;
      err := MergeFields(d.fields);
      if err.Some? {
        return None, err;
      }
      return d.timestamp, None;
    }
  }

  /** mergeOmitTags: the names of `org` go into a seen-set; each name of
      `src` must be unseen, and is then recorded and appended. */
  method MergeOmitTags(org: seq<string>, src: seq<string>) returns (r: Result<seq<string>>)
    ensures r == MergedOmitTags(org, src)
  {
    var seen: set<string> := {};
    for i := 0 to |org|
      invariant seen == set t | t in org[..i]
    {
      seen := seen + {org[i]};
    }
    assert org[..|org|] == org;
    var out := org;
    for j := 0 to |src|
      invariant seen == (set t | t in org) + (set t | t in src[..j])
      invariant out == org + src[..j]
      invariant FreshNames(org, src[..j])
    {
      if src[j] in seen {
        assert !FreshNames(org, src) by {
          if src[j] in org {
          } else {
            var k :| 0 <= k < j && src[k] == src[j];
            assert src[j] in src[..j];
          }
        }
        return Err(DuplicatedTag);
      }
      assert src[..j + 1] == src[..j] + [src[j]];
      seen := seen + {src[j]};
      out := out + [src[j]];
    }
    assert src[..|src|] == src;
    return Ok(out);
  }

  /** getData: the walk over the record's attributes, computing `Decode`. */
  method GetData(q: InfluxQu, fm: Formats, rec: seq<Attribute>) returns (r: Result<Decoded>)
    requires Decodable(q, rec)
    ensures r == Decode(q, fm, rec)
    decreases rec, 2
  {
    var st := new DecodeState();
    var i := 0;
    while i < |rec|
      invariant 0 <= i <= |rec|
      invariant DecodeUpTo(q, fm, rec, i) == Ok(st.View())
    {
      LoopStep(q, fm, rec, i, st.View());
      var err := st.Visit(q, fm, rec[i]);
      if err.Some? {
        return Err(err.value);
      }
      i := i + 1;
    }
    return Ok(st.View());
  }

  // ---------------------------------------------------------------------
  // The entry point

  /** The tuple handed to the point constructors: measurement, tags, fields
      and timestamp. */
  datatype PointInfo = PointInfo(
    measurement: string,
    tags: map<string, string>,
    fields: map<string, Value>,
    timestamp: Instant)

  /** The record getData walks for an input: the struct after one
      dereference. time.Time and decimal.Decimal have no annotated fields,
      and walk like an empty record. */
  function InputRecord(input: Value): seq<Attribute> {
    match Indirect(input)
    case Struct(attrs) => attrs
    case _ => []
  }

  /** The input on which generateCommonPointInfo does not panic: not a nil
      interface or nil pointer (getTypeInfo asks for its type), not a slice
      of structs (getData would ask a slice for its fields), and a record
      the walker can decode. */
  predicate WalkableInput(q: InfluxQu, input: Value) {
    && input != Nil && input != Ptr(None)
    && (GetTypeInfo(input) == StructKind ==> !Indirect(input).Slice? && Decodable(q, InputRecord(input)))
  }

  /** generateCommonPointInfo: the checks in order (a struct input, then the
      walk, then a measurement, then at least one field), and the timestamp
      defaulted to `now`, the clock reading time.Now() would give. */
  method GenerateCommonPointInfo(q: InfluxQu, fm: Formats, input: Value, now: Instant) returns (r: Result<PointInfo>)
    requires WalkableInput(q, input)
    ensures GetTypeInfo(input) != StructKind ==> r == Err(UnSupportedType)
    ensures GetTypeInfo(input) == StructKind && Decode(q, fm, InputRecord(input)).Err? ==>
      r == Err(Decode(q, fm, InputRecord(input)).error)
    ensures GetTypeInfo(input) == StructKind && Decode(q, fm, InputRecord(input)).Ok? ==>
      var d := Decode(q, fm, InputRecord(input)).value;
      if d.measurement == "" then r == Err(NoValidMeasurement)
      else if |d.fields| == 0 then r == Err(NoValidField)
      else r == Ok(PointInfo(d.measurement, d.tags, d.fields, if d.timestamp.Some? then d.timestamp.value else now))
    ensures r.Ok? ==> r.value.measurement != "" && |r.value.fields| > 0
  {
    var valKind := GetTypeInfo(input);
    if valKind != StructKind {
      return Err(UnSupportedType);
    }
    var data := GetData(q, fm, InputRecord(input));
    if data.Err? {
      return Err(data.error);
    }
    var d := data.value;
    if d.measurement == "" {
      return Err(NoValidMeasurement);
    }
    if |d.fields| == 0 {
      return Err(NoValidField);
    }
    var tp := d.timestamp;
    if tp.None? {
      tp := Some(now);
    }
    return Ok(PointInfo(d.measurement, d.tags, d.fields, tp.value));
  }
}

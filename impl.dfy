/**
 * impl.go: the earlier revision of the record walker. It has no omitempty
 * handling (segments after the name are ignored, a tag stores its string even
 * when it is empty, a field stores the raw value), no segment-count check on
 * the measurement, keeps the parent's timestamp when an embedded struct has
 * none, and merges embedded structs with loops written inline.
 */
module LegacyWalker {
  import opened Errors
  import opened Values
  import opened Text
  import opened Utility
  import opened Config
  import Walker

  /** What this getData returns: measurement, tags, fields and timestamp. */
  datatype Decoded = Decoded(
    measurement: string,
    tags: map<string, string>,
    fields: map<string, Value>,
    timestamp: Option<Instant>)

  const EmptyDecoded := Decoded("", map[], map[], None)

  /** The only panic left in this walker: an embedded pointer, whose type
      has no fields to count. */
  predicate Decodable(rec: seq<Attribute>)
    decreases rec, 1
  {
    forall i :: 0 <= i < |rec| ==> AttributeDecodable(rec[i])
  }

  predicate AttributeDecodable(a: Attribute)
    decreases a, 0
  {
    && !(a.anonymous && a.value.Ptr?)
    && (a.anonymous && a.value.Struct? ==> Decodable(a.value.attrs))
  }

  // ---------------------------------------------------------------------
  // Specification

  /** The inline merge of an embedded struct's result `sub`: measurement and
      timestamp may not both be set; a timestamp from `sub` is taken, and
      otherwise the parent's is kept; tags and fields may not collide. */
  function EmbedSpec(acc: Decoded, sub: Decoded): Result<Decoded> {
    if sub.measurement != "" && acc.measurement != "" then Err(DuplicatedMeasurement)
    else if sub.timestamp.Some? && acc.timestamp.Some? then Err(DuplicatedTimestamp)
    else
      var tags :- Walker.MergeMaps(acc.tags, sub.tags, DuplicatedTag);
      var fields :- Walker.MergeMaps(acc.fields, sub.fields, DuplicatedField);
      Ok(Decoded(
        if sub.measurement != "" then sub.measurement else acc.measurement,
        tags,
        fields,
        if sub.timestamp.Some? then sub.timestamp else acc.timestamp))
  }

  /** The switch on one attribute's annotation. */
  function AnnotationSpec(q: InfluxQu, fm: Formats, acc: Decoded, a: Attribute): Result<Decoded> {
    var ann := Walker.Annotation(q, a);
    if ann == "" then Ok(acc)
    else
      var segs := Segments(ann);
      match Walker.RoleOf(q, segs[0])
      case MeasurementRole =>
        if acc.measurement != "" then Err(DuplicatedMeasurement)
        else
          var m :- GetFieldAsString(fm, a.value);
          Ok(acc.(measurement := m))
      case TagRole =>
        if |segs| < 2 then Err(NoTagName)
        else if segs[1] in acc.tags then Err(DuplicatedTag)
        else
          var s :- GetFieldAsString(fm, a.value);
          Ok(acc.(tags := acc.tags[segs[1] := s]))
      case FieldRole =>
        if |segs| < 2 then Err(NoFieldName)
        else if segs[1] in acc.fields then Err(DuplicatedField)
        else Ok(acc.(fields := acc.fields[segs[1] := a.value]))
      case TimestampRole =>
        if acc.timestamp.Some? then Err(DuplicatedTimestamp)
        else
          var t :- GetFieldAsTime(a.value);
          Ok(acc.(timestamp := Some(t)))
      case NoRole => Ok(acc)
  }

  /** One iteration of getData's loop. */
  function StepSpec(q: InfluxQu, fm: Formats, acc: Decoded, a: Attribute): Result<Decoded>
    requires AttributeDecodable(a)
    decreases a, 1
  {
    var embedded :- if Walker.Embeds(a) then EmbedAttributeSpec(q, fm, acc, a) else Ok(acc);
    AnnotationSpec(q, fm, embedded, a)
  }

  function EmbedAttributeSpec(q: InfluxQu, fm: Formats, acc: Decoded, a: Attribute): Result<Decoded>
    requires AttributeDecodable(a) && Walker.Embeds(a)
    decreases a, 0
  {
    var sub :- if a.value.Struct? then DecodeUpTo(q, fm, a.value.attrs, |a.value.attrs|) else Ok(EmptyDecoded);
    EmbedSpec(acc, sub)
  }

  /** getData after its first `n` iterations. */
  function DecodeUpTo(q: InfluxQu, fm: Formats, rec: seq<Attribute>, n: nat): Result<Decoded>
    requires n <= |rec| && Decodable(rec)
    decreases rec, n
  {
    if n == 0 then Ok(EmptyDecoded)
    else
      var acc :- DecodeUpTo(q, fm, rec, n - 1);
      StepSpec(q, fm, acc, rec[n - 1])
  }

  function Decode(q: InfluxQu, fm: Formats, rec: seq<Attribute>): Result<Decoded>
    requires Decodable(rec)
  {
    DecodeUpTo(q, fm, rec, |rec|)
  }

  /** Once a prefix of the walk fails, every longer prefix fails the same
      way. */
  lemma {:induction false} ErrorSticks(q: InfluxQu, fm: Formats, rec: seq<Attribute>, k: nat, n: nat)
    requires k <= n <= |rec| && Decodable(rec)
    requires DecodeUpTo(q, fm, rec, k).Err?
    ensures DecodeUpTo(q, fm, rec, n) == DecodeUpTo(q, fm, rec, k)
    decreases n
  {
    if n > k {
      ErrorSticks(q, fm, rec, k, n - 1);
    }
  }

  /** One more iteration of the loop is one more step, and a step that fails
      is where the whole walk fails. */
  lemma LoopStep(q: InfluxQu, fm: Formats, rec: seq<Attribute>, i: nat, acc: Decoded)
    requires i < |rec| && Decodable(rec)
    requires DecodeUpTo(q, fm, rec, i) == Ok(acc)
    ensures AttributeDecodable(rec[i])
    ensures StepSpec(q, fm, acc, rec[i]).Ok? ==> DecodeUpTo(q, fm, rec, i + 1) == StepSpec(q, fm, acc, rec[i])
    ensures StepSpec(q, fm, acc, rec[i]).Err? ==> Decode(q, fm, rec) == StepSpec(q, fm, acc, rec[i])
  {
    if StepSpec(q, fm, acc, rec[i]).Err? {
      ErrorSticks(q, fm, rec, i + 1, |rec|);
    }
  }

  // ---------------------------------------------------------------------
  // The Go code

  /** getData: the index loop over the record, accumulating into local
      variables. */
  method GetData(q: InfluxQu, fm: Formats, rec: seq<Attribute>) returns (r: Result<Decoded>)
    requires Decodable(rec)
    ensures r == Decode(q, fm, rec)
    decreases rec, 2
  {
    var acc := EmptyDecoded;
    var i := 0;
    while i < |rec|
      invariant 0 <= i <= |rec|
      invariant DecodeUpTo(q, fm, rec, i) == Ok(acc)
    {
      LoopStep(q, fm, rec, i, acc);
      var next := Visit(q, fm, acc, rec[i]);
      if next.Err? {
        return next;
      }
      acc := next.value;
      i := i + 1;
    }
    return Ok(acc);
  }

  /** The body of getData's loop on one attribute: an embedded struct is
      decoded and merged, then the annotation is handled. */
  method Visit(q: InfluxQu, fm: Formats, acc: Decoded, a: Attribute) returns (r: Result<Decoded>)
    requires AttributeDecodable(a)
    ensures r == StepSpec(q, fm, acc, a)
    decreases a, 1
  {
    var embedded := acc;
    if a.anonymous && (KindOf(a.value) == StructKind || KindOf(a.value) == PointerKind) {
      var data: Result<Decoded>;
      if a.value.Struct? {
        data := GetData(q, fm, a.value.attrs);
      } else {
        data := Ok(EmptyDecoded);
      }
      if data.Err? {
        return Err(data.error);
      }
      var merged := MergeEmbedded(acc, data.value);
      if merged.Err? {
        return Err(merged.error);
      }
      embedded := merged.value;
    }
    r := Annotate(q, fm, embedded, a);
  }

  /** The merge written inline in getData's loop: measurement and timestamp
      are checked and taken over, then the tags and the fields of the
      embedded struct are inserted one by one, failing on the first key that
      is already there. */
  method MergeEmbedded(acc: Decoded, sub: Decoded) returns (r: Result<Decoded>)
    ensures r == EmbedSpec(acc, sub)
  {
    var measurement, tags, fields, timestamp := acc.measurement, acc.tags, acc.fields, acc.timestamp;
    if sub.measurement != "" {
      if measurement != "" {
        return Err(DuplicatedMeasurement);
      }
      measurement := sub.measurement;
    }
    if sub.timestamp.Some? {
      if timestamp.Some? {
        return Err(DuplicatedTimestamp);
      }
      timestamp := sub.timestamp;
    }

    var mergedTags := InsertAll(tags, sub.tags, DuplicatedTag);
    if mergedTags.Err? {
      return Err(mergedTags.error);
    }
    var mergedFields := InsertAll(fields, sub.fields, DuplicatedField);
    if mergedFields.Err? {
      return Err(mergedFields.error);
    }
    tags, fields := mergedTags.value, mergedFields.value;
    return Ok(Decoded(measurement, tags, fields, timestamp));
  }

  /** One of the two `for k, v := range` loops of the inline merge: each
      entry of `src` is inserted into `org`, failing on the first key that
      is already there. */
  method InsertAll<V>(org: map<string, V>, src: map<string, V>, duplicate: Error) returns (r: Result<map<string, V>>)
    ensures r == Walker.MergeMaps(org, src, duplicate)
  {
    var m := org;
    var rest := src.Keys;
    while rest != {}
      invariant rest <= src.Keys
      invariant m == org + map k | k in src.Keys - rest :: src[k]
      invariant org.Keys !! (src.Keys - rest)
      decreases rest
    {
      var k :| k in rest;
      if k in m {
        return Err(duplicate);
      }
      m := m[k := src[k]];
      rest := rest - {k};
    }
    assert (map k | k in src.Keys - rest :: src[k]) == src;
    return Ok(m);
  }

  /** The switch of getData's loop on one attribute's annotation. */
  method Annotate(q: InfluxQu, fm: Formats, acc: Decoded, a: Attribute) returns (r: Result<Decoded>)
    ensures r == AnnotationSpec(q, fm, acc, a)
  {
    var tag := Walker.Annotation(q, a);
    if tag == "" {
      return Ok(acc);
    }
    var tgs := Segments(tag);
    if tgs[0] == q.measurementKey {
      assert Walker.RoleOf(q, tgs[0]) == Walker.MeasurementRole;
      if acc.measurement != "" {
        return Err(DuplicatedMeasurement);
      }
      var m := GetFieldAsString(fm, a.value);
      if m.Err? {
        return Err(m.error);
      }
      return Ok(acc.(measurement := m.value));
    } else if tgs[0] == q.tagKey {
      assert Walker.RoleOf(q, tgs[0]) == Walker.TagRole;
      if |tgs| < 2 {
        return Err(NoTagName);
      }
      var t := tgs[1];
      if t in acc.tags {
        return Err(DuplicatedTag);
      }
      var s := GetFieldAsString(fm, a.value);
      if s.Err? {
        return Err(s.error);
      }
      return Ok(acc.(tags := acc.tags[t := s.value]));
    } else if tgs[0] == q.fieldKey {
      assert Walker.RoleOf(q, tgs[0]) == Walker.FieldRole;
      if |tgs| < 2 {
        return Err(NoFieldName);
      }
      var f := tgs[1];
      if f in acc.fields {
        return Err(DuplicatedField);
      }
      return Ok(acc.(fields := acc.fields[f := a.value]));
    } else if tgs[0] == q.timestampKey {
      assert Walker.RoleOf(q, tgs[0]) == Walker.TimestampRole;
      if acc.timestamp.Some? {
        return Err(DuplicatedTimestamp);
      }
      var tmp := GetFieldAsTime(a.value);
      if tmp.Err? {
        return Err(tmp.error);
      }
      return Ok(acc.(timestamp := Some(tmp.value)));
    }
    assert Walker.RoleOf(q, tgs[0]) == Walker.NoRole;
    return Ok(acc);
  }

  /** The input on which GenerateInfluxPoint does not panic. */
  predicate WalkableInput(input: Value) {
    && input != Nil && input != Ptr(None)
    && (GetTypeInfo(input) == StructKind ==> !Indirect(input).Slice? && Decodable(Walker.InputRecord(input)))
  }

  /** GenerateInfluxPoint, up to the point constructor: a non-struct input
      is UnSupportedType, a walk error is passed on, and a missing timestamp
      becomes `now`. There is no measurement or field-count check. */
  method GenerateInfluxPoint(q: InfluxQu, fm: Formats, input: Value, now: Instant) returns (r: Result<Walker.PointInfo>)
    requires WalkableInput(input)
    ensures GetTypeInfo(input) != StructKind ==> r == Err(UnSupportedType)
    ensures GetTypeInfo(input) == StructKind ==>
      match Decode(q, fm, Walker.InputRecord(input))
      case Err(e) => r == Err(e)
      case Ok(d) => r == Ok(Walker.PointInfo(d.measurement, d.tags, d.fields, if d.timestamp.Some? then d.timestamp.value else now))
  {
    var valKind := GetTypeInfo(input);
    if valKind != StructKind {
      return Err(UnSupportedType);
    }
    var data := GetData(q, fm, Walker.InputRecord(input));
    if data.Err? {
      return Err(data.error);
    }
    var d := data.value;
    var tp := d.timestamp;
    if tp.None? {
      tp := Some(now);
    }
    return Ok(Walker.PointInfo(d.measurement, d.tags, d.fields, tp.value));
  }
}

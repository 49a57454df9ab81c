/**
 * What the record walker of generate_influx_point.go promises, stated over
 * the specification functions of module Walker: the rules of processTag and
 * processFields, the switch of getData, the growth of what has been
 * collected, and the behaviour of embedded structs, including the lost
 * parent timestamp and the omitted tag names that repeat.
 */
module WalkerLaws {
  import opened Errors
  import opened Values
  import opened Text
  import opened Utility
  import opened Config
  import opened Walker

  // ---------------------------------------------------------------------
  // processTag and processFields

  /** processTag's checks come in this order: a name, then a third segment
      that must be omitempty, then a name not yet used; only then is the
      value read. A fourth segment switches omitempty off rather than being
      refused. */
  lemma TagErrors(fm: Formats, segs: seq<string>, tags: map<string, string>, v: Value)
    ensures |segs| < 2 ==> TagSpec(fm, segs, tags, v) == Err(NoTagName)
    ensures |segs| == 3 && segs[2] != OmitEmptyKey ==> TagSpec(fm, segs, tags, v) == Err(UnSupportedTag)
    ensures |segs| >= 2 && !(|segs| == 3 && segs[2] != OmitEmptyKey) && segs[1] in tags ==>
      TagSpec(fm, segs, tags, v) == Err(DuplicatedTag)
    ensures TagSpec(fm, segs, tags, v).Err? && GetFieldAsString(fm, v).Ok? ==>
      TagSpec(fm, segs, tags, v).error in {NoTagName, UnSupportedTag, DuplicatedTag}
  {
  }

  /** A new tag name without omitempty always stores the value's string,
      even "". With omitempty, a zero value stores nothing and reports the
      name as omitted; a non-zero value that reads as "" (a pointer to "")
      stores nothing and is not reported; any other value is stored. */
  lemma TagStores(fm: Formats, t: string, extra: seq<string>, tags: map<string, string>, v: Value)
    requires t !in tags
    ensures var plain := ["tag", t] + extra;
      |extra| != 1 && GetFieldAsString(fm, v).Ok? ==>
      TagSpec(fm, plain, tags, v) == Ok((tags[t := GetFieldAsString(fm, v).value], ""))
    ensures var omit := ["tag", t, OmitEmptyKey];
      && (IsZero(v) ==> TagSpec(fm, omit, tags, v) == Ok((tags, t)))
      && (!IsZero(v) && GetFieldAsString(fm, v) == Ok("") ==> TagSpec(fm, omit, tags, v) == Ok((tags, "")))
      && (!IsZero(v) && GetFieldAsString(fm, v).Ok? && GetFieldAsString(fm, v).value != "" ==>
            TagSpec(fm, omit, tags, v) == Ok((tags[t := GetFieldAsString(fm, v).value], "")))
  {
  }

  /** The omitempty tags of the omitempty test: "" and a nil pointer are
      omitted and reported, a pointer to "" is dropped silently, "t1" is
      stored. */
  lemma TagOmitemptyCases(fm: Formats)
    ensures TagSpec(fm, ["tag", "t1", OmitEmptyKey], map[], Str("t1")) == Ok((map["t1" := "t1"], ""))
    ensures TagSpec(fm, ["tag", "t2", OmitEmptyKey], map[], Str("")) == Ok((map[], "t2"))
    ensures TagSpec(fm, ["tag", "t3", OmitEmptyKey], map[], Ptr(Some(Str("")))) == Ok((map[], ""))
    ensures TagSpec(fm, ["tag", "t4", OmitEmptyKey], map[], Ptr(None)) == Ok((map[], "t4"))
  {
  }

  /** processFields fails in the same order as processTag, with NoFieldName,
      UnSupportedTag and DuplicatedField, and never because of the value. */
  lemma FieldErrors(fm: Formats, segs: seq<string>, fields: map<string, Value>, v: Value)
    requires !FieldPanics(segs, v)
    ensures |segs| < 2 ==> FieldSpec(fm, segs, fields, v) == Err(NoFieldName)
    ensures |segs| == 3 && segs[2] != OmitEmptyKey ==> FieldSpec(fm, segs, fields, v) == Err(UnSupportedTag)
    ensures |segs| >= 2 && !(|segs| == 3 && segs[2] != OmitEmptyKey) && segs[1] in fields ==>
      FieldSpec(fm, segs, fields, v) == Err(DuplicatedField)
    ensures FieldSpec(fm, segs, fields, v).Err? ==>
      FieldSpec(fm, segs, fields, v).error in {NoFieldName, UnSupportedTag, DuplicatedField}
  {
  }

  /** A new field name stores the value, unless omitempty is given and the
      value is empty. What is stored is a decimal as its float, a non-nil
      pointer as its target, and anything else as it is. */
  lemma FieldStores(fm: Formats, f: string, omit: bool, fields: map<string, Value>, v: Value)
    requires f !in fields
    requires !omit ==> v != Ptr(None)
    ensures var segs := if omit then ["field", f, OmitEmptyKey] else ["field", f];
      FieldSpec(fm, segs, fields, v) ==
        if omit && IsValueEmpty(v) then Ok(fields) else Ok(fields[f := FieldValue(fm, v)])
    ensures v.Decimal? ==> FieldValue(fm, v) == Float(fm.inexactFloat64(v.d))
    ensures v.Ptr? && v.target.Some? ==> FieldValue(fm, v) == v.target.value
    ensures !v.Decimal? && !v.Ptr? ==> FieldValue(fm, v) == v
  {
  }

  /** The omitempty fields of the omitempty test: 1 is stored, false, 0 and
      nil pointers are not. */
  lemma FieldOmitemptyCases(fm: Formats)
    ensures FieldSpec(fm, ["field", "f1", OmitEmptyKey], map[], Int(1)) == Ok(map["f1" := Int(1)])
    ensures FieldSpec(fm, ["field", "f2", OmitEmptyKey], map[], Bool(false)) == Ok(map[])
    ensures FieldSpec(fm, ["field", "f3", OmitEmptyKey], map[], Int(0)) == Ok(map[])
    ensures FieldSpec(fm, ["field", "f4", OmitEmptyKey], map[], Ptr(None)) == Ok(map[])
  {
  }

  // ---------------------------------------------------------------------
  // getData's switch

  /** An attribute without annotation, or with a first segment that names no
      role, changes nothing; a second measurement, a measurement with more
      segments and a second timestamp are refused. */
  lemma SwitchRules(q: InfluxQu, fm: Formats, acc: Decoded, a: Attribute)
    requires !FieldReadPanics(q, a)
    ensures Annotation(q, a) == "" ==> AnnotationSpec(q, fm, acc, a) == Ok(acc)
    ensures var ann := Annotation(q, a);
      ann != "" ==>
      var segs := Segments(ann);
      && (RoleOf(q, segs[0]) == NoRole ==> AnnotationSpec(q, fm, acc, a) == Ok(acc))
      && (RoleOf(q, segs[0]) == MeasurementRole && acc.measurement != "" ==>
            AnnotationSpec(q, fm, acc, a) == Err(DuplicatedMeasurement))
      && (RoleOf(q, segs[0]) == MeasurementRole && acc.measurement == "" && |segs| != 1 ==>
            AnnotationSpec(q, fm, acc, a) == Err(UnSupportedTag))
      && (RoleOf(q, segs[0]) == TimestampRole && acc.timestamp.Some? ==>
            AnnotationSpec(q, fm, acc, a) == Err(DuplicatedTimestamp))
  {
  }

  /** The measurement case of the switch: refused after a measurement, or
      with more than the one segment; otherwise the value's string. */
  lemma MeasurementCase(q: InfluxQu, fm: Formats, acc: Decoded, a: Attribute)
    requires Annotation(q, a) != "" && RoleOf(q, Segments(Annotation(q, a))[0]) == MeasurementRole
    ensures !FieldReadPanics(q, a)
    ensures AnnotationSpec(q, fm, acc, a) ==
      if acc.measurement != "" then Err(DuplicatedMeasurement)
      else if |Segments(Annotation(q, a))| != 1 then Err(UnSupportedTag)
      else match GetFieldAsString(fm, a.value) case Ok(m) => Ok(acc.(measurement := m)) case Err(e) => Err(e)
  {
  }

  /** The tag case: processTag on the segments, and the omitted name, if
      any, appended. */
  lemma TagCase(q: InfluxQu, fm: Formats, acc: Decoded, a: Attribute)
    requires Annotation(q, a) != "" && RoleOf(q, Segments(Annotation(q, a))[0]) == TagRole
    ensures !FieldReadPanics(q, a)
    ensures AnnotationSpec(q, fm, acc, a) ==
      match TagSpec(fm, Segments(Annotation(q, a)), acc.tags, a.value)
      case Ok((tags, omitted)) => Ok(acc.(tags := tags, omitTags := if omitted != "" then acc.omitTags + [omitted] else acc.omitTags))
      case Err(e) => Err(e)
  {
  }

  /** The field case: processFields on the segments. */
  lemma FieldCase(q: InfluxQu, fm: Formats, acc: Decoded, a: Attribute)
    requires Annotation(q, a) != "" && RoleOf(q, Segments(Annotation(q, a))[0]) == FieldRole
    requires !FieldPanics(Segments(Annotation(q, a)), a.value)
    ensures !FieldReadPanics(q, a)
    ensures AnnotationSpec(q, fm, acc, a) ==
      match FieldSpec(fm, Segments(Annotation(q, a)), acc.fields, a.value)
      case Ok(fields) => Ok(acc.(fields := fields))
      case Err(e) => Err(e)
  {
  }

  /** The timestamp case: refused after a timestamp; otherwise the value
      read as a time. */
  lemma TimestampCase(q: InfluxQu, fm: Formats, acc: Decoded, a: Attribute)
    requires Annotation(q, a) != "" && RoleOf(q, Segments(Annotation(q, a))[0]) == TimestampRole
    ensures !FieldReadPanics(q, a)
    ensures AnnotationSpec(q, fm, acc, a) ==
      if acc.timestamp.Some? then Err(DuplicatedTimestamp)
      else match GetFieldAsTime(a.value) case Ok(t) => Ok(acc.(timestamp := Some(t))) case Err(e) => Err(e)
  {
  }

  /** An attribute that is neither embedded nor annotated is not entered,
      whatever it holds: a named struct attribute contributes nothing, even
      one whose own annotations would fail. */
  lemma NamedStructNotEntered(q: InfluxQu, fm: Formats, acc: Decoded, a: Attribute)
    requires !a.anonymous && Annotation(q, a) == ""
    ensures AttributeDecodable(q, a)
    ensures StepSpec(q, fm, acc, a) == Ok(acc)
  {
  }

  /** A record none of whose attributes is embedded or annotated decodes to
      nothing. */
  lemma {:induction false} UnannotatedDecodesEmpty(q: InfluxQu, fm: Formats, rec: seq<Attribute>, n: nat)
    requires n <= |rec|
    requires forall i :: 0 <= i < |rec| ==> !rec[i].anonymous && Annotation(q, rec[i]) == ""
    ensures Decodable(q, rec)
    ensures DecodeUpTo(q, fm, rec, n) == Ok(EmptyDecoded)
  {
    forall i | 0 <= i < |rec|
      ensures AttributeDecodable(q, rec[i])
    {
      NamedStructNotEntered(q, fm, EmptyDecoded, rec[i]);
    }
    if n > 0 {
      UnannotatedDecodesEmpty(q, fm, rec, n - 1);
      NamedStructNotEntered(q, fm, EmptyDecoded, rec[n - 1]);
    }
  }

  // ---------------------------------------------------------------------
  // What has been collected only grows

  /** `b` extends `a`: no tag or field is removed or overwritten, omitted
      names are only appended, and a measurement once set stays. */
  predicate Grows(a: Decoded, b: Decoded) {
    && a.tags.Keys <= b.tags.Keys
    && (forall t :: t in a.tags ==> b.tags[t] == a.tags[t])
    && a.fields.Keys <= b.fields.Keys
    && (forall f :: f in a.fields ==> b.fields[f] == a.fields[f])
    && a.omitTags <= b.omitTags
    && (a.measurement != "" ==> b.measurement == a.measurement)
  }

  lemma GrowsTransitive(a: Decoded, b: Decoded, c: Decoded)
    requires Grows(a, b) && Grows(b, c)
    ensures Grows(a, c)
  {
  }

  /** A successful merge of an embedded struct extends both sides. */
  lemma EmbedGrows(acc: Decoded, sub: Decoded)
    requires EmbedSpec(acc, sub).Ok?
    ensures Grows(acc, EmbedSpec(acc, sub).value)
    ensures Grows(sub.(omitTags := []), EmbedSpec(acc, sub).value)
  {
  }

  /** processTag never removes or overwrites a tag. */
  lemma TagSpecKeeps(fm: Formats, segs: seq<string>, tags: map<string, string>, v: Value)
    requires TagSpec(fm, segs, tags, v).Ok?
    ensures var tags' := TagSpec(fm, segs, tags, v).value.0;
      tags.Keys <= tags'.Keys && forall t :: t in tags ==> tags'[t] == tags[t]
  {
  }

  /** processFields never removes or overwrites a field. */
  lemma FieldSpecKeeps(fm: Formats, segs: seq<string>, fields: map<string, Value>, v: Value)
    requires !FieldPanics(segs, v)
    requires FieldSpec(fm, segs, fields, v).Ok?
    ensures var fields' := FieldSpec(fm, segs, fields, v).value;
      fields.Keys <= fields'.Keys && forall f :: f in fields ==> fields'[f] == fields[f]
  {
  }

  /** A successful annotation step extends what was collected. */
  lemma AnnotationGrows(q: InfluxQu, fm: Formats, acc: Decoded, a: Attribute)
    requires !FieldReadPanics(q, a)
    requires AnnotationSpec(q, fm, acc, a).Ok?
    ensures Grows(acc, AnnotationSpec(q, fm, acc, a).value)
  {
    var ann := Annotation(q, a);
    if ann != "" {
      var segs := Segments(ann);
      match RoleOf(q, segs[0])
      case MeasurementRole => MeasurementCase(q, fm, acc, a);
      case TagRole =>
        TagCase(q, fm, acc, a);
        TagSpecKeeps(fm, segs, acc.tags, a.value);
      case FieldRole =>
        FieldCase(q, fm, acc, a);
        FieldSpecKeeps(fm, segs, acc.fields, a.value);
      case TimestampRole => TimestampCase(q, fm, acc, a);
      case NoRole =>
    }
  }

  /** A successful step of the walk extends what was collected. */
  lemma StepGrows(q: InfluxQu, fm: Formats, acc: Decoded, a: Attribute)
    requires AttributeDecodable(q, a)
    requires StepSpec(q, fm, acc, a).Ok?
    ensures Grows(acc, StepSpec(q, fm, acc, a).value)
  {
    var embedded := if Embeds(a) then EmbedAttributeSpec(q, fm, acc, a) else Ok(acc);
    if Embeds(a) {
      var sub := if a.value.Struct? then DecodeUpTo(q, fm, a.value.attrs, |a.value.attrs|) else Ok(EmptyDecoded);
      EmbedGrows(acc, sub.value);
    }
    StepThroughEmbedding(q, fm, acc, a, embedded.value);
    AnnotationGrows(q, fm, embedded.value, a);
    GrowsTransitive(acc, embedded.value, StepSpec(q, fm, acc, a).value);
  }

  /** Along a successful walk, every prefix's result is extended by every
      longer prefix's: nothing stored is ever dropped or overwritten. The
      timestamp is the exception (see EmbeddingReplacesTimestamp). */
  lemma {:induction false} DecodeGrows(q: InfluxQu, fm: Formats, rec: seq<Attribute>, k: nat, n: nat)
    requires k <= n <= |rec| && Decodable(q, rec)
    requires DecodeUpTo(q, fm, rec, n).Ok?
    ensures DecodeUpTo(q, fm, rec, k).Ok?
    ensures Grows(DecodeUpTo(q, fm, rec, k).value, DecodeUpTo(q, fm, rec, n).value)
    decreases n
  {
    if n > k {
      var prev := DecodeUpTo(q, fm, rec, n - 1);
      LastStep(q, fm, rec, n);
      DecodeGrows(q, fm, rec, k, n - 1);
      GrowsOneStep(q, fm, DecodeUpTo(q, fm, rec, k).value, prev.value, rec[n - 1]);
    }
  }

  lemma GrowsOneStep(q: InfluxQu, fm: Formats, first: Decoded, acc: Decoded, a: Attribute)
    requires AttributeDecodable(q, a) && StepSpec(q, fm, acc, a).Ok? && Grows(first, acc)
    ensures Grows(first, StepSpec(q, fm, acc, a).value)
  {
    StepGrows(q, fm, acc, a);
    GrowsTransitive(first, acc, StepSpec(q, fm, acc, a).value);
  }

  /** A successful walk of `n` attributes is a successful walk of `n - 1`
      and one step. */
  lemma LastStep(q: InfluxQu, fm: Formats, rec: seq<Attribute>, n: nat)
    requires 0 < n <= |rec| && Decodable(q, rec)
    requires DecodeUpTo(q, fm, rec, n).Ok?
    ensures DecodeUpTo(q, fm, rec, n - 1).Ok?
    ensures AttributeDecodable(q, rec[n - 1])
    ensures DecodeUpTo(q, fm, rec, n) == StepSpec(q, fm, DecodeUpTo(q, fm, rec, n - 1).value, rec[n - 1])
  {
  }

  // ---------------------------------------------------------------------
  // Embedded structs

  /** Merging an embedded struct refuses two measurements and two
      timestamps, and any tag, field or omitted tag name the two sides share;
      otherwise it keeps everything of both sides. */
  lemma EmbedCollisions(acc: Decoded, sub: Decoded)
    ensures sub.measurement != "" && acc.measurement != "" ==> EmbedSpec(acc, sub) == Err(DuplicatedMeasurement)
    ensures (sub.measurement == "" || acc.measurement == "") && sub.timestamp.Some? && acc.timestamp.Some? ==>
      EmbedSpec(acc, sub) == Err(DuplicatedTimestamp)
    ensures EmbedSpec(acc, sub).Ok? ==>
      && acc.tags.Keys !! sub.tags.Keys
      && acc.fields.Keys !! sub.fields.Keys
      && (forall t :: t in sub.omitTags ==> t !in acc.omitTags)
      && EmbedSpec(acc, sub).value.tags == acc.tags + sub.tags
      && EmbedSpec(acc, sub).value.fields == acc.fields + sub.fields
      && EmbedSpec(acc, sub).value.omitTags == acc.omitTags + sub.omitTags
    ensures ((sub.measurement == "" || acc.measurement == "") && !(sub.timestamp.Some? && acc.timestamp.Some?) &&
      acc.tags.Keys !! sub.tags.Keys && MergedOmitTags(acc.omitTags, sub.omitTags).Ok?) ==>
      (EmbedSpec(acc, sub).Err? <==> !(acc.fields.Keys !! sub.fields.Keys))
  {
    if EmbedSpec(acc, sub).Ok? {
      forall t | t in sub.omitTags
        ensures t !in acc.omitTags
      {
        var j :| 0 <= j < |sub.omitTags| && sub.omitTags[j] == t;
      }
    }
  }

  /** The quirk of getData: after a successful merge of an embedded
      attribute, the timestamp is the embedded struct's, or none when it
      has none, whatever the parent had collected before. */
  lemma EmbeddingReplacesTimestamp(q: InfluxQu, fm: Formats, acc: Decoded, a: Attribute)
    requires AttributeDecodable(q, a) && Embeds(a)
    requires EmbedAttributeSpec(q, fm, acc, a).Ok?
    ensures EmbedAttributeSpec(q, fm, acc, a).value.timestamp ==
      if a.value.Struct? then DecodeUpTo(q, fm, a.value.attrs, |a.value.attrs|).value.timestamp else None
  {
  }

  /** The quirk in its plainest form: an embedded struct with no
      attributes leaves everything as it was, except that it drops the
      timestamp collected so far. */
  lemma EmptyEmbedDropsTimestamp(q: InfluxQu, fm: Formats, acc: Decoded)
    ensures AttributeDecodable(q, Attribute(true, map[], Struct([])))
    ensures StepSpec(q, fm, acc, Attribute(true, map[], Struct([]))) == Ok(acc.(timestamp := None))
  {
    var embed := Attribute(true, map[], Struct([]));
    assert DecodeUpTo(q, fm, [], 0) == Ok(EmptyDecoded);
    assert acc.tags + map[] == acc.tags;
    assert acc.fields + map[] == acc.fields;
    assert acc.omitTags + [] == acc.omitTags;
    assert EmbedSpec(acc, EmptyDecoded) == Ok(acc.(timestamp := None));
    assert Annotation(q, embed) == "";
  }

  /** A record that shows the quirk: a timestamp attribute followed by an
      embedded empty struct decodes without a timestamp. */
  lemma TimestampLost(q: InfluxQu, fm: Formats, t: Instant)
    requires PlainKeys(q)
    ensures var rec := [Attribute(false, map[q.key := q.timestampKey], Time(t)), Attribute(true, map[], Struct([]))];
      Decodable(q, rec) && Decode(q, fm, rec) == Ok(EmptyDecoded)
  {
    var stamp := Attribute(false, map[q.key := q.timestampKey], Time(t));
    var embed := Attribute(true, map[], Struct([]));
    TimestampStep(q, fm, EmptyDecoded, t);
    DecodeSnoc(q, fm, [], stamp);
    assert [] + [stamp] == [stamp];
    EmptyEmbedDropsTimestamp(q, fm, EmptyDecoded.(timestamp := Some(t)));
    DecodeSnoc(q, fm, [stamp], embed);
    assert [stamp] + [embed] == [stamp, embed];
  }

  /** `influxqu:"timestamp"` on a time, before any timestamp. */
  lemma TimestampStep(q: InfluxQu, fm: Formats, acc: Decoded, t: Instant)
    requires PlainKeys(q) && acc.timestamp.None?
    ensures var a := Attribute(false, map[q.key := q.timestampKey], Time(t));
      AttributeDecodable(q, a) && StepSpec(q, fm, acc, a) == Ok(acc.(timestamp := Some(t)))
  {
    var a := Attribute(false, map[q.key := q.timestampKey], Time(t));
    AnnotationOf(q, false, q.timestampKey, Time(t));
    SegmentsOfOne(q.timestampKey);
    TimestampCase(q, fm, acc, a);
  }

  /** An annotation segment written plainly: not empty, no comma, no
      surrounding white space. */
  predicate Word(s: string) {
    s != "" && ',' !in s && Trimmed(s)
  }

  /** A valid configuration whose role keys are plain words, as the default
      one is. */
  predicate PlainKeys(q: InfluxQu) {
    Valid(q) && Word(q.measurementKey) && Word(q.tagKey) && Word(q.fieldKey) && Word(q.timestampKey)
  }

  lemma DefaultKeysPlain()
    ensures PlainKeys(DefaultInfluxQu)
    ensures Word(OmitEmptyKey)
  {
  }

  /** The annotation of an attribute whose struct tag holds only the
      configured key. */
  lemma AnnotationOf(q: InfluxQu, anonymous: bool, ann: string, v: Value)
    ensures Annotation(q, Attribute(anonymous, map[q.key := ann], v)) == ann
  {
  }

  /** Omitted names may repeat at top level: a record with two zero
      `tag,x,omitempty` attributes decodes, reporting `x` twice. */
  lemma OmittedTwice(q: InfluxQu, fm: Formats, x: string)
    requires PlainKeys(q) && Word(x)
    ensures var a := OmittedAttribute(q, x);
      Decodable(q, [a, a]) && Decode(q, fm, [a, a]) == Ok(EmptyDecoded.(omitTags := [x, x]))
  {
    var a := OmittedAttribute(q, x);
    OmittedStep(q, fm, x, EmptyDecoded);
    assert EmptyDecoded.omitTags + [x] == [x];
    OmittedStep(q, fm, x, EmptyDecoded.(omitTags := [x]));
    assert [x] + [x] == [x, x];
    DecodeSnoc(q, fm, [], a);
    assert [] + [a] == [a];
    DecodeSnoc(q, fm, [a], a);
    assert [a] + [a] == [a, a];
  }

  /** The same record embedded fails with DuplicatedTag, because merging an
      embedded struct checks its omitted names against each other. */
  lemma OmittedTwiceEmbedded(q: InfluxQu, fm: Formats, x: string)
    requires PlainKeys(q) && Word(x)
    ensures var a := OmittedAttribute(q, x);
      var outer := Attribute(true, map[], Struct([a, a]));
      Decodable(q, [outer]) && Decode(q, fm, [outer]) == Err(DuplicatedTag)
  {
    var a := OmittedAttribute(q, x);
    var outer := Attribute(true, map[], Struct([a, a]));
    OmittedTwice(q, fm, x);
    RepeatedOmittedName(EmptyDecoded, x);
    EmbedFails(q, fm, EmptyDecoded, outer, EmptyDecoded.(omitTags := [x, x]), DuplicatedTag);
    DecodeSnoc(q, fm, [], outer);
    assert [] + [outer] == [outer];
  }

  /** An embedded struct that reports an omitted name twice cannot be
      merged. */
  lemma RepeatedOmittedName(acc: Decoded, x: string)
    requires acc.measurement == "" && acc.timestamp.None? && acc.tags == map[]
    ensures EmbedSpec(acc, EmptyDecoded.(omitTags := [x, x])) == Err(DuplicatedTag)
  {
    assert [x, x][..1] == [x];
    assert !FreshNames(acc.omitTags, [x, x]);
  }

  /** A merge that fails fails the step, before the annotation is read. */
  lemma EmbedFails(q: InfluxQu, fm: Formats, acc: Decoded, a: Attribute, sub: Decoded, e: Error)
    requires AttributeDecodable(q, a) && a.anonymous && a.value.Struct?
    requires Decode(q, fm, a.value.attrs) == Ok(sub) && EmbedSpec(acc, sub) == Err(e)
    ensures StepSpec(q, fm, acc, a) == Err(e)
  {
  }

  /** An attribute annotated `tag,x,omitempty` holding the zero integer. */
  function OmittedAttribute(q: InfluxQu, x: string): Attribute {
    Attribute(false, map[q.key := q.tagKey + "," + x + "," + OmitEmptyKey], Int(0))
  }

  lemma OmittedStep(q: InfluxQu, fm: Formats, x: string, acc: Decoded)
    requires PlainKeys(q) && Word(x) && acc.tags == map[]
    ensures AttributeDecodable(q, OmittedAttribute(q, x))
    ensures StepSpec(q, fm, acc, OmittedAttribute(q, x)) == Ok(acc.(omitTags := acc.omitTags + [x]))
  {
    var a := OmittedAttribute(q, x);
    DefaultKeysPlain();
    AnnotationOf(q, false, q.tagKey + "," + x + "," + OmitEmptyKey, Int(0));
    SegmentsOfThree(q.tagKey, x, OmitEmptyKey);
    TagCase(q, fm, acc, a);
  }

  // ---------------------------------------------------------------------
  // One attribute with a plainly written annotation

  /** `influxqu:"measurement"` on a string, before any measurement. */
  lemma MeasurementStep(q: InfluxQu, fm: Formats, acc: Decoded, m: string)
    requires PlainKeys(q) && acc.measurement == ""
    ensures var a := Attribute(false, map[q.key := q.measurementKey], Str(m));
      AttributeDecodable(q, a) && StepSpec(q, fm, acc, a) == Ok(acc.(measurement := m))
  {
    var a := Attribute(false, map[q.key := q.measurementKey], Str(m));
    AnnotationOf(q, false, q.measurementKey, Str(m));
    SegmentsOfOne(q.measurementKey);
    MeasurementCase(q, fm, acc, a);
  }

  /** `influxqu:"tag,name"` on a string, with a new name: stored. */
  lemma TagStep(q: InfluxQu, fm: Formats, acc: Decoded, name: string, s: string)
    requires PlainKeys(q) && Word(name) && name !in acc.tags
    ensures var a := Attribute(false, map[q.key := q.tagKey + "," + name], Str(s));
      AttributeDecodable(q, a) && StepSpec(q, fm, acc, a) == Ok(acc.(tags := acc.tags[name := s]))
  {
    var a := Attribute(false, map[q.key := q.tagKey + "," + name], Str(s));
    AnnotationOf(q, false, q.tagKey + "," + name, Str(s));
    SegmentsOfTwo(q.tagKey, name);
    TagCase(q, fm, acc, a);
  }

  /** `influxqu:"tag,name,omitempty"` on "", with a new name: reported as
      omitted. */
  lemma OmittedTagStep(q: InfluxQu, fm: Formats, acc: Decoded, name: string)
    requires PlainKeys(q) && Word(name) && name !in acc.tags
    ensures var a := Attribute(false, map[q.key := q.tagKey + "," + name + "," + OmitEmptyKey], Str(""));
      AttributeDecodable(q, a) && StepSpec(q, fm, acc, a) == Ok(acc.(omitTags := acc.omitTags + [name]))
  {
    var a := Attribute(false, map[q.key := q.tagKey + "," + name + "," + OmitEmptyKey], Str(""));
    DefaultKeysPlain();
    AnnotationOf(q, false, q.tagKey + "," + name + "," + OmitEmptyKey, Str(""));
    SegmentsOfThree(q.tagKey, name, OmitEmptyKey);
    TagCase(q, fm, acc, a);
  }

  /** `influxqu:"field,name"` on a value that is not a pointer or a
      decimal, with a new name: stored as it is. */
  lemma FieldStep(q: InfluxQu, fm: Formats, acc: Decoded, name: string, v: Value)
    requires PlainKeys(q) && Word(name) && name !in acc.fields && !v.Ptr? && !v.Decimal?
    ensures var a := Attribute(false, map[q.key := q.fieldKey + "," + name], v);
      AttributeDecodable(q, a) && StepSpec(q, fm, acc, a) == Ok(acc.(fields := acc.fields[name := v]))
  {
    var a := Attribute(false, map[q.key := q.fieldKey + "," + name], v);
    AnnotationOf(q, false, q.fieldKey + "," + name, v);
    SegmentsOfTwo(q.fieldKey, name);
    FieldCase(q, fm, acc, a);
  }

  // ---------------------------------------------------------------------
  // getData on a record, attribute by attribute

  /** The walk's first `n` steps see only the first `n` attributes. */
  lemma {:induction false} DecodeUpToAgree(q: InfluxQu, fm: Formats, rec1: seq<Attribute>, rec2: seq<Attribute>, n: nat)
    requires n <= |rec1| && n <= |rec2| && Decodable(q, rec1) && Decodable(q, rec2)
    requires forall i :: 0 <= i < n ==> rec1[i] == rec2[i]
    ensures DecodeUpTo(q, fm, rec1, n) == DecodeUpTo(q, fm, rec2, n)
  {
    if n > 0 {
      DecodeUpToAgree(q, fm, rec1, rec2, n - 1);
      assert rec1[n - 1] == rec2[n - 1];
    }
  }

  /** getData on a record with one more attribute is one more step after
      getData on the record. */
  lemma DecodeSnoc(q: InfluxQu, fm: Formats, rec: seq<Attribute>, a: Attribute)
    ensures Decodable(q, rec + [a]) <==> Decodable(q, rec) && AttributeDecodable(q, a)
    ensures Decodable(q, rec) && AttributeDecodable(q, a) ==>
      Decode(q, fm, rec + [a]) == match Decode(q, fm, rec) case Ok(d) => StepSpec(q, fm, d, a) case Err(e) => Err(e)
  {
    var ext := rec + [a];
    assert forall i :: 0 <= i < |rec| ==> ext[i] == rec[i];
    assert ext[|rec|] == a;
    if Decodable(q, rec) && AttributeDecodable(q, a) {
      DecodeUpToAgree(q, fm, ext, rec, |rec|);
    }
  }
}

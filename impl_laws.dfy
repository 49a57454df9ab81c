/**
 * What the earlier walker of impl.go does differently from the walker of
 * generate_influx_point.go: it ignores omitempty, stores fields raw, lets a
 * measurement annotation carry extra segments, and keeps the parent's
 * timestamp across an embedded struct.
 */
module LegacyLaws {
  import opened Errors
  import opened Values
  import opened Text
  import opened Utility
  import opened Config
  import Walker
  import opened WalkerLaws
  import opened LegacyWalker

  // ---------------------------------------------------------------------
  // The switch

  /** A tag annotation needs a name and a name not yet used; anything after
      the name is ignored, and the value's string is stored even when it is
      empty. */
  lemma TagRule(q: InfluxQu, fm: Formats, acc: Decoded, a: Attribute)
    requires Walker.Annotation(q, a) != ""
    requires Walker.RoleOf(q, Segments(Walker.Annotation(q, a))[0]) == Walker.TagRole
    ensures var segs := Segments(Walker.Annotation(q, a));
      AnnotationSpec(q, fm, acc, a) ==
        if |segs| < 2 then Err(NoTagName)
        else if segs[1] in acc.tags then Err(DuplicatedTag)
        else match GetFieldAsString(fm, a.value)
          case Ok(s) => Ok(acc.(tags := acc.tags[segs[1] := s]))
          case Err(e) => Err(e)
  {
  }

  /** A field annotation needs a name and a name not yet used; the raw value
      is stored, a nil pointer included. */
  lemma FieldRule(q: InfluxQu, fm: Formats, acc: Decoded, a: Attribute)
    requires Walker.Annotation(q, a) != ""
    requires Walker.RoleOf(q, Segments(Walker.Annotation(q, a))[0]) == Walker.FieldRole
    ensures var segs := Segments(Walker.Annotation(q, a));
      AnnotationSpec(q, fm, acc, a) ==
        if |segs| < 2 then Err(NoFieldName)
        else if segs[1] in acc.fields then Err(DuplicatedField)
        else Ok(acc.(fields := acc.fields[segs[1] := a.value]))
  {
  }

  /** A measurement annotation is refused only after a measurement; its
      segment count is not checked. */
  lemma MeasurementRule(q: InfluxQu, fm: Formats, acc: Decoded, a: Attribute)
    requires Walker.Annotation(q, a) != ""
    requires Walker.RoleOf(q, Segments(Walker.Annotation(q, a))[0]) == Walker.MeasurementRole
    ensures AnnotationSpec(q, fm, acc, a) ==
      if acc.measurement != "" then Err(DuplicatedMeasurement)
      else match GetFieldAsString(fm, a.value)
        case Ok(m) => Ok(acc.(measurement := m))
        case Err(e) => Err(e)
  {
  }

  // ---------------------------------------------------------------------
  // The two walkers side by side

  /** A zero integer annotated `tag,x,omitempty`: the newer walker leaves
      it out and reports `x` omitted, this one stores "0" under `x`. */
  lemma OmitemptyIgnored(q: InfluxQu, fm: Formats, x: string)
    requires PlainKeys(q) && Word(x)
    ensures AnnotationSpec(q, fm, EmptyDecoded, OmittedAttribute(q, x)) == Ok(EmptyDecoded.(tags := map[x := "0"]))
    ensures Walker.AnnotationSpec(q, fm, Walker.EmptyDecoded, OmittedAttribute(q, x)) ==
      Ok(Walker.EmptyDecoded.(omitTags := [x]))
  {
    OmittedTagStored(q, fm, x);
    OmittedStep(q, fm, x, Walker.EmptyDecoded);
    assert Walker.EmptyDecoded.omitTags + [x] == [x];
  }

  lemma OmittedTagStored(q: InfluxQu, fm: Formats, x: string)
    requires PlainKeys(q) && Word(x)
    ensures AnnotationSpec(q, fm, EmptyDecoded, OmittedAttribute(q, x)) == Ok(EmptyDecoded.(tags := map[x := "0"]))
  {
    var a := OmittedAttribute(q, x);
    AnnotationOf(q, false, q.tagKey + "," + x + "," + OmitEmptyKey, Int(0));
    DefaultKeysPlain();
    SegmentsOfThree(q.tagKey, x, OmitEmptyKey);
    TagRule(q, fm, EmptyDecoded, a);
    assert GetFieldAsString(fm, Int(0)) == Ok("0");
  }

  /** A field holding a pointer to `v`: the newer walker stores `v`, this
      one the pointer itself. */
  lemma FieldStoredRaw(q: InfluxQu, fm: Formats, f: string, v: Value)
    requires PlainKeys(q) && Word(f) && !v.Decimal? && !v.Ptr?
    ensures var a := Attribute(false, map[q.key := q.fieldKey + "," + f], Ptr(Some(v)));
      && AnnotationSpec(q, fm, EmptyDecoded, a) == Ok(EmptyDecoded.(fields := map[f := Ptr(Some(v))]))
      && Walker.AnnotationSpec(q, fm, Walker.EmptyDecoded, a) == Ok(Walker.EmptyDecoded.(fields := map[f := v]))
  {
    var a := Attribute(false, map[q.key := q.fieldKey + "," + f], Ptr(Some(v)));
    AnnotationOf(q, false, q.fieldKey + "," + f, Ptr(Some(v)));
    SegmentsOfTwo(q.fieldKey, f);
    FieldRule(q, fm, EmptyDecoded, a);
    FieldCase(q, fm, Walker.EmptyDecoded, a);
  }

  /** A measurement annotated `measurement,x`: the newer walker refuses it
      with UnSupportedTag, this one takes the measurement. */
  lemma MeasurementSegmentsUnchecked(q: InfluxQu, fm: Formats, x: string, m: string)
    requires PlainKeys(q) && Word(x)
    ensures var a := Attribute(false, map[q.key := q.measurementKey + "," + x], Str(m));
      && AnnotationSpec(q, fm, EmptyDecoded, a) == Ok(EmptyDecoded.(measurement := m))
      && Walker.AnnotationSpec(q, fm, Walker.EmptyDecoded, a) == Err(UnSupportedTag)
  {
    var a := Attribute(false, map[q.key := q.measurementKey + "," + x], Str(m));
    AnnotationOf(q, false, q.measurementKey + "," + x, Str(m));
    SegmentsOfTwo(q.measurementKey, x);
    MeasurementRule(q, fm, EmptyDecoded, a);
    MeasurementCase(q, fm, Walker.EmptyDecoded, a);
  }

  // ---------------------------------------------------------------------
  // Embedded structs

  /** Merging an embedded struct refuses two measurements, two timestamps
      and shared tag or field names; the parent's timestamp survives a
      struct that has none. */
  lemma EmbedRules(acc: Decoded, sub: Decoded)
    ensures sub.measurement != "" && acc.measurement != "" ==> EmbedSpec(acc, sub) == Err(DuplicatedMeasurement)
    ensures (sub.measurement == "" || acc.measurement == "") && sub.timestamp.Some? && acc.timestamp.Some? ==>
      EmbedSpec(acc, sub) == Err(DuplicatedTimestamp)
    ensures EmbedSpec(acc, sub).Ok? ==>
      && acc.tags.Keys !! sub.tags.Keys
      && acc.fields.Keys !! sub.fields.Keys
      && EmbedSpec(acc, sub).value.tags == acc.tags + sub.tags
      && EmbedSpec(acc, sub).value.fields == acc.fields + sub.fields
      && EmbedSpec(acc, sub).value.timestamp == if sub.timestamp.Some? then sub.timestamp else acc.timestamp
  {
  }

  /** An embedded struct with no attributes changes nothing. */
  lemma EmptyEmbedKeepsAll(q: InfluxQu, fm: Formats, acc: Decoded)
    ensures AttributeDecodable(Attribute(true, map[], Struct([])))
    ensures StepSpec(q, fm, acc, Attribute(true, map[], Struct([]))) == Ok(acc)
  {
    var embed := Attribute(true, map[], Struct([]));
    assert DecodeUpTo(q, fm, [], 0) == Ok(EmptyDecoded);
    assert acc.tags + map[] == acc.tags;
    assert acc.fields + map[] == acc.fields;
    assert EmbedSpec(acc, EmptyDecoded) == Ok(acc);
    assert Walker.Annotation(q, embed) == "";
  }

  /** The record that loses its timestamp in the newer walker keeps it
      here. */
  lemma TimestampKept(q: InfluxQu, fm: Formats, t: Instant)
    requires PlainKeys(q)
    ensures var rec := [Attribute(false, map[q.key := q.timestampKey], Time(t)), Attribute(true, map[], Struct([]))];
      && Decodable(rec) && Decode(q, fm, rec) == Ok(EmptyDecoded.(timestamp := Some(t)))
      && Walker.Decodable(q, rec) && Walker.Decode(q, fm, rec) == Ok(Walker.EmptyDecoded)
  {
    var stamp := Attribute(false, map[q.key := q.timestampKey], Time(t));
    var embed := Attribute(true, map[], Struct([]));
    TimestampStep(q, fm, t);
    DecodeSnoc(q, fm, [], stamp);
    assert [] + [stamp] == [stamp];
    EmptyEmbedKeepsAll(q, fm, EmptyDecoded.(timestamp := Some(t)));
    DecodeSnoc(q, fm, [stamp], embed);
    assert [stamp] + [embed] == [stamp, embed];
    TimestampLost(q, fm, t);
  }

  lemma TimestampStep(q: InfluxQu, fm: Formats, t: Instant)
    requires PlainKeys(q)
    ensures var stamp := Attribute(false, map[q.key := q.timestampKey], Time(t));
      AttributeDecodable(stamp) && StepSpec(q, fm, EmptyDecoded, stamp) == Ok(EmptyDecoded.(timestamp := Some(t)))
  {
    AnnotationOf(q, false, q.timestampKey, Time(t));
    SegmentsOfOne(q.timestampKey);
  }

  // ---------------------------------------------------------------------
  // getData on a record, attribute by attribute

  lemma {:induction false} DecodeUpToAgree(q: InfluxQu, fm: Formats, rec1: seq<Attribute>, rec2: seq<Attribute>, n: nat)
    requires n <= |rec1| && n <= |rec2| && Decodable(rec1) && Decodable(rec2)
    requires forall i :: 0 <= i < n ==> rec1[i] == rec2[i]
    ensures DecodeUpTo(q, fm, rec1, n) == DecodeUpTo(q, fm, rec2, n)
  {
    if n > 0 {
      DecodeUpToAgree(q, fm, rec1, rec2, n - 1);
      assert rec1[n - 1] == rec2[n - 1];
    }
  }

  /** getData on a record with one more attribute is one more step after
      getData on the record. */
  lemma DecodeSnoc(q: InfluxQu, fm: Formats, rec: seq<Attribute>, a: Attribute)
    ensures Decodable(rec + [a]) <==> Decodable(rec) && AttributeDecodable(a)
    ensures Decodable(rec) && AttributeDecodable(a) ==>
      Decode(q, fm, rec + [a]) == match Decode(q, fm, rec) case Ok(d) => StepSpec(q, fm, d, a) case Err(e) => Err(e)
  {
    var ext := rec + [a];
    assert forall i :: 0 <= i < |rec| ==> ext[i] == rec[i];
    assert ext[|rec|] == a;
    if Decodable(rec) && AttributeDecodable(a) {
      DecodeUpToAgree(q, fm, ext, rec, |rec|);
    }
  }
}

/**
 * influx_qu.go: the annotation-key configuration. Five keys name the struct
 * tag to read and the four roles an annotation can give an attribute; each
 * falls back to a default when left empty, and the five must differ.
 */
module Config {
  import opened Errors

  /** The modifier that makes a tag or field optional. */
  const OmitEmptyKey: string := "omitempty"

  const DefaultKey: string := "influxqu"
  const DefaultMeasurementKey: string := "measurement"
  const DefaultTagKey: string := "tag"
  const DefaultFieldKey: string := "field"
  const DefaultTimestampKey: string := "timestamp"

  /** The influxQu configuration: read-only once built. */
  datatype InfluxQu = InfluxQu(
    key: string,
    measurementKey: string,
    fieldKey: string,
    tagKey: string,
    timestampKey: string)

  const DefaultInfluxQu := InfluxQu(DefaultKey, DefaultMeasurementKey, DefaultFieldKey, DefaultTagKey, DefaultTimestampKey)

  function OrDefault(s: string, default: string): string {
    if s == "" then default else s
  }

  /** No two of the five keys are equal. */
  predicate Distinct5(a: string, b: string, c: string, d: string, e: string) {
    && a != b && a != c && a != d && a != e
    && b != c && b != d && b != e
    && c != d && c != e
    && d != e
  }

  /** A configuration whose five keys differ, as every one that
      NewInfluxQuWithKeys returns does. */
  predicate Valid(q: InfluxQu) {
    Distinct5(q.key, q.measurementKey, q.fieldKey, q.tagKey, q.timestampKey)
  }

  /** Adding an element to a set grows it by one exactly when the element is
      new. */
  lemma CardinalityOfInsert<T>(s: set<T>, x: T)
    ensures |s + {x}| == if x in s then |s| else |s| + 1
  {
    if x in s {
      assert s + {x} == s;
    }
  }

  /** Five keys make a set of five members exactly when no two are equal. */
  lemma FiveKeys(a: string, b: string, c: string, d: string, e: string)
    ensures |{} + {a} + {b} + {c} + {d} + {e}| == 5 <==> Distinct5(a, b, c, d, e)
  {
    var s1: set<string> := {} + {a};
    CardinalityOfInsert(s1, b);
    var s2 := s1 + {b};
    CardinalityOfInsert(s2, c);
    var s3 := s2 + {c};
    CardinalityOfInsert(s3, d);
    var s4 := s3 + {d};
    CardinalityOfInsert(s4, e);
  }

  /** NewinfluxQuWithKeys: each empty argument is replaced by its default;
      the five keys go into a set, and unless the set has five members the
      result is DuplicatedKey. On success the configuration holds the
      defaulted keys. */
  method NewInfluxQuWithKeys(key: string, measurementKey: string, tagKey: string, fieldKey: string, timestampKey: string)
    returns (r: Result<InfluxQu>)
    ensures var k, m, t, f, ts :=
        OrDefault(key, DefaultKey), OrDefault(measurementKey, DefaultMeasurementKey),
        OrDefault(tagKey, DefaultTagKey), OrDefault(fieldKey, DefaultFieldKey),
        OrDefault(timestampKey, DefaultTimestampKey);
      && (r.Err? <==> !Distinct5(k, m, f, t, ts))
      && (r.Err? ==> r.error == DuplicatedKey)
      && (r.Ok? ==> r.value == InfluxQu(k, m, f, t, ts) && Valid(r.value))
  {
    var k, m, t, f, ts := key, measurementKey, tagKey, fieldKey, timestampKey;
    if k == "" {
      k := DefaultKey;
    }
    if m == "" {
      m := DefaultMeasurementKey;
    }
    if f == "" {
      f := DefaultFieldKey;
    }
    if t == "" {
      t := DefaultTagKey;
    }
    if ts == "" {
      ts := DefaultTimestampKey;
    }

    var keys: set<string> := {};
    keys := keys + {k};
    keys := keys + {m};
    keys := keys + {f};
    keys := keys + {t};
    keys := keys + {ts};
    FiveKeys(k, m, f, t, ts);

    if |keys| != 5 {
      return Err(DuplicatedKey);
    }
    return Ok(InfluxQu(k, m, f, t, ts));
  }

  /** NewinfluxQu: the configuration with the default keys; it cannot fail,
      because the defaults differ. */
  method NewInfluxQu() returns (q: InfluxQu)
    ensures q == DefaultInfluxQu && Valid(q)
  {
    var r := NewInfluxQuWithKeys(DefaultKey, DefaultMeasurementKey, DefaultTagKey, DefaultFieldKey, DefaultTimestampKey);
    q := r.value;
  }

  /** Five empty arguments select exactly the default configuration, and it
      is accepted. */
  lemma EmptyKeysAreDefaults()
    ensures var k, m, t, f, ts :=
        OrDefault("", DefaultKey), OrDefault("", DefaultMeasurementKey),
        OrDefault("", DefaultTagKey), OrDefault("", DefaultFieldKey),
        OrDefault("", DefaultTimestampKey);
      Distinct5(k, m, f, t, ts) && InfluxQu(k, m, f, t, ts) == DefaultInfluxQu
  {
  }
}

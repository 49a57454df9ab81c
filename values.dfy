/**
 * What the walker reads through Go reflection, written out as data.
 *
 * A record (a Go struct value) is a sequence of attributes in declaration
 * order. Each attribute says whether it is embedded (anonymous), carries its
 * struct tag as a map from tag key to tag value, and holds its value. Only the
 * parts of a value's type that the walker inspects are kept: its kind, whether
 * it is `time.Time` or `decimal.Decimal`, and which of `String()` and
 * `MarshalText()` its method set has.
 */
module Values {
  import opened Errors

  /** The reflect kinds the walker distinguishes. */
  datatype Kind =
    | InterfaceKind
    | PointerKind
    | StringKind
    | IntKind
    | FloatKind
    | BoolKind
    | StructKind
    | SliceKind
    | OtherKind

  /** The element type of a slice, as far as getTypeInfo looks into it. */
  datatype ElemType = ElemOf(kind: Kind) | ElemPointer(pointee: ElemType)

  /** A `time.Time`: Go keeps a wall-clock word, a monotonic/extended word and
      a location pointer; the zero time has all three zero. */
  datatype Instant = Instant(wall: nat, ext: int, location: Option<string>)

  /** A `decimal.Decimal` from github.com/shopspring/decimal: an unscaled
      big integer (a nil pointer in the zero value) and a base-10 exponent. */
  datatype DecimalRep = DecimalRep(unscaled: Option<int>, exp: int)

  /** A runtime value. `Nil` is an interface-typed attribute holding nil.
      `Str` is any value of string kind, named string types included. `Int`
      stands for every built-in integer type, `Float` for float32/float64 (its
      IEEE-754 bit pattern). `Stringer` and `TextMarshaler` stand for values of
      a non-struct, non-pointer type whose method set has `String()`
      (respectively `MarshalText()` but no `String()`); they carry what the
      method returns and whether the value is the zero value of its type.
      `Slice` and `Other` (maps, channels, arrays, ...) are kinds the converter
      rejects; `zero` again records reflect's IsZero. */
  datatype Value =
    | Nil
    | Ptr(target: Option<Value>)
    | Str(s: string)
    | Int(i: int)
    | Float(bits: bv64)
    | Bool(b: bool)
    | Time(t: Instant)
    | Decimal(d: DecimalRep)
    | Stringer(text: string, zero: bool)
    | TextMarshaler(marshalled: Result<string>, zero: bool)
    | Struct(attrs: seq<Attribute>)
    | Slice(elem: ElemType, isNil: bool)
    | Other(zero: bool)

  /** One struct field: embedded or not, its struct tag (key to value), its value. */
  datatype Attribute = Attribute(anonymous: bool, annotations: map<string, string>, value: Value)

  /** Library routines the model does not define: `fmt`'s `%f`, the String
      methods of time.Time and decimal.Decimal, and Decimal.InexactFloat64. */
  datatype Formats = Formats(
    fixedFloat: bv64 -> string,
    timeString: Instant -> string,
    decimalString: DecimalRep -> string,
    inexactFloat64: DecimalRep -> bv64)

  /** reflect.Value.Kind of an attribute's value. time.Time and
      decimal.Decimal are structs. */
  function KindOf(v: Value): Kind {
    match v
    case Nil => InterfaceKind
    case Ptr(_) => PointerKind
    case Str(_) => StringKind
    case Int(_) => IntKind
    case Float(_) => FloatKind
    case Bool(_) => BoolKind
    case Time(_) => StructKind
    case Decimal(_) => StructKind
    case Stringer(_, _) => OtherKind
    case TextMarshaler(_, _) => OtherKind
    case Struct(_) => StructKind
    case Slice(_, _) => SliceKind
    case Other(_) => OtherKind
  }

  const ZeroInstant := Instant(0, 0, None)

  /** reflect.Value.IsZero: the value equals the zero value of its type. A
      struct is zero when every one of its fields is. */
  predicate IsZero(v: Value)
    decreases v, 1
  {
    match v
    case Nil => true
    case Ptr(p) => p.None?
    case Str(s) => s == ""
    case Int(i) => i == 0
    case Float(b) => b == 0
    case Bool(b) => !b
    case Time(t) => t == ZeroInstant
    case Decimal(d) => d.unscaled.None? && d.exp == 0
    case Stringer(_, z) => z
    case TextMarshaler(_, z) => z
    case Struct(attrs) => AllZero(attrs)
    case Slice(_, isNil) => isNil
    case Other(z) => z
  }

  predicate AllZero(attrs: seq<Attribute>)
    decreases attrs, 0
  {
    forall i :: 0 <= i < |attrs| ==> AttributeZero(attrs[i])
  }

  predicate AttributeZero(a: Attribute)
    decreases a, 2
  {
    IsZero(a.value)
  }

  /** reflect.StructTag.Get: the value stored under `key`, or "" when absent. */
  function TagGet(annotations: map<string, string>, key: string): string
  {
    if key in annotations then annotations[key] else ""
  }
}

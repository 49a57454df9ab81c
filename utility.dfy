/**
 * utility.go: the emptiness predicate, the input's kind as the public entry
 * points test it, and the two converters that read one attribute's value as
 * a string (for measurements and tags) or as a time (for timestamps).
 */
module Utility {
  import opened Errors
  import opened Values
  import opened Text

  /** isValueEmpty: nil is empty, a pointer is empty exactly when it is nil
      (whatever it points to), anything else when it is its type's zero
      value. */
  predicate IsValueEmpty(v: Value) {
    if v == Nil then true
    else if v.Ptr? then v.target.None?
    else IsZero(v)
  }

  /** On every value the model represents, isValueEmpty agrees with reflect's
      IsZero of the value: nil interfaces and nil pointers are zero, and a
      non-nil pointer is not, even when it points to "". */
  lemma EmptyIsZero(v: Value)
    ensures IsValueEmpty(v) <==> IsZero(v)
    ensures IsValueEmpty(Nil)
    ensures !IsValueEmpty(Ptr(Some(Str(""))))
  {
  }

  /** reflect.Indirect: one pointer level removed, nil pointers kept. */
  function Indirect(v: Value): Value {
    if v.Ptr? && v.target.Some? then v.target.value else v
  }

  function ElemKind(t: ElemType): Kind {
    match t
    case ElemOf(k) => k
    case ElemPointer(_) => PointerKind
  }

  /** getTypeInfo, kind half: after one dereference, a slice reports the kind
      of its element type with one pointer level stripped; anything else
      reports its own kind. Go panics on a nil input or a nil pointer
      (`Type()` of an invalid reflect.Value), which the requires excludes. */
  function GetTypeInfo(input: Value): Kind
    requires input != Nil && input != Ptr(None)
  {
    var val := Indirect(input);
    match val
    case Slice(elem, _) => (
      match elem
      case ElemPointer(t) => ElemKind(t)
      case ElemOf(k) => k)
    case _ => KindOf(val)
  }

  /** The input counts as a struct for the public entry points exactly when,
      after one dereference, it is a struct (time.Time and decimal.Decimal
      included) or a slice of structs or of pointers to structs. */
  lemma TypeInfoStruct(input: Value)
    requires input != Nil && input != Ptr(None)
    ensures GetTypeInfo(input) == StructKind <==>
      var val := Indirect(input);
      || val.Struct? || val.Time? || val.Decimal?
      || (val.Slice? && val.elem in {ElemOf(StructKind), ElemPointer(ElemOf(StructKind))})
  {
  }

  /** A pointer to a slice reports the same kind as the slice, and a pointer
      to a non-slice, non-pointer value reports that value's kind. */
  lemma TypeInfoThroughPointer(x: Value)
    requires x != Nil && !x.Ptr?
    ensures GetTypeInfo(Ptr(Some(x))) == GetTypeInfo(x)
    ensures !x.Slice? ==> GetTypeInfo(Ptr(Some(x))) == KindOf(x)
  {
  }

  /** The `String()` method of a non-pointer value, when its type has one. */
  function OwnStringMethod(fm: Formats, x: Value): Option<string> {
    match x
    case Stringer(s, _) => Some(s)
    case Time(t) => Some(fm.timeString(t))
    case Decimal(d) => Some(fm.decimalString(d))
    case _ => None
  }

  /** The fmt.Stringer assertion: a pointer's method set also holds the
      value methods of the type it points to. */
  function StringMethod(fm: Formats, f: Value): Option<string> {
    match f
    case Ptr(Some(x)) => OwnStringMethod(fm, x)
    case _ => OwnStringMethod(fm, f)
  }

  /** The encoding.TextMarshaler assertion, for a type without `String()`. */
  function MarshalTextMethod(f: Value): Option<Result<string>> {
    match f
    case TextMarshaler(r, _) => Some(r)
    case Ptr(Some(TextMarshaler(r, _))) => Some(r)
    case _ => None
  }

  /** The conversion chain after at most one dereference: string kind, then
      `String()`, then `MarshalText()`, then integers, floats and booleans;
      anything else is unsupported. (time.Time has a `String()` method, so a
      time never reaches the switch's `time.Time` case.) */
  function Render(fm: Formats, f: Value): Result<string> {
    if f.Str? then Ok(f.s)
    else if StringMethod(fm, f).Some? then Ok(StringMethod(fm, f).value)
    else if MarshalTextMethod(f).Some? then MarshalTextMethod(f).value
    else
      match f
      case Int(i) => Ok(FormatInt(i))
      case Float(b) => Ok(fm.fixedFloat(b))
      case Bool(b) => Ok(if b then "true" else "false")
      case _ => Err(UnSupportedType)
  }

  /** getFieldAsString: a nil pointer reads as "", a non-nil pointer is
      dereferenced once, and the result is rendered. */
  function GetFieldAsString(fm: Formats, v: Value): Result<string> {
    match v
    case Ptr(None) => Ok("")
    case Ptr(Some(x)) => Render(fm, x)
    case _ => Render(fm, v)
  }

  /** A nil pointer reads as the empty string without an error, and a
      pointer to a non-pointer value reads exactly as that value does. */
  lemma PointerReadsThrough(fm: Formats, x: Value)
    requires !x.Ptr?
    ensures GetFieldAsString(fm, Ptr(None)) == Ok("")
    ensures GetFieldAsString(fm, Ptr(Some(x))) == GetFieldAsString(fm, x)
  {
  }

  /** Any value of string kind reads as itself, directly or through a
      pointer, before any `String()` or `MarshalText()` method is tried. */
  lemma StringKindFirst(fm: Formats, s: string)
    ensures GetFieldAsString(fm, Str(s)) == Ok(s)
    ensures GetFieldAsString(fm, Ptr(Some(Str(s)))) == Ok(s)
  {
  }

  /** `String()` wins over `MarshalText()`, and a `MarshalText()` error is
      passed on unchanged. */
  lemma MethodPrecedence(fm: Formats, x: Value, e: Error)
    requires !x.Str? && !x.Ptr?
    ensures OwnStringMethod(fm, x).Some? ==> GetFieldAsString(fm, x) == Ok(OwnStringMethod(fm, x).value)
    ensures GetFieldAsString(fm, TextMarshaler(Err(e), false)) == Err(e)
    ensures GetFieldAsString(fm, Ptr(Some(TextMarshaler(Err(e), true)))) == Err(e)
  {
  }

  /** Integers read as `%d` digits that parse back to the integer; booleans
      as "true" or "false"; a time through its `String()` method. */
  lemma {:induction false} ScalarRenderings(fm: Formats, n: int, b: bool, t: Instant)
    ensures GetFieldAsString(fm, Int(n)).Ok?
    ensures ParseInt(GetFieldAsString(fm, Int(n)).value) == Some(n)
    ensures GetFieldAsString(fm, Int(1)) == Ok("1")
    ensures GetFieldAsString(fm, Bool(b)) == Ok(if b then "true" else "false")
    ensures GetFieldAsString(fm, Time(t)) == Ok(fm.timeString(t))
  {
    FormatIntRoundTrip(n);
  }

  /** The only failures are an unsupported kind and a `MarshalText()` error:
      a nil interface, a slice, a struct, a pointer to a nil pointer (whose
      pointee type has neither method) and the other kinds all fail with
      UnsupportedType. */
  lemma ConversionFailures(fm: Formats, v: Value)
    ensures GetFieldAsString(fm, v).Err? ==>
      GetFieldAsString(fm, v).error == UnSupportedType || MarshalTextMethod(Indirect(v)).Some?
    ensures v.Nil? || v.Slice? || v.Other? || v.Struct? ==> GetFieldAsString(fm, v) == Err(UnSupportedType)
    ensures GetFieldAsString(fm, Ptr(Some(Ptr(None)))) == Err(UnSupportedType)
  {
  }

  /** getFiledAsTime: a time, directly or through one non-nil pointer, is
      returned unchanged; a nil pointer or anything else is unsupported. */
  function GetFieldAsTime(v: Value): (r: Result<Instant>)
    ensures r.Ok? <==> v.Time? || (v.Ptr? && v.target.Some? && v.target.value.Time?)
    ensures r.Ok? ==> v == Time(r.value) || v == Ptr(Some(Time(r.value)))
    ensures r.Err? ==> r.error == UnSupportedType
  {
    var f := if v.Ptr? then (if v.target.None? then Nil else v.target.value) else v;
    if v == Ptr(None) then Err(UnSupportedType)
    else if f.Time? then Ok(f.t)
    else Err(UnSupportedType)
  }
}

/**
 * The OTLP log data model as the sender builds it (main.go:12-99), and the
 * conversion of a host value into an attribute value (main.go:150-167).
 *
 * The Go `AttributeValue` is a struct of seven optional fields, one of which is
 * meant to be set; it is kept in that form here so that "exactly one field is
 * set" is a property to prove rather than a property of the type.
 */
module Otlp {

  datatype Option<+T> = None | Some(value: T)

  datatype Result<+T, +E> = Ok(value: T) | Err(error: E)

  /** Go's fixed-width integers. Go's `int` is taken at its 64-bit width. */
  newtype int64 = x: int | -0x8000_0000_0000_0000 <= x < 0x8000_0000_0000_0000
  newtype uint64 = x: int | 0 <= x < 0x1_0000_0000_0000_0000
  newtype goInt = x: int | -0x8000_0000_0000_0000 <= x < 0x8000_0000_0000_0000
  newtype uint8 = x: int | 0 <= x < 0x100

  /** An IEEE 754 double, carried through as its 64-bit pattern; no arithmetic is done on it. */
  datatype Float64 = Float64(bits: bv64)

  datatype AttributeValue = AttributeValue(
    stringValue: Option<string>,
    boolValue: Option<bool>,
    intValue: Option<int64>,
    doubleValue: Option<Float64>,
    arrayValue: Option<ArrayValue>,
    kvlistValue: Option<KvlistValue>,
    bytesValue: Option<seq<uint8>>)

  datatype ArrayValue = ArrayValue(values: seq<AttributeValue>)

  datatype KvlistValue = KvlistValue(values: seq<KeyValue>)

  datatype KeyValue = KeyValue(key: string, value: AttributeValue)

  datatype LogRecord = LogRecord(
    timeUnixNano: uint64,
    severityText: string,
    severityNumber: goInt,
    body: AttributeValue,
    attributes: seq<KeyValue>)

  datatype Resource = Resource(attributes: seq<KeyValue>)

  datatype Scope = Scope(name: string, version: string)

  datatype ScopeLogs = ScopeLogs(scope: Scope, logRecords: seq<LogRecord>)

  datatype ResourceLogs = ResourceLogs(resource: Resource, scopeLogs: seq<ScopeLogs>)

  /** The JSON object posted to the collector: `{"resourceLogs": [...]}`. */
  datatype Payload = Payload(resourceLogs: seq<ResourceLogs>)

  /** The attribute value with no field set (the zero value of the Go struct). */
  const Unset := AttributeValue(None, None, None, None, None, None, None)

  function Present<T>(o: Option<T>): nat { if o.Some? then 1 else 0 }

  /** Number of fields of the one-of that are set. */
  function FieldsSet(v: AttributeValue): nat {
    Present(v.stringValue) + Present(v.boolValue) + Present(v.intValue) + Present(v.doubleValue)
    + Present(v.arrayValue) + Present(v.kvlistValue) + Present(v.bytesValue)
  }

  /** The one-of discipline: exactly one field carries the value. */
  predicate ExactlyOne(v: AttributeValue) { FieldsSet(v) == 1 }

  /** A string attribute value, as `AttributeValue{StringValue: &s}` builds it. */
  function StringAttribute(s: string): (v: AttributeValue)
    ensures ExactlyOne(v) && v.stringValue == Some(s)
  {
    Unset.(stringValue := Some(s))
  }

  /** A value of a dynamic type the converter has no case for (an unsigned
      integer, a float32, a slice, a struct, nil, ...): its Go type name and
      an opaque payload. Only its `%v` rendering is ever observed. */
  datatype OtherValue = OtherValue(goType: string, payload: seq<uint8>)

  /** A value of the `interface{}` type the producer passes as an attribute. */
  datatype HostValue =
    | GoString(s: string)
    | GoInt(i: goInt)
    | GoInt64(n: int64)
    | GoFloat64(f: Float64)
    | GoBool(b: bool)
    | GoOther(o: OtherValue)

  /**
   * convertToAttributeValue. `render` stands for `fmt.Sprintf("%v", _)`.
   * Every kind yields a value with exactly one field set; a Go `int` is widened
   * to `int64` unchanged, and any kind without a case of its own becomes the
   * string of its rendering.
   */
  function ToAttributeValue(v: HostValue, render: OtherValue -> string): (r: AttributeValue)
    ensures ExactlyOne(r)
    ensures r.stringValue.Some? <==> v.GoString? || v.GoOther?
    ensures r.intValue.Some? <==> v.GoInt? || v.GoInt64?
    ensures r.doubleValue.Some? <==> v.GoFloat64?
    ensures r.boolValue.Some? <==> v.GoBool?
    ensures v.GoString? ==> r.stringValue == Some(v.s)
    ensures v.GoInt? ==> r.intValue == Some(v.i as int64) && r.intValue.value as int == v.i as int
    ensures v.GoInt64? ==> r.intValue == Some(v.n)
    ensures v.GoFloat64? ==> r.doubleValue == Some(v.f)
    ensures v.GoBool? ==> r.boolValue == Some(v.b)
    ensures v.GoOther? ==> r.stringValue == Some(render(v.o))
  {
    match v
    case GoString(s) => StringAttribute(s)
    case GoInt(i) => Unset.(intValue := Some(i as int64))
    case GoInt64(n) => Unset.(intValue := Some(n))
    case GoFloat64(f) => Unset.(doubleValue := Some(f))
    case GoBool(b) => Unset.(boolValue := Some(b))
    case GoOther(o) => StringAttribute(render(o))
  }

  /** Reads a scalar back out of an attribute value whose one set field is a
      string, integer, double or bool; the inverse of the conversion. */
  function ScalarOf(v: AttributeValue): Option<HostValue> {
    if !ExactlyOne(v) then None
    else if v.stringValue.Some? then Some(GoString(v.stringValue.value))
    else if v.intValue.Some? then Some(GoInt64(v.intValue.value))
    else if v.doubleValue.Some? then Some(GoFloat64(v.doubleValue.value))
    else if v.boolValue.Some? then Some(GoBool(v.boolValue.value))
    else None
  }

  /** The conversion loses nothing but the distinction between `int` and
      `int64`, and the identity of a value that is only rendered. */
  lemma ScalarRoundTrip(v: HostValue, render: OtherValue -> string)
    ensures ScalarOf(ToAttributeValue(v, render)) ==
      match v
      case GoInt(i) => Some(GoInt64(i as int64))
      case GoOther(o) => Some(GoString(render(o)))
      case _ => Some(v)
  {
  }

  /** Two host values of the kinds the converter handles natively convert to
      the same attribute value only if they are the same value. */
  lemma ConversionInjective(v: HostValue, w: HostValue, render: OtherValue -> string)
    requires !v.GoInt? && !v.GoOther? && !w.GoInt? && !w.GoOther?
    requires ToAttributeValue(v, render) == ToAttributeValue(w, render)
    ensures v == w
  {
  }
}

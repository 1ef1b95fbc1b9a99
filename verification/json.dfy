/**
 The JSON documents exchanged by server and device (RFC 8259), at the level
 the connection layer needs them: objects with named fields, and a text codec
 that is a parameter of the model rather than part of it.
 */
module Json {
  import opened Wrappers
  import opened Bytes

  /** A JSON number as written in JSON text: mantissa * 10^exponent.  Every
      double-precision value has such a finite decimal form. */
  datatype Decimal = Decimal(mantissa: int, exponent: int)

  function Pow10(k: nat): (p: nat)
    ensures p >= 1
  {
    if k == 0 then 1 else 10 * Pow10(k - 1)
  }

  /** The numeric value of a decimal. */
  function Value(d: Decimal): real
  {
    if d.exponent >= 0 then (d.mantissa * Pow10(d.exponent)) as real
    else d.mantissa as real / Pow10(-d.exponent) as real
  }

  datatype JsonValue =
    | Null
    | Bool(b: bool)
    | Number(n: Decimal)
    | Str(s: string)
    | Array(items: seq<JsonValue>)
    | Object(fields: map<string, JsonValue>)

  /** A JSON object (QJsonObject): field name to value. */
  type JsonObject = map<string, JsonValue>

  /** A JSON document (QJsonDocument): a default-constructed null document,
      a top-level object, or valid JSON that is not an object. */
  datatype Doc = NullDoc | ObjectDoc(obj: JsonObject) | ArrayDoc(items: seq<JsonValue>)

  /** The JSON text layer: compact serialisation of an object to UTF-8 bytes,
      and parsing of bytes into a document (None for a parse error). */
  datatype JsonCodec = JsonCodec(serialize: JsonObject -> seq<Byte>, parse: seq<Byte> -> Option<Doc>)

  /** The one law the connection layer relies on: parsing the compact text of
      an object gives that object back, as an object document. */
  ghost predicate RoundTrips(c: JsonCodec)
  {
    forall o :: c.parse(c.serialize(o)) == Some(ObjectDoc(o))
  }

  /** `obj.value(key).toString()`: the field's text when it is a string,
      otherwise (absent, or another kind of value) the empty string. */
  function StringField(o: JsonObject, key: string): string
  {
    if key in o && o[key].Str? then o[key].s else ""
  }

  /** Inclusive bounds of a C++ `int`. */
  const IntMin: int := -0x8000_0000
  const IntMax: int := 0x7FFF_FFFF

  /** `obj.value(key).toInt(dflt)`: a number that is a whole value within
      `int` range converts to that value; anything else yields `dflt`. */
  function IntField(o: JsonObject, key: string, dflt: int): (r: int)
    ensures IntMin <= dflt <= IntMax ==> IntMin <= r <= IntMax
    ensures r != dflt ==> key in o && o[key].Number? && Value(o[key].n) == r as real
    ensures (&& key in o && o[key].Number?
             && Value(o[key].n) == Value(o[key].n).Floor as real
             && IntMin <= Value(o[key].n).Floor <= IntMax)
            ==> r == Value(o[key].n).Floor
    ensures !(key in o && o[key].Number?) ==> r == dflt
  {
    if key in o && o[key].Number? then
      var v := Value(o[key].n);
      if v == v.Floor as real && IntMin <= v.Floor <= IntMax then v.Floor else dflt
    else dflt
  }

  /** `obj.value(key).toDouble(dflt)`: the value of a number, otherwise `dflt`. */
  function DoubleField(o: JsonObject, key: string, dflt: real): real
  {
    if key in o && o[key].Number? then Value(o[key].n) else dflt
  }

  predicate IsLowerAscii(ch: char)
  {
    'a' <= ch <= 'z'
  }

  /** Upper-cases ASCII letters and leaves every other character alone: the
      result has no lower-case ASCII letter, and each character is the
      original or its lower-case form shifted to upper case. */
  function ToUpperAscii(s: string): (u: string)
    ensures |u| == |s|
    ensures forall i :: 0 <= i < |u| ==> !IsLowerAscii(u[i])
    ensures forall i :: 0 <= i < |s| ==> u[i] == s[i] || (IsLowerAscii(s[i]) && u[i] as int + 32 == s[i] as int)
  {
    seq(|s|, i requires 0 <= i < |s| => if IsLowerAscii(s[i]) then (s[i] as int - 32) as char else s[i])
  }

  /** Upper-casing twice is upper-casing once. */
  lemma ToUpperIdempotent(s: string)
    ensures ToUpperAscii(ToUpperAscii(s)) == ToUpperAscii(s)
  {
  }
}

/**
 * PostgreSQL parameter binding: a connector `Value`, together with the type
 * name PostgreSQL reports for the placeholder, becomes a typed argument for
 * the driver. Integers are narrowed to the column's width, arrays are
 * converted element by element, and bit strings are parsed from text.
 */
module PostgresConversion {
  import opened Wrappers
  import V = Values

  type I64 = V.I64

  // ---------------------------------------------------------------------------
  // Bit strings
  // ---------------------------------------------------------------------------

  const UnexpectedBitCharacter: string := "Unexpected character for bits input. Expected only 1 and 0."

  function BitChar(bit: bool): char {
    if bit then '1' else '0'
  }

  /** The text of a bit vector: one character per bit, `1` exactly for a set bit. */
  function BitString(bits: seq<bool>): (s: string)
    ensures |s| == |bits|
    ensures forall i | 0 <= i < |bits| :: s[i] == (if bits[i] then '1' else '0')
  {
    if |bits| == 0 then "" else BitString(bits[..|bits| - 1]) + [BitChar(bits[|bits| - 1])]
  }

  predicate IsBitString(s: string) {
    forall i | 0 <= i < |s| :: s[i] == '0' || s[i] == '1'
  }

  /** The bits a text spells, or the error for its first character other than `0` / `1`. */
  function ParseBits(s: string): (r: Result<seq<bool>, V.Error>)
    ensures r.Success? <==> IsBitString(s)
    ensures r.Success? ==> |r.value| == |s| && forall i | 0 <= i < |s| :: r.value[i] == (s[i] == '1')
    ensures r.Failure? ==> r.error == V.Conversion(UnexpectedBitCharacter)
  {
    if |s| == 0 then Success([])
    else
      match ParseBits(s[..|s| - 1])
      case Failure(e) => Failure(e)
      case Success(bits) =>
        if s[|s| - 1] == '0' then Success(bits + [false])
        else if s[|s| - 1] == '1' then Success(bits + [true])
        else Failure(V.Conversion(UnexpectedBitCharacter))
  }

  /**
   * Printing and parsing are inverse: bits survive being printed and parsed,
   * and text over {0, 1} survives being parsed and printed.
   */
  lemma BitsRoundTrip(bits: seq<bool>, s: string)
    ensures ParseBits(BitString(bits)) == Success(bits)
    ensures IsBitString(s) ==> BitString(ParseBits(s).value) == s
  {
    var printed := BitString(bits);
    assert IsBitString(printed);
    var parsed := ParseBits(printed).value;
    assert |parsed| == |bits|;
    assert forall i | 0 <= i < |bits| :: parsed[i] == bits[i];
    assert parsed == bits;
  }

  /** `bits_to_string`. */
  method BitsToString(bits: seq<bool>) returns (s: string)
    ensures s == BitString(bits)
  {
    s := "";
    for i := 0 to |bits|
      invariant s == BitString(bits[..i])
    {
      assert bits[..i + 1][..i] == bits[..i];
      if bits[i] {
        s := s + "1";
      } else {
        s := s + "0";
      }
    }
    assert bits[..|bits|] == bits;
  }

  /** `string_to_bits`. */
  method StringToBits(s: string) returns (r: Result<seq<bool>, V.Error>)
    ensures r == ParseBits(s)
  {
    var bits: seq<bool> := [];
    for i := 0 to |s|
      invariant ParseBits(s[..i]) == Success(bits)
    {
      assert s[..i + 1][..i] == s[..i];
      match s[i]
      case '0' => bits := bits + [false];
      case '1' => bits := bits + [true];
      case _ =>
        assert !IsBitString(s);
        return Failure(V.Conversion(UnexpectedBitCharacter));
    }
    assert s[..|s|] == s;
    return Success(bits);
  }

  // ---------------------------------------------------------------------------
  // Typed arguments
  // ---------------------------------------------------------------------------

  /** The Rust type an argument is bound as, which fixes the PostgreSQL type the driver sends. */
  datatype RustType =
    | I8 | I16 | I32 | I64 | U32
    | F32 | F64 | PgMoney | Decimal
    | Str | ByteVec | Bool | IpNetwork | BitVec | JsonValue | Uuid
    | DateTimeUtc | NaiveDateTime | NaiveDate | NaiveTime | PgTimeTz

  /** The payload of one bound scalar or array element. */
  datatype Element =
    | IntElement(integer: int)
    | RealElement(float: real)
    | StrElement(text: string)
    | BytesElement(bytes: seq<V.Byte>)
    | BoolElement(boolean: bool)
    | BitsElement(bits: seq<bool>)
    | InstantElement(instant: V.DateTime)
    | DateElement(date: V.Date)
    | TimeElement(time: V.Time)

  /** A bound argument: a possibly NULL scalar, or a possibly NULL array, of a Rust type. */
  datatype PgArg =
    | Scalar(ty: RustType, value: Option<Element>)
    | ArrayArg(elementType: RustType, elements: Option<seq<Element>>)
  {
    predicate IsNull() {
      if Scalar? then value.None? else elements.None?
    }

    /** Whether it is an array, and of which Rust type. */
    function Shape(): (bool, RustType) {
      if Scalar? then (false, ty) else (true, elementType)
    }
  }

  /** An element is a value of the Rust type: integers within its width, and the matching payload. */
  predicate Fits(ty: RustType, e: Element) {
    match ty
    case I8 => e.IntElement? && -0x80 <= e.integer < 0x80
    case I16 => e.IntElement? && -0x8000 <= e.integer < 0x8000
    case I32 => e.IntElement? && -0x8000_0000 <= e.integer < 0x8000_0000
    case I64 => e.IntElement? && -0x8000_0000_0000_0000 <= e.integer < 0x8000_0000_0000_0000
    case U32 => e.IntElement? && 0 <= e.integer < 0x1_0000_0000
    case F32 => e.RealElement?
    case F64 => e.RealElement?
    case PgMoney => e.RealElement?
    case Decimal => e.RealElement?
    case Str => e.StrElement?
    case ByteVec => e.BytesElement?
    case Bool => e.BoolElement?
    case IpNetwork => e.StrElement?
    case BitVec => e.BitsElement?
    case JsonValue => e.StrElement?
    case Uuid => e.StrElement?
    case DateTimeUtc => e.InstantElement?
    case NaiveDateTime => e.InstantElement?
    case NaiveDate => e.DateElement?
    case NaiveTime => e.TimeElement?
    case PgTimeTz => e.TimeElement?
  }

  /** Every present payload is a value of the argument's Rust type. */
  predicate WellTyped(arg: PgArg) {
    match arg
    case Scalar(ty, value) => value.Some? ==> Fits(ty, value.value)
    case ArrayArg(ty, elements) =>
      elements.Some? ==> forall i | 0 <= i < |elements.value| :: Fits(ty, elements.value[i])
  }

  // ---------------------------------------------------------------------------
  // Arrays
  // ---------------------------------------------------------------------------

  /** The array type names `bind_value` has an arm for. */
  datatype ArrayKind =
    | BitArray | Int2Array | Int4Array | Int8Array | OidArray | Float4Array | Float8Array | BoolArray
    | TimestamptzArray | TimestampArray | DateArray | TimeArray | TimetzArray | JsonArray | CharArray
    | UuidArray | TextArray | InetArray

  function ArrayKindOf(typeName: string): Option<ArrayKind> {
    match typeName
    case "BIT[]" => Some(BitArray)
    case "VARBIT[]" => Some(BitArray)
    case "INT2[]" => Some(Int2Array)
    case "INT4[]" => Some(Int4Array)
    case "INT8[]" => Some(Int8Array)
    case "OID[]" => Some(OidArray)
    case "FLOAT4[]" => Some(Float4Array)
    case "FLOAT8[]" => Some(Float8Array)
    case "BOOL[]" => Some(BoolArray)
    case "TIMESTAMPTZ[]" => Some(TimestamptzArray)
    case "TIMESTAMP[]" => Some(TimestampArray)
    case "DATE[]" => Some(DateArray)
    case "TIME[]" => Some(TimeArray)
    case "TIMETZ[]" => Some(TimetzArray)
    case "JSON[]" => Some(JsonArray)
    case "CHAR[]" => Some(CharArray)
    case "UUID[]" => Some(UuidArray)
    case "TEXT[]" => Some(TextArray)
    case "VARCHAR[]" => Some(TextArray)
    case "NAME[]" => Some(TextArray)
    case "INET[]" => Some(InetArray)
    case "CIDR[]" => Some(InetArray)
    case _ => None
  }

  /** The Rust type of the elements an array arm binds. */
  function ElementType(k: ArrayKind): RustType {
    match k
    case BitArray => BitVec
    case Int2Array => I16
    case Int4Array => I32
    case Int8Array => I64
    case OidArray => U32
    case Float4Array => F32
    case Float8Array => F64
    case BoolArray => Bool
    case TimestamptzArray => DateTimeUtc
    case TimestampArray => NaiveDateTime
    case DateArray => NaiveDate
    case TimeArray => NaiveTime
    case TimetzArray => PgTimeTz
    case JsonArray => JsonValue
    case CharArray => I8
    case UuidArray => Uuid
    case TextArray => Str
    case InetArray => IpNetwork
  }

  /** The error for an element of the wrong variant (or NULL). */
  function MismatchMessage(k: ArrayKind): string {
    match k
    case BitArray => "Non-string parameter when storing a BIT[]"
    case Int2Array => "Non-integer parameter when storing an INT2[]"
    case Int4Array => "Non-integer parameter when storing an INT4[]"
    case Int8Array => "Non-integer parameter when storing an INT8[]"
    case OidArray => "Non-integer parameter when storing an OID[]"
    case Float4Array => "Non-float parameter when storing a FLOAT4[]"
    case Float8Array => "Non-float parameter when storing a FLOAT8[]"
    case BoolArray => "Non-boolean parameter when storing a BOOL[]"
    case TimestamptzArray => "Non-datetime parameter when storing a TIMESTAMPTZ[]"
    case TimestampArray => "Non-datetime parameter when storing a TIMESTAMP[]"
    case DateArray => "Non-date parameter when storing a DATE[]"
    case TimeArray => "Non-time parameter when storing a TIME[]"
    case TimetzArray => "Non-time parameter when storing a TIMETZ[]"
    case JsonArray => "Non-json parameter when storing a JSON[]"
    case CharArray => "Non-char parameter when storing a CHAR[]"
    case UuidArray => "Non-uuid parameter when storing a UUID[]"
    case TextArray => "Non-string parameter when storing a string array"
    case InetArray => "Non-string parameter when storing an IP array"
  }

  function IpMessage(s: string): string {
    "Provided IP address (" + s + ") not in the right format."
  }

  /** Lifts an accessor's result to an element, or the arm's mismatch error. */
  function Expect<T>(x: Option<T>, k: ArrayKind, f: T -> Element): Result<Element, V.Error> {
    match x
    case Some(y) => Success(f(y))
    case None => Failure(V.Conversion(MismatchMessage(k)))
  }

  /**
   * One array element as the arm for `k` converts it. `isIp` stands for
   * parsing the text as an IP network.
   */
  function ConvertElement(k: ArrayKind, v: V.Value, isIp: string -> bool): (r: Result<Element, V.Error>)
    ensures r.Success? ==> Fits(ElementType(k), r.value)
  {
    match k
    case BitArray =>
      (match V.IntoString(v)
       case None => Failure(V.Conversion(MismatchMessage(k)))
       case Some(s) =>
         match ParseBits(s)
         case Failure(e) => Failure(e)
         case Success(bits) => Success(BitsElement(bits)))
    case Int2Array => Expect(V.AsI64(v), k, i => IntElement(V.AsI16(i)))
    case Int4Array => Expect(V.AsI64(v), k, i => IntElement(V.AsI32(i)))
    case Int8Array => Expect(V.AsI64(v), k, i => IntElement(i))
    case OidArray => Expect(V.AsI64(v), k, i => IntElement(V.AsU32(i)))
    case Float4Array => Expect(V.AsF64(v), k, f => RealElement(f))
    case Float8Array => Expect(V.AsF64(v), k, f => RealElement(f))
    case BoolArray => Expect(V.AsBool(v), k, b => BoolElement(b))
    case TimestamptzArray => Expect(V.AsDateTime(v), k, dt => InstantElement(dt))
    case TimestampArray => Expect(V.AsDateTime(v), k, dt => InstantElement(dt))
    case DateArray => Expect(V.AsDate(v), k, d => DateElement(d))
    case TimeArray => Expect(V.AsTime(v), k, t => TimeElement(t))
    case TimetzArray => Expect(V.AsDateTime(v), k, dt => TimeElement(V.TimeOf(dt)))
    case JsonArray => Expect(V.IntoJson(v), k, j => StrElement(j))
    case CharArray => Expect(V.AsChar(v), k, c => IntElement(V.CharAsI8(c)))
    case UuidArray => Expect(V.AsUuid(v), k, u => StrElement(u))
    case TextArray => Expect(V.IntoString(v), k, s => StrElement(s))
    case InetArray =>
      match V.IntoString(v)
      case None => Failure(V.Conversion(MismatchMessage(k)))
      case Some(s) => if isIp(s) then Success(StrElement(s)) else Failure(V.Conversion(IpMessage(s)))
  }

  /**
   * An INT2[], INT4[] or INT8[] element must be a non-NULL integer, bound as the `as` cast to the
   * element type; anything else fails with the arm's own message.
   */
  lemma IntegerElements(v: V.Value, isIp: string -> bool)
    ensures ConvertElement(Int2Array, v, isIp) == (if v.Integer? && v.integer.Some? then Success(IntElement(V.AsI16(v.integer.value)))
      else Failure(V.Conversion("Non-integer parameter when storing an INT2[]")))
    ensures ConvertElement(Int4Array, v, isIp) == (if v.Integer? && v.integer.Some? then Success(IntElement(V.AsI32(v.integer.value)))
      else Failure(V.Conversion("Non-integer parameter when storing an INT4[]")))
    ensures ConvertElement(Int8Array, v, isIp) == (if v.Integer? && v.integer.Some? then Success(IntElement(v.integer.value))
      else Failure(V.Conversion("Non-integer parameter when storing an INT8[]")))
  {
  }

  /**
   * An OID[] element must be a non-NULL integer, bound as `as u32`, and a CHAR[] element a non-NULL
   * character, bound as `as i8`; anything else fails with the arm's own message.
   */
  lemma OidAndCharElements(v: V.Value, isIp: string -> bool)
    ensures ConvertElement(OidArray, v, isIp) == (if v.Integer? && v.integer.Some? then Success(IntElement(V.AsU32(v.integer.value)))
      else Failure(V.Conversion("Non-integer parameter when storing an OID[]")))
    ensures ConvertElement(CharArray, v, isIp) == (if v.Char? && v.character.Some? then Success(IntElement(V.AsI8(v.character.value as int)))
      else Failure(V.Conversion("Non-char parameter when storing a CHAR[]")))
  {
  }

  /**
   * A FLOAT4[] or FLOAT8[] element must be a non-NULL real and a BOOL[] element a non-NULL boolean;
   * it is bound unchanged, and anything else fails with the arm's own message.
   */
  lemma FloatAndBoolElements(v: V.Value, isIp: string -> bool)
    ensures ConvertElement(Float4Array, v, isIp) == (if v.Real? && v.decimal.Some? then Success(RealElement(v.decimal.value))
      else Failure(V.Conversion("Non-float parameter when storing a FLOAT4[]")))
    ensures ConvertElement(Float8Array, v, isIp) == (if v.Real? && v.decimal.Some? then Success(RealElement(v.decimal.value))
      else Failure(V.Conversion("Non-float parameter when storing a FLOAT8[]")))
    ensures ConvertElement(BoolArray, v, isIp) == (if v.Boolean? && v.boolean.Some? then Success(BoolElement(v.boolean.value))
      else Failure(V.Conversion("Non-boolean parameter when storing a BOOL[]")))
  {
  }

  /**
   * TIMESTAMPTZ[], TIMESTAMP[] and TIMETZ[] elements must be non-NULL date-times; TIMETZ[] binds the
   * time of day. Anything else fails with the arm's own message.
   */
  lemma DateTimeElements(v: V.Value, isIp: string -> bool)
    ensures ConvertElement(TimestamptzArray, v, isIp) == (if v.DateTime? && v.datetime.Some? then Success(InstantElement(v.datetime.value))
      else Failure(V.Conversion("Non-datetime parameter when storing a TIMESTAMPTZ[]")))
    ensures ConvertElement(TimestampArray, v, isIp) == (if v.DateTime? && v.datetime.Some? then Success(InstantElement(v.datetime.value))
      else Failure(V.Conversion("Non-datetime parameter when storing a TIMESTAMP[]")))
    ensures ConvertElement(TimetzArray, v, isIp) == (if v.DateTime? && v.datetime.Some? then Success(TimeElement(V.TimeOf(v.datetime.value)))
      else Failure(V.Conversion("Non-time parameter when storing a TIMETZ[]")))
  {
  }

  /**
   * A DATE[] element must be a non-NULL date and a TIME[] element a non-NULL time; anything else
   * fails with the arm's own message.
   */
  lemma DateAndTimeElements(v: V.Value, isIp: string -> bool)
    ensures ConvertElement(DateArray, v, isIp) == (if v.Date? && v.date.Some? then Success(DateElement(v.date.value))
      else Failure(V.Conversion("Non-date parameter when storing a DATE[]")))
    ensures ConvertElement(TimeArray, v, isIp) == (if v.Time? && v.time.Some? then Success(TimeElement(v.time.value))
      else Failure(V.Conversion("Non-time parameter when storing a TIME[]")))
  {
  }

  /**
   * JSON[] and UUID[] elements must be the non-NULL value of their variant, bound as text; anything
   * else fails with the arm's own message.
   */
  lemma JsonAndUuidElements(v: V.Value, isIp: string -> bool)
    ensures ConvertElement(JsonArray, v, isIp) == (if v.Json? && v.json.Some? then Success(StrElement(v.json.value))
      else Failure(V.Conversion("Non-json parameter when storing a JSON[]")))
    ensures ConvertElement(UuidArray, v, isIp) == (if v.Uuid? && v.uuid.Some? then Success(StrElement(v.uuid.value))
      else Failure(V.Conversion("Non-uuid parameter when storing a UUID[]")))
  {
  }

  /**
   * A TEXT[], VARCHAR[] or NAME[] element must be non-NULL text, bound unchanged; anything else
   * fails with the string-array message.
   */
  lemma TextElements(v: V.Value, isIp: string -> bool)
    ensures ConvertElement(TextArray, v, isIp) == (if v.Text? && v.text.Some? then Success(StrElement(v.text.value))
      else Failure(V.Conversion("Non-string parameter when storing a string array")))
  {
  }

  /**
   * BIT[] and IP-array elements must be non-NULL text that parses as bits or as an IP network; other
   * values fail with the arm's own message, and unparsable text with the bits error or the IP message.
   */
  lemma ParsedTextElements(v: V.Value, isIp: string -> bool)
    ensures ConvertElement(BitArray, v, isIp) == (if !(v.Text? && v.text.Some?) then Failure(V.Conversion("Non-string parameter when storing a BIT[]"))
      else if IsBitString(v.text.value) then Success(BitsElement(ParseBits(v.text.value).value))
      else Failure(V.Conversion(UnexpectedBitCharacter)))
    ensures ConvertElement(InetArray, v, isIp) == (if !(v.Text? && v.text.Some?) then Failure(V.Conversion("Non-string parameter when storing an IP array"))
      else if isIp(v.text.value) then Success(StrElement(v.text.value))
      else Failure(V.Conversion(IpMessage(v.text.value))))
  {
  }

  /** The first `n` elements converted in order, stopping at the first failure. */
  function ConvertElements(k: ArrayKind, vs: seq<V.Value>, n: nat, isIp: string -> bool): Result<seq<Element>, V.Error>
    requires n <= |vs|
  {
    if n == 0 then Success([])
    else
      match ConvertElements(k, vs, n - 1, isIp)
      case Failure(e) => Failure(e)
      case Success(es) =>
        match ConvertElement(k, vs[n - 1], isIp)
        case Failure(e) => Failure(e)
        case Success(e) => Success(es + [e])
  }

  /**
   * An array converts exactly when every element does; the result has one
   * element per value, each converted on its own, in order.
   */
  lemma {:induction false} ConvertElementsShape(k: ArrayKind, vs: seq<V.Value>, n: nat, isIp: string -> bool)
    requires n <= |vs|
    ensures ConvertElements(k, vs, n, isIp).Success? <==>
      forall i | 0 <= i < n :: ConvertElement(k, vs[i], isIp).Success?
    ensures ConvertElements(k, vs, n, isIp).Success? ==>
      && |ConvertElements(k, vs, n, isIp).value| == n
      && forall i | 0 <= i < n :: ConvertElement(k, vs[i], isIp) == Success(ConvertElements(k, vs, n, isIp).value[i])
  {
    if n > 0 {
      ConvertElementsShape(k, vs, n - 1, isIp);
    }
  }

  /** A failing array reports the error of its first failing element. */
  lemma {:induction false} ConvertElementsFirstError(k: ArrayKind, vs: seq<V.Value>, n: nat, isIp: string -> bool)
    requires n <= |vs|
    ensures ConvertElements(k, vs, n, isIp).Failure? ==>
      exists i | 0 <= i < n ::
        && ConvertElement(k, vs[i], isIp).Failure?
        && (forall j | 0 <= j < i :: ConvertElement(k, vs[j], isIp).Success?)
        && ConvertElements(k, vs, n, isIp).error == ConvertElement(k, vs[i], isIp).error
  {
    if n > 0 && ConvertElements(k, vs, n, isIp).Failure? {
      if ConvertElements(k, vs, n - 1, isIp).Failure? {
        ConvertElementsFirstError(k, vs, n - 1, isIp);
      } else {
        ConvertElementsShape(k, vs, n - 1, isIp);
        var i := n - 1;
        assert ConvertElement(k, vs[i], isIp).Failure?;
        assert ConvertElements(k, vs, n, isIp).error == ConvertElement(k, vs[i], isIp).error;
      }
    }
  }

  lemma {:induction false} ConvertElementsFailureSticks(k: ArrayKind, vs: seq<V.Value>, m: nat, n: nat, isIp: string -> bool)
    requires m <= n <= |vs|
    requires ConvertElements(k, vs, m, isIp).Failure?
    ensures ConvertElements(k, vs, n, isIp) == ConvertElements(k, vs, m, isIp)
    decreases n
  {
    if n > m {
      ConvertElementsFailureSticks(k, vs, m, n - 1, isIp);
    }
  }

  /** The element loop of an array arm: push each converted element, return at the first error. */
  method ConvertArray(k: ArrayKind, vs: seq<V.Value>, isIp: string -> bool) returns (r: Result<seq<Element>, V.Error>)
    ensures r == ConvertElements(k, vs, |vs|, isIp)
  {
    var elements: seq<Element> := [];
    for i := 0 to |vs|
      invariant ConvertElements(k, vs, i, isIp) == Success(elements)
    {
      var element := ConvertOne(k, vs[i], isIp);
      if element.Failure? {
        ConvertElementsFailureSticks(k, vs, i + 1, |vs|, isIp);
        return Failure(element.error);
      }
      elements := elements + [element.value];
    }
    return Success(elements);
  }

  /** One element of an array arm; a BIT[] element runs the `string_to_bits` loop. */
  method ConvertOne(k: ArrayKind, v: V.Value, isIp: string -> bool) returns (r: Result<Element, V.Error>)
    ensures r == ConvertElement(k, v, isIp)
  {
    if k == BitArray && V.IntoString(v).Some? {
      var bits := StringToBits(V.IntoString(v).value);
      r := if bits.Success? then Success(BitsElement(bits.value)) else Failure(bits.error);
    } else {
      r := ConvertElement(k, v, isIp);
    }
  }

  // ---------------------------------------------------------------------------
  // bind_value
  // ---------------------------------------------------------------------------

  const UntypedArrays: string := "Untyped Postgres arrays are not supported"

  function UnsupportedArrayMessage(typeName: string): string {
    "Postgres type " + typeName + " not supported yet"
  }

  function MapOption<T, U>(x: Option<T>, f: T -> U): Option<U> {
    match x
    case Some(y) => Some(f(y))
    case None => None
  }

  /** The typed NULL bound for a NULL text in a BIT / VARBIT placeholder. */
  function BitTextNull(): PgArg {
    Scalar(BitVec, None)
  }

  /** The typed NULL bound for a NULL array. */
  function ArrayNull(k: ArrayKind): PgArg {
    ArrayArg(ElementType(k), None)
  }

  /**
   * The argument `bind_value` binds for `v` when PostgreSQL reports the
   * placeholder's type name as `typeName`, or the conversion error. This is
   * the corrected binding: a NULL BIT / VARBIT text binds `BitTextNull()` and
   * a NULL BIT[] or string array binds `ArrayNull(k)`, where the source binds
   * the NULLs of other types (`BindAsWritten` below). Only text and arrays
   * can fail, and NULL goes in exactly when NULL comes out.
   */
  function Bind(v: V.Value, typeName: Option<string>, isIp: string -> bool): (r: Result<PgArg, V.Error>)
    ensures r.Failure? ==> v.Text? || v.Array?
    ensures r.Success? ==> (r.value.IsNull() <==> v.IsNull())
  {
    match v
    case Integer(i) =>
      if typeName == Some("INT2") then Success(Scalar(I16, MapOption(i, (x: I64) => IntElement(V.AsI16(x)))))
      else if typeName == Some("INT4") then Success(Scalar(I32, MapOption(i, (x: I64) => IntElement(V.AsI32(x)))))
      else if typeName == Some("OID") then Success(Scalar(U32, MapOption(i, (x: I64) => IntElement(V.AsU32(x)))))
      else if typeName == Some("TEXT") then Success(Scalar(Str, MapOption(i, (x: I64) => StrElement(V.IntToDecimal(x)))))
      else Success(Scalar(I32, MapOption(i, (x: I64) => IntElement(V.AsI32(x)))))
    case Real(d) =>
      if typeName == Some("FLOAT4") then Success(Scalar(F32, MapOption(d, (x: real) => RealElement(x))))
      else if typeName == Some("FLOAT8") then Success(Scalar(F64, MapOption(d, (x: real) => RealElement(x))))
      else if typeName == Some("MONEY") then Success(Scalar(PgMoney, MapOption(d, (x: real) => RealElement(x))))
      else Success(Scalar(Decimal, MapOption(d, (x: real) => RealElement(x))))
    case Text(c) =>
      if typeName == Some("INET") || typeName == Some("CIDR") then
        (match c
         case Some(s) => if isIp(s) then Success(Scalar(IpNetwork, Some(StrElement(s)))) else Failure(V.Conversion(IpMessage(s)))
         case None => Success(Scalar(IpNetwork, None)))
      else if typeName == Some("BIT") || typeName == Some("VARBIT") then
        (match c
         case Some(s) =>
           (match ParseBits(s)
            case Failure(e) => Failure(e)
            case Success(bits) => Success(Scalar(BitVec, Some(BitsElement(bits)))))
         case None => Success(BitTextNull()))
      else Success(Scalar(Str, MapOption(c, (s: string) => StrElement(s))))
    case Enum(c) => Success(Scalar(Str, MapOption(c, (s: string) => StrElement(s))))
    case Bytes(b) => Success(Scalar(ByteVec, MapOption(b, (x: seq<V.Byte>) => BytesElement(x))))
    case Boolean(b) => Success(Scalar(Bool, MapOption(b, (x: bool) => BoolElement(x))))
    case Char(c) => Success(Scalar(I8, MapOption(c, (x: char) => IntElement(V.CharAsI8(x)))))
    case Array(a) =>
      (match if typeName.Some? then ArrayKindOf(typeName.value) else None
       case Some(k) =>
         (match a
          case None => Success(ArrayNull(k))
          case Some(vs) =>
            match ConvertElements(k, vs, |vs|, isIp)
            case Failure(e) => Failure(e)
            case Success(es) => Success(ArrayArg(ElementType(k), Some(es))))
       case None =>
         match typeName
         case Some(t) => Failure(V.Conversion(UnsupportedArrayMessage(t)))
         case None => Failure(V.Conversion(UntypedArrays)))
    case Json(j) => Success(Scalar(JsonValue, MapOption(j, (x: string) => StrElement(x))))
    case Uuid(u) => Success(Scalar(Uuid, MapOption(u, (x: string) => StrElement(x))))
    case DateTime(dt) =>
      if typeName == Some("TIMETZ") then Success(Scalar(PgTimeTz, MapOption(dt, (x: V.DateTime) => TimeElement(V.TimeOf(x)))))
      else if typeName == Some("TIME") then Success(Scalar(NaiveTime, MapOption(dt, (x: V.DateTime) => TimeElement(V.TimeOf(x)))))
      else if typeName == Some("DATE") then Success(Scalar(NaiveDate, MapOption(dt, (x: V.DateTime) => DateElement(V.DateOf(x)))))
      else Success(Scalar(DateTimeUtc, MapOption(dt, (x: V.DateTime) => InstantElement(x))))
    case Date(d) => Success(Scalar(NaiveDate, MapOption(d, (x: V.Date) => DateElement(x))))
    case Time(t) => Success(Scalar(NaiveTime, MapOption(t, (x: V.Time) => TimeElement(x))))
  }

  /**
   * `bind_value`: pushes the argument `Bind` describes onto the query's
   * arguments, or fails with its error. Array and bit-string arms run their
   * conversion loops.
   */
  method BindValue(args: seq<PgArg>, v: V.Value, typeName: Option<string>, isIp: string -> bool)
    returns (r: Result<seq<PgArg>, V.Error>)
    ensures Bind(v, typeName, isIp).Success? ==> r == Success(args + [Bind(v, typeName, isIp).value])
    ensures Bind(v, typeName, isIp).Failure? ==> r == Failure(Bind(v, typeName, isIp).error)
  {
    var kind := if typeName.Some? then ArrayKindOf(typeName.value) else None;
    if v.Array? && kind.Some? && v.values.Some? {
      var elements := ConvertArray(kind.value, v.values.value, isIp);
      if elements.Failure? {
        return Failure(elements.error);
      }
      return Success(args + [ArrayArg(ElementType(kind.value), Some(elements.value))]);
    } else if v.Text? && v.text.Some? && (typeName == Some("BIT") || typeName == Some("VARBIT")) {
      var bits := StringToBits(v.text.value);
      if bits.Failure? {
        return Failure(bits.error);
      }
      return Success(args + [Scalar(BitVec, Some(BitsElement(bits.value)))]);
    }
    var arg :- Bind(v, typeName, isIp);
    return Success(args + [arg]);
  }

  /** Every argument bound carries payloads of its own Rust type: integers are narrowed into its width. */
  lemma BindWellTyped(v: V.Value, typeName: Option<string>, isIp: string -> bool)
    requires Bind(v, typeName, isIp).Success?
    ensures WellTyped(Bind(v, typeName, isIp).value)
  {
    if v.Array? && v.values.Some? {
      var k := ArrayKindOf(typeName.value).value;
      ConvertElementsShape(k, v.values.value, |v.values.value|, isIp);
      var es := ConvertElements(k, v.values.value, |v.values.value|, isIp).value;
      assert forall i | 0 <= i < |es| :: ConvertElement(k, v.values.value[i], isIp) == Success(es[i]);
    }
  }

  /** The inputs `bind_value` rejects. */
  predicate Rejected(v: V.Value, typeName: Option<string>, isIp: string -> bool) {
    match v
    case Text(Some(s)) =>
      || ((typeName == Some("INET") || typeName == Some("CIDR")) && !isIp(s))
      || ((typeName == Some("BIT") || typeName == Some("VARBIT")) && !IsBitString(s))
    case Array(a) =>
      || typeName.None?
      || ArrayKindOf(typeName.value).None?
      || (a.Some? && exists i | 0 <= i < |a.value| :: ConvertElement(ArrayKindOf(typeName.value).value, a.value[i], isIp).Failure?)
    case _ => false
  }

  /**
   * Binding fails exactly on a malformed IP address or bit string, an array
   * with no type or an unlisted one, and an array holding an element its
   * arm cannot convert.
   */
  lemma BindFailsIffRejected(v: V.Value, typeName: Option<string>, isIp: string -> bool)
    ensures Bind(v, typeName, isIp).Failure? <==> Rejected(v, typeName, isIp)
  {
    if v.Array? && v.values.Some? && typeName.Some? && ArrayKindOf(typeName.value).Some? {
      ConvertElementsShape(ArrayKindOf(typeName.value).value, v.values.value, |v.values.value|, isIp);
    }
  }

  /** An array that fails names its first element that does not convert. */
  lemma BindArrayFirstError(vs: seq<V.Value>, typeName: string, isIp: string -> bool)
    requires ArrayKindOf(typeName).Some?
    requires Bind(V.Array(Some(vs)), Some(typeName), isIp).Failure?
    ensures exists i | 0 <= i < |vs| ::
      && ConvertElement(ArrayKindOf(typeName).value, vs[i], isIp).Failure?
      && Bind(V.Array(Some(vs)), Some(typeName), isIp).error == ConvertElement(ArrayKindOf(typeName).value, vs[i], isIp).error
  {
    ConvertElementsFirstError(ArrayKindOf(typeName).value, vs, |vs|, isIp);
  }

  /** An array whose type name is missing or has no array arm is refused with the catch-all messages. */
  lemma BindUnsupportedArray(a: Option<seq<V.Value>>, typeName: Option<string>, isIp: string -> bool)
    ensures typeName.None? ==> Bind(V.Array(a), typeName, isIp) == Failure(V.Conversion(UntypedArrays))
    ensures typeName.Some? && ArrayKindOf(typeName.value).None? ==>
      Bind(V.Array(a), typeName, isIp) == Failure(V.Conversion(UnsupportedArrayMessage(typeName.value)))
  {
  }

  /**
   * An array with a listed type name: a NULL array binds that arm's array
   * NULL, and a non-NULL array binds exactly when every element converts,
   * as one converted element per value, in order.
   */
  lemma BindTypedArray(vs: seq<V.Value>, typeName: string, isIp: string -> bool)
    requires ArrayKindOf(typeName).Some?
    ensures Bind(V.Array(None), Some(typeName), isIp) == Success(ArrayNull(ArrayKindOf(typeName).value))
    ensures Bind(V.Array(Some(vs)), Some(typeName), isIp).Success? <==>
      forall i | 0 <= i < |vs| :: ConvertElement(ArrayKindOf(typeName).value, vs[i], isIp).Success?
    ensures Bind(V.Array(Some(vs)), Some(typeName), isIp).Success? ==>
      var arg := Bind(V.Array(Some(vs)), Some(typeName), isIp).value;
      && arg.ArrayArg? && arg.elementType == ElementType(ArrayKindOf(typeName).value)
      && arg.elements.Some? && |arg.elements.value| == |vs|
      && forall i | 0 <= i < |vs| ::
           ConvertElement(ArrayKindOf(typeName).value, vs[i], isIp) == Success(arg.elements.value[i])
  {
    ConvertElementsShape(ArrayKindOf(typeName).value, vs, |vs|, isIp);
  }

  /** A non-NULL integer is bound as the `as` cast of the placeholder's type: unchanged in range, else wrapped. */
  lemma IntegerBinding(i: I64, typeName: Option<string>, isIp: string -> bool)
    ensures typeName == Some("INT2") ==>
      exists j :: Bind(V.Integer(Some(i)), typeName, isIp) == Success(Scalar(I16, Some(IntElement(j))))
        && (i - j) % 0x1_0000 == 0 && (-0x8000 <= i < 0x8000 ==> j == i)
    ensures typeName == Some("OID") ==>
      exists j :: Bind(V.Integer(Some(i)), typeName, isIp) == Success(Scalar(U32, Some(IntElement(j))))
        && (i - j) % 0x1_0000_0000 == 0 && (0 <= i < 0x1_0000_0000 ==> j == i)
    ensures typeName == Some("TEXT") ==>
      Bind(V.Integer(Some(i)), typeName, isIp) == Success(Scalar(Str, Some(StrElement(V.IntToDecimal(i)))))
    ensures typeName != Some("INT2") && typeName != Some("OID") && typeName != Some("TEXT") ==>
      exists j :: Bind(V.Integer(Some(i)), typeName, isIp) == Success(Scalar(I32, Some(IntElement(j))))
        && (i - j) % 0x1_0000_0000 == 0 && (-0x8000_0000 <= i < 0x8000_0000 ==> j == i)
  {
    if typeName == Some("INT2") {
      assert Bind(V.Integer(Some(i)), typeName, isIp) == Success(Scalar(I16, Some(IntElement(V.AsI16(i)))));
    } else if typeName == Some("OID") {
      assert Bind(V.Integer(Some(i)), typeName, isIp) == Success(Scalar(U32, Some(IntElement(V.AsU32(i)))));
    } else if typeName != Some("TEXT") {
      assert Bind(V.Integer(Some(i)), typeName, isIp) == Success(Scalar(I32, Some(IntElement(V.AsI32(i)))));
    }
  }

  /** Two values of the same variant, whether or not NULL. */
  predicate SameVariant(v: V.Value, w: V.Value) {
    match (v, w)
    case (Integer(_), Integer(_)) => true
    case (Real(_), Real(_)) => true
    case (Text(_), Text(_)) => true
    case (Enum(_), Enum(_)) => true
    case (Bytes(_), Bytes(_)) => true
    case (Boolean(_), Boolean(_)) => true
    case (Char(_), Char(_)) => true
    case (Array(_), Array(_)) => true
    case (Json(_), Json(_)) => true
    case (Uuid(_), Uuid(_)) => true
    case (DateTime(_), DateTime(_)) => true
    case (Date(_), Date(_)) => true
    case (Time(_), Time(_)) => true
    case _ => false
  }

  /**
   * A NULL is bound as a NULL of the very type a non-NULL value of the same
   * variant would be bound as, so the driver sends the same PostgreSQL type.
   */
  lemma NullBindsSameType(n: V.Value, w: V.Value, typeName: Option<string>, isIp: string -> bool)
    requires n.IsNull() && SameVariant(n, w)
    requires Bind(w, typeName, isIp).Success?
    ensures Bind(n, typeName, isIp).Success?
    ensures Bind(n, typeName, isIp).value.IsNull()
    ensures Bind(n, typeName, isIp).value.Shape() == Bind(w, typeName, isIp).value.Shape()
  {
  }

  // ---------------------------------------------------------------------------
  // Typed NULLs as the source binds them
  // ---------------------------------------------------------------------------

  /** The NULL the BIT / VARBIT text arm binds as written: an `Option<IpNetwork>`. */
  function BitTextNullAsWritten(): PgArg {
    Scalar(IpNetwork, None)
  }

  /** The NULL each array arm binds as written: BIT[] binds `Vec<i16>`, the string arrays `Vec<Uuid>`. */
  function ArrayNullAsWritten(k: ArrayKind): PgArg {
    match k
    case BitArray => ArrayArg(I16, None)
    case TextArray => ArrayArg(Uuid, None)
    case _ => ArrayArg(ElementType(k), None)
  }

  /**
   * `bind_value` as written: `Bind`, except that a NULL BIT / VARBIT text
   * and a NULL array bind the typed NULLs the source names.
   */
  function BindAsWritten(v: V.Value, typeName: Option<string>, isIp: string -> bool): Result<PgArg, V.Error> {
    match v
    case Text(None) =>
      if typeName == Some("BIT") || typeName == Some("VARBIT") then Success(BitTextNullAsWritten())
      else Bind(v, typeName, isIp)
    case Array(None) =>
      if typeName.Some? && ArrayKindOf(typeName.value).Some? then Success(ArrayNullAsWritten(ArrayKindOf(typeName.value).value))
      else Bind(v, typeName, isIp)
    case _ => Bind(v, typeName, isIp)
  }

  /**
   * The source and the corrected binding agree on every input except a
   * NULL BIT / VARBIT text and a NULL BIT[] or string array, where both bind
   * a NULL but of different types.
   */
  lemma AsWrittenDiffersOnlyInNullTypes(v: V.Value, typeName: Option<string>, isIp: string -> bool)
    ensures BindAsWritten(v, typeName, isIp) != Bind(v, typeName, isIp) <==>
      || (v == V.Text(None) && (typeName == Some("BIT") || typeName == Some("VARBIT")))
      || (v == V.Array(None) && typeName.Some? && ArrayKindOf(typeName.value) in {Some(BitArray), Some(TextArray)})
    ensures BindAsWritten(v, typeName, isIp) != Bind(v, typeName, isIp) ==>
      && BindAsWritten(v, typeName, isIp).Success? && Bind(v, typeName, isIp).Success?
      && BindAsWritten(v, typeName, isIp).value.IsNull() && Bind(v, typeName, isIp).value.IsNull()
      && BindAsWritten(v, typeName, isIp).value.Shape() != Bind(v, typeName, isIp).value.Shape()
  {
  }

  /**
   * As written, a NULL bit string and a NULL BIT[] or TEXT[] array are
   * sent as a different type than their non-NULL counterparts.
   */
  lemma TypedNullsAsWritten(isIp: string -> bool)
    ensures BindAsWritten(V.Text(None), Some("BIT"), isIp).value.Shape() != Bind(V.Text(Some("1")), Some("BIT"), isIp).value.Shape()
    ensures BindAsWritten(V.Array(None), Some("BIT[]"), isIp).value.Shape() != Bind(V.Array(Some([])), Some("BIT[]"), isIp).value.Shape()
    ensures BindAsWritten(V.Array(None), Some("TEXT[]"), isIp).value.Shape() != Bind(V.Array(Some([])), Some("TEXT[]"), isIp).value.Shape()
  {
    var one: string := ['1'];
    assert IsBitString(one);
    assert ParseBits(one).value == [true];
  }
}

/**
 * The connector-level `Value` the SQLite and PostgreSQL conversions take
 * apart and build, with the Rust integer widths and casts they rely on and
 * decimal text for integers.
 */
module Values {
  import opened Wrappers
  import Ast

  type I64 = Ast.I64

  /** A byte of a BLOB / BYTEA. */
  type Byte = b: int | 0 <= b < 256

  // ---------------------------------------------------------------------------
  // Rust `as` casts between integer types: keep the low bits, two's complement
  // ---------------------------------------------------------------------------

  /** `x as i8`: the value congruent to `x` modulo 2^8 in [-2^7, 2^7). */
  function AsI8(x: int): (r: int)
    ensures -0x80 <= r < 0x80 && (x - r) % 0x100 == 0
    ensures -0x80 <= x < 0x80 ==> r == x
  {
    var low := x % 0x100;
    if low >= 0x80 then low - 0x100 else low
  }

  /** `x as i16`. */
  function AsI16(x: int): (r: int)
    ensures -0x8000 <= r < 0x8000 && (x - r) % 0x1_0000 == 0
    ensures -0x8000 <= x < 0x8000 ==> r == x
  {
    var low := x % 0x1_0000;
    if low >= 0x8000 then low - 0x1_0000 else low
  }

  /** `x as i32`. */
  function AsI32(x: int): (r: int)
    ensures -0x8000_0000 <= r < 0x8000_0000 && (x - r) % 0x1_0000_0000 == 0
    ensures -0x8000_0000 <= x < 0x8000_0000 ==> r == x
  {
    var low := x % 0x1_0000_0000;
    if low >= 0x8000_0000 then low - 0x1_0000_0000 else low
  }

  /** `x as u32`. */
  function AsU32(x: int): (r: int)
    ensures 0 <= r < 0x1_0000_0000 && (x - r) % 0x1_0000_0000 == 0
    ensures 0 <= x < 0x1_0000_0000 ==> r == x
  {
    x % 0x1_0000_0000
  }

  /** `c as i8` on a `char`: the low byte of the code point, signed. */
  function CharAsI8(c: char): int { AsI8(c as int) }

  // ---------------------------------------------------------------------------
  // Decimal text (`format!("{}", i)` and `str::parse`)
  // ---------------------------------------------------------------------------

  predicate IsDigit(c: char) { '0' <= c <= '9' }

  predicate AllDigits(s: string) { forall i | 0 <= i < |s| :: IsDigit(s[i]) }

  function DigitChar(d: nat): (c: char)
    requires d < 10
    ensures IsDigit(c)
  {
    (d + '0' as int) as char
  }

  function DigitValue(c: char): (d: nat)
    requires IsDigit(c)
    ensures d < 10
  {
    (c - '0') as nat
  }

  /** The decimal digits of `n`, most significant first, without leading zeros. */
  function NatToDecimal(n: nat): (s: string)
    ensures |s| >= 1 && AllDigits(s)
    ensures |s| > 1 ==> s[0] != '0'
  {
    if n < 10 then [DigitChar(n)] else NatToDecimal(n / 10) + [DigitChar(n % 10)]
  }

  /** `format!("{}", i)`: a minus sign for negatives, then the digits. */
  function IntToDecimal(i: int): string {
    if i < 0 then "-" + NatToDecimal(-i) else NatToDecimal(i)
  }

  /** The number a digit string spells. */
  function DigitsValue(s: string): nat
    requires AllDigits(s)
  {
    if |s| == 0 then 0 else DigitsValue(s[..|s| - 1]) * 10 + DigitValue(s[|s| - 1])
  }

  lemma {:induction false} DigitsValueOfDecimal(n: nat)
    ensures DigitsValue(NatToDecimal(n)) == n
  {
    var s := NatToDecimal(n);
    if n >= 10 {
      DigitsValueOfDecimal(n / 10);
      assert s[..|s| - 1] == NatToDecimal(n / 10);
    }
  }

  /** Rust's `u64::MAX`; `usize` is taken to be 64 bits wide. */
  const U64Max: nat := 0xFFFF_FFFF_FFFF_FFFF

  /**
   * `str::parse::<u64>()`: an optional `+`, then at least one digit and
   * nothing else; a value above `u64::MAX` is an overflow error.
   */
  function ParseU64(s: string): (r: Option<nat>)
    ensures r.Some? ==> r.value <= U64Max
  {
    var digits := if |s| > 0 && s[0] == '+' then s[1..] else s;
    if |digits| == 0 || !AllDigits(digits) then None
    else if DigitsValue(digits) > U64Max then None
    else Some(DigitsValue(digits))
  }

  /** Decimal text and `ParseU64` are inverse on the `u64` range. */
  lemma ParseU64OfDecimal(n: nat)
    requires n <= U64Max
    ensures ParseU64(NatToDecimal(n)) == Some(n)
  {
    DigitsValueOfDecimal(n);
    var s := NatToDecimal(n);
    assert s[0] != '+' by {
      assert IsDigit(s[0]);
    }
  }

  /** `str::parse::<bool>()`: exactly `true` or `false`. */
  function ParseBool(s: string): (r: Option<bool>)
    ensures r.Some? <==> s == "true" || s == "false"
    ensures r.Some? ==> (r.value <==> s == "true")
  {
    if s == "true" then Some(true) else if s == "false" then Some(false) else None
  }

  // ---------------------------------------------------------------------------
  // Dates and times (chrono), reduced to the fields the conversions read
  // ---------------------------------------------------------------------------

  /**
   * Days on either side of 1970-01-01 that a date may lie; this comfortably
   * covers chrono's range of about 262,000 years each way and keeps every
   * millisecond timestamp within `i64`.
   */
  const MaxDays: nat := 100_000_000

  const SecondsPerDay: nat := 86_400

  /** `NaiveDate`, as the day number counted from 1970-01-01. */
  type Date = d: int | -(MaxDays as int) <= d <= MaxDays as int

  /** `NaiveTime`: `nanos` reaches past one second only for a leap second, as in chrono. */
  datatype TimeOfDay = TimeOfDay(hour: nat, minute: nat, second: nat, nanos: nat) {
    predicate Valid() {
      hour < 24 && minute < 60 && second < 60 && nanos < 2_000_000_000
    }
  }

  type Time = t: TimeOfDay | t.Valid() witness TimeOfDay(0, 0, 0, 0)

  /** `DateTime<Utc>`: whole seconds since the epoch (floored) and the nanoseconds past them. */
  datatype Instant = Instant(seconds: int, nanos: nat) {
    predicate Valid() {
      -(MaxDays as int) * SecondsPerDay <= seconds < (MaxDays as int) * SecondsPerDay && nanos < 2_000_000_000
    }
  }

  type DateTime = t: Instant | t.Valid() witness Instant(0, 0)

  /** `DateTime::date()`: the day the instant falls on. */
  function DateOf(dt: DateTime): Date {
    dt.seconds / SecondsPerDay
  }

  /** `DateTime::time()`: the time of day the instant falls on. */
  function TimeOf(dt: DateTime): (t: Time)
    ensures (t.hour * 60 + t.minute) * 60 + t.second == dt.seconds % SecondsPerDay
    ensures t.nanos == dt.nanos
  {
    var s := dt.seconds % SecondsPerDay;
    TimeOfDay(s / 3600, (s % 3600) / 60, s % 60, dt.nanos)
  }

  /**
   * `DateTime::timestamp_millis()`: the seconds in milliseconds plus the whole
   * milliseconds of the sub-second part (more than 999 only in a leap second).
   */
  function DateTimeMillis(dt: DateTime): (m: I64)
    ensures dt.seconds * 1000 <= m < dt.seconds * 1000 + 2000
    ensures dt.nanos < 1_000_000_000 ==> m / 1000 == dt.seconds
  {
    dt.seconds * 1000 + dt.nanos / 1_000_000
  }

  // ---------------------------------------------------------------------------
  // The value
  // ---------------------------------------------------------------------------

  /**
   * A value going to or coming from a connector. Every variant can be NULL
   * (`None`). JSON documents are carried as their serialised text and UUIDs
   * as their hyphenated text; decimals and floats are mathematical reals.
   */
  datatype Value =
    | Integer(integer: Option<I64>)
    | Real(decimal: Option<real>)
    | Text(text: Option<string>)
    | Enum(variant: Option<string>)
    | Bytes(bytes: Option<seq<Byte>>)
    | Boolean(boolean: Option<bool>)
    | Char(character: Option<char>)
    | Array(values: Option<seq<Value>>)
    | Json(json: Option<string>)
    | Uuid(uuid: Option<string>)
    | DateTime(datetime: Option<DateTime>)
    | Date(date: Option<Date>)
    | Time(time: Option<Time>)
  {
    /** The value is a NULL of its variant. */
    predicate IsNull() {
      match this
      case Integer(x) => x.None?
      case Real(x) => x.None?
      case Text(x) => x.None?
      case Enum(x) => x.None?
      case Bytes(x) => x.None?
      case Boolean(x) => x.None?
      case Char(x) => x.None?
      case Array(x) => x.None?
      case Json(x) => x.None?
      case Uuid(x) => x.None?
      case DateTime(x) => x.None?
      case Date(x) => x.None?
      case Time(x) => x.None?
    }
  }

  /*
   * The accessors the array arms use (`as_i64`, `into_string`, ...): the
   * payload of the one matching, non-NULL variant, `None` for anything else.
   */

  function AsI64(v: Value): Option<I64> {
    if v.Integer? then v.integer else None
  }

  function AsF64(v: Value): Option<real> {
    if v.Real? then v.decimal else None
  }

  function AsBool(v: Value): Option<bool> {
    if v.Boolean? then v.boolean else None
  }

  function IntoString(v: Value): Option<string> {
    if v.Text? then v.text else None
  }

  function AsChar(v: Value): Option<char> {
    if v.Char? then v.character else None
  }

  function AsDateTime(v: Value): Option<DateTime> {
    if v.DateTime? then v.datetime else None
  }

  function AsDate(v: Value): Option<Date> {
    if v.Date? then v.date else None
  }

  function AsTime(v: Value): Option<Time> {
    if v.Time? then v.time else None
  }

  function IntoJson(v: Value): Option<string> {
    if v.Json? then v.json else None
  }

  function AsUuid(v: Value): Option<string> {
    if v.Uuid? then v.uuid else None
  }

  /** The error the conversions raise: `ErrorKind::ConversionError` with its message. */
  datatype Error = Conversion(message: string)
}

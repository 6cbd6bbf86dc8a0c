/**
 * Reading a PostgreSQL result row (`map_row`): each column's type is checked
 * against a fixed, ordered list of Rust types, and the column is decoded as
 * the first compatible one and turned into a connector `Value`.
 */
module PostgresRow {
  import opened Wrappers
  import V = Values
  import PC = PostgresConversion

  type I64 = V.I64

  /** What a column can be decoded as: one Rust type, or a `Vec` of it. */
  datatype Decodable = Single(ty: PC.RustType) | ArrayOf(elementType: PC.RustType)

  /**
   * One arm of `map_row`: the type it decodes, and whether it also demands
   * the column's type name to be one of PostgreSQL's plain string types.
   */
  datatype Arm = Arm(target: Decodable, textNamesOnly: bool)

  const TextNames: set<string> := {"TEXT", "VARCHAR", "NAME"}
  const TextArrayNames: set<string> := {"TEXT[]", "VARCHAR[]", "NAME[]"}

  /** The arms in the order `map_row` tries them: singular types first, arrays after. */
  const Arms: seq<Arm> := [
    Arm(Single(PC.I8), false),
    Arm(Single(PC.I16), false),
    Arm(Single(PC.I32), false),
    Arm(Single(PC.I64), false),
    Arm(Single(PC.U32), false),
    Arm(Single(PC.PgMoney), false),
    Arm(Single(PC.Decimal), false),
    Arm(Single(PC.F32), false),
    Arm(Single(PC.F64), false),
    Arm(Single(PC.Str), true),
    Arm(Single(PC.Str), false),
    Arm(Single(PC.ByteVec), false),
    Arm(Single(PC.Bool), false),
    Arm(Single(PC.IpNetwork), false),
    Arm(Single(PC.Uuid), false),
    Arm(Single(PC.DateTimeUtc), false),
    Arm(Single(PC.NaiveDate), false),
    Arm(Single(PC.NaiveTime), false),
    Arm(Single(PC.NaiveDateTime), false),
    Arm(Single(PC.PgTimeTz), false),
    Arm(Single(PC.JsonValue), false),
    Arm(Single(PC.BitVec), false),
    Arm(ArrayOf(PC.I8), false),
    Arm(ArrayOf(PC.I16), false),
    Arm(ArrayOf(PC.I32), false),
    Arm(ArrayOf(PC.I64), false),
    Arm(ArrayOf(PC.U32), false),
    Arm(ArrayOf(PC.PgMoney), false),
    Arm(ArrayOf(PC.Decimal), false),
    Arm(ArrayOf(PC.F32), false),
    Arm(ArrayOf(PC.F64), false),
    Arm(ArrayOf(PC.Str), true),
    Arm(ArrayOf(PC.Str), false),
    Arm(ArrayOf(PC.Bool), false),
    Arm(ArrayOf(PC.IpNetwork), false),
    Arm(ArrayOf(PC.DateTimeUtc), false),
    Arm(ArrayOf(PC.NaiveDate), false),
    Arm(ArrayOf(PC.NaiveDateTime), false),
    Arm(ArrayOf(PC.NaiveTime), false),
    Arm(ArrayOf(PC.PgTimeTz), false),
    Arm(ArrayOf(PC.JsonValue), false),
    Arm(ArrayOf(PC.BitVec), false),
    Arm(ArrayOf(PC.Uuid), false)
  ]

  /**
   * A result row: each column's type name, the driver's compatibility test
   * between a Rust type and a PostgreSQL type name, and the driver's
   * decoding of column `i` as a Rust type, grouped by the Dafny type the
   * connector keeps. Decoding is not modelled beyond its result types: the
   * integer reads are already widened to `i64`, the real reads to a
   * decimal (money with two decimals), IP networks, JSON documents and
   * UUIDs are read as their text, and the date-time reads are already
   * moved to UTC.
   */
  datatype PgRow = PgRow(
    typeNames: seq<string>,
    compatible: (Decodable, string) -> bool,
    decodeInt: (nat, PC.RustType) -> Result<Option<I64>, string>,
    decodeReal: (nat, PC.RustType) -> Result<Option<real>, string>,
    decodeString: (nat, PC.RustType) -> Result<Option<string>, string>,
    decodeBytes: nat -> Result<Option<seq<V.Byte>>, string>,
    decodeBool: nat -> Result<Option<bool>, string>,
    decodeBits: nat -> Result<Option<seq<bool>>, string>,
    decodeDateTime: (nat, PC.RustType) -> Result<Option<V.DateTime>, string>,
    decodeDate: nat -> Result<Option<V.Date>, string>,
    decodeTime: nat -> Result<Option<V.Time>, string>,
    decodeInts: (nat, PC.RustType) -> Result<Option<seq<I64>>, string>,
    decodeReals: (nat, PC.RustType) -> Result<Option<seq<real>>, string>,
    decodeStrings: (nat, PC.RustType) -> Result<Option<seq<string>>, string>,
    decodeBools: nat -> Result<Option<seq<bool>>, string>,
    decodeBitVecs: nat -> Result<Option<seq<seq<bool>>>, string>,
    decodeDateTimes: (nat, PC.RustType) -> Result<Option<seq<V.DateTime>>, string>,
    decodeDates: nat -> Result<Option<seq<V.Date>>, string>,
    decodeTimes: nat -> Result<Option<seq<V.Time>>, string>)

  /** No arm decodes an array of byte strings. */
  lemma ArmsDecodable(j: nat)
    requires j < |Arms|
    ensures Arms[j].target != ArrayOf(PC.ByteVec)
  {
    if j < 22 {
      assert Arms[j].target.Single?;
    } else {
      assert Arms[j].target.elementType != PC.ByteVec;
    }
  }

  /** Whether an arm's guard accepts a column of type `typeName`. */
  predicate Applies(row: PgRow, arm: Arm, typeName: string) {
    && row.compatible(arm.target, typeName)
    && (arm.textNamesOnly ==> typeName in (if arm.target.Single? then TextNames else TextArrayNames))
  }

  /** The index of the first arm, from `from` on, whose guard accepts `typeName`. */
  function FirstArm(row: PgRow, typeName: string, from: nat): (r: Option<nat>)
    requires from <= |Arms|
    ensures r.Some? ==>
      && from <= r.value < |Arms|
      && Applies(row, Arms[r.value], typeName)
      && forall j | from <= j < r.value :: !Applies(row, Arms[j], typeName)
    ensures r.None? ==> forall j | from <= j < |Arms| :: !Applies(row, Arms[j], typeName)
    decreases |Arms| - from
  {
    if from == |Arms| then None
    else if Applies(row, Arms[from], typeName) then Some(from)
    else FirstArm(row, typeName, from + 1)
  }

  /** `sqlx::Error::ColumnDecode`: the column index in decimal and its cause. */
  datatype RowError = ColumnDecode(index: string, source: Cause)

  /** The driver could not decode the column, or no arm accepts its type. */
  datatype Cause = DecodeFailed(detail: string) | Unsupported(error: V.Error)

  function UnsupportedMessage(typeName: string): string {
    "Type " + typeName + " is not yet supported in the PostgreSQL connector."
  }

  /** The variant a decoded string becomes. */
  datatype StringKind = TextKind | EnumKind | UuidKind | JsonKind

  function StringValue(kind: StringKind, x: Option<string>): V.Value {
    match kind
    case TextKind => V.Text(x)
    case EnumKind => V.Enum(x)
    case UuidKind => V.Uuid(x)
    case JsonKind => V.Json(x)
  }

  /*
   * Decoded arrays: NULL stays a NULL array; otherwise every element
   * becomes a non-NULL value, in order.
   */

  function IntegerArray(xs: Option<seq<I64>>): (v: V.Value)
    ensures v.Array? && v.values.Some? == xs.Some?
    ensures xs.Some? ==> |v.values.value| == |xs.value| && forall k | 0 <= k < |xs.value| :: v.values.value[k] == V.Integer(Some(xs.value[k]))
  {
    if xs.None? then V.Array(None) else V.Array(Some(seq(|xs.value|, k requires 0 <= k < |xs.value| => V.Integer(Some(xs.value[k])))))
  }

  function RealArray(xs: Option<seq<real>>): (v: V.Value)
    ensures v.Array? && v.values.Some? == xs.Some?
    ensures xs.Some? ==> |v.values.value| == |xs.value| && forall k | 0 <= k < |xs.value| :: v.values.value[k] == V.Real(Some(xs.value[k]))
  {
    if xs.None? then V.Array(None) else V.Array(Some(seq(|xs.value|, k requires 0 <= k < |xs.value| => V.Real(Some(xs.value[k])))))
  }

  function StringArray(kind: StringKind, xs: Option<seq<string>>): (v: V.Value)
    ensures v.Array? && v.values.Some? == xs.Some?
    ensures xs.Some? ==> |v.values.value| == |xs.value| && forall k | 0 <= k < |xs.value| :: v.values.value[k] == StringValue(kind, Some(xs.value[k]))
  {
    if xs.None? then V.Array(None) else V.Array(Some(seq(|xs.value|, k requires 0 <= k < |xs.value| => StringValue(kind, Some(xs.value[k])))))
  }

  function BooleanArray(xs: Option<seq<bool>>): (v: V.Value)
    ensures v.Array? && v.values.Some? == xs.Some?
    ensures xs.Some? ==> |v.values.value| == |xs.value| && forall k | 0 <= k < |xs.value| :: v.values.value[k] == V.Boolean(Some(xs.value[k]))
  {
    if xs.None? then V.Array(None) else V.Array(Some(seq(|xs.value|, k requires 0 <= k < |xs.value| => V.Boolean(Some(xs.value[k])))))
  }

  /** Bit vectors come back as their text. */
  function BitsArray(xs: Option<seq<seq<bool>>>): (v: V.Value)
    ensures v.Array? && v.values.Some? == xs.Some?
    ensures xs.Some? ==> |v.values.value| == |xs.value| && forall k | 0 <= k < |xs.value| :: v.values.value[k] == V.Text(Some(PC.BitString(xs.value[k])))
  {
    if xs.None? then V.Array(None) else V.Array(Some(seq(|xs.value|, k requires 0 <= k < |xs.value| => V.Text(Some(PC.BitString(xs.value[k]))))))
  }

  function DateTimeArray(xs: Option<seq<V.DateTime>>): (v: V.Value)
    ensures v.Array? && v.values.Some? == xs.Some?
    ensures xs.Some? ==> |v.values.value| == |xs.value| && forall k | 0 <= k < |xs.value| :: v.values.value[k] == V.DateTime(Some(xs.value[k]))
  {
    if xs.None? then V.Array(None) else V.Array(Some(seq(|xs.value|, k requires 0 <= k < |xs.value| => V.DateTime(Some(xs.value[k])))))
  }

  function DateArray(xs: Option<seq<V.Date>>): (v: V.Value)
    ensures v.Array? && v.values.Some? == xs.Some?
    ensures xs.Some? ==> |v.values.value| == |xs.value| && forall k | 0 <= k < |xs.value| :: v.values.value[k] == V.Date(Some(xs.value[k]))
  {
    if xs.None? then V.Array(None) else V.Array(Some(seq(|xs.value|, k requires 0 <= k < |xs.value| => V.Date(Some(xs.value[k])))))
  }

  function TimeArray(xs: Option<seq<V.Time>>): (v: V.Value)
    ensures v.Array? && v.values.Some? == xs.Some?
    ensures xs.Some? ==> |v.values.value| == |xs.value| && forall k | 0 <= k < |xs.value| :: v.values.value[k] == V.Time(Some(xs.value[k]))
  {
    if xs.None? then V.Array(None) else V.Array(Some(seq(|xs.value|, k requires 0 <= k < |xs.value| => V.Time(Some(xs.value[k])))))
  }

  /**
   * Column `i` decoded as the arm's type and turned into a value: an array
   * exactly for an array arm; integers, reals and booleans in their own
   * variant; a string as `Text` for the text-names arm and `Enum` otherwise;
   * bit strings and IP networks as `Text`.
   */
  function DecodeArm(row: PgRow, i: nat, arm: Arm): (r: Result<V.Value, string>)
    requires arm.target != ArrayOf(PC.ByteVec)
    ensures r.Success? ==> (r.value.Array? <==> arm.target.ArrayOf?)
    ensures r.Success? && arm.target in {Single(PC.I8), Single(PC.I16), Single(PC.I32), Single(PC.I64), Single(PC.U32)} ==>
      r.value.Integer?
    ensures r.Success? && arm.target in {Single(PC.F32), Single(PC.F64), Single(PC.PgMoney), Single(PC.Decimal)} ==>
      r.value.Real?
    ensures r.Success? && arm.target == Single(PC.Bool) ==> r.value.Boolean?
    ensures r.Success? && arm.target == Single(PC.Str) ==> (if arm.textNamesOnly then r.value.Text? else r.value.Enum?)
    ensures r.Success? && arm.target in {Single(PC.BitVec), Single(PC.IpNetwork)} ==> r.value.Text?
  {
    var strings := if arm.textNamesOnly then TextKind else EnumKind;
    match arm.target
    case Single(t) =>
      (match t
       case I8 | I16 | I32 | I64 | U32 => var x :- row.decodeInt(i, t); Success(V.Integer(x))
       case F32 | F64 | PgMoney | Decimal => var x :- row.decodeReal(i, t); Success(V.Real(x))
       case Str => var x :- row.decodeString(i, t); Success(StringValue(strings, x))
       case ByteVec => var x :- row.decodeBytes(i); Success(V.Bytes(x))
       case Bool => var x :- row.decodeBool(i); Success(V.Boolean(x))
       case IpNetwork => var x :- row.decodeString(i, t); Success(V.Text(x))
       case Uuid => var x :- row.decodeString(i, t); Success(V.Uuid(x))
       case JsonValue => var x :- row.decodeString(i, t); Success(V.Json(x))
       case BitVec => var x :- row.decodeBits(i); Success(V.Text(if x.None? then None else Some(PC.BitString(x.value))))
       case DateTimeUtc | NaiveDateTime | PgTimeTz => var x :- row.decodeDateTime(i, t); Success(V.DateTime(x))
       case NaiveDate => var x :- row.decodeDate(i); Success(V.Date(x))
       case NaiveTime => var x :- row.decodeTime(i); Success(V.Time(x)))
    case ArrayOf(t) =>
      match t
      case I8 | I16 | I32 | I64 | U32 => var xs :- row.decodeInts(i, t); Success(IntegerArray(xs))
      case F32 | F64 | PgMoney | Decimal => var xs :- row.decodeReals(i, t); Success(RealArray(xs))
      case Str => var xs :- row.decodeStrings(i, t); Success(StringArray(strings, xs))
      case Bool => var xs :- row.decodeBools(i); Success(BooleanArray(xs))
      case IpNetwork => var xs :- row.decodeStrings(i, t); Success(StringArray(TextKind, xs))
      case Uuid => var xs :- row.decodeStrings(i, t); Success(StringArray(UuidKind, xs))
      case JsonValue => var xs :- row.decodeStrings(i, t); Success(StringArray(JsonKind, xs))
      case BitVec => var xs :- row.decodeBitVecs(i); Success(BitsArray(xs))
      case DateTimeUtc | NaiveDateTime | PgTimeTz => var xs :- row.decodeDateTimes(i, t); Success(DateTimeArray(xs))
      case NaiveDate => var xs :- row.decodeDates(i); Success(DateArray(xs))
      case NaiveTime => var xs :- row.decodeTimes(i); Success(TimeArray(xs))
      case ByteVec => assert false; Failure("")
  }

  /** The value of column `i`: decoded by the first arm that accepts its type. */
  function ColumnValue(row: PgRow, i: nat): (r: Result<V.Value, RowError>)
    requires i < |row.typeNames|
    ensures r.Failure? ==> r.error.index == V.IntToDecimal(i)
  {
    match FirstArm(row, row.typeNames[i], 0)
    case None => Failure(ColumnDecode(V.IntToDecimal(i), Unsupported(V.Conversion(UnsupportedMessage(row.typeNames[i])))))
    case Some(j) =>
      ArmsDecodable(j);
      match DecodeArm(row, i, Arms[j])
      case Success(v) => Success(v)
      case Failure(e) => Failure(ColumnDecode(V.IntToDecimal(i), DecodeFailed(e)))
  }

  /**
   * A column is unsupported exactly when no arm accepts its type name, and
   * it then fails with the connector's conversion error.
   */
  lemma UnsupportedIffNoArm(row: PgRow, i: nat)
    requires i < |row.typeNames|
    ensures (forall j | 0 <= j < |Arms| :: !Applies(row, Arms[j], row.typeNames[i])) <==>
      ColumnValue(row, i) == Failure(ColumnDecode(V.IntToDecimal(i), Unsupported(V.Conversion(UnsupportedMessage(row.typeNames[i])))))
  {
    match FirstArm(row, row.typeNames[i], 0)
    case None =>
    case Some(j) =>
      assert Applies(row, Arms[j], row.typeNames[i]);
  }

  /** Reads column `i` of a row with `count` columns. */
  type ColumnReader = nat --> Result<V.Value, RowError>

  /** The first `n` columns read in order, stopping at the first failure. */
  function ReadPrefix(column: ColumnReader, n: nat): Result<seq<V.Value>, RowError>
    requires forall i | 0 <= i < n :: column.requires(i)
  {
    if n == 0 then Success([])
    else
      match ReadPrefix(column, n - 1)
      case Failure(e) => Failure(e)
      case Success(values) =>
        match column(n - 1)
        case Failure(e) => Failure(e)
        case Success(value) => Success(values + [value])
  }

  /** A prefix reads exactly when every column in it does, giving one value per column, in order. */
  lemma {:induction false} ReadPrefixShape(column: ColumnReader, n: nat)
    requires forall i | 0 <= i < n :: column.requires(i)
    ensures ReadPrefix(column, n).Success? <==> forall i | 0 <= i < n :: column(i).Success?
    ensures ReadPrefix(column, n).Success? ==>
      && |ReadPrefix(column, n).value| == n
      && forall i | 0 <= i < n :: column(i) == Success(ReadPrefix(column, n).value[i])
  {
    if n > 0 {
      ReadPrefixShape(column, n - 1);
    }
  }

  /** A prefix that fails reports the error of its first failing column. */
  lemma {:induction false} ReadPrefixFirstError(column: ColumnReader, n: nat)
    requires forall i | 0 <= i < n :: column.requires(i)
    ensures ReadPrefix(column, n).Failure? ==>
      exists i | 0 <= i < n ::
        && column(i).Failure?
        && (forall j | 0 <= j < i :: column(j).Success?)
        && ReadPrefix(column, n).error == column(i).error
  {
    if n > 0 && ReadPrefix(column, n).Failure? {
      if ReadPrefix(column, n - 1).Failure? {
        ReadPrefixFirstError(column, n - 1);
      } else {
        ReadPrefixShape(column, n - 1);
        var i := n - 1;
        assert column(i).Failure?;
      }
    }
  }

  lemma {:induction false} ReadPrefixFailureSticks(column: ColumnReader, k: nat, n: nat)
    requires forall i | 0 <= i < n :: column.requires(i)
    requires k <= n
    requires ReadPrefix(column, k).Failure?
    ensures ReadPrefix(column, n) == ReadPrefix(column, k)
    decreases n
  {
    if n > k {
      ReadPrefixFailureSticks(column, k, n - 1);
    }
  }

  /** Reading one more column extends the values or stops at its error. */
  lemma ReadPrefixNext(column: ColumnReader, n: nat, values: seq<V.Value>)
    requires forall i | 0 <= i <= n :: column.requires(i)
    requires ReadPrefix(column, n) == Success(values)
    ensures column(n).Success? ==> ReadPrefix(column, n + 1) == Success(values + [column(n).value])
    ensures column(n).Failure? ==> ReadPrefix(column, n + 1) == Failure(column(n).error)
  {
  }

  /** The reader `map_row` applies to each column of `row`. */
  function Reader(row: PgRow): (column: ColumnReader)
    ensures forall i | 0 <= i < |row.typeNames| :: column.requires(i) && column(i) == ColumnValue(row, i)
  {
    (i: nat) requires i < |row.typeNames| => ColumnValue(row, i)
  }

  /**
   * `map_row`'s result: every column decoded in order. A row reads exactly
   * when every column does, and then holds each column's value at its index;
   * otherwise it fails with the error of the first failing column.
   */
  lemma RowShape(row: PgRow)
    ensures ReadPrefix(Reader(row), |row.typeNames|).Success? <==>
      forall i | 0 <= i < |row.typeNames| :: ColumnValue(row, i).Success?
    ensures ReadPrefix(Reader(row), |row.typeNames|).Success? ==>
      && |ReadPrefix(Reader(row), |row.typeNames|).value| == |row.typeNames|
      && forall i | 0 <= i < |row.typeNames| :: ColumnValue(row, i) == Success(ReadPrefix(Reader(row), |row.typeNames|).value[i])
    ensures ReadPrefix(Reader(row), |row.typeNames|).Failure? ==>
      exists i | 0 <= i < |row.typeNames| ::
        && ColumnValue(row, i).Failure?
        && (forall j | 0 <= j < i :: ColumnValue(row, j).Success?)
        && ReadPrefix(Reader(row), |row.typeNames|).error == ColumnValue(row, i).error
  {
    ReadPrefixShape(Reader(row), |row.typeNames|);
    ReadPrefixFirstError(Reader(row), |row.typeNames|);
  }

  /**
   * The loop of `map_row`: read columns `0 .. count - 1` in order, pushing
   * each value, and return at the first column that fails.
   */
  method ReadColumns(column: ColumnReader, count: nat) returns (r: Result<seq<V.Value>, RowError>)
    requires forall i | 0 <= i < count :: column.requires(i)
    ensures r == ReadPrefix(column, count)
  {
    var result: seq<V.Value> := [];
    for i := 0 to count
      invariant ReadPrefix(column, i) == Success(result)
    {
      var value := column(i);
      ReadPrefixNext(column, i, result);
      if value.Failure? {
        ReadPrefixFailureSticks(column, i + 1, count);
        return Failure(value.error);
      }
      result := result + [value.value];
    }
    return Success(result);
  }

  /** `map_row`: every column decoded in order by `ColumnValue`, stopping at the first error. */
  method MapRow(row: PgRow) returns (r: Result<seq<V.Value>, RowError>)
    ensures r == ReadPrefix(Reader(row), |row.typeNames|)
  {
    r := ReadColumns(Reader(row), |row.typeNames|);
  }

  // ---------------------------------------------------------------------------
  // What a column becomes
  // ---------------------------------------------------------------------------

  /**
   * A column read as a string becomes text when its type is TEXT, VARCHAR or
   * NAME, and an enum variant for any other string-compatible type.
   */
  lemma StringColumn(row: PgRow, i: nat, j: nat)
    requires i < |row.typeNames|
    requires FirstArm(row, row.typeNames[i], 0) == Some(j) && Arms[j].target == Single(PC.Str)
    requires row.decodeString(i, PC.Str).Success?
    ensures ColumnValue(row, i) ==
      Success(StringValue(if row.typeNames[i] in TextNames then TextKind else EnumKind, row.decodeString(i, PC.Str).value))
  {
    StringArms(j);
    if j == 9 {
      TextArm(row, i);
    } else {
      EnumArm(row, i);
    }
  }

  lemma TextArm(row: PgRow, i: nat)
    requires i < |row.typeNames|
    requires FirstArm(row, row.typeNames[i], 0) == Some(9)
    requires row.decodeString(i, PC.Str).Success?
    ensures row.typeNames[i] in TextNames
    ensures ColumnValue(row, i) == Success(V.Text(row.decodeString(i, PC.Str).value))
  {
    var decoded := row.decodeString(i, PC.Str).value;
    var arm := Arm(Single(PC.Str), true);
    StringArmsAt();
    assert DecodeArm(row, i, arm) == Success(V.Text(decoded));
    ColumnOfArm(row, i, 9, arm, V.Text(decoded));
  }

  lemma EnumArm(row: PgRow, i: nat)
    requires i < |row.typeNames|
    requires FirstArm(row, row.typeNames[i], 0) == Some(10)
    requires row.decodeString(i, PC.Str).Success?
    ensures row.typeNames[i] !in TextNames
    ensures ColumnValue(row, i) == Success(V.Enum(row.decodeString(i, PC.Str).value))
  {
    var name := row.typeNames[i];
    StringArmsAt();
    assert Applies(row, Arms[10], name) && !Applies(row, Arms[9], name);
    assert row.compatible(Single(PC.Str), name);
    var decoded := row.decodeString(i, PC.Str).value;
    var arm := Arm(Single(PC.Str), false);
    assert DecodeArm(row, i, arm) == Success(V.Enum(decoded));
    ColumnOfArm(row, i, 10, arm, V.Enum(decoded));
  }

  /** A column takes the value its chosen arm decodes. */
  lemma ColumnOfArm(row: PgRow, i: nat, j: nat, arm: Arm, v: V.Value)
    requires i < |row.typeNames|
    requires FirstArm(row, row.typeNames[i], 0) == Some(j) && j < |Arms| && Arms[j] == arm
    requires arm.target != ArrayOf(PC.ByteVec) && DecodeArm(row, i, arm) == Success(v)
    ensures ColumnValue(row, i) == Success(v)
  {
  }

  lemma StringArmsAt()
    ensures Arms[9] == Arm(Single(PC.Str), true) && Arms[10] == Arm(Single(PC.Str), false)
  {
  }

  /** Only the two string arms decode a single string. */
  lemma StringArms(j: nat)
    requires j < |Arms| && Arms[j].target == Single(PC.Str)
    ensures j == 9 || j == 10
  {
  }

  /**
   * A bit-string column comes back as its text, and that text binds back to
   * the same bits in a BIT parameter.
   */
  lemma BitColumnRoundTrip(row: PgRow, i: nat, bits: seq<bool>, isIp: string -> bool)
    requires i < |row.typeNames|
    requires exists j :: FirstArm(row, row.typeNames[i], 0) == Some(j) && Arms[j].target == Single(PC.BitVec)
    requires row.decodeBits(i) == Success(Some(bits))
    ensures ColumnValue(row, i) == Success(V.Text(Some(PC.BitString(bits))))
    ensures PC.Bind(ColumnValue(row, i).value, Some("BIT"), isIp) == Success(PC.Scalar(PC.BitVec, Some(PC.BitsElement(bits))))
  {
    PC.BitsRoundTrip(bits, "");
  }

  /** The driver decodes column `i` as a NULL of the target type. */
  predicate DecodesNull(row: PgRow, i: nat, target: Decodable) {
    match target
    case Single(t) =>
      (match t
       case I8 | I16 | I32 | I64 | U32 => row.decodeInt(i, t) == Success(None)
       case F32 | F64 | PgMoney | Decimal => row.decodeReal(i, t) == Success(None)
       case Str | IpNetwork | Uuid | JsonValue => row.decodeString(i, t) == Success(None)
       case ByteVec => row.decodeBytes(i) == Success(None)
       case Bool => row.decodeBool(i) == Success(None)
       case BitVec => row.decodeBits(i) == Success(None)
       case DateTimeUtc | NaiveDateTime | PgTimeTz => row.decodeDateTime(i, t) == Success(None)
       case NaiveDate => row.decodeDate(i) == Success(None)
       case NaiveTime => row.decodeTime(i) == Success(None))
    case ArrayOf(t) =>
      match t
      case I8 | I16 | I32 | I64 | U32 => row.decodeInts(i, t) == Success(None)
      case F32 | F64 | PgMoney | Decimal => row.decodeReals(i, t) == Success(None)
      case Str | IpNetwork | Uuid | JsonValue => row.decodeStrings(i, t) == Success(None)
      case ByteVec => false
      case Bool => row.decodeBools(i) == Success(None)
      case BitVec => row.decodeBitVecs(i) == Success(None)
      case DateTimeUtc | NaiveDateTime | PgTimeTz => row.decodeDateTimes(i, t) == Success(None)
      case NaiveDate => row.decodeDates(i) == Success(None)
      case NaiveTime => row.decodeTimes(i) == Success(None)
  }

  /** A NULL column reads as a NULL value, whatever arm decodes it. */
  lemma NullColumn(row: PgRow, i: nat, j: nat)
    requires i < |row.typeNames|
    requires FirstArm(row, row.typeNames[i], 0) == Some(j)
    requires DecodesNull(row, i, Arms[j].target)
    ensures ColumnValue(row, i).Success? && ColumnValue(row, i).value.IsNull()
  {
    ArmsDecodable(j);
    var arm := Arms[j];
    var v := DecodeArm(row, i, arm);
    assert v.Success? && v.value.IsNull();
    ColumnOfArm(row, i, j, arm, v.value);
  }
}

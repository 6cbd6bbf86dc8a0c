/**
 * SQLite value conversion: a connector `Value` becomes one of SQLite's five
 * storage classes before it is bound, and a result row is read back column
 * by column according to each column's declared type name.
 */
module SqliteConversion {
  import opened Wrappers
  import V = Values

  type I64 = V.I64

  /** What the SQLite driver binds; every class can be NULL. */
  datatype SqliteValue =
    | Integer(integer: Option<I64>)
    | Real(float: Option<real>)
    | Text(text: Option<string>)
    | Bytes(bytes: Option<seq<V.Byte>>)
    | Boolean(boolean: Option<bool>)
  {
    predicate IsNull() {
      match this
      case Integer(x) => x.None?
      case Real(x) => x.None?
      case Text(x) => x.None?
      case Bytes(x) => x.None?
      case Boolean(x) => x.None?
    }
  }

  const ArraysUnsupported: string := "Arrays are not supported in SQLite."

  const MillisPerDay: nat := 86_400_000

  /** A date as the epoch milliseconds of its midnight. */
  function DateMillis(d: V.Date): (m: I64)
    ensures m % MillisPerDay == 0 && m / MillisPerDay == d
  {
    d * MillisPerDay
  }

  /** A time of day as milliseconds on 1970-01-01; the sub-second part is dropped. */
  function TimeMillis(t: V.Time): (m: I64)
    ensures 0 <= m < MillisPerDay && m % 1000 == 0
  {
    ((t.hour * 60 + t.minute) * 60 + t.second) * 1000
  }

  /** Reads hours, minutes and seconds back out of a `TimeMillis` result. */
  function ClockOfMillis(m: nat): (nat, nat, nat) {
    (m / 3_600_000, (m / 60_000) % 60, (m / 1000) % 60)
  }

  /** `TimeMillis` keeps the hour, minute and second and nothing else. */
  lemma TimeMillisRoundTrip(t: V.Time)
    ensures ClockOfMillis(TimeMillis(t)) == (t.hour, t.minute, t.second)
  {
    var s := (t.hour * 60 + t.minute) * 60 + t.second;
    assert TimeMillis(t) == s * 1000;
    assert (s * 1000) / 1000 == s;
    assert s / 60 == t.hour * 60 + t.minute;
    assert s % 60 == t.second;
    assert (s * 1000) / 60_000 == s / 60;
    assert (s * 1000) / 3_600_000 == s / 3600;
    assert s / 3600 == (s / 60) / 60;
  }

  /** Two times of day with equal `TimeMillis` differ at most below the second. */
  lemma TimeMillisInjective(t1: V.Time, t2: V.Time)
    requires TimeMillis(t1) == TimeMillis(t2)
    ensures t1.hour == t2.hour && t1.minute == t2.minute && t1.second == t2.second
  {
    TimeMillisRoundTrip(t1);
    TimeMillisRoundTrip(t2);
  }

  /**
   * `SqliteValue::try_from`: total over `Value`, failing for arrays only.
   * NULL stays NULL; text-like values become `Text`, instants, dates and
   * times become integer milliseconds.
   */
  function TryFrom(v: V.Value): (r: Result<SqliteValue, V.Error>)
    ensures r.Failure? <==> v.Array?
    ensures r.Failure? ==> r.error == V.Conversion(ArraysUnsupported)
    ensures r.Success? ==> (r.value.IsNull() <==> v.IsNull())
  {
    match v
    case Integer(i) => Success(Integer(i))
    case Real(d) => Success(Real(d))
    case Text(s) => Success(Text(s))
    case Enum(e) => Success(Text(e))
    case Bytes(b) => Success(Bytes(b))
    case Boolean(b) => Success(Boolean(b))
    case Char(c) => Success(Text(if c.Some? then Some([c.value]) else None))
    case Array(_) => Failure(V.Conversion(ArraysUnsupported))
    case Json(j) => Success(Text(j))
    case Uuid(u) => Success(Text(u))
    case DateTime(d) => Success(Integer(if d.Some? then Some(V.DateTimeMillis(d.value)) else None))
    case Date(d) => Success(Integer(if d.Some? then Some(DateMillis(d.value)) else None))
    case Time(t) => Success(Integer(if t.Some? then Some(TimeMillis(t.value)) else None))
  }

  /** The payloads that need no conversion arrive in the same-named class unchanged. */
  lemma TryFromKeepsPayload(v: V.Value)
    ensures v.Integer? ==> TryFrom(v) == Success(Integer(v.integer))
    ensures v.Text? ==> TryFrom(v) == Success(Text(v.text))
    ensures v.Bytes? ==> TryFrom(v) == Success(Bytes(v.bytes))
    ensures v.Boolean? ==> TryFrom(v) == Success(Boolean(v.boolean))
    ensures v.Enum? ==> TryFrom(v) == Success(Text(v.variant))
    ensures v.Char? && v.character.Some? ==> TryFrom(v) == Success(Text(Some([v.character.value])))
    ensures v.Json? ==> TryFrom(v) == Success(Text(v.json))
    ensures v.Uuid? ==> TryFrom(v) == Success(Text(v.uuid))
    ensures v.DateTime? && v.datetime.Some? ==>
      TryFrom(v) == Success(Integer(Some(V.DateTimeMillis(v.datetime.value))))
    ensures v.Date? && v.date.Some? ==> TryFrom(v) == Success(Integer(Some(DateMillis(v.date.value))))
    ensures v.Time? && v.time.Some? ==> TryFrom(v) == Success(Integer(Some(TimeMillis(v.time.value))))
  {
  }

  /** The arguments bound so far, in order. */
  type Arguments = seq<SqliteValue>

  /** `bind_value`: convert, then append exactly one argument. */
  function BindValue(args: Arguments, v: V.Value): (r: Result<Arguments, V.Error>)
    ensures r.Success? <==> !v.Array?
    ensures r.Success? ==> |r.value| == |args| + 1 && r.value[..|args|] == args
    ensures r.Success? ==> r.value[|args|] == TryFrom(v).value
    ensures r.Failure? ==> r.error == V.Conversion(ArraysUnsupported)
  {
    var converted :- TryFrom(v);
    Success(args + [converted])
  }

  // ---------------------------------------------------------------------------
  // Reading a row
  // ---------------------------------------------------------------------------

  /**
   * A result row: the declared type name of each column, and the driver's
   * unchecked typed reads of column `i` (`get_unchecked`), which are not
   * modelled beyond their result types.
   */
  datatype SqliteRow = SqliteRow(
    typeNames: seq<string>,
    readInteger: nat -> Option<I64>,
    readText: nat -> Option<string>,
    readReal: nat -> Option<real>,
    readBytes: nat -> Option<seq<V.Byte>>,
    readBoolean: nat -> Option<bool>)

  /** `sqlx::Error::ColumnDecode`: the column index in decimal and the cause. */
  datatype RowError = ColumnDecode(index: string, source: V.Error)

  predicate Supported(typeName: string) {
    typeName in {"INTEGER", "TEXT", "REAL", "BLOB", "BOOLEAN", "NULL"}
  }

  function UnsupportedMessage(typeName: string): string {
    "Type " + typeName + " is not yet supported in the SQLite connector."
  }

  /** The value of column `i`, chosen by its declared type name. */
  function ColumnValue(row: SqliteRow, i: nat): (r: Result<V.Value, RowError>)
    requires i < |row.typeNames|
    ensures r.Success? <==> Supported(row.typeNames[i])
    ensures r.Failure? ==>
      r.error == ColumnDecode(V.IntToDecimal(i), V.Conversion(UnsupportedMessage(row.typeNames[i])))
    ensures row.typeNames[i] == "INTEGER" ==> r == Success(V.Integer(row.readInteger(i)))
    ensures row.typeNames[i] == "TEXT" ==> r == Success(V.Text(row.readText(i)))
    ensures row.typeNames[i] == "REAL" ==> r == Success(V.Real(row.readReal(i)))
    ensures row.typeNames[i] == "BLOB" ==> r == Success(V.Bytes(row.readBytes(i)))
    ensures row.typeNames[i] == "BOOLEAN" ==> r == Success(V.Boolean(row.readBoolean(i)))
    ensures row.typeNames[i] == "NULL" ==> r == Success(V.Integer(None))
  {
    match row.typeNames[i]
    case "INTEGER" => Success(V.Integer(row.readInteger(i)))
    case "TEXT" => Success(V.Text(row.readText(i)))
    case "REAL" =>
      (match row.readReal(i)
       case Some(f) => Success(V.Real(Some(f)))
       case None => Success(V.Real(None)))
    case "BLOB" => Success(V.Bytes(row.readBytes(i)))
    case "BOOLEAN" => Success(V.Boolean(row.readBoolean(i)))
    case "NULL" => Success(V.Integer(None))
    case other => Failure(ColumnDecode(V.IntToDecimal(i), V.Conversion(UnsupportedMessage(other))))
  }

  /** The first `n` columns read in order, stopping at the first failure. */
  function ReadColumns(row: SqliteRow, n: nat): Result<seq<V.Value>, RowError>
    requires n <= |row.typeNames|
  {
    if n == 0 then Success([])
    else
      match ReadColumns(row, n - 1)
      case Failure(e) => Failure(e)
      case Success(values) =>
        match ColumnValue(row, n - 1)
        case Failure(e) => Failure(e)
        case Success(value) => Success(values + [value])
  }

  /** On success: one value per column, each the value read from its own column. */
  lemma {:induction false} ReadColumnsShape(row: SqliteRow, n: nat)
    requires n <= |row.typeNames|
    ensures ReadColumns(row, n).Success? <==> forall i | 0 <= i < n :: Supported(row.typeNames[i])
    ensures ReadColumns(row, n).Success? ==>
      |ReadColumns(row, n).value| == n
      && forall i | 0 <= i < n :: ColumnValue(row, i) == Success(ReadColumns(row, n).value[i])
  {
    if n > 0 {
      ReadColumnsShape(row, n - 1);
    }
  }

  /** On failure: the error names the first column whose type is not supported. */
  lemma {:induction false} ReadColumnsFirstError(row: SqliteRow, n: nat)
    requires n <= |row.typeNames|
    ensures ReadColumns(row, n).Failure? ==>
      exists i | 0 <= i < n ::
        && !Supported(row.typeNames[i])
        && (forall j | 0 <= j < i :: Supported(row.typeNames[j]))
        && ReadColumns(row, n).error == ColumnDecode(V.IntToDecimal(i), V.Conversion(UnsupportedMessage(row.typeNames[i])))
  {
    if n > 0 {
      ReadColumnsFirstError(row, n - 1);
      if ReadColumns(row, n - 1).Success? {
        ReadColumnsShape(row, n - 1);
      }
    }
  }

  /** Once a prefix fails, every longer prefix fails with the same error. */
  lemma {:induction false} ReadColumnsFailureSticks(row: SqliteRow, k: nat, n: nat)
    requires k <= n <= |row.typeNames|
    requires ReadColumns(row, k).Failure?
    ensures ReadColumns(row, n) == ReadColumns(row, k)
    decreases n
  {
    if n > k {
      ReadColumnsFailureSticks(row, k, n - 1);
    }
  }

  /** `map_row`: read every column in order, returning at the first unsupported one. */
  method MapRow(row: SqliteRow) returns (r: Result<seq<V.Value>, RowError>)
    ensures r == ReadColumns(row, |row.typeNames|)
  {
    var result: seq<V.Value> := [];
    for i := 0 to |row.typeNames|
      invariant ReadColumns(row, i) == Success(result)
    {
      var value := ColumnValue(row, i);
      if value.Failure? {
        ReadColumnsFailureSticks(row, i + 1, |row.typeNames|);
        return Failure(value.error);
      }
      result := result + [value.value];
    }
    return Success(result);
  }
}

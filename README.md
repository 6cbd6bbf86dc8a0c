# quaint core, modelled in Dafny

This project models five sequential pieces of the `quaint` SQL toolkit and proves properties of them:

- **The comparison AST builders** (`src/ast/compare.rs`). The `Compare` union has sixteen variants. The `Comparable` builders put the receiver on the left. The `Conjuctive` combinators wrap a comparison into a `ConditionTree`.
- **The SQLite visitor** (`src/visitor/sqlite.rs`). This is a class whose `parameters` sequence grows by one `AddParameter` per bound value, and `Build` pairs the SQL text with that buffer. The visitor is proved against pure rendering functions (`RenderSelect`, `RenderTree`, ...), which produce a `Fragment`, that is, SQL text plus its parameters. The proved properties are:
  - the number of `?` placeholders equals the number of parameters;
  - parameters come in left-to-right leaf order;
  - LIKE patterns and other data never reach the SQL text;
  - AND/OR/NOT are always parenthesised.

  The file's own tests are restated as lemmas in `SqliteExamples`.
- **The SQLite value conversion** (`src/connector/sqlite/conversion.rs`):
  - `TryFrom` keeps NULLs, rejects arrays, and turns dates and times into milliseconds;
  - `MapRow` is the per-column loop, proved against a prefix-recursive specification.
- **The PostgreSQL conversion** (`src/connector/postgres/conversion.rs`):
  - the `bits_to_string` / `string_to_bits` round trip;
  - `bind_value`, as `Bind` (the argument it binds, with the typed NULLs of the Findings corrected), `BindAsWritten` (the source's own typed NULLs) and the `BindValue` method that runs the element loops;
  - `map_row`, as a first-matching-arm table `Arms` over the driver's `compatible` checks, plus a generic column loop.
- **The PostgreSQL connection URL** (`src/connector/postgres/config.rs`):
  - `parse_query_params` is a loop over key/value pairs that updates twelve locals, proved against the fold `Fold` of the single-pair step `Step`;
  - the accessors `host`, `dbname`, `port`, `schema`, `username`, `password` and `cache` apply their fixed defaults.

Modules:
- `Wrappers`: `Option` and `Result`.
- `Ast`: the query AST.
- `Comparable`.
- `SqliteVisitor`.
- `SqliteExamples`.
- `Values`: the connector-level `Value`, Rust integer casts, and decimal text.
- `SqliteConversion`.
- `PostgresConversion`.
- `PostgresRow`.
- `PostgresConfig`.

Calls into code that is not shown are parameters or record fields of the model:
- the driver's `compatible` checks and `Decode` calls (fields of `PostgresRow.PgRow`);
- IP address parsing (`isIp`);
- percent-decoding (`decode`).

Query pairs arrive as a list of already split, already decoded `(key, value)` pairs.

## Model

| member | source | states |
|---|---|---|
| Ast.TablePath | src/visitor/sqlite.rs:84-92 | a table is named by one or two segments, and the last one is the table's own name |
| Ast.ColumnPath | src/visitor/sqlite.rs:84-92 | a column is named by one to three segments, and the last one is the column's own name |
| Comparable.Equals | src/ast/compare.rs:128-133 | gives the `Equals` variant with the receiver on the left and the argument on the right |
| Comparable.NotEquals | src/ast/compare.rs:136-141 | gives `NotEquals`, receiver left, argument right |
| Comparable.LessThan | src/ast/compare.rs:144-149 | gives `LessThan`, receiver left, argument right |
| Comparable.LessThanOrEquals | src/ast/compare.rs:152-157 | gives `LessThanOrEquals`, receiver left, argument right |
| Comparable.GreaterThan | src/ast/compare.rs:160-165 | gives `GreaterThan`, receiver left, argument right |
| Comparable.GreaterThanOrEquals | src/ast/compare.rs:168-173 | gives `GreaterThanOrEquals`, receiver left, argument right |
| Comparable.InSelection | src/ast/compare.rs:176-181 | gives `In`, receiver left; the selection becomes a `Row` with the same elements, count and order |
| Comparable.NotInSelection | src/ast/compare.rs:184-189 | gives `NotIn`, receiver left; same elements, count and order in the `Row` |
| Comparable.Like | src/ast/compare.rs:192-197 | gives `Like`, receiver left, and keeps the pattern exactly as given (no wildcard is added) |
| Comparable.NotLike | src/ast/compare.rs:200-205 | gives `NotLike` with the pattern unchanged |
| Comparable.BeginsWith | src/ast/compare.rs:208-213 | gives `BeginsWith` with the pattern unchanged |
| Comparable.NotBeginsWith | src/ast/compare.rs:216-221 | gives `NotBeginsWith` with the pattern unchanged |
| Comparable.EndsInto | src/ast/compare.rs:224-229 | gives `EndsInto` with the pattern unchanged |
| Comparable.NotEndsInto | src/ast/compare.rs:232-237 | gives `NotEndsInto` with the pattern unchanged |
| Comparable.IsNull | src/ast/compare.rs:240-242 | gives the one-operand `Null` variant holding exactly the receiver |
| Comparable.IsNotNull | src/ast/compare.rs:245-247 | gives `NotNull` holding exactly the receiver |
| Comparable.IntoExpression | src/ast/compare.rs:33-37 | a comparison becomes the `Comparison` expression wrapping it |
| Comparable.IntoConditionTree | src/ast/compare.rs:26-31 | a comparison becomes the single-leaf tree `Single(Comparison(c))` |
| Comparable.And | src/ast/compare.rs:40-48 | `a.and(b)` is an `And` node with the receiver's expression on the left and `b` on the right |
| Comparable.Or | src/ast/compare.rs:50-58 | `a.or(b)` is an `Or` node, receiver on the left |
| Comparable.Not | src/ast/compare.rs:60-62 | `c.not()` is a `Not` node around the comparison |
| Comparable.Receiver | src/ast/compare.rs:255-263 | a macro receiver (name, table/column pair, or database/table/column triple) becomes a column reference whose path is exactly those names in order |
| SqliteVisitor.PlaceholdersConcat | src/visitor/sqlite.rs:13 | the `?` count of concatenated text is the sum of the counts |
| SqliteVisitor.JunctionsParenthesised | src/visitor/sqlite.rs:192-286 | AND and OR render as `(l AND r)` / `(l OR r)` and NOT as `(NOT e)`, with parameters in left-then-right order |
| SqliteVisitor.LikeFamilyBindsPattern | src/visitor/sqlite.rs:108-190 | for every LIKE-family comparison the SQL is the left operand followed by ` LIKE ?` or ` NOT LIKE ?`, and the wildcarded pattern is bound as the last parameter |
| SqliteVisitor.NoPlaceholders | src/visitor/sqlite.rs:13 | text without `?` has no placeholders |
| SqliteVisitor.ThenBalanced | src/visitor/sqlite.rs:16-18 | appending two balanced fragments (placeholders equal parameters) stays balanced |
| SqliteVisitor.WrappedBalanced | src/visitor/sqlite.rs:192-286 | a balanced fragment wrapped in `?`-free delimiters stays balanced |
| SqliteVisitor.InfixBalanced | src/visitor/sqlite.rs:192-261 | two balanced fragments joined by a `?`-free operator stay balanced |
| SqliteVisitor.PrefixBalanced | src/visitor/sqlite.rs:263-286 | a `?`-free prefix keeps a fragment balanced |
| SqliteVisitor.JunctionBalanced | src/visitor/sqlite.rs:192-261 | a parenthesised junction of balanced fragments is balanced |
| SqliteVisitor.QuotedPathClean | src/visitor/sqlite.rs:14 | backtick-quoting identifiers without `?` yields text without `?` |
| SqliteVisitor.ValueBalanced | src/visitor/sqlite.rs:63-72 | rendering any value with `?`-free identifiers yields exactly as many placeholders as parameters |
| SqliteVisitor.ListBalanced | src/visitor/sqlite.rs:84-92 | the same for a comma-separated value list |
| SqliteVisitor.SelectBalanced | src/visitor/sqlite.rs:20-32 | the same for a whole SELECT |
| SqliteVisitor.SourceBalanced | src/visitor/sqlite.rs:74-106 | the same for the FROM / WHERE / LIMIT part |
| SqliteVisitor.CompareBalanced | src/visitor/sqlite.rs:94-190 | the same for every comparison |
| SqliteVisitor.RestBalanced | src/visitor/sqlite.rs:94-190 | the same for the operator and right-hand side of a comparison |
| SqliteVisitor.LikeSuffixBalanced | src/visitor/sqlite.rs:108-190 | ` LIKE ?` with its one bound pattern is balanced |
| SqliteVisitor.ExprBalanced | src/visitor/sqlite.rs:192-286 | the same for every expression |
| SqliteVisitor.TreeBalanced | src/visitor/sqlite.rs:192-286 | the same for every condition tree |
| SqliteVisitor.EraseList | src/visitor/sqlite.rs:84-92 | erasing data from a list keeps its length and erases element by element |
| SqliteVisitor.ValueErasure | src/visitor/sqlite.rs:63-72 | replacing every bound datum of a value by another leaves its SQL text unchanged and its parameter count equal |
| SqliteVisitor.ListErasure | src/visitor/sqlite.rs:84-92 | the same for value lists |
| SqliteVisitor.SelectErasure | src/visitor/sqlite.rs:20-32 | the same for a SELECT |
| SqliteVisitor.CompareErasure | src/visitor/sqlite.rs:108-190 | the same for comparisons; in particular a LIKE pattern never changes the SQL text |
| SqliteVisitor.ExpressionErasure | src/visitor/sqlite.rs:192-286 | the same for expressions |
| SqliteVisitor.TreeErasure | src/visitor/sqlite.rs:192-286 | the same for condition trees |
| SqliteVisitor.DataNeverInSql | src/visitor/sqlite.rs:94-190 | two SELECTs that differ only in bound data and patterns render to the same SQL text with the same number of parameters |
| SqliteVisitor.ExpressionLeaves | src/visitor/sqlite.rs:192-286 | the leaves of an expression are never nested trees |
| SqliteVisitor.TreeLeaves | src/visitor/sqlite.rs:192-286 | the leaves of a tree are never nested trees |
| SqliteVisitor.LeafParamsConcat | src/visitor/sqlite.rs:192-286 | the parameters of concatenated leaf lists concatenate |
| SqliteVisitor.ExpressionParamsInOrder | src/visitor/sqlite.rs:192-286 | an expression's parameters are its leaves' parameters in left-to-right order |
| SqliteVisitor.TreeParamsInOrder | src/visitor/sqlite.rs:192-286 | a tree's parameters are its leaves' parameters in left-to-right order, whatever the nesting |
| SqliteVisitor.RegroupingKeepsParams | src/visitor/sqlite.rs:192-237 | `(a AND b) AND c` and `a AND (b AND c)` bind the same parameters in the same order |
| SqliteVisitor.ToSql | src/visitor/sqlite.rs:35-47 | `to_sql` succeeds on every value; SQL NULL exactly for `Null`; integers, reals and text are kept; a boolean becomes 1 or 0 |
| SqliteVisitor.Sqlite.constructor | src/visitor/sqlite.rs:24-26 | the parameter buffer starts empty |
| SqliteVisitor.Sqlite.Build | src/visitor/sqlite.rs:20-32 | returns the rendered SQL and exactly the parameters the visit added to a fresh buffer; with `?`-free identifiers the placeholder count equals the parameter count |
| SqliteVisitor.Sqlite.AddParameter | src/visitor/sqlite.rs:16-18 | appends exactly one value at the end and leaves earlier entries unchanged |
| SqliteVisitor.Sqlite.VisitDatabaseValue | src/visitor/sqlite.rs:16-18 | returns the value's SQL and appends its parameters to the buffer |
| SqliteVisitor.Sqlite.VisitList | src/visitor/sqlite.rs:84-92 | returns the list's SQL and appends its parameters in order |
| SqliteVisitor.Sqlite.VisitSelect | src/visitor/sqlite.rs:20-32 | returns the SELECT's SQL and appends its parameters in order |
| SqliteVisitor.Sqlite.VisitSource | src/visitor/sqlite.rs:74-106 | returns the FROM/WHERE/LIMIT SQL and appends its parameters |
| SqliteVisitor.Sqlite.VisitCompare | src/visitor/sqlite.rs:94-190 | returns a comparison's SQL and appends its parameters, the left operand's first |
| SqliteVisitor.Sqlite.VisitRest | src/visitor/sqlite.rs:94-190 | returns the operator and right side's SQL and appends their parameters |
| SqliteVisitor.Sqlite.VisitExpression | src/visitor/sqlite.rs:192-286 | returns an expression's SQL and appends its parameters |
| SqliteVisitor.Sqlite.VisitConditions | src/visitor/sqlite.rs:192-286 | returns a tree's SQL and appends its parameters in leaf order |
| SqliteExamples.SelectOne | src/visitor/sqlite.rs:63-72 | `SELECT ?` with the one parameter `1` |
| SqliteExamples.SelectStarFrom | src/visitor/sqlite.rs:74-82 | a table-only select renders ``SELECT * FROM `t` LIMIT -1`` for every table name `t` (the test uses `musti`) with no parameters |
| SqliteExamples.SelectFieldsFrom | src/visitor/sqlite.rs:84-92 | qualified table and two columns render with each segment quoted separately and joined by `.` and `, `, with no parameters |
| SqliteExamples.QualifiedTable | src/visitor/sqlite.rs:84-92 | a database-qualified table renders as two quoted segments joined by `.` |
| SqliteExamples.SelectWhereEquals | src/visitor/sqlite.rs:94-106 | ``... WHERE `word` = ? LIMIT -1`` binding the compared value |
| SqliteExamples.EqualsRendering | src/visitor/sqlite.rs:94-106 | ``word = ?`` with the value as the only parameter |
| SqliteExamples.SelectWhereLike | src/visitor/sqlite.rs:108-190 | ``... WHERE `word` LIKE ? LIMIT -1`` (or `NOT LIKE ?`) binding only the wildcarded pattern |
| SqliteExamples.LikeBuildersWildcards | src/visitor/sqlite.rs:108-190 | like/not_like bind `%p%`, begins_with/not_begins_with bind `p%`, ends_into/not_ends_into bind `%p` |
| SqliteExamples.AndThenAnd | src/visitor/sqlite.rs:192-214 | `a.and(b).and(c)` renders `((a AND b) AND c)` with parameters a, b, c |
| SqliteExamples.AndOfAnd | src/visitor/sqlite.rs:216-237 | `a.and(b.and(c))` renders `(a AND (b AND c))` with parameters a, b, c |
| SqliteExamples.OrThenAnd | src/visitor/sqlite.rs:239-261 | `a.or(b).and(c)` renders `((a OR b) AND c)` with parameters a, b, c |
| SqliteExamples.OrThenAndNegated | src/visitor/sqlite.rs:263-286 | its negation renders `(NOT ((a OR b) AND c))` with the parameter order unchanged |
| Values.AsI8 | src/connector/postgres/conversion.rs:90 | `as i8` gives the value in the i8 range congruent modulo 2^8, and the identity in range |
| Values.AsI16 | src/connector/postgres/conversion.rs:27 | `as i16`: the congruent value in the i16 range, identity in range |
| Values.AsI32 | src/connector/postgres/conversion.rs:28 | `as i32`: the congruent value in the i32 range, identity in range |
| Values.AsU32 | src/connector/postgres/conversion.rs:29 | `as u32`: the congruent value in the u32 range, identity in range |
| Values.NatToDecimal | src/connector/postgres/conversion.rs:30 | decimal text is non-empty, all digits, without leading zero |
| Values.DigitsValueOfDecimal | src/connector/postgres/conversion.rs:30 | reading back the decimal text of `n` gives `n` |
| Values.ParseU64 | src/connector/postgres/config.rs:248-252 | `parse::<usize>` accepts only values up to `u64::MAX` |
| Values.ParseU64OfDecimal | src/connector/postgres/config.rs:248-252 | the decimal text of every `u64` parses back to it |
| Values.ParseBool | src/connector/postgres/config.rs:221-225 | `parse::<bool>` succeeds exactly on `true` and `false`, giving true exactly for `true` |
| Values.TimeOf | src/connector/postgres/conversion.rs:554-568 | the time of day of an instant is its seconds modulo a day split into hours, minutes and seconds, with the nanoseconds kept |
| Values.DateTimeMillis | src/connector/sqlite/conversion.rs:77 | `timestamp_millis` lies within the instant's second (two seconds for a leap second) and divides back to its seconds |
| SqliteConversion.DateMillis | src/connector/sqlite/conversion.rs:79-82 | a date becomes midnight in milliseconds: a multiple of a day that divides back to the date |
| SqliteConversion.TimeMillis | src/connector/sqlite/conversion.rs:83-94 | a time becomes whole-second milliseconds within one day; sub-second parts are dropped |
| SqliteConversion.TimeMillisRoundTrip | src/connector/sqlite/conversion.rs:83-94 | hours, minutes and seconds are recovered from those milliseconds |
| SqliteConversion.TimeMillisInjective | src/connector/sqlite/conversion.rs:83-94 | two times with the same milliseconds agree on hour, minute and second |
| SqliteConversion.TryFrom | src/connector/sqlite/conversion.rs:42-97 | fails exactly on arrays, with the SQLite array message; otherwise NULL stays NULL and non-NULL stays non-NULL |
| SqliteConversion.TryFromKeepsPayload | src/connector/sqlite/conversion.rs:47-94 | Integer, Text, Bytes and Boolean keep their payload in the same-named variant; Enum, JSON and UUID become Text; a Char becomes one-character Text; an instant becomes `Integer` of its epoch milliseconds, a date of its midnight's milliseconds and a time of day of its milliseconds on 1970-01-01 |
| SqliteConversion.BindValue | src/connector/sqlite/conversion.rs:28-40 | appends exactly the converted value after the earlier arguments, or fails exactly on arrays |
| SqliteConversion.ColumnValue | src/connector/sqlite/conversion.rs:103-144 | succeeds exactly on the six known type names: INTEGER, TEXT, REAL, BLOB and BOOLEAN give the driver's read of the column in the `Integer`, `Text`, `Real`, `Bytes` and `Boolean` variant, and `NULL` gives `Integer(None)`; otherwise a ColumnDecode error with the column index and the message naming the type |
| SqliteConversion.ReadColumnsShape | src/connector/sqlite/conversion.rs:99-150 | reading succeeds exactly when every column's type is supported, and then yields one value per column, in column order |
| SqliteConversion.ReadColumnsFirstError | src/connector/sqlite/conversion.rs:131-144 | a failure is the error of the first unsupported column, and every earlier column is supported |
| SqliteConversion.ReadColumnsFailureSticks | src/connector/sqlite/conversion.rs:143 | once a prefix fails, every longer prefix fails with the same error |
| SqliteConversion.MapRow | src/connector/sqlite/conversion.rs:99-151 | the loop returns exactly the specified read of all the row's columns |
| PostgresConversion.BitString | src/connector/postgres/conversion.rs:977-990 | one character per bit, `1` exactly where the bit is set and `0` elsewhere |
| PostgresConversion.ParseBits | src/connector/postgres/conversion.rs:992-1010 | succeeds exactly when every character is `0` or `1`, with one bit per character; otherwise fails with the bits error message |
| PostgresConversion.BitsRoundTrip | src/connector/postgres/conversion.rs:977-1010 | parsing the string of any bits gives them back, and for any 0/1 string the string of its bits is the string |
| PostgresConversion.BitsToString | src/connector/postgres/conversion.rs:977-990 | the loop builds exactly `BitString(bits)` |
| PostgresConversion.StringToBits | src/connector/postgres/conversion.rs:992-1010 | the loop with early exit returns exactly `ParseBits(s)` |
| PostgresConversion.ConvertElement | src/connector/postgres/conversion.rs:92-533 | a converted array element always fits the array's element type: integers within its width, and the payload that type carries |
| PostgresConversion.IntegerElements | src/connector/postgres/conversion.rs:118-187 | an INT2[], INT4[] or INT8[] element converts exactly when it is a non-NULL integer, to its `as i16` / `as i32` / unchanged value; otherwise the error is that arm's "Non-integer parameter" message |
| PostgresConversion.OidAndCharElements | src/connector/postgres/conversion.rs:190-452 | an OID[] element converts exactly when it is a non-NULL integer, to its `as u32` value; a CHAR[] element exactly when it is a non-NULL character, to its `as i8` value; otherwise the arm's own message |
| PostgresConversion.FloatAndBoolElements | src/connector/postgres/conversion.rs:214-283 | FLOAT4[] and FLOAT8[] elements convert exactly when they are non-NULL reals, BOOL[] elements exactly when non-NULL booleans, unchanged; otherwise the arm's own message |
| PostgresConversion.DateTimeElements | src/connector/postgres/conversion.rs:286-404 | TIMESTAMPTZ[], TIMESTAMP[] and TIMETZ[] elements convert exactly when they are non-NULL date-times; TIMETZ[] keeps the time of day; otherwise the arm's own message |
| PostgresConversion.DateAndTimeElements | src/connector/postgres/conversion.rs:334-379 | a DATE[] element converts exactly when it is a non-NULL date, a TIME[] element when a non-NULL time, unchanged; otherwise the arm's own message |
| PostgresConversion.JsonAndUuidElements | src/connector/postgres/conversion.rs:407-476 | JSON[] and UUID[] elements convert exactly when they are the non-NULL value of their variant; otherwise "Non-json ..." / "Non-uuid ..." |
| PostgresConversion.TextElements | src/connector/postgres/conversion.rs:479-501 | a TEXT[] / VARCHAR[] / NAME[] element converts exactly when it is non-NULL text, unchanged; otherwise "Non-string parameter when storing a string array" |
| PostgresConversion.ParsedTextElements | src/connector/postgres/conversion.rs:93-533 | a BIT[] element converts exactly when it is non-NULL 0/1 text, to its bits, and fails with the BIT[] message for non-text or the bits error for other text; an INET[] / CIDR[] element converts exactly when it is text that parses as an IP network, and fails with the IP-array message or the IP format message |
| PostgresConversion.ConvertElementsShape | src/connector/postgres/conversion.rs:117-163 | an array converts exactly when every element converts, giving one element per input, in order |
| PostgresConversion.ConvertElementsFirstError | src/connector/postgres/conversion.rs:117-139 | a failed conversion reports the error of the first element that does not convert, and all earlier elements convert |
| PostgresConversion.ConvertElementsFailureSticks | src/connector/postgres/conversion.rs:117-139 | once a prefix fails, every longer prefix fails with the same error |
| PostgresConversion.ConvertOne | src/connector/postgres/conversion.rs:97-108 | converting one element, with the `string_to_bits` loop for a BIT[] element, gives exactly the specified element conversion |
| PostgresConversion.ConvertArray | src/connector/postgres/conversion.rs:117-139 | the push loop with early exit returns exactly the specified conversion |
| PostgresConversion.Bind | src/connector/postgres/conversion.rs:22-579 | the argument bound for a value and type name: only text and arrays can fail, and the argument is NULL exactly when the value is; the NULL BIT text and NULL BIT[] / string arrays are bound with their own types (the corrected binding, see Findings); the array cases are stated by `BindUnsupportedArray` and `BindTypedArray` |
| PostgresConversion.BindValue | src/connector/postgres/conversion.rs:22-579 | appends exactly the argument `Bind` describes after the earlier arguments, or fails with `Bind`'s error; with `Bind`, the three NULL arms of the Findings bind the corrected types |
| PostgresConversion.AsWrittenDiffersOnlyInNullTypes | src/connector/postgres/conversion.rs:83-500 | the source's binding and the corrected one differ exactly on a NULL BIT / VARBIT text and a NULL BIT[] or string array, where both bind a NULL of different types |
| PostgresConversion.BindWellTyped | src/connector/postgres/conversion.rs:22-579 | every successfully bound argument's payload fits the Rust type it is bound as |
| PostgresConversion.BindFailsIffRejected | src/connector/postgres/conversion.rs:63-84 | binding fails exactly for: a malformed IP text for INET/CIDR; a non-0/1 text for BIT/VARBIT; an unlisted or untyped array; or a typed array with an element that does not convert |
| PostgresConversion.BindUnsupportedArray | src/connector/postgres/conversion.rs:535-546 | an array with a type name that has no array arm fails with `Postgres type <name> not supported yet`; an array without a type name fails with the untyped-array message |
| PostgresConversion.BindTypedArray | src/connector/postgres/conversion.rs:92-533 | for a listed array type name, a NULL array binds that arm's array NULL; a non-NULL array binds exactly when every element converts, as an array of the arm's element type with one converted element per value, in order |
| PostgresConversion.BindArrayFirstError | src/connector/postgres/conversion.rs:92-533 | a typed array fails only because some element fails to convert, and the error is that element's |
| PostgresConversion.IntegerBinding | src/connector/postgres/conversion.rs:27-31 | an integer is bound as i16 for INT2, u32 for OID and decimal text for TEXT; INT4 and every other name use i32; the value is unchanged when it fits |
| PostgresConversion.NullBindsSameType | src/connector/postgres/conversion.rs:83 | corrected binding: a NULL of any variant binds as a NULL of the same Rust type a non-NULL value of that variant binds as |
| PostgresConversion.TypedNullsAsWritten | src/connector/postgres/conversion.rs:83 | as written (`BindAsWritten`), a NULL BIT text binds an `IpNetwork` NULL, a NULL BIT[] an `i16` array NULL and a NULL TEXT[] a `Uuid` array NULL, unlike their non-NULL values |
| PostgresRow.ArmsDecodable | src/connector/postgres/conversion.rs:592-953 | no arm decodes a byte-array array |
| PostgresRow.FirstArm | src/connector/postgres/conversion.rs:592-955 | the chosen arm is the first one whose `compatible` check accepts the column's type; when none applies, none accepts it |
| PostgresRow.IntegerArray | src/connector/postgres/conversion.rs:752-785 | an integer array column becomes an array value with one `Integer` per element, in order, or a NULL array |
| PostgresRow.RealArray | src/connector/postgres/conversion.rs:787-836 | a float/decimal/money array becomes one `Real` per element, in order |
| PostgresRow.StringArray | src/connector/postgres/conversion.rs:838-867 | a text, enum or IP array becomes one string value per element, in order |
| PostgresRow.BooleanArray | src/connector/postgres/conversion.rs:854-859 | a boolean array becomes one `Boolean` per element, in order |
| PostgresRow.BitsArray | src/connector/postgres/conversion.rs:938-946 | a bit-string array becomes one `Text` of the bits' string per element, in order |
| PostgresRow.DateTimeArray | src/connector/postgres/conversion.rs:869-896 | a timestamp array becomes one `DateTime` per element, in order |
| PostgresRow.DateArray | src/connector/postgres/conversion.rs:877-883 | a date array becomes one `Date` per element, in order |
| PostgresRow.TimeArray | src/connector/postgres/conversion.rs:898-926 | a time array becomes one `Time` per element, in order |
| PostgresRow.DecodeArm | src/connector/postgres/conversion.rs:592-953 | an arm yields an array exactly when it is an array arm; integer arms give `Integer`, float/decimal/money arms `Real`, the boolean arm `Boolean`, the text-names string arm `Text` and the other string arm `Enum`, and bit and IP arms `Text` |
| PostgresRow.ColumnValue | src/connector/postgres/conversion.rs:584-968 | a failed column reports a ColumnDecode error carrying the column's index |
| PostgresRow.UnsupportedIffNoArm | src/connector/postgres/conversion.rs:955-968 | a column fails as unsupported, naming its type, exactly when no arm's check accepts its type |
| PostgresRow.ReadPrefixShape | src/connector/postgres/conversion.rs:580-975 | reading succeeds exactly when every column decodes, giving one value per column in column order |
| PostgresRow.ReadPrefixFirstError | src/connector/postgres/conversion.rs:580-975 | a failure is the first failing column's error, and every earlier column decodes |
| PostgresRow.ReadPrefixFailureSticks | src/connector/postgres/conversion.rs:580-975 | once a prefix fails, every longer prefix fails with the same error |
| PostgresRow.ReadPrefixNext | src/connector/postgres/conversion.rs:971 | reading one more column pushes its value, or stops at its error |
| PostgresRow.Reader | src/connector/postgres/conversion.rs:584 | the column reader of a row decodes exactly column `i` for every index |
| PostgresRow.RowShape | src/connector/postgres/conversion.rs:580-975 | `map_row` yields one value per column in order exactly when every column decodes, and otherwise fails at the first failing column |
| PostgresRow.ReadColumns | src/connector/postgres/conversion.rs:584-974 | the push loop with early exit returns exactly the specified read |
| PostgresRow.MapRow | src/connector/postgres/conversion.rs:580-975 | returns exactly the specified read of all the row's columns |
| PostgresRow.StringColumn | src/connector/postgres/conversion.rs:651-663 | a string column decodes as `Text` for TEXT/VARCHAR/NAME and as `Enum` for every other string-compatible type |
| PostgresRow.TextArm | src/connector/postgres/conversion.rs:651-657 | the text arm applies only to TEXT/VARCHAR/NAME and gives `Text` |
| PostgresRow.EnumArm | src/connector/postgres/conversion.rs:659-663 | the enum arm applies only to other names and gives `Enum` |
| PostgresRow.ColumnOfArm | src/connector/postgres/conversion.rs:592-953 | a column's value is what its first applicable arm decodes |
| PostgresRow.StringArms | src/connector/postgres/conversion.rs:651-663 | only the text and enum arms decode a single string |
| PostgresRow.BitColumnRoundTrip | src/connector/postgres/conversion.rs:744-748 | a decoded bit-string column is the text of its bits, and binding that text to BIT binds the same bits again |
| PostgresRow.NullColumn | src/connector/postgres/conversion.rs:592-953 | a column the driver decodes as NULL becomes a NULL value |
| PostgresConfig.Step | src/connector/postgres/config.rs:219-305 | one pair fails exactly when it is a malformed numeric or boolean setting; an unknown key changes nothing |
| PostgresConfig.ParseQueryParams | src/connector/postgres/config.rs:205-323 | the loop over pairs with its twelve locals returns exactly the fold of `Step` from the defaults |
| PostgresConfig.FoldFailureSticks | src/connector/postgres/config.rs:219-305 | the first malformed pair ends parsing; later pairs do not change the error |
| PostgresConfig.FoldFailsIffMalformed | src/connector/postgres/config.rs:221-297 | parsing fails exactly when some pair is malformed |
| PostgresConfig.KnownPairs | src/connector/postgres/config.rs:298-303 | keeping only known keys keeps a sub-list of the pairs |
| PostgresConfig.UnknownKeysDiscarded | src/connector/postgres/config.rs:298-303 | dropping the pairs with unknown keys does not change the result |
| PostgresConfig.LastValueIsLast | src/connector/postgres/config.rs:219-305 | the last value of a key is absent exactly when the key never occurs, and otherwise it is the value of its last occurrence |
| PostgresConfig.LastTextWins | src/connector/postgres/config.rs:239-247 | schema, host, sslcert, sslidentity and sslpassword end with their last value, or the starting value when absent |
| PostgresConfig.LastNumberWins | src/connector/postgres/config.rs:248-297 | statement_cache_size, connection_limit, socket_timeout and connect_timeout end with their last parsed value |
| PostgresConfig.LastFlagWins | src/connector/postgres/config.rs:221-273 | pgbouncer ends with its last parsed value; sslmode with its last recognised mode; sslaccept with the meaning of its last value, and an unknown one means Strict |
| PostgresConfig.StepText | src/connector/postgres/config.rs:239-247 | one text setting overwrites only its own field |
| PostgresConfig.StepNumber | src/connector/postgres/config.rs:248-297 | one numeric setting overwrites only its own field |
| PostgresConfig.StepFlag | src/connector/postgres/config.rs:221-273 | one flag, sslmode or sslaccept setting overwrites only its own field, and an unknown sslmode keeps the mode |
| PostgresConfig.New | src/connector/postgres/config.rs:115-119 | fails with InvalidConnectionArguments exactly when some pair is malformed, and otherwise keeps the URL with the parsed parameters |
| PostgresConfig.FirstSegment | src/connector/postgres/config.rs:156-161 | the first path segment is a `/`-free prefix that ends at the first `/` |
| PostgresConfig.Host | src/connector/postgres/config.rs:146-153 | the host query parameter wins, then a non-empty URL host, else `localhost` |
| PostgresConfig.Dbname | src/connector/postgres/config.rs:156-161 | the first segment of the path after its leading `/` (`FirstSegment`, so free of `/`), or `postgres` when the URL has no path |
| PostgresConfig.SchemaOfUrl | src/connector/postgres/config.rs:181-183 | the schema of a parsed URL is its last `schema` query parameter, else `public` |
| PostgresConfig.Port | src/connector/postgres/config.rs:176-178 | the URL port, or 5432 |
| PostgresConfig.CacheCapacity | src/connector/postgres/config.rs:197-203 | zero with pgbouncer, otherwise the statement cache size |
| PostgresConfig.Username | src/connector/postgres/config.rs:127-139 | the percent-decoded user name, or the raw one when decoding fails |
| PostgresConfig.Password | src/connector/postgres/config.rs:164-173 | the decoded password, the raw one when decoding fails, and empty when there is none |
| PostgresConfig.NoQueryDefaults | src/connector/postgres/config.rs:205-217 | without query pairs: schema `public`, sslmode Prefer, accept mode AcceptInvalidCerts, no pgbouncer, cache size 500 |
| PostgresConfig.SocketUrl | src/connector/postgres.rs:179-183 | `postgresql:///dbname?host=/var/run/psql.sock` has dbname `dbname` and the socket path as host |
| PostgresConfig.FirstSegmentWhole | src/connector/postgres/config.rs:156-161 | a path without `/` is its own first segment |
| PostgresConfig.DefaultHostUrl | src/connector/postgres.rs:212-216 | `postgresql:///dbname` has dbname `dbname` and host `localhost` |
| PostgresConfig.CacheSizeUrl | src/connector/postgres.rs:193-209 | `statement_cache_size=n` gives capacity `n`, and adding `pgbouncer=true` gives 0 |

## Left out

- Floating point and decimals are mathematical reals. The model leaves out the `Decimal` to `f64`/`f32` conversions and their failure (`expect("Decimal is not f64")`), MONEY scaling, and `f32` rounding (src/connector/postgres/conversion.rs:34-60; src/connector/sqlite/conversion.rs:48-51). Because every real converts, `PostgresConversion.Bind` never fails on a `Real`: the FLOAT4/FLOAT8 `ok_or_else` conversion errors for a decimal out of float range (src/connector/postgres/conversion.rs:36-39, 47-50) are not modelled, and neither are the panics of `Decimal::from_f32`/`from_f64(..).unwrap()` when a row or array column holds a NaN or infinite float (src/connector/postgres/conversion.rs:642, 648, 815, 829).
- chrono is reduced to day numbers, a time of day and seconds since the epoch. Time zones, the NaiveDateTime-as-UTC conversion and leap-second arithmetic beyond `timestamp_millis` are not modelled.
- IP parsing (`ipnetwork`) is the predicate `isIp`; an accepted address is carried as its text, not re-formatted.
- JSON documents and UUIDs are carried as their serialised text; serde and the uuid crate are not part of this model.
- Percent-decoding is the parameter `decode`. URL parsing is not part of this model: a `Url` is given as its username, password, host, port, path and already decoded query pairs.
- `SslParams::into_auth` (certificate files, TLS identities), `to_config`, `connection_limit()`/`ssl_params()` getters and the error builder's `set_original_message` are not modelled.
- The sqlx `compatible` checks and `Decode` calls are the record fields of `PostgresRow.PgRow`; `try_get_raw` is taken never to fail.
- `visit_query` lives in the shared visitor, which is not part of this model. The tests of src/visitor/sqlite.rs fix only part of its rendering: backtick-quoted segments joined by `.`, `=`, `<`, `LIKE ?` / `NOT LIKE ?` with their wildcards, parenthesised AND / OR / NOT, and ` LIMIT -1` after a FROM.
- The rest of the rendering is this model's own choice, following the same conventions: `<>`, `<=`, `>`, `>=`, `IN`, `NOT IN`, `IS NULL`, `IS NOT NULL`, and `1=1` / `1=0` for the empty and negated-empty trees.
- SqliteVisitor.RenderSource: a SELECT without a table renders no FROM, no WHERE and no ` LIMIT -1`, so a WHERE tree given without a table and its parameters are dropped. This is a modelling choice; the `SELECT ?` test only fixes the no-table, no-WHERE case.
- The accessors `as_i64`, `as_f64`, `as_bool`, `into_string`, `as_char`, `as_datetime`, `as_date`, `as_time`, `into_json` and `as_uuid` are `Values.AsI64` and its neighbours, which read only the non-NULL payload of their own variant. The file defining `Value` is not part of this model, so this reading is an assumption; a conversion across variants there (for example text that `into_string` would also take from another variant) is not captured.
- The sixteen builders that the `comparable!` macro generates (src/ast/compare.rs:250-413) are `Comparable.Receiver` followed by the builder of the same name. They are not written out one by one.
- `statement_cache_size()`, the accessor the tests of src/connector/postgres.rs call, is `PostgresConfig.CacheCapacity`.
- The PostgreSQL `map_row` loop is the generic `PostgresRow.ReadColumns`, which `PostgresRow.MapRow` runs over `PostgresRow.Reader`.
- PostgresRow.ColumnValue: its own contract states only the error's index. `PostgresRow.UnsupportedIffNoArm`, `PostgresRow.ColumnOfArm` and the arm lemmas state the rest.
- PostgresConversion.Bind: the three NULL arms of the Findings (src/connector/postgres/conversion.rs:83, 114 and 500) bind the corrected types. `PostgresConversion.BindAsWritten` is the binding as written, and `PostgresConversion.AsWrittenDiffersOnlyInNullTypes` states exactly where the two differ. The lemmas about `Bind` and the `BindValue` method describe the corrected binding.
- SqliteVisitor.Sqlite.Build: the placeholder-count property assumes identifiers free of `?`. The model counts every `?` character of the SQL text, but a `?` inside a backtick-quoted identifier is not a placeholder, so such identifiers would make the raw count exceed the parameters.
- The asynchronous connectors, timeouts and the `Bind` trait declaration are outside this model.

## Findings

| source | as written | input that shows it | evidently intended | confidence | as-written member | corrected member |
|---|---|---|---|---|---|---|
| src/connector/postgres/conversion.rs:83 | a NULL text for a BIT/VARBIT placeholder binds `Option::<IpNetwork>::None` | `Value::Text(None)` with type name `BIT`; the non-NULL `Text(Some("1"))` binds a `BitVec` | bind a `BitVec` NULL | not executed | PostgresConversion.TypedNullsAsWritten | PostgresConversion.NullBindsSameType |
| src/connector/postgres/conversion.rs:114 | a NULL array for BIT[]/VARBIT[] binds `Option::<Vec<i16>>::None` | `Value::Array(None)` with type name `BIT[]`; `Array(Some([]))` binds a `BitVec` array | bind a `Vec<BitVec>` NULL | not executed | PostgresConversion.TypedNullsAsWritten | PostgresConversion.NullBindsSameType |
| src/connector/postgres/conversion.rs:500 | a NULL array for TEXT[]/VARCHAR[]/NAME[] binds `Option::<Vec<uuid::Uuid>>::None` | `Value::Array(None)` with type name `TEXT[]`; `Array(Some([]))` binds a `String` array | bind a `Vec<String>` NULL | not executed | PostgresConversion.TypedNullsAsWritten | PostgresConversion.NullBindsSameType |

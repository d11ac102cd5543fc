# MariaDB-rs core in Dafny

This is a model of the sequential core of a Rust wrapper around the MySQL/MariaDB C client library. It has three parts.

- **The tagged SQL value** (`src/types.rs`). `SQLType` is a closed sum of `Tiny`, `Short`, `Int`, `Long`, `Float`, `Double`, `VarChar(text, len)` and `Unsupported(literal, name, tag)`. Three total functions read it:
  - `to_string` gives the literal text;
  - `get_name_of_enum` gives the column-type name;
  - `get_field_type` gives the field-type class used when comparing schemas.
  
  Eight predicates tell the variants apart. The model is module `Types`. Rust's integer rendering is module `Decimal`, which pairs the rendering with a reader so that round trips can be stated. Rust's integer widths and `as` casts are module `Ints`.
- **The NUL-terminated string codec and its buffer** (`src/cbox.rs`, `src/cstr.rs`).
  - `CBox<T>` is a single-owner handle over a C-allocated block with unchecked indexing. It is modelled as a class over an `array`. Release by `free` is tracked by a ghost flag.
  - `to_cstr` allocates `len + 1` cells, stores the bytes one by one and writes a NUL.
  - `from_cstr` reads cells until the first NUL, one character per cell.
  - Both are methods with loops, proved against the specification functions `Encode`, `Decode` and `FirstZero`. Module `Cbox` holds them.
  - Module `Cstr` holds the earlier vector-based copy of the codec. Its reader works through a raw pointer, modelled as an array and an offset.
- **The connection's query logic** (`src/connection.rs`). The client library becomes `Session`, an oracle fixed when the connection opens. For each query text it gives the status `mysql_query` returns and the rows `mysql_fetch_row` yields; a null row is `None`. It logs every query it is sent.
  - `raw_query` is a method with the source's fetch loop and inner column loop. It is proved equal to the specification function `RawQueryResult`.
  - `switch_db`, `get_tables_list`, `read_table_strings` and `create_table` state the exact query text they send and how they re-wrap errors.

Points where the library behaves unexpectedly, and how the model treats them:
- Numeric column-type names are the variant names (`"Tiny"`, `"Int"`, …), not SQL keywords such as `INT` or `BIGINT`.
- A failed query is reported as `Query of (<q>) failed.`, without the client's diagnostic text.
- `CBox` indexing is unchecked, so its methods require an index inside the block.
- `Connection::new` takes its error branch when the handshake succeeds (src/connection.rs:23). `Connection.ConnectOutcomeAsWritten` models that guard as written. `Connection.Connect` models `new` with the corrected guard, `Connection.ConnectOutcome` (see Findings).
- The `db` field's comment (src/connection.rs:13-14) says the name is right whenever `switch_db` is used, but `switch_db` (src/connection.rs:39-46) never assigns it. The field keeps the name given at connect time, and `Connection.Connection.SwitchDb` states that it is unchanged.

## Model

| member | source | states |
|---|---|---|
| `Types.ToString` | src/types.rs:67-78 | integers as their decimal text, floats through the supplied renderers, `VarChar` and `Unsupported` as their stored text |
| `Types.NameOfEnum` | src/types.rs:79-90 | numeric variants by their variant name, `VarChar(_, n)` as `VARCHAR(n)`, `Unsupported` by its stored name |
| `Types.FieldType` | src/types.rs:91-102 | the field-type class of each variant, `Int`→Long and `Long`→LongLong, the stored tag for `Unsupported` |
| `Types.IsTiny` | src/types.rs:103-108 | true exactly for `Tiny` |
| `Types.IsShort` | src/types.rs:109-114 | true exactly for `Short` |
| `Types.IsInt` | src/types.rs:115-120 | true exactly for `Int` |
| `Types.IsLong` | src/types.rs:121-126 | true exactly for `Long` |
| `Types.IsFloat` | src/types.rs:127-132 | true exactly for `Float` |
| `Types.IsDouble` | src/types.rs:133-138 | true exactly for `Double` |
| `Types.IsVarChar` | src/types.rs:139-144 | true exactly for `VarChar` |
| `Types.IsUnsupported` | src/types.rs:145-150 | true exactly for `Unsupported` |
| `Types.ExactlyOneVariant` | src/types.rs:103-150 | for every value, exactly one of the eight `is_*` predicates holds |
| `Types.Classification` | src/types.rs:91-101 | `Tiny`→Tiny, `Short`→Short, `Int`→Long, `Long`→LongLong, `Float`→Float, `Double`→Double, `VarChar`→VarChar, and an unsupported value reports its stored tag |
| `Types.ClassIdentifiesSupportedVariant` | src/types.rs:91-99 | two supported values have the same class exactly when they are the same variant, whatever the payloads |
| `Types.UnsupportedKeepsTag` | src/types.rs:100 | `get_field_type(Unsupported(a, b, t)) == t` for any tag `t` |
| `Types.IntegerLiteralRoundTrip` | src/types.rs:69-72 | the literal of `Tiny`/`Short`/`Int`/`Long(x)` reads back as `x` and starts with `-` exactly when `x < 0` |
| `Types.TextLiteralsVerbatim` | src/types.rs:75-76 | `to_string(VarChar(s, n)) == s` for every `n`, and `to_string(Unsupported(s, _, _)) == s`: nothing is quoted |
| `Types.NumericNames` | src/types.rs:81-88 | numeric variants are named `"Tiny"`, `"Short"`, `"Int"`, `"Long"`, `"Float"`, `"Double"` whatever the payload; an unsupported value is named by its stored name |
| `Types.VarCharNameRoundTrip` | src/types.rs:87 | the name of `VarChar(_, n)` is `VARCHAR(` + digits + `)`, and the digits read back as `n` |
| `Types.NameIdentifiesSupportedVariant` | src/types.rs:79-89 | among supported values, equal names mean the same variant and, for `VarChar`, the same length |
| `Decimal.NatToDecimal` | src/types.rs:87 | the rendering of a natural number is a non-empty string of digits: `"0"` for zero, with no leading zero otherwise |
| `Decimal.IntToDecimal` | src/types.rs:69-72 | Rust's `to_string` of an integer: `-` and the magnitude's digits when negative, the digits alone otherwise |
| `Decimal.NatRoundTrip` | src/types.rs:87 | the rendering of a natural number reads back as that number |
| `Decimal.NegativeRoundTrip` | src/types.rs:69-72 | a minus sign followed by the digits of `m > 0` reads back as `-m` |
| `Decimal.IntRoundTrip` | src/types.rs:69-72 | the rendering of an integer reads back as it and starts with `-` exactly when it is negative |
| `Decimal.IntToDecimalInjective` | src/types.rs:69-72 | distinct integers have distinct literals |
| `Ints.U8AsI8` | src/cbox.rs:78 | `b as i8` keeps values below 128 and subtracts 256 from the others |
| `Ints.I8AsU8` | src/cbox.rs:67 | `c as u8` gives the byte congruent to `c` modulo 256 |
| `Ints.U8AsChar` | src/cbox.rs:67 | `b as char` is the character whose code point is `b` |
| `Ints.CharAsI8` | src/cstr.rs:16 | `ch as c_char` keeps the low eight bits of the code point |
| `Ints.ByteCastsInverse` | src/cbox.rs:67-78 | `as i8` and `as u8` are mutually inverse on bytes |
| `Ints.ZeroCasts` | src/cbox.rs:66-83 | only the zero byte casts to a zero `c_char`, and back |
| `Cbox.CBox.New` | src/cbox.rs:17-20 | `new(size)` yields a fresh, live block of `size` cells with unspecified contents |
| `Cbox.CBox.FromRaw` | src/cbox.rs:22-30 | `from_raw`/`from_raw_mut` wrap the given block without copying it |
| `Cbox.CBox.Index` | src/cbox.rs:43-49 | reading cell `i` of a live block yields its contents |
| `Cbox.CBox.IndexMut` | src/cbox.rs:51-55 | writing `v` to cell `i` changes cell `i` to `v` and no other cell |
| `Cbox.CBox.Drop` | src/cbox.rs:57-61 | dropping releases the block; a released handle cannot be used or released again (another handle over the same block is not tracked) |
| `Cbox.FirstZero` | src/cbox.rs:66 | in a buffer holding a NUL, the first NUL's position has only non-zero cells before it |
| `Cbox.FromCStr` | src/cbox.rs:63-71 | `from_cstr` returns one character per cell before the first NUL, as `b as u8 as char`; the loop stays at or before that NUL |
| `Cbox.ToCStr` | src/cbox.rs:73-86 | `to_cstr` yields a fresh buffer of `len + 1` cells: cell `i` holds byte `i` as `i8`, and cell `len` holds 0 |
| `Cbox.FirstZeroOfEncode` | src/cbox.rs:73-86 | if the bytes contain no NUL, the terminator is the first zero of the encoding |
| `Cbox.RoundTrip` | src/cbox.rs:63-86 | `from_cstr(to_cstr(b))` is one character per byte of `b`, for every NUL-free `b` |
| `Cbox.AsciiRoundTrip` | src/cbox.rs:63-86 | `from_cstr(to_cstr(s)) == s` for every ASCII string `s` without NUL |
| `Cbox.TestOnIndexMut` | src/cbox.rs:88-95 | after `to_cstr("Blah")` cell 0 is `'B'`; after storing `'c'` it is `'c'`, no longer `'B'` |
| `Cstr.ToCStr` | src/cstr.rs:15-19 | the vector has one cell per character plus one, and its last cell is 0 |
| `Cstr.FromCStr` | src/cstr.rs:6-14 | reading from pointer `p` yields the characters of the cells strictly before the first zero at or after `p`, the same as the buffer reader |
| `Cstr.AsciiCell` | src/cstr.rs:16 | an ASCII character is stored as its code point |
| `Cstr.LowByteRoundTrip` | src/cstr.rs:6-19 | if no character has a zero low byte, the final NUL is the only zero, and reading back gives each character's low byte as a character |
| `Cstr.AsciiRoundTrip` | src/cstr.rs:6-19 | `from_cstr(to_cstr(s)) == s` for every ASCII string `s` without NUL |
| `Cstr.NonAsciiStoredAsNul` | src/cstr.rs:2-16 | U+0100 contains no NUL but is stored as 0, so it reads back as the empty string |
| `Cstr.AgreesWithCbox` | src/cstr.rs:15-19 | on ASCII text, the vector codec writes the same cells as `cbox.rs`'s `to_cstr` |
| `Connection.FetchedRows` | src/connection.rs:90-101 | the fetched rows are the stream's rows before the first null row, in fetch order |
| `Connection.FetchedRowsUpToNull` | src/connection.rs:90-101 | rows followed by a null row, or by the end of the stream, are fetched exactly |
| `Connection.RawQueryResult` | src/connection.rs:78-107 | the width error below width 1, `Query of (q) failed.` on a non-zero status, otherwise the first `wide` decoded columns of each row fetched before the first null row |
| `Connection.RawQueryShape` | src/connection.rs:78-107 | succeeds iff `wide >= 1` and status is 0; width error below 1, `Query of (q) failed.` on non-zero status; otherwise one list of exactly `wide` decoded columns per fetched row |
| `Connection.RawQueryIgnoresAfterNull` | src/connection.rs:90-101 | nothing after the first null row influences the result |
| `Connection.WidthErrorNamesWidth` | src/connection.rs:79-81 | the width error ends with the refused width's decimal text |
| `Connection.Column0` | src/connection.rs:56 | the first column of every row, in order |
| `Connection.ConnectOutcomeAsWritten` | src/connection.rs:23-32 | the guard as written: an error when the handshake returned a handle, `Ok` when it returned null |
| `Connection.ConnectOutcome` | src/connection.rs:21-37 | the intended guard: connecting fails exactly when the handshake returns null, with the client's error text |
| `Connection.ConnectGuardInverted` | src/connection.rs:23-32 | the guard as written reports every successful handshake as a failure and every failed one as a success |
| `Connection.Connect` | src/connection.rs:21-37 | with the intended guard: `Ok` iff connected, holding a fresh open session and the requested database name; on failure the error folds in the client's text |
| `Connection.Connection.RawQuery` | src/connection.rs:78-107 | equals `RawQueryResult`; sends the query once when `wide >= 1` and sends nothing otherwise |
| `Connection.Connection.RawQueryNoRes` | src/connection.rs:111-117 | sends the query once; `Err("Query of (q) failed.")` on non-zero status, `Ok` otherwise |
| `Connection.Connection.SwitchDb` | src/connection.rs:39-46 | sends exactly `"use" + name + ";"`; on failure the error names the database; the cached `db` is unchanged either way |
| `Connection.Connection.GetTablesList` | src/connection.rs:48-57 | sends `show tables;` at width 1 and returns the first column of each fetched row, same count and order; the query error is passed on unchanged |
| `Connection.Connection.ReadTableStrings` | src/connection.rs:59-64 | is `raw_query("select * from " + name + ";", width)`, so a width below 1 is refused and nothing is sent |
| `Connection.Connection.CreateTable` | src/connection.rs:66-72 | sends `"create table " + name + " " + contents + ";"`; on failure the error names both |
| `Connection.Connection.Drop` | src/connection.rs:120-124 | closes the session |

## Findings

| source | as written | input that shows it | evidently intended | confidence | as-written member | corrected member |
|---|---|---|---|---|---|---|
| src/connection.rs:23-32 | `if ! mysql_real_connect(..).is_null()` takes the error branch when the call returns a handle | a server that accepts the handshake: `new` returns `Err("Failed to connect to SQL. Reason: ...")`; a refused handshake returns `Ok` | fail only when `mysql_real_connect` returns null | high; not executed | `Connection.ConnectOutcomeAsWritten`, shown by `Connection.ConnectGuardInverted` | `Connection.ConnectOutcome`, used by `Connection.Connect` |

## Left out

- The libmysql calls are not modelled. `mysql_init`, `mysql_real_connect`, `mysql_error`, `mysql_query`, `mysql_use_result`, `mysql_fetch_row`, `mysql_free_result` and `mysql_close` become the `Session` oracle or parameters of `Connect`. The `ffi` module is not part of this model.
- Server state is not modelled. The oracle answers each query text the same way whatever was sent before. A `use` query therefore does not change later answers, and the server's active database is not tracked; only the cached `db` field is.
- Query texts reach the server through `to_cstr`. The log records the Rust string; a query containing a NUL would be cut short on the C side, which the model does not show.
- `Connection.Connection.RawQuery` does not model the ownership hazards of the column pointers. It decodes each column with `Cbox.Decode`, the function `Cbox.FromCStr` is proved equal to, rather than wrapping libmysql's pointer in a `CBox`. That `CBox` would be freed on drop, and that hazard is left out. A null or missing column is undefined behaviour in the source, so the method requires that the first `wide` columns of each fetched row exist and are NUL-terminated.
- The heap side of the foreign memory is not modelled: `malloc` failure, pointer arithmetic, and the temporary buffers `to_cstr` makes for each query and for the connect parameters (and their release). `CBox::new` allocates `size` cells; for `c_char`, cells and bytes coincide.
- `Cbox.CBox.GetRaw`: `get_raw` and `get_raw_mut` are one accessor that returns the wrapped block; there is no property to state beyond that.
- Float and Double rendering is not modelled. `Types.ToString` takes the renderings of `f32` and `f64` as parameters, and their payloads are bit patterns.
- UTF-8 encoding is not modelled. `Cbox.ToCStr` takes the byte sequence `str::bytes` yields. For ASCII text those bytes are the code points (`Cbox.AsciiBytes`), and only that case is connected back to strings.
- The numeric codes of `SQLFieldType` come from the client's headers, so it is a plain enumeration.
- `src/serialize.rs` is not modelled: the `SerializeSQL` trait has no behaviour, and the generator macro returns empty vectors or a fixed error. `src/lib.rs` only declares modules; `cstr` is not among them, so `src/cstr.rs` is unused by the library but modelled all the same.

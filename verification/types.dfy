/**
 * The tagged SQL value of the library: one variant per supported column type, each carrying a
 * payload of the matching Rust width, plus an escape hatch for unsupported types. Three total
 * functions read it (its literal text, its column-type name and its field-type class) and eight
 * predicates tell the variants apart.
 */
module Types {
  import opened Ints
  import opened Wrappers
  import Decimal

  /**
   * The field-type classes of the MySQL client library. The numeric codes behind them come from
   * the client's headers; only their identity matters here, so this is a plain enumeration.
   */
  datatype SQLFieldType =
    | Decimal | Tiny | Short | Long | Float | Double | Null | Timestamp | LongLong | Int24
    | Date | Time | DateTime | Year | NewDate | VarChar | Bit | TimeStamp2 | DateTime2 | Time2
    | NewDecimal | Enum | Set | TinyBlob | MediumBlob | LongBlob | Blob | VarString | String
    | Geometry

  /**
   * A column value. `Float` and `Double` carry their IEEE-754 bit patterns; `VarChar` carries
   * its text and an advisory maximum length; `Unsupported` carries the literal text to put in a
   * query, the type name to use when creating a table, and the field-type class it stands for.
   */
  datatype SQLType =
    | Tiny(tiny: i8)
    | Short(short: i16)
    | Int(int32: i32)
    | Long(int64: i64)
    | Float(f32Bits: bv32)
    | Double(f64Bits: bv64)
    | VarChar(text: string, maxLen: usize)
    | Unsupported(literal: string, typeName: string, fieldType: SQLFieldType)

  /**
   * The literal text of a value (`to_string`). Integers use Rust's decimal rendering; the
   * rendering of floating-point numbers is supplied by the caller as `showF32` and `showF64`.
   * Text is neither quoted nor escaped.
   */
  function ToString(v: SQLType, showF32: bv32 -> string, showF64: bv64 -> string): string
  {
    match v
    case Tiny(x) => Decimal.IntToDecimal(x as int)
    case Short(x) => Decimal.IntToDecimal(x as int)
    case Int(x) => Decimal.IntToDecimal(x as int)
    case Long(x) => Decimal.IntToDecimal(x as int)
    case Float(x) => showF32(x)
    case Double(x) => showF64(x)
    case VarChar(s, _) => s
    case Unsupported(s, _, _) => s
  }

  /** The column-type name used when creating a table (`get_name_of_enum`). */
  function NameOfEnum(v: SQLType): string
  {
    match v
    case Tiny(_) => "Tiny"
    case Short(_) => "Short"
    case Int(_) => "Int"
    case Long(_) => "Long"
    case Float(_) => "Float"
    case Double(_) => "Double"
    case VarChar(_, size) => "VARCHAR(" + Decimal.NatToDecimal(size as nat) + ")"
    case Unsupported(_, name, _) => name
  }

  /** The field-type class used when comparing a value against a table column (`get_field_type`). */
  function FieldType(v: SQLType): SQLFieldType
  {
    match v
    case Tiny(_) => SQLFieldType.Tiny
    case Short(_) => SQLFieldType.Short
    case Int(_) => SQLFieldType.Long
    case Long(_) => SQLFieldType.LongLong
    case Float(_) => SQLFieldType.Float
    case Double(_) => SQLFieldType.Double
    case VarChar(_, _) => SQLFieldType.VarChar
    case Unsupported(_, _, t) => t
  }

  predicate IsTiny(v: SQLType) { match v case Tiny(_) => true case _ => false }
  predicate IsShort(v: SQLType) { match v case Short(_) => true case _ => false }
  predicate IsInt(v: SQLType) { match v case Int(_) => true case _ => false }
  predicate IsLong(v: SQLType) { match v case Long(_) => true case _ => false }
  predicate IsFloat(v: SQLType) { match v case Float(_) => true case _ => false }
  predicate IsDouble(v: SQLType) { match v case Double(_) => true case _ => false }
  predicate IsVarChar(v: SQLType) { match v case VarChar(_, _) => true case _ => false }
  predicate IsUnsupported(v: SQLType) { match v case Unsupported(_, _, _) => true case _ => false }

  /** The answers of the eight variant predicates, in declaration order. */
  function VariantFlags(v: SQLType): seq<bool>
  {
    [IsTiny(v), IsShort(v), IsInt(v), IsLong(v), IsFloat(v), IsDouble(v), IsVarChar(v), IsUnsupported(v)]
  }

  function CountTrue(bs: seq<bool>): nat
  {
    if bs == [] then 0 else (if bs[0] then 1 else 0) + CountTrue(bs[1..])
  }

  /** Every value satisfies exactly one of the eight variant predicates. */
  lemma ExactlyOneVariant(v: SQLType)
    ensures |VariantFlags(v)| == 8 && CountTrue(VariantFlags(v)) == 1
  {
    var flags := VariantFlags(v);
    assert CountTrue(flags[7..]) == if IsUnsupported(v) then 1 else 0;
    assert CountTrue(flags[6..]) == (if IsVarChar(v) then 1 else 0) + CountTrue(flags[7..]);
    assert CountTrue(flags[5..]) == (if IsDouble(v) then 1 else 0) + CountTrue(flags[6..]);
    assert CountTrue(flags[4..]) == (if IsFloat(v) then 1 else 0) + CountTrue(flags[5..]);
    assert CountTrue(flags[3..]) == (if IsLong(v) then 1 else 0) + CountTrue(flags[4..]);
    assert CountTrue(flags[2..]) == (if IsInt(v) then 1 else 0) + CountTrue(flags[3..]);
    assert CountTrue(flags[1..]) == (if IsShort(v) then 1 else 0) + CountTrue(flags[2..]);
  }

  /**
   * The classes of the supported variants. `Int` (32 bits) is classed as the engine's `Long`
   * and `Long` (64 bits) as its `LongLong`; an unsupported value reports the class it stores.
   */
  lemma Classification(v: SQLType)
    ensures IsTiny(v) ==> FieldType(v) == SQLFieldType.Tiny
    ensures IsShort(v) ==> FieldType(v) == SQLFieldType.Short
    ensures IsInt(v) ==> FieldType(v) == SQLFieldType.Long
    ensures IsLong(v) ==> FieldType(v) == SQLFieldType.LongLong
    ensures IsFloat(v) ==> FieldType(v) == SQLFieldType.Float
    ensures IsDouble(v) ==> FieldType(v) == SQLFieldType.Double
    ensures IsVarChar(v) ==> FieldType(v) == SQLFieldType.VarChar
    ensures IsUnsupported(v) ==> FieldType(v) == v.fieldType
  {
  }

  /**
   * Among supported values the class identifies the variant: two supported values have the same
   * class exactly when they are the same variant, whatever their payloads.
   */
  lemma ClassIdentifiesSupportedVariant(a: SQLType, b: SQLType)
    requires !IsUnsupported(a) && !IsUnsupported(b)
    ensures FieldType(a) == FieldType(b) <==> VariantFlags(a) == VariantFlags(b)
  {
  }

  /** An unsupported value can take any class, including those of the supported variants. */
  lemma UnsupportedKeepsTag(literal: string, name: string, t: SQLFieldType)
    ensures FieldType(Unsupported(literal, name, t)) == t
  {
  }

  /**
   * The literal of an integer value is its decimal text: it reads back as the payload, and it
   * starts with a minus sign exactly when the payload is negative.
   */
  lemma IntegerLiteralRoundTrip(v: SQLType, showF32: bv32 -> string, showF64: bv64 -> string)
    requires IsTiny(v) || IsShort(v) || IsInt(v) || IsLong(v)
    ensures var text := ToString(v, showF32, showF64);
      var payload := match v
        case Tiny(x) => x as int
        case Short(x) => x as int
        case Int(x) => x as int
        case Long(x) => x as int
        case _ => 0;
      && Decimal.ParseInt(text) == Some(payload)
      && |text| >= 1 && (text[0] == '-' <==> payload < 0)
  {
    match v
    case Tiny(x) => Decimal.IntRoundTrip(x as int);
    case Short(x) => Decimal.IntRoundTrip(x as int);
    case Int(x) => Decimal.IntRoundTrip(x as int);
    case Long(x) => Decimal.IntRoundTrip(x as int);
  }

  /** Text values render verbatim: the `VarChar` length plays no part and nothing is quoted. */
  lemma TextLiteralsVerbatim(s: string, n: usize, name: string, t: SQLFieldType,
                             showF32: bv32 -> string, showF64: bv64 -> string)
    ensures ToString(SQLType.VarChar(s, n), showF32, showF64) == s
    ensures ToString(Unsupported(s, name, t), showF32, showF64) == s
  {
  }

  /** Numeric variants are named after the variant itself, whatever their payload. */
  lemma NumericNames(v: SQLType)
    ensures IsTiny(v) ==> NameOfEnum(v) == "Tiny"
    ensures IsShort(v) ==> NameOfEnum(v) == "Short"
    ensures IsInt(v) ==> NameOfEnum(v) == "Int"
    ensures IsLong(v) ==> NameOfEnum(v) == "Long"
    ensures IsFloat(v) ==> NameOfEnum(v) == "Float"
    ensures IsDouble(v) ==> NameOfEnum(v) == "Double"
    ensures IsUnsupported(v) ==> NameOfEnum(v) == v.typeName
  {
  }

  /**
   * The name of a `VarChar` is `VARCHAR(` + the decimal length + `)`, and the text between the
   * parentheses reads back as the declared length.
   */
  lemma VarCharNameRoundTrip(s: string, n: usize)
    ensures var name := NameOfEnum(SQLType.VarChar(s, n));
      && |name| >= 10 && name[..8] == "VARCHAR(" && name[|name| - 1] == ')'
      && Decimal.ParseInt(name[8..|name| - 1]) == Some(n as int)
  {
    var name := NameOfEnum(SQLType.VarChar(s, n));
    assert name[8..|name| - 1] == Decimal.NatToDecimal(n as nat);
    Decimal.NatRoundTrip(n as nat);
  }

  /**
   * Among supported values the name identifies the variant, and for `VarChar` also the length.
   */
  lemma NameIdentifiesSupportedVariant(a: SQLType, b: SQLType)
    requires !IsUnsupported(a) && !IsUnsupported(b)
    requires NameOfEnum(a) == NameOfEnum(b)
    ensures VariantFlags(a) == VariantFlags(b)
    ensures IsVarChar(a) ==> a.maxLen == b.maxLen
  {
    if IsVarChar(a) {
      VarCharNameRoundTrip(a.text, a.maxLen);
      assert |NameOfEnum(a)| >= 10;
      assert IsVarChar(b);
      VarCharNameRoundTrip(b.text, b.maxLen);
    }
  }
}

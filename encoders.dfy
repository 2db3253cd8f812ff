/**
 * The field-type classification and the three value encoders of
 * createtable.py: the column type of a field, the CSV cell of a value, and
 * the SQL constant of a value.
 */
module Encoders {
  import opened Text
  import opened Salesforce

  // ---------------------------------------------------------------------------
  // Field types
  // ---------------------------------------------------------------------------

  /** The PostgreSQL column types the mapping produces. */
  datatype ColumnKind = VarChar | Integer | Date | Timestamp | Boolean | DoublePrecision

  /**
   * Reference lookup table from a Salesforce type tag to its column kind.
   * A tag absent from it (including `address`, which the column builder
   * expands on its own) has no column type.
   */
  const TypeTable: map<string, ColumnKind> := map[
    "email" := VarChar, "encryptedstring" := VarChar, "id" := VarChar,
    "multipicklist" := VarChar, "picklist" := VarChar, "phone" := VarChar,
    "reference" := VarChar, "string" := VarChar, "textarea" := VarChar,
    "url" := VarChar,
    "int" := Integer,
    "date" := Date,
    "datetime" := Timestamp,
    "boolean" := Boolean,
    "currency" := DoublePrecision, "double" := DoublePrecision, "percent" := DoublePrecision]

  /**
   * The classification createtable.py applies to a type tag in both
   * postgres_type_raw and postgres_json_to_csv (same tags, same order of
   * tests).
   */
  function FieldKind(sfType: string): Option<ColumnKind>
  {
    if sfType in {"email", "encryptedstring", "id", "multipicklist",
                  "picklist", "phone", "reference", "string", "textarea", "url"} then Some(VarChar)
    else if sfType == "int" then Some(Integer)
    else if sfType == "date" then Some(Date)
    else if sfType == "datetime" then Some(Timestamp)
    else if sfType == "boolean" then Some(Boolean)
    else if sfType in {"currency", "double", "percent"} then Some(DoublePrecision)
    else None
  }

  /** The classification agrees with the lookup table on every tag. */
  lemma FieldKindFollowsTable(sfType: string)
    ensures FieldKind(sfType).Some? <==> sfType in TypeTable
    ensures FieldKind(sfType).Some? ==> FieldKind(sfType).value == TypeTable[sfType]
  {
  }

  predicate HasKind(f: Field, k: ColumnKind)
  {
    FieldKind(f.sfType) == Some(k)
  }

  /** The column type clause of a kind, given the field's byte length. */
  function KindClause(k: ColumnKind, byteLength: int): string
  {
    match k
    case VarChar => "VARCHAR(" + IntToDecimal(byteLength) + ")"
    case Integer => "INTEGER"
    case Date => "DATE"
    case Timestamp => "TIMESTAMP"
    case Boolean => "BOOLEAN"
    case DoublePrecision => "DOUBLE PRECISION"
  }

  const NotImplementedSuffix: string := "\" NOT IMPLEMENTED "

  /** The visible placeholder written for a type the mapping does not know. */
  function Sentinel(sfType: string): string
  {
    "\"" + sfType + NotImplementedSuffix
  }

  predicate IsSentinel(r: string)
  {
    |r| >= 1 + |NotImplementedSuffix| && r[0] == '"'
    && r[|r| - |NotImplementedSuffix|..] == NotImplementedSuffix
  }

  /** The type name a placeholder carries. */
  function SentinelType(r: string): string
    requires IsSentinel(r)
  {
    r[1..|r| - |NotImplementedSuffix|]
  }

  lemma SentinelRoundTrip(t: string)
    ensures IsSentinel(Sentinel(t)) && SentinelType(Sentinel(t)) == t
  {
    var r := Sentinel(t);
    assert r[|r| - |NotImplementedSuffix|..] == NotImplementedSuffix;
    assert r[1..|r| - |NotImplementedSuffix|] == t;
  }

  /**
   * createtable.py postgres_type_raw: the column type of a field. For a
   * tag it does not know it never fails but gives a placeholder from which
   * the unknown tag can be read back, and only then.
   */
  function PostgresTypeRaw(f: Field): (r: string)
    ensures IsSentinel(r) <==> FieldKind(f.sfType).None?
    ensures FieldKind(f.sfType).None? ==> SentinelType(r) == f.sfType
  {
    match FieldKind(f.sfType)
    case Some(VarChar) => "VARCHAR(" + IntToDecimal(f.byteLength) + ")"
    case Some(Integer) => "INTEGER"
    case Some(Date) => "DATE"
    case Some(Timestamp) => "TIMESTAMP"
    case Some(Boolean) => "BOOLEAN"
    case Some(DoublePrecision) => "DOUBLE PRECISION"
    case None => SentinelRoundTrip(f.sfType); Sentinel(f.sfType)
  }

  /**
   * The column type follows the lookup table for every known tag, and is a
   * placeholder exactly for the tags the table does not have.
   */
  lemma TypeRawFollowsTable(f: Field)
    ensures f.sfType in TypeTable ==> PostgresTypeRaw(f) == KindClause(TypeTable[f.sfType], f.byteLength)
    ensures IsSentinel(PostgresTypeRaw(f)) <==> f.sfType !in TypeTable
    ensures f.sfType !in TypeTable ==> SentinelType(PostgresTypeRaw(f)) == f.sfType
  {
    FieldKindFollowsTable(f.sfType);
  }

  /** A text-like field's column type carries exactly its byte length. */
  lemma VarCharCarriesByteLength(f: Field)
    requires HasKind(f, VarChar)
    ensures var r := PostgresTypeRaw(f);
            |r| > 9 && r[..8] == "VARCHAR(" && r[|r| - 1] == ')'
            && ParseInt(r[8..|r| - 1]) == Some(f.byteLength)
  {
    var r := PostgresTypeRaw(f);
    var d := IntToDecimal(f.byteLength);
    assert r == "VARCHAR(" + d + ")";
    assert r[8..|r| - 1] == d;
    IntDecimalRoundTrip(f.byteLength);
  }

  // ---------------------------------------------------------------------------
  // CSV cells
  // ---------------------------------------------------------------------------

  /**
   * The inner csv_quote of createtable.py postgres_json_to_csv: a CSV field
   * quoted as in rule 7 of section 2 of RFC 4180, which a CSV reader reads
   * back as the original text and as one whole field.
   */
  function CsvQuote(value: string): (r: string)
    ensures ReadLiteral(r, '"') == Some((value, []))
  {
    QuotedRoundTrip(value, '"', []);
    assert Quoted(value, '"') + [] == "\"" + Doubled(value, '"') + "\"";
    "\"" + Doubled(value, '"') + "\""
  }

  /**
   * createtable.py postgres_json_to_csv: the CSV cell of a JSON value for a
   * field. A missing value is an empty cell whatever the type; text-like
   * types quote the string (a value of another kind has no `replace` and
   * fails); booleans become `t`/`f` by truthiness; numbers, dates and
   * times are written as Python's str() of the value; an unknown type gives
   * the same placeholder as the column type.
   */
  function PostgresJsonToCsv(f: Field, value: JsonValue): (r: Result<string>)
    ensures value.Null? ==> r == Ok("")
    ensures !value.Null? && FieldKind(f.sfType).None? ==> r == Ok(PostgresTypeRaw(f))
    ensures !value.Null? && HasKind(f, VarChar) ==> (r.Ok? <==> value.Str?)
    ensures !value.Null? && HasKind(f, VarChar) && value.Str? ==>
              ReadLiteral(r.value, '"') == Some((value.s, []))
    ensures !value.Null? && HasKind(f, VarChar) && !value.Str? ==> r == Err(NotText(value))
    ensures !value.Null? && HasKind(f, Boolean) ==> r == Ok(if Truthy(value) then "t" else "f")
    ensures !value.Null? && HasKind(f, Integer) ==> r == Ok(PyStr(value))
    ensures !value.Null? && HasKind(f, Date) ==> r == Ok(PyStr(value))
    ensures !value.Null? && HasKind(f, Timestamp) ==> r == Ok(PyStr(value))
    ensures !value.Null? && HasKind(f, DoublePrecision) ==> r == Ok(PyStr(value))
    ensures HasKind(f, Integer) && value.Int? ==> r.Ok? && ParseInt(r.value) == Some(value.i)
  {
    if value.Null? then Ok("")
    else
      match FieldKind(f.sfType)
      case Some(VarChar) => if value.Str? then Ok(CsvQuote(value.s)) else Err(NotText(value))
      case Some(Integer) => (if value.Int? then IntDecimalRoundTrip(value.i); Ok(PyStr(value)) else Ok(PyStr(value)))
      case Some(Date) => Ok(PyStr(value))
      case Some(Timestamp) => Ok(PyStr(value))
      case Some(Boolean) => Ok(if Truthy(value) then "t" else "f")
      case Some(DoublePrecision) => Ok(PyStr(value))
      case None => Ok(Sentinel(f.sfType))
  }

  // ---------------------------------------------------------------------------
  // SQL constants
  // ---------------------------------------------------------------------------

  /**
   * createtable.py postgres_escape_str: an SQL string constant, which an SQL
   * lexer reads back as the original text and as exactly one token.
   */
  function PostgresEscapeStr(s: string): (r: string)
    ensures |r| >= 2 && r[0] == '\'' && r[|r| - 1] == '\''
    ensures ReadLiteral(r, '\'') == Some((s, []))
  {
    QuotedRoundTrip(s, '\'', []);
    assert Quoted(s, '\'') + [] == "'" + Doubled(s, '\'') + "'";
    "'" + Doubled(s, '\'') + "'"
  }

  /**
   * createtable.py postgres_const: the SQL constant of a JSON value. Strings
   * are escaped string constants, booleans TRUE/FALSE, integers their
   * decimal text and floats Python's str(); anything else is flagged.
   */
  function PostgresConst(value: JsonValue): (r: string)
    ensures value.Str? ==> r == PostgresEscapeStr(value.s) && ReadLiteral(r, '\'') == Some((value.s, []))
    ensures value.Bool? ==> (r == "TRUE" <==> value.b) && (r == "FALSE" <==> !value.b)
    ensures value.Int? ==> r == IntToDecimal(value.i) && ParseInt(r) == Some(value.i)
    ensures value.Float? ==> r == value.text
    ensures value.Null? || value.Other? ==> r == "NOTIMPLEMENTED"
  {
    match value
    case Str(s) => PostgresEscapeStr(s)
    case Bool(b) => if b then "TRUE" else "FALSE"
    case Int(i) => IntDecimalRoundTrip(i); IntToDecimal(i)
    case Float(text, _) => text
    case _ => "NOTIMPLEMENTED"
  }

  // ---------------------------------------------------------------------------
  // Worked examples
  // ---------------------------------------------------------------------------

  /** `O'Brien` is the SQL constant 'O''Brien'. */
  lemma EscapeStrExample()
    ensures PostgresEscapeStr("O'Brien") == "'O''Brien'"
  {
    assert "O'Brien" == "O" + ['\''] + "Brien";
    DoubledOne("O", "Brien", '\'');
  }

  /** `6" pipe` is the CSV cell "6"" pipe". */
  lemma CsvQuoteExample()
    ensures CsvQuote("6\" pipe") == "\"6\"\" pipe\""
  {
    assert "6\" pipe" == "6" + ['"'] + " pipe";
    DoubledOne("6", " pipe", '"');
  }

  /** An unknown type such as `geolocation` gives a placeholder naming it. */
  lemma UnknownTypeExample(f: Field)
    requires f.sfType == "geolocation"
    ensures PostgresTypeRaw(f) == "\"geolocation\" NOT IMPLEMENTED "
  {
    UnknownTag(f);
  }

  /** `geolocation` is not one of the tags the classification knows. */
  lemma UnknownTag(f: Field)
    requires f.sfType == "geolocation"
    ensures FieldKind(f.sfType) == None
  {
  }
}

/**
 * The DDL side of createtable.py: identifier quoting, table qualification,
 * the column definitions of a Salesforce field, and the assembly of the
 * CREATE TABLE and CREATE INDEX statements for a table.
 */
module CreateTable {
  import opened Text
  import opened Salesforce
  import opened Encoders

  // ---------------------------------------------------------------------------
  // Identifiers
  // ---------------------------------------------------------------------------

  /**
   * createtable.py postgres_escape_name: an identifier, double-quoted when
   * the configuration asks for it. A name containing '"' is refused rather
   * than escaped. A quoted identifier reads back as the name itself.
   */
  function PostgresEscapeName(cfg: Config, name: string): (r: Result<string>)
    ensures r.Err? <==> '"' in name
    ensures r.Err? ==> r.error == UnsafeIdentifier(name)
    ensures r.Ok? && cfg.quoteNames ==> r.value == Quoted(name, '"')
    ensures r.Ok? && !cfg.quoteNames ==> r.value == name
  {
    if '"' in name then Err(UnsafeIdentifier(name))
    else if cfg.quoteNames then
      DoubledWithoutDelimiter(name, '"');
      Ok("\"" + name + "\"")
    else Ok(name)
  }

  /** A quoted identifier reads back as the name itself, and as one whole token. */
  lemma QuotedNameReads(cfg: Config, name: string)
    requires cfg.quoteNames && PostgresEscapeName(cfg, name).Ok?
    ensures ReadLiteral(PostgresEscapeName(cfg, name).value, '"') == Some((name, []))
  {
    QuotedRoundTrip(name, '"', []);
    assert Quoted(name, '"') + [] == Quoted(name, '"');
  }

  /**
   * createtable.py postgres_table_name: the table's identifier, qualified
   * by the configured schema and a dot exactly when a schema is configured.
   * The schema is escaped first, so its failure is the one reported.
   */
  function PostgresTableName(cfg: Config, name: string): (r: Result<string>)
    ensures r.Err? <==> (cfg.schema.Some? && '"' in cfg.schema.value) || '"' in name
    ensures r.Err? ==> r.error == UnsafeIdentifier(
                          if cfg.schema.Some? && '"' in cfg.schema.value then cfg.schema.value else name)
    ensures r.Ok? && cfg.schema.None? ==> Ok(r.value) == PostgresEscapeName(cfg, name)
    ensures r.Ok? && cfg.schema.Some? ==>
              r.value == PostgresEscapeName(cfg, cfg.schema.value).value + "."
                         + PostgresEscapeName(cfg, name).value
  {
    match cfg.schema
    case None => PostgresEscapeName(cfg, name)
    case Some(schema) =>
      var prefix :- PostgresEscapeName(cfg, schema);
      var table :- PostgresEscapeName(cfg, name);
      Ok(prefix + "." + table)
  }

  /**
   * A qualified, quoted table name reads as the schema followed by the dot
   * and the table's identifier: the dot is never taken into the schema.
   */
  lemma QualifiedNameReads(cfg: Config, name: string)
    requires cfg.quoteNames && cfg.schema.Some? && PostgresTableName(cfg, name).Ok?
    ensures ReadLiteral(PostgresTableName(cfg, name).value, '"') ==
              Some((cfg.schema.value, "." + PostgresEscapeName(cfg, name).value))
  {
    var schema, table := cfg.schema.value, PostgresEscapeName(cfg, name).value;
    QuotedRoundTrip(schema, '"', "." + table);
    assert Quoted(schema, '"') + "." + table == Quoted(schema, '"') + ("." + table);
  }

  // ---------------------------------------------------------------------------
  // Column definitions
  // ---------------------------------------------------------------------------

  /** The seven sub-columns of an address, as (suffix, column type). */
  const AddressColumns: seq<(string, string)> := [
    ("Street", "VARCHAR(255)"),
    ("City", "VARCHAR(40)"),
    ("State", "VARCHAR(80)"),
    ("PostalCode", "VARCHAR(20)"),
    ("Country", "VARCHAR(80)"),
    ("Latitude", "DOUBLE PRECISION"),
    ("Longitude", "DOUBLE PRECISION")]

  /** The name an address field's sub-columns start with. */
  function AddressBase(name: string): (base: string)
    ensures EndsWith(name, "Address") ==> base + "Address" == name
    ensures !EndsWith(name, "Address") ==> base == name
  {
    if EndsWith(name, "Address") then name[..|name| - 7] else name
  }

  /** The column name of a field that is not an address. */
  function ColumnName(cfg: Config, f: Field): string
  {
    if f.name == "Id" && cfg.renameId then "SfId" else f.name
  }

  /** The inline constraints the mapping can put after a column type. */
  datatype Constraint = PrimaryKey | NotNull | Default(literal: string) | Unique

  /** The position of a constraint kind in the order the mapping writes them. */
  function Rank(c: Constraint): nat
  {
    match c
    case PrimaryKey => 0
    case NotNull => 1
    case Default(_) => 2
    case Unique => 3
  }

  function RenderConstraint(c: Constraint): string
  {
    match c
    case PrimaryKey => " PRIMARY KEY"
    case NotNull => " NOT NULL"
    case Default(literal) => " DEFAULT " + literal
    case Unique => " UNIQUE"
  }

  /** The constraint text of a column: each constraint in turn. */
  function RenderConstraints(cs: seq<Constraint>): string
  {
    ConcatMap(RenderConstraint, cs)
  }

  /** An optional constraint renders as its text when present and as nothing otherwise. */
  lemma RenderOptional(c: Constraint, present: bool)
    ensures RenderConstraints(if present then [c] else []) == if present then RenderConstraint(c) else ""
  {
    if present {
      assert [c][1..] == [];
      assert ConcatMap(RenderConstraint, [c]) == RenderConstraint(c) + ConcatMap(RenderConstraint, []);
      assert RenderConstraint(c) + "" == RenderConstraint(c);
    }
  }

  /**
   * The constraint list of a non-address field. The Salesforce `Id` carries
   * only PRIMARY KEY, or nothing once renamed; any other field gets NOT NULL,
   * DEFAULT and UNIQUE exactly when it is not nillable, has a truthy default
   * and is unique, each at most once and always in that order.
   */
  function Constraints(cfg: Config, f: Field): (cs: seq<Constraint>)
    ensures PrimaryKey in cs <==> f.name == "Id" && !cfg.renameId
    ensures f.name == "Id" ==> cs == (if cfg.renameId then [] else [PrimaryKey])
    ensures f.name != "Id" ==> (NotNull in cs <==> !f.nillable)
    ensures f.name != "Id" ==> (Unique in cs <==> f.unique)
    ensures f.name != "Id" ==> (Default(PostgresConst(f.defaultValue)) in cs <==> Truthy(f.defaultValue))
    ensures forall c :: c in cs && c.Default? ==> c == Default(PostgresConst(f.defaultValue))
    ensures forall i, j :: 0 <= i < j < |cs| ==> Rank(cs[i]) < Rank(cs[j])
  {
    if f.name == "Id" then
      if cfg.renameId then [] else [PrimaryKey]
    else
      (if !f.nillable then [NotNull] else [])
      + (if Truthy(f.defaultValue) then [Default(PostgresConst(f.defaultValue))] else [])
      + (if f.unique then [Unique] else [])
  }

  /**
   * The sub-column lines of an address whose sub-columns are named
   * `baseName` followed by each suffix of `columns`, in that order, each
   * with its column type. The names are escaped in order, so the first
   * refusal is the one reported.
   */
  function AddressColdefs(cfg: Config, baseName: string, columns: seq<(string, string)>): (r: Result<seq<string>>)
    ensures r.Ok? ==> |r.value| == |columns|
    decreases |columns|
  {
    if |columns| == 0 then Ok([])
    else
      var name :- PostgresEscapeName(cfg, baseName + columns[0].0);
      var rest :- AddressColdefs(cfg, baseName, columns[1..]);
      Ok([" " + name + " " + columns[0].1] + rest)
  }

  /** No sub-column suffix contains '"'. */
  lemma AddressSuffixesSafe()
    ensures forall i :: 0 <= i < |AddressColumns| ==> '"' !in AddressColumns[i].0
  {
  }

  /**
   * With suffixes free of '"', the sub-columns are refused exactly when the
   * base name has a '"', and the first sub-column is the one reported.
   */
  lemma {:induction false} AddressColdefsFail(cfg: Config, baseName: string, columns: seq<(string, string)>)
    requires forall i :: 0 <= i < |columns| ==> '"' !in columns[i].0
    ensures AddressColdefs(cfg, baseName, columns).Err? <==> |columns| > 0 && '"' in baseName
    ensures AddressColdefs(cfg, baseName, columns).Err? ==>
              AddressColdefs(cfg, baseName, columns).error == UnsafeIdentifier(baseName + columns[0].0)
    decreases |columns|
  {
    if |columns| > 0 {
      assert '"' in baseName + columns[0].0 <==> '"' in baseName || '"' in columns[0].0;
      var tail := columns[1..];
      assert forall i :: 0 <= i < |tail| ==> tail[i] == columns[i + 1];
      AddressColdefsFail(cfg, baseName, tail);
    }
  }

  /**
   * The i-th line of an address is the i-th sub-column: the escaped name
   * made of the base name and the i-th suffix, then the i-th column type.
   */
  lemma {:induction false} AddressSubColumns(cfg: Config, baseName: string, columns: seq<(string, string)>)
    requires AddressColdefs(cfg, baseName, columns).Ok?
    ensures forall i :: 0 <= i < |columns| ==>
              && PostgresEscapeName(cfg, baseName + columns[i].0).Ok?
              && AddressColdefs(cfg, baseName, columns).value[i] ==
                   " " + PostgresEscapeName(cfg, baseName + columns[i].0).value + " " + columns[i].1
    decreases |columns|
  {
    if |columns| > 0 {
      var tail := columns[1..];
      AddressSubColumns(cfg, baseName, tail);
      var lines := AddressColdefs(cfg, baseName, columns).value;
      var rest := AddressColdefs(cfg, baseName, tail).value;
      assert lines == [lines[0]] + rest;
      forall i | 1 <= i < |columns|
        ensures lines[i] == " " + PostgresEscapeName(cfg, baseName + columns[i].0).value + " " + columns[i].1
      {
        assert columns[i] == tail[i - 1];
        assert lines[i] == rest[i - 1];
      }
    }
  }

  /**
   * The definition line of a field that is not an address: its column name,
   * then its column type followed, for the Salesforce `Id`, by PRIMARY KEY
   * (unless `Id` is renamed `SfId`) and, for any other field, by NOT NULL,
   * DEFAULT and UNIQUE as the field asks.
   */
  function ScalarColdef(cfg: Config, f: Field): (r: Result<seq<string>>)
    ensures r.Err? <==> '"' in f.name
    ensures r.Err? ==> r.error == UnsafeIdentifier(f.name)
    ensures r.Ok? ==> |r.value| == 1
  {
    var pgtype := PostgresTypeRaw(f);
    if f.name == "Id" then
      if cfg.renameId then
        // "SfId" is always accepted; the column may be NULL during inserts
        Ok([" " + PostgresEscapeName(cfg, "SfId").value + " " + pgtype])
      else
        Ok([" " + PostgresEscapeName(cfg, f.name).value + " " + pgtype + " PRIMARY KEY"])
    else
      var pgtype := if !f.nillable then pgtype + " NOT NULL" else pgtype;
      var pgtype := if Truthy(f.defaultValue) then pgtype + " DEFAULT " + PostgresConst(f.defaultValue)
                    else pgtype;
      var pgtype := if f.unique then pgtype + " UNIQUE" else pgtype;
      var name :- PostgresEscapeName(cfg, f.name);
      Ok([" " + name + " " + pgtype])
  }

  /**
   * createtable.py postgres_coldef_from_sffield: the column definition lines
   * of a field: the seven sub-columns of an address, named after the field
   * with any `Address` suffix removed, and one line for any other field. It
   * fails exactly when the field's name contains '"', reporting the first
   * identifier it could not write.
   */
  function PostgresColdefFromSffield(cfg: Config, f: Field): (r: Result<seq<string>>)
    ensures r.Err? <==> '"' in f.name
    ensures r.Err? ==> r.error == UnsafeIdentifier(if f.sfType == "address" then AddressBase(f.name) + "Street" else f.name)
    ensures r.Ok? ==> |r.value| == if f.sfType == "address" then |AddressColumns| else 1
  {
    if f.sfType == "address" then
      var baseName := AddressBase(f.name);
      assert '"' in baseName <==> '"' in f.name by {
        if EndsWith(f.name, "Address") {
          assert '"' in f.name <==> '"' in baseName || '"' in "Address";
        }
      }
      AddressSuffixesSafe();
      AddressColdefsFail(cfg, baseName, AddressColumns);
      AddressColdefs(cfg, baseName, AddressColumns)
    else
      ScalarColdef(cfg, f)
  }

  /**
   * An address field gives its seven sub-columns in order: the i-th line is
   * the escaped base name followed by the i-th suffix, then the i-th type.
   */
  lemma AddressLines(cfg: Config, f: Field)
    requires f.sfType == "address" && '"' !in f.name
    ensures var r := PostgresColdefFromSffield(cfg, f);
            && r.Ok? && |r.value| == 7
            && forall i :: 0 <= i < 7 ==>
                 && PostgresEscapeName(cfg, AddressBase(f.name) + AddressColumns[i].0).Ok?
                 && r.value[i] == " " + PostgresEscapeName(cfg, AddressBase(f.name) + AddressColumns[i].0).value
                                  + " " + AddressColumns[i].1
  {
    var r := PostgresColdefFromSffield(cfg, f);
    assert r == AddressColdefs(cfg, AddressBase(f.name), AddressColumns);
    assert r.Ok?;
    assert |AddressColumns| == 7;
    AddressSubColumns(cfg, AddressBase(f.name), AddressColumns);
  }

  /** The constraint text of a field other than `Id`, part by part. */
  function OptionalClauses(f: Field): string
  {
    (if !f.nillable then " NOT NULL" else "")
    + (if Truthy(f.defaultValue) then " DEFAULT " + PostgresConst(f.defaultValue) else "")
    + (if f.unique then " UNIQUE" else "")
  }

  lemma OtherConstraintsRender(cfg: Config, f: Field)
    requires f.name != "Id"
    ensures RenderConstraints(Constraints(cfg, f)) == OptionalClauses(f)
  {
    var a := if !f.nillable then [NotNull] else [];
    var b := if Truthy(f.defaultValue) then [Default(PostgresConst(f.defaultValue))] else [];
    var c := if f.unique then [Unique] else [];
    assert Constraints(cfg, f) == a + b + c;
    ConcatMapAppend(RenderConstraint, a, b);
    ConcatMapAppend(RenderConstraint, a + b, c);
    RenderOptional(NotNull, !f.nillable);
    RenderOptional(Default(PostgresConst(f.defaultValue)), Truthy(f.defaultValue));
    RenderOptional(Unique, f.unique);
  }

  lemma OtherColdefLine(cfg: Config, f: Field)
    requires f.sfType != "address" && '"' !in f.name && f.name != "Id"
    ensures PostgresEscapeName(cfg, f.name).Ok?
    ensures ScalarColdef(cfg, f) ==
              Ok([" " + PostgresEscapeName(cfg, f.name).value + " " + (PostgresTypeRaw(f) + OptionalClauses(f))])
  {
    var t := PostgresTypeRaw(f);
    var x := if !f.nillable then " NOT NULL" else "";
    var y := if Truthy(f.defaultValue) then " DEFAULT " + PostgresConst(f.defaultValue) else "";
    var z := if f.unique then " UNIQUE" else "";
    var t1 := if !f.nillable then t + " NOT NULL" else t;
    var t2 := if Truthy(f.defaultValue) then t1 + " DEFAULT " + PostgresConst(f.defaultValue) else t1;
    var t3 := if f.unique then t2 + " UNIQUE" else t2;
    assert t1 == t + x;
    ConcatAssoc(t, x, y);
    if Truthy(f.defaultValue) {
      ConcatAssoc(t1, " DEFAULT ", PostgresConst(f.defaultValue));
    }
    assert t2 == t + (x + y);
    ConcatAssoc(t, x + y, z);
    assert t3 == t + (x + y + z);
  }

  /**
   * The one line of a non-address field is its escaped column name, its
   * column type and its constraint list, written in order.
   */
  lemma ColdefRendersConstraints(cfg: Config, f: Field)
    requires f.sfType != "address" && '"' !in f.name
    ensures PostgresEscapeName(cfg, ColumnName(cfg, f)).Ok?
    ensures PostgresColdefFromSffield(cfg, f) ==
              Ok([" " + PostgresEscapeName(cfg, ColumnName(cfg, f)).value + " " + PostgresTypeRaw(f)
                  + RenderConstraints(Constraints(cfg, f))])
  {
    var cs := Constraints(cfg, f);
    var t := PostgresTypeRaw(f);
    var head := " " + PostgresEscapeName(cfg, ColumnName(cfg, f)).value + " ";
    if f.name == "Id" {
      if !cfg.renameId {
        RenderOptional(PrimaryKey, true);
      } else {
        RenderOptional(PrimaryKey, false);
        assert head + t == head + t + "";
      }
    } else {
      OtherConstraintsRender(cfg, f);
      OtherColdefLine(cfg, f);
      ConcatAssoc(head, t, OptionalClauses(f));
    }
  }

  /**
   * An address expands the same way whatever its nillable, unique and
   * default entries say.
   */
  lemma AddressIgnoresConstraints(cfg: Config, f: Field, g: Field)
    requires f.sfType == "address" && g.sfType == "address" && f.name == g.name
    ensures PostgresColdefFromSffield(cfg, f) == PostgresColdefFromSffield(cfg, g)
  {
  }

  /** The Salesforce `Id` of length 18, quoted, is the primary key. */
  lemma PrimaryKeyExample(f: Field)
    requires f.name == "Id" && f.sfType == "id" && f.byteLength == 18
    ensures PostgresColdefFromSffield(Config(true, None, false), f) == Ok([" \"Id\" VARCHAR(18) PRIMARY KEY"])
  {
    PrimaryKeyType(f);
    PrimaryKeyLine();
    assert PostgresEscapeName(Config(true, None, false), "Id").value == "\"Id\"";
  }

  /** The example's column type. */
  lemma PrimaryKeyType(f: Field)
    requires f.sfType == "id" && f.byteLength == 18
    ensures PostgresTypeRaw(f) == "VARCHAR(18)"
  {
    DecimalExample();
  }

  /** The primary-key line of the example, spelled out. */
  lemma PrimaryKeyLine()
    ensures " " + "\"Id\"" + " " + "VARCHAR(18)" + " PRIMARY KEY" == " \"Id\" VARCHAR(18) PRIMARY KEY"
  {
  }

  // ---------------------------------------------------------------------------
  // The statements of a table
  // ---------------------------------------------------------------------------

  /** A sync field as the metadata lookup lists it: its key and its descriptor. */
  type SyncField = (string, Field)

  const SerialColumn: string := " id SERIAL PRIMARY KEY"

  /** The surrogate key column that comes before the fields when `Id` is renamed. */
  function LeadingColumns(cfg: Config): seq<string>
  {
    if cfg.renameId then [SerialColumn] else []
  }

  /** The definition of each field, in field order. */
  function Definitions(cfg: Config, fields: seq<SyncField>): (ds: seq<Result<seq<string>>>)
    ensures |ds| == |fields|
  {
    seq(|fields|, i requires 0 <= i < |fields| => PostgresColdefFromSffield(cfg, fields[i].1))
  }

  /** The lines of the results, one after the other; the first refusal wins. */
  function ConcatResults(ds: seq<Result<seq<string>>>): Result<seq<string>>
    decreases |ds|
  {
    if |ds| == 0 then Ok([])
    else
      var init :- ConcatResults(ds[..|ds| - 1]);
      var last :- ds[|ds| - 1];
      Ok(init + last)
  }

  /** The column lines of the fields, in field order; the first refusal wins. */
  function ColumnLines(cfg: Config, fields: seq<SyncField>): Result<seq<string>>
  {
    ConcatResults(Definitions(cfg, fields))
  }

  /** The number of column lines the fields expand into. */
  function ColumnCount(fields: seq<SyncField>): nat
    decreases |fields|
  {
    if |fields| == 0 then 0
    else ColumnCount(fields[..|fields| - 1]) + (if fields[|fields| - 1].1.sfType == "address" then 7 else 1)
  }

  /** The warnings logged for one sync field. */
  function FieldWarnings(key: string, f: Field, compound: set<string>): seq<Warning>
  {
    (if f.calculated then [CalculateLocally(key)] else [])
    + (if key in compound then [ComposeLocally(key)] else [])
  }

  /** The warnings logged for the fields, in field order. */
  function Warnings(fields: seq<SyncField>, compound: set<string>): seq<Warning>
    decreases |fields|
  {
    if |fields| == 0 then []
    else Warnings(fields[..|fields| - 1], compound)
         + FieldWarnings(fields[|fields| - 1].0, fields[|fields| - 1].1, compound)
  }

  /** Whether a sync field gets an index statement. */
  predicate IndexEligible(cfg: Config, entry: SyncField, indexed: set<string>)
  {
    !(entry.0 == "Id" && !cfg.renameId) && entry.0 in indexed && Truthy(entry.1.isIndexed)
  }

  /** The keys of the fields that get an index, in field order. */
  function IndexedKeys(cfg: Config, fields: seq<SyncField>, indexed: set<string>): seq<string>
    decreases |fields|
  {
    if |fields| == 0 then []
    else IndexedKeys(cfg, fields[..|fields| - 1], indexed)
         + (if IndexEligible(cfg, fields[|fields| - 1], indexed) then [fields[|fields| - 1].0] else [])
  }

  /** The CREATE INDEX statement for the field with key `key`. */
  function IndexStatement(cfg: Config, table: string, key: string): Result<string>
  {
    var index :- PostgresEscapeName(cfg, table + "_" + key + "_idx");
    var qualified :- PostgresTableName(cfg, table);
    // the key is part of the index name, so it is accepted too
    assert '"' in table + "_" + key + "_idx" <==> '"' in table || '"' in key;
    var column := PostgresEscapeName(cfg, key).value;
    Ok("CREATE INDEX " + index + " ON " + qualified + " (" + column + ");")
  }

  /** The index statements for the keys, in order; the first failure wins. */
  function IndexStatements(cfg: Config, table: string, keys: seq<string>): Result<seq<string>>
    decreases |keys|
  {
    if |keys| == 0 then Ok([])
    else
      var init :- IndexStatements(cfg, table, keys[..|keys| - 1]);
      var last :- IndexStatement(cfg, table, keys[|keys| - 1]);
      Ok(init + [last])
  }

  function CreateTableStatement(qualified: string, lines: seq<string>): string
  {
    "CREATE TABLE " + qualified + " (\n" + Join(lines, ",\n") + "\n);"
  }

  /**
   * The statements createtable.py get_pgsql_create returns for a table:
   * the CREATE TABLE statement, then one CREATE INDEX statement per field
   * that gets an index.
   */
  function CreateStatements(cfg: Config, table: string, fields: seq<SyncField>, indexed: set<string>)
    : Result<seq<string>>
  {
    var columns :- ColumnLines(cfg, fields);
    var qualified :- PostgresTableName(cfg, table);
    var indexes :- IndexStatements(cfg, table, IndexedKeys(cfg, fields, indexed));
    Ok([CreateTableStatement(qualified, LeadingColumns(cfg) + columns)] + indexes)
  }

  /** Position `k` holds the first field whose name has a '"' (so whose definition is refused). */
  predicate FirstFailureAt(fields: seq<SyncField>, k: int)
  {
    && 0 <= k < |fields|
    && (forall j :: 0 <= j < k ==> '"' !in fields[j].1.name)
    && '"' in fields[k].1.name
  }

  // ---------------------------------------------------------------------------
  // Lemmas about the statements
  // ---------------------------------------------------------------------------

  lemma {:induction false} ConcatResultsAppend(a: seq<Result<seq<string>>>, b: seq<Result<seq<string>>>)
    ensures ConcatResults(a + b) ==
              match ConcatResults(a)
              case Err(e) => Err(e)
              case Ok(x) =>
                match ConcatResults(b)
                case Err(e) => Err(e)
                case Ok(y) => Ok(x + y)
    decreases |b|
  {
    if |b| == 0 {
      assert a + b == a;
      if ConcatResults(a).Ok? {
        assert ConcatResults(a).value + [] == ConcatResults(a).value;
      }
    } else {
      var b' := b[..|b| - 1];
      ConcatResultsAppend(a, b');
      assert (a + b)[..|a + b| - 1] == a + b';
      assert (a + b)[|a + b| - 1] == b[|b| - 1];
      if ConcatResults(a).Ok? && ConcatResults(b').Ok? && b[|b| - 1].Ok? {
        SeqAssoc(ConcatResults(a).value, ConcatResults(b').value, b[|b| - 1].value);
      }
    }
  }

  lemma {:induction false} ConcatResultsOkIff(ds: seq<Result<seq<string>>>)
    ensures ConcatResults(ds).Ok? <==> forall i :: 0 <= i < |ds| ==> ds[i].Ok?
    decreases |ds|
  {
    if |ds| > 0 {
      var init := ds[..|ds| - 1];
      ConcatResultsOkIff(init);
      assert forall i :: 0 <= i < |init| ==> init[i] == ds[i];
    }
  }

  /** The concatenation grows by the next result. */
  lemma ConcatResultsStep(ds: seq<Result<seq<string>>>, i: int, acc: seq<string>)
    requires 0 <= i < |ds| && ConcatResults(ds[..i]) == Ok(acc)
    ensures ds[i].Ok? ==> ConcatResults(ds[..i + 1]) == Ok(acc + ds[i].value)
    ensures ds[i].Err? ==> ConcatResults(ds[..i + 1]) == Err(ds[i].error)
  {
    assert ds[..i + 1][..i] == ds[..i];
    assert ds[..i + 1][i] == ds[i];
  }

  /** A refusal among the first results is the refusal of all of them. */
  lemma ConcatResultsFailureStays(ds: seq<Result<seq<string>>>, k: int)
    requires 0 <= k <= |ds| && ConcatResults(ds[..k]).Err?
    ensures ConcatResults(ds) == ConcatResults(ds[..k])
  {
    ConcatResultsAppend(ds[..k], ds[k..]);
    assert ds[..k] + ds[k..] == ds;
  }

  lemma DefinitionsAppend(cfg: Config, a: seq<SyncField>, b: seq<SyncField>)
    ensures Definitions(cfg, a + b) == Definitions(cfg, a) + Definitions(cfg, b)
  {
    forall i | 0 <= i < |a + b|
      ensures Definitions(cfg, a + b)[i] == (Definitions(cfg, a) + Definitions(cfg, b))[i]
    {
      if i < |a| {
        assert (a + b)[i] == a[i];
      } else {
        assert (a + b)[i] == b[i - |a|];
      }
    }
  }

  /** Column lines are built field after field: the lines of a + b are those of a, then those of b. */
  lemma ColumnLinesAppend(cfg: Config, a: seq<SyncField>, b: seq<SyncField>)
    ensures ColumnLines(cfg, a + b) ==
              match ColumnLines(cfg, a)
              case Err(e) => Err(e)
              case Ok(x) =>
                match ColumnLines(cfg, b)
                case Err(e) => Err(e)
                case Ok(y) => Ok(x + y)
  {
    DefinitionsAppend(cfg, a, b);
    ConcatResultsAppend(Definitions(cfg, a), Definitions(cfg, b));
  }

  /** The lines of the fields are the lines of all but the last, then the last one's. */
  lemma ColumnLinesUnfold(cfg: Config, fields: seq<SyncField>)
    requires |fields| > 0
    ensures var next := PostgresColdefFromSffield(cfg, fields[|fields| - 1].1);
            ColumnLines(cfg, fields) ==
              match ColumnLines(cfg, fields[..|fields| - 1])
              case Err(e) => Err(e)
              case Ok(x) =>
                match next
                case Err(e) => Err(e)
                case Ok(y) => Ok(x + y)
  {
    var ds := Definitions(cfg, fields);
    var init := fields[..|fields| - 1];
    assert ds[..|ds| - 1] == Definitions(cfg, init) by {
      forall i | 0 <= i < |init| ensures ds[..|ds| - 1][i] == Definitions(cfg, init)[i] {
        assert init[i] == fields[i];
      }
    }
  }

  /** The column list is built exactly when every field's definition is. */
  lemma ColumnLinesOkIff(cfg: Config, fields: seq<SyncField>)
    ensures ColumnLines(cfg, fields).Ok? <==>
              forall i :: 0 <= i < |fields| ==> '"' !in fields[i].1.name
  {
    var ds := Definitions(cfg, fields);
    ConcatResultsOkIff(ds);
    assert forall i :: 0 <= i < |fields| ==> ds[i] == PostgresColdefFromSffield(cfg, fields[i].1);
  }

  /** An address field gives seven lines and any other field one. */
  lemma {:induction false} ColumnLinesCount(cfg: Config, fields: seq<SyncField>)
    ensures ColumnLines(cfg, fields).Ok? ==> |ColumnLines(cfg, fields).value| == ColumnCount(fields)
    decreases |fields|
  {
    if |fields| > 0 {
      ColumnLinesCount(cfg, fields[..|fields| - 1]);
      ColumnLinesUnfold(cfg, fields);
    }
  }

  /** Results of one line each concatenate to one line per result, in order. */
  lemma {:induction false} ConcatResultsOfSingletons(ds: seq<Result<seq<string>>>)
    requires forall i :: 0 <= i < |ds| && ds[i].Ok? ==> |ds[i].value| == 1
    ensures ConcatResults(ds).Ok? ==>
              |ConcatResults(ds).value| == |ds|
              && forall i :: 0 <= i < |ds| ==> ds[i] == Ok([ConcatResults(ds).value[i]])
    decreases |ds|
  {
    if |ds| > 0 && ConcatResults(ds).Ok? {
      var init := ds[..|ds| - 1];
      assert forall i :: 0 <= i < |init| ==> init[i] == ds[i];
      ConcatResultsOfSingletons(init);
      var x, last := ConcatResults(init).value, ds[|ds| - 1].value;
      assert ConcatResults(ds).value == x + last;
      assert last == [last[0]];
    }
  }

  /**
   * When no field is an address, the column list has one line per field,
   * in field order: the i-th line is the i-th field's definition.
   */
  lemma ColumnLinesInFieldOrder(cfg: Config, fields: seq<SyncField>)
    requires forall i :: 0 <= i < |fields| ==> fields[i].1.sfType != "address"
    ensures ColumnLines(cfg, fields).Ok? ==>
              |ColumnLines(cfg, fields).value| == |fields|
              && forall i :: 0 <= i < |fields| ==>
                   PostgresColdefFromSffield(cfg, fields[i].1) == Ok([ColumnLines(cfg, fields).value[i]])
  {
    ConcatResultsOfSingletons(Definitions(cfg, fields));
  }

  /** The keys that get an index are exactly those of the eligible fields. */
  lemma {:induction false} IndexedKeysMembership(cfg: Config, fields: seq<SyncField>, indexed: set<string>, key: string)
    ensures key in IndexedKeys(cfg, fields, indexed) <==>
              exists i :: 0 <= i < |fields| && fields[i].0 == key && IndexEligible(cfg, fields[i], indexed)
    decreases |fields|
  {
    if |fields| > 0 {
      var init := fields[..|fields| - 1];
      IndexedKeysMembership(cfg, init, indexed, key);
      assert forall i :: 0 <= i < |init| ==> init[i] == fields[i];
      if exists i :: 0 <= i < |fields| && fields[i].0 == key && IndexEligible(cfg, fields[i], indexed) {
        var i :| 0 <= i < |fields| && fields[i].0 == key && IndexEligible(cfg, fields[i], indexed);
        if i < |init| {
          assert init[i] == fields[i];
        }
      }
    }
  }

  /** Index statements follow declaration order: the keys of a + b are those of a, then those of b. */
  lemma {:induction false} IndexedKeysAppend(cfg: Config, a: seq<SyncField>, b: seq<SyncField>, indexed: set<string>)
    ensures IndexedKeys(cfg, a + b, indexed) == IndexedKeys(cfg, a, indexed) + IndexedKeys(cfg, b, indexed)
    decreases |b|
  {
    if |b| == 0 {
      assert a + b == a;
    } else {
      var b' := b[..|b| - 1];
      IndexedKeysAppend(cfg, a, b', indexed);
      assert (a + b)[..|a + b| - 1] == a + b';
      assert (a + b)[|a + b| - 1] == b[|b| - 1];
    }
  }

  /** Without a surrogate key, the Salesforce `Id` (already the primary key) is never indexed. */
  lemma NoIndexForPrimaryKey(cfg: Config, fields: seq<SyncField>, indexed: set<string>)
    requires !cfg.renameId
    ensures "Id" !in IndexedKeys(cfg, fields, indexed)
  {
    IndexedKeysMembership(cfg, fields, indexed, "Id");
  }

  /**
   * With a surrogate key, `Id` is indexed like any other field, and its
   * index names the original column `Id` (the column itself is `SfId`).
   */
  lemma RenamedIdIsIndexedByOriginalName(cfg: Config, table: string, fields: seq<SyncField>, indexed: set<string>)
    requires cfg.renameId
    ensures "Id" in IndexedKeys(cfg, fields, indexed) <==>
              "Id" in indexed && exists i :: 0 <= i < |fields| && fields[i].0 == "Id" && Truthy(fields[i].1.isIndexed)
    ensures IndexStatement(cfg, table, "Id").Ok? ==>
              var s := IndexStatement(cfg, table, "Id").value;
              var column := PostgresEscapeName(cfg, "Id").value;
              s[|s| - |column| - 3..] == "(" + column + ");"
  {
    IndexedKeysMembership(cfg, fields, indexed, "Id");
  }

  lemma {:induction false} IndexStatementsAppend(cfg: Config, table: string, a: seq<string>, b: seq<string>)
    ensures IndexStatements(cfg, table, a + b) ==
              match IndexStatements(cfg, table, a)
              case Err(e) => Err(e)
              case Ok(x) =>
                match IndexStatements(cfg, table, b)
                case Err(e) => Err(e)
                case Ok(y) => Ok(x + y)
    decreases |b|
  {
    if |b| == 0 {
      assert a + b == a;
      if IndexStatements(cfg, table, a).Ok? {
        assert IndexStatements(cfg, table, a).value + [] == IndexStatements(cfg, table, a).value;
      }
    } else {
      var b' := b[..|b| - 1];
      IndexStatementsAppend(cfg, table, a, b');
      assert (a + b)[..|a + b| - 1] == a + b';
      assert (a + b)[|a + b| - 1] == b[|b| - 1];
      if IndexStatements(cfg, table, a).Ok? && IndexStatements(cfg, table, b').Ok? {
        var x, y := IndexStatements(cfg, table, a).value, IndexStatements(cfg, table, b').value;
        var last := IndexStatement(cfg, table, b[|b| - 1]);
        if last.Ok? {
          assert x + y + [last.value] == x + (y + [last.value]);
        }
      }
    }
  }

  /** One index statement per key, the j-th for the j-th key. */
  lemma {:induction false} IndexStatementsEach(cfg: Config, table: string, keys: seq<string>)
    ensures IndexStatements(cfg, table, keys).Ok? <==>
              forall j :: 0 <= j < |keys| ==> IndexStatement(cfg, table, keys[j]).Ok?
    ensures IndexStatements(cfg, table, keys).Ok? ==>
              var ss := IndexStatements(cfg, table, keys).value;
              |ss| == |keys| && forall j :: 0 <= j < |keys| ==> IndexStatement(cfg, table, keys[j]) == Ok(ss[j])
    decreases |keys|
  {
    if |keys| > 0 {
      var init := keys[..|keys| - 1];
      IndexStatementsEach(cfg, table, init);
      assert forall j :: 0 <= j < |init| ==> init[j] == keys[j];
    }
  }

  /** An index statement fails exactly when one of the identifiers it names contains '"'. */
  lemma IndexStatementFails(cfg: Config, table: string, key: string)
    ensures IndexStatement(cfg, table, key).Err? <==>
              '"' in table || '"' in key || (cfg.schema.Some? && '"' in cfg.schema.value)
  {
    assert '"' in table + "_" + key + "_idx" <==> '"' in table || '"' in key;
  }

  /**
   * The shape of the result: the CREATE TABLE statement over the leading
   * surrogate column (if any) and the fields' lines comes first, followed by
   * exactly one index statement per indexed key, in order.
   */
  lemma CreateStatementsShape(cfg: Config, table: string, fields: seq<SyncField>, indexed: set<string>)
    requires CreateStatements(cfg, table, fields, indexed).Ok?
    ensures var stmts := CreateStatements(cfg, table, fields, indexed).value;
            var keys := IndexedKeys(cfg, fields, indexed);
            && |stmts| == 1 + |keys|
            && stmts[0][..13] == "CREATE TABLE "
            && stmts[0] == CreateTableStatement(PostgresTableName(cfg, table).value,
                                                LeadingColumns(cfg) + ColumnLines(cfg, fields).value)
            && forall j :: 0 <= j < |keys| ==> IndexStatement(cfg, table, keys[j]) == Ok(stmts[j + 1])
  {
    IndexStatementsEach(cfg, table, IndexedKeys(cfg, fields, indexed));
  }

  /**
   * The build is refused exactly when an identifier it would write contains
   * '"': a field name, the table name, the schema, or the key of an indexed
   * field. Unknown field types never make it fail.
   */
  lemma CreateStatementsFailIff(cfg: Config, table: string, fields: seq<SyncField>, indexed: set<string>)
    ensures CreateStatements(cfg, table, fields, indexed).Err? <==>
              || (exists i :: 0 <= i < |fields| && '"' in fields[i].1.name)
              || '"' in table
              || (cfg.schema.Some? && '"' in cfg.schema.value)
              || (exists k :: k in IndexedKeys(cfg, fields, indexed) && '"' in k)
  {
    ColumnLinesOkIff(cfg, fields);
    var keys := IndexedKeys(cfg, fields, indexed);
    IndexStatementsEach(cfg, table, keys);
    forall j | 0 <= j < |keys|
      ensures IndexStatement(cfg, table, keys[j]).Err? <==>
                '"' in table || '"' in keys[j] || (cfg.schema.Some? && '"' in cfg.schema.value)
    {
      IndexStatementFails(cfg, table, keys[j]);
    }
  }

  /** The warnings name exactly the calculated fields... */
  lemma {:induction false} CalculatedWarnings(fields: seq<SyncField>, compound: set<string>, key: string)
    ensures CalculateLocally(key) in Warnings(fields, compound) <==>
              exists i :: 0 <= i < |fields| && fields[i].0 == key && fields[i].1.calculated
    decreases |fields|
  {
    if |fields| > 0 {
      var init := fields[..|fields| - 1];
      CalculatedWarnings(init, compound, key);
      assert forall i :: 0 <= i < |init| ==> init[i] == fields[i];
    }
  }

  /** ... and the compound ones. */
  lemma {:induction false} CompoundWarnings(fields: seq<SyncField>, compound: set<string>, key: string)
    ensures ComposeLocally(key) in Warnings(fields, compound) <==>
              key in compound && exists i :: 0 <= i < |fields| && fields[i].0 == key
    decreases |fields|
  {
    if |fields| > 0 {
      var init := fields[..|fields| - 1];
      CompoundWarnings(init, compound, key);
      assert forall i :: 0 <= i < |init| ==> init[i] == fields[i];
    }
  }

  // ---------------------------------------------------------------------------
  // One field at a time
  // ---------------------------------------------------------------------------

  /** The warnings grow by one field's warnings. */
  lemma WarningsStep(fields: seq<SyncField>, i: int, compound: set<string>)
    requires 0 <= i < |fields|
    ensures Warnings(fields[..i + 1], compound) ==
              Warnings(fields[..i], compound) + FieldWarnings(fields[i].0, fields[i].1, compound)
  {
    assert fields[..i + 1][..i] == fields[..i];
    assert fields[..i + 1][i] == fields[i];
  }

  /** The indexed keys grow by the next field's key when it is eligible. */
  lemma IndexedKeysStep(cfg: Config, fields: seq<SyncField>, i: int, indexed: set<string>)
    requires 0 <= i < |fields|
    ensures IndexEligible(cfg, fields[i], indexed) ==>
              IndexedKeys(cfg, fields[..i + 1], indexed) == IndexedKeys(cfg, fields[..i], indexed) + [fields[i].0]
    ensures !IndexEligible(cfg, fields[i], indexed) ==>
              IndexedKeys(cfg, fields[..i + 1], indexed) == IndexedKeys(cfg, fields[..i], indexed)
  {
    assert fields[..i + 1][..i] == fields[..i];
    assert fields[..i + 1][i] == fields[i];
    assert IndexedKeys(cfg, fields[..i], indexed) + [] == IndexedKeys(cfg, fields[..i], indexed);
  }

  /** The index statements grow by the statement of the next key. */
  lemma IndexStatementsStep(cfg: Config, table: string, keys: seq<string>, key: string)
    requires IndexStatements(cfg, table, keys).Ok?
    ensures var next := IndexStatement(cfg, table, key);
            && (next.Err? ==> IndexStatements(cfg, table, keys + [key]) == Err(next.error))
            && (next.Ok? ==> IndexStatements(cfg, table, keys + [key]) == Ok(IndexStatements(cfg, table, keys).value + [next.value]))
  {
    assert (keys + [key])[..|keys|] == keys;
    assert (keys + [key])[|keys|] == key;
  }

  /** A refused index statement among the first fields is the refusal of all of them. */
  lemma IndexFailureStays(cfg: Config, table: string, fields: seq<SyncField>, k: int, indexed: set<string>)
    requires 0 <= k <= |fields| && IndexStatements(cfg, table, IndexedKeys(cfg, fields[..k], indexed)).Err?
    ensures IndexStatements(cfg, table, IndexedKeys(cfg, fields, indexed)) ==
              IndexStatements(cfg, table, IndexedKeys(cfg, fields[..k], indexed))
  {
    IndexedKeysAppend(cfg, fields[..k], fields[k..], indexed);
    assert fields[..k] + fields[k..] == fields;
    IndexStatementsAppend(cfg, table, IndexedKeys(cfg, fields[..k], indexed), IndexedKeys(cfg, fields[k..], indexed));
  }

  /**
   * When the fields before position `k` give lines and the field at `k` is
   * refused, `k` is the first field whose name has a '"'.
   */
  lemma FirstFailureFound(cfg: Config, fields: seq<SyncField>, k: int, columns: seq<string>)
    requires 0 <= k < |fields|
    requires ConcatResults(Definitions(cfg, fields)[..k]) == Ok(columns)
    requires PostgresColdefFromSffield(cfg, fields[k].1).Err?
    ensures FirstFailureAt(fields, k)
  {
    DefinitionsPrefix(cfg, fields, k);
    ColumnLinesOkIff(cfg, fields[..k]);
    assert forall j :: 0 <= j < k ==> fields[..k][j] == fields[j];
  }

  /** The definitions of the first `k` fields are the first `k` definitions. */
  lemma DefinitionsPrefix(cfg: Config, fields: seq<SyncField>, k: int)
    requires 0 <= k <= |fields|
    ensures Definitions(cfg, fields[..k]) == Definitions(cfg, fields)[..k]
  {
    forall j | 0 <= j < k
      ensures Definitions(cfg, fields[..k])[j] == Definitions(cfg, fields)[..k][j]
    {
      assert fields[..k][j] == fields[j];
    }
  }

  /** After the last field, the prefix specifications describe all the fields. */
  lemma AllFields(cfg: Config, fields: seq<SyncField>, indexed: set<string>, compound: set<string>)
    ensures ColumnLines(cfg, fields[..|fields|]) == ColumnLines(cfg, fields)
    ensures Warnings(fields[..|fields|], compound) == Warnings(fields, compound)
    ensures IndexedKeys(cfg, fields[..|fields|], indexed) == IndexedKeys(cfg, fields, indexed)
  {
    assert fields[..|fields|] == fields;
  }

  /** Before the first field, nothing is indexed. */
  lemma NoFields(cfg: Config, table: string, fields: seq<SyncField>, indexed: set<string>)
    ensures IndexStatements(cfg, table, IndexedKeys(cfg, fields[..0], indexed)) == Ok([])
  {
    assert fields[..0] == [];
  }

  // ---------------------------------------------------------------------------
  // The statement assembler
  // ---------------------------------------------------------------------------

  /**
   * The advisories the first loop of createtable.py get_pgsql_create logs
   * for one field: calculated fields, then compound ones.
   */
  method LogFieldWarnings(fieldName: string, field: Field, compound: set<string>, logged: seq<Warning>)
    returns (warnings: seq<Warning>)
    ensures warnings == logged + FieldWarnings(fieldName, field, compound)
  {
    warnings := logged;
    if field.calculated {
      warnings := warnings + [CalculateLocally(fieldName)];
    }
    if fieldName in compound {
      warnings := warnings + [ComposeLocally(fieldName)];
    }
  }

  /**
   * The first loop of createtable.py get_pgsql_create: the column lines of
   * the sync fields, in declaration order, and the warnings logged for
   * them. When a field's definition is refused, the warnings stop at that
   * field.
   */
  method FieldColumns(cfg: Config, syncFields: seq<SyncField>, compound: set<string>)
    returns (r: Result<seq<string>>, warnings: seq<Warning>)
    ensures r == ColumnLines(cfg, syncFields)
    ensures r.Ok? ==> warnings == Warnings(syncFields, compound)
    ensures r.Err? ==>
              exists k :: FirstFailureAt(syncFields, k) && warnings == Warnings(syncFields[..k + 1], compound)
  {
    ghost var ds := Definitions(cfg, syncFields);
    var columns := [];
    warnings := [];
    var i := 0;
    while i < |syncFields|
      invariant 0 <= i <= |syncFields|
      invariant ConcatResults(ds[..i]) == Ok(columns)
      invariant warnings == Warnings(syncFields[..i], compound)
    {
      var fieldName, field := syncFields[i].0, syncFields[i].1;
      WarningsStep(syncFields, i, compound);
      warnings := LogFieldWarnings(fieldName, field, compound, warnings);
      var definition := PostgresColdefFromSffield(cfg, field);
      assert ds[i] == definition;
      ConcatResultsStep(ds, i, columns);
      if definition.Err? {
        ConcatResultsFailureStays(ds, i + 1);
        FirstFailureFound(cfg, syncFields, i, columns);
        return Err(definition.error), warnings;
      }
      columns := columns + definition.value;
      i := i + 1;
    }
    assert ds[..i] == ds;
    AllFields(cfg, syncFields, {}, compound);
    r := Ok(columns);
  }

  /**
   * The second loop of createtable.py get_pgsql_create: one CREATE INDEX
   * statement per eligible field, in declaration order, or the first
   * refusal.
   */
  method FieldIndexes(cfg: Config, tableName: string, syncFields: seq<SyncField>, indexed: set<string>)
    returns (r: Result<seq<string>>)
    ensures r == IndexStatements(cfg, tableName, IndexedKeys(cfg, syncFields, indexed))
  {
    var statements := [];
    NoFields(cfg, tableName, syncFields, indexed);
    var j := 0;
    while j < |syncFields|
      invariant 0 <= j <= |syncFields|
      invariant IndexStatements(cfg, tableName, IndexedKeys(cfg, syncFields[..j], indexed)) == Ok(statements)
    {
      var fieldName, field := syncFields[j].0, syncFields[j].1;
      IndexedKeysStep(cfg, syncFields, j, indexed);
      // the primary key is already indexed; other fields need both the name and the flag
      if !(fieldName == "Id" && !cfg.renameId) && fieldName in indexed && Truthy(field.isIndexed) {
        var statement := IndexStatement(cfg, tableName, fieldName);
        IndexStatementsStep(cfg, tableName, IndexedKeys(cfg, syncFields[..j], indexed), fieldName);
        if statement.Err? {
          IndexFailureStays(cfg, tableName, syncFields, j + 1, indexed);
          return Err(statement.error);
        }
        statements := statements + [statement.value];
      }
      j := j + 1;
    }
    AllFields(cfg, syncFields, indexed, {});
    r := Ok(statements);
  }

  /**
   * createtable.py get_pgsql_create. The metadata lookup is given as its three
   * answers: the sync fields in declaration order, the set of indexed field
   * names and the set of compound field names. Returns the statements (or
   * the first refusal) and the warnings logged on the way; when a field's
   * definition is refused, the warnings stop at that field.
   */
  method GetPgsqlCreate(cfg: Config, tableName: string, syncFields: seq<SyncField>,
                        indexed: set<string>, compound: set<string>)
    returns (r: Result<seq<string>>, warnings: seq<Warning>)
    ensures r == CreateStatements(cfg, tableName, syncFields, indexed)
    ensures ColumnLines(cfg, syncFields).Ok? ==> warnings == Warnings(syncFields, compound)
    ensures ColumnLines(cfg, syncFields).Err? ==>
              exists k :: FirstFailureAt(syncFields, k) && warnings == Warnings(syncFields[..k + 1], compound)
  {
    var columns;
    columns, warnings := FieldColumns(cfg, syncFields, compound);
    if columns.Err? {
      return Err(columns.error), warnings;
    }
    // the surrogate key column, if any, comes before the fields
    var lines := LeadingColumns(cfg) + columns.value;
    var qualified := PostgresTableName(cfg, tableName);
    if qualified.Err? {
      return Err(qualified.error), warnings;
    }
    var statements := [CreateTableStatement(qualified.value, lines)];
    var indexes := FieldIndexes(cfg, tableName, syncFields, indexed);
    if indexes.Err? {
      return Err(indexes.error), warnings;
    }
    r := Ok(statements + indexes.value);
  }

}

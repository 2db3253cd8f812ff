# pgsf createtable: the Salesforce-to-PostgreSQL mapping engine

This project models the mapping engine of `createtable.py`. The engine turns
Salesforce field descriptors into PostgreSQL DDL and turns Salesforce JSON
values into CSV cells. The model covers these parts:

- the type mapper, which gives a column type for each Salesforce type tag and
  a visible `"<type>" NOT IMPLEMENTED ` placeholder for an unknown tag;
- the CSV cell encoder and the SQL constant encoder;
- identifier quoting, and table names qualified by a schema;
- the column builder, which expands an address into seven sub-columns and
  writes the `Id` key and the NOT NULL / DEFAULT / UNIQUE constraints;
- the statement assembler, which writes one CREATE TABLE statement and then
  the CREATE INDEX statements.

Modules:

- `Text` (`text.dfy`): delimiter doubling and the reader that undoes it,
  decimal text of integers and its parser, and `Join`.
  - Quoting is checked against an independent reader. It reads a literal the
    way an SQL lexer reads a `'…'` constant or a `"…"` identifier, and the way
    a CSV reader reads a quoted field under rule 7 of section 2 of RFC 4180.
    Round-trips are proved in both directions.
- `Salesforce` (`salesforce.dfy`): JSON values with Python's truthiness and
  `str()`, the field descriptor, the configuration flags, errors and warnings.
- `Encoders` (`encoders.dfy`): `postgres_type_raw`, `csv_quote`,
  `postgres_json_to_csv`, `postgres_escape_str` and `postgres_const`.
  - The classification by type tag is written as the source writes it, a
    chain of string tests.
  - It is proved equal to a lookup table from tag to column kind.
- `CreateTable` (`createtable.dfy`): `postgres_escape_name`,
  `postgres_table_name`, `postgres_coldef_from_sffield` and `get_pgsql_create`.
  - `get_pgsql_create` is an imperative method. Its two loops are proved
    against the functions `ColumnLines`, `Warnings`, `IndexedKeys` and
    `IndexStatements` over the prefix of fields processed so far.
  - Separate lemmas prove the properties of those functions.

An `assert '"' not in name` in the source becomes an error
`Err(UnsafeIdentifier(name))`. The error propagates to the caller in the same
order the Python evaluation would raise it. Calling `value.replace` on a
non-string value in a text-typed CSV cell raises in Python. It becomes
`Err(NotText(value))`.

## Model

| member | source | states |
|---|---|---|
| Encoders.FieldKindFollowsTable | createtable.py:10-27 | The tag tests of the source classify a tag exactly when it is in the lookup table, and always as the table says |
| Encoders.PostgresTypeRaw | createtable.py:10-27 | The result is a NOT IMPLEMENTED placeholder exactly when the tag is unknown, and the tag can be read back from it |
| Encoders.TypeRawFollowsTable | createtable.py:10-27 | A known tag gives its table kind's clause (VARCHAR(byteLength), INTEGER, DATE, TIMESTAMP, BOOLEAN, DOUBLE PRECISION); only an unknown tag gives a placeholder, and the placeholder carries that tag |
| Encoders.SentinelRoundTrip | createtable.py:26-27 | The placeholder starts with `"`, ends with `" NOT IMPLEMENTED `, and the type name between them is recovered exactly |
| Encoders.VarCharCarriesByteLength | createtable.py:12-15 | A text-like field's type is `VARCHAR(` + digits + `)`, and those digits read back as the field's byte length |
| Encoders.UnknownTypeExample | createtable.py:26-27 | The tag `geolocation` gives `"geolocation" NOT IMPLEMENTED ` |
| Encoders.CsvQuote | createtable.py:35-37 | A CSV reader reads the cell back as the original text, as one whole field with nothing left over |
| Encoders.CsvQuoteExample | createtable.py:35-37 | `6" pipe` becomes the cell `"6"" pipe"` |
| Encoders.PostgresJsonToCsv | createtable.py:30-57 | A missing value is an empty cell whatever the type. A text type gives a cell that reads back as the string, and fails exactly on a non-string. A boolean gives `t`/`f` by truthiness. Numbers, dates and times give `str()`, and an integer cell reads back as the integer. An unknown type gives the type mapper's placeholder |
| Encoders.PostgresEscapeStr | createtable.py:60-61 | The constant is `'`-delimited, and an SQL lexer reads it back as the original text and as exactly one token |
| Encoders.EscapeStrExample | createtable.py:60-61 | `O'Brien` becomes `'O''Brien'` |
| Encoders.PostgresConst | createtable.py:82-90 | A string gives its escaped constant, which reads back as the string. A boolean gives TRUE or FALSE by its value. An integer gives Python's decimal text of it (no leading zeros, `-` only for negatives), which parses back to it. A float gives its `str()` text. Anything else gives NOTIMPLEMENTED |
| Text.QuotedRoundTrip | createtable.py:60-61 | Reading a quoted literal gives back the text and stops just after the closing delimiter, whatever follows, unless what follows starts with another delimiter |
| Text.ReadLiteralInverse | createtable.py:60-61 | Every literal the reader accepts is the quoting of what it decodes, so quoting is the only encoding |
| Text.IntDecimalRoundTrip | createtable.py:87-88 | Python's `str()` of an integer parses back to that integer, negative ones included |
| CreateTable.PostgresEscapeName | createtable.py:64-69 | A name is refused exactly when it contains `"`. Otherwise it is returned double-quoted when quoting is configured, and unchanged when it is not |
| CreateTable.QuotedNameReads | createtable.py:64-67 | A quoted identifier reads back as the name, as one whole token |
| CreateTable.PostgresTableName | createtable.py:72-79 | A schema, when configured, is prefixed as escape(schema) + `.` + escape(name); with no schema the result is escape(name). The result is refused exactly when the schema or the name contains `"`, and the schema is reported first |
| CreateTable.QualifiedNameReads | createtable.py:72-79 | A quoted qualified name reads as the schema followed by `.` and the table identifier; the dot never becomes part of the schema |
| CreateTable.AddressBase | createtable.py:98-100 | A name ending in `Address` loses exactly that suffix; any other name is kept |
| CreateTable.AddressColdefs | createtable.py:101-116 | The sub-column list has one line per sub-column suffix |
| CreateTable.AddressColdefsFail | createtable.py:101-116 | The sub-columns are refused exactly when the base name contains `"`, and the first sub-column's name is the one reported |
| CreateTable.AddressSubColumns | createtable.py:101-116 | The i-th line is `" " + escape(base + i-th suffix) + " " + i-th type` (Street VARCHAR(255) … Longitude DOUBLE PRECISION) |
| CreateTable.AddressLines | createtable.py:97-116 | An address field whose name has no `"` gives exactly seven lines; the i-th is `" " + escape(AddressBase(name) + suffix i) + " " + type i`, Street VARCHAR(255) through Longitude DOUBLE PRECISION |
| CreateTable.AddressIgnoresConstraints | createtable.py:97-116 | An address expands the same way whatever its nillable, unique and default entries say |
| CreateTable.Constraints | createtable.py:117-129 | PRIMARY KEY is present exactly for `Id` without renaming; a renamed `Id` has no constraints. Any other field has NOT NULL iff not nillable, DEFAULT(const) iff its default is truthy, and UNIQUE iff unique, each at most once and in that order |
| CreateTable.ScalarColdef | createtable.py:117-130 | A non-address field gives exactly one line, and is refused exactly when its name contains `"` |
| CreateTable.OtherConstraintsRender | createtable.py:123-129 | Rendering the constraint list of a field other than `Id` gives the NOT NULL / DEFAULT / UNIQUE text the chain of ifs appends |
| CreateTable.OtherColdefLine | createtable.py:123-130 | The line of a field other than `Id` is the escaped name, then the column type, then that constraint text |
| CreateTable.ColdefRendersConstraints | createtable.py:117-130 | A non-address field's single line is `" " + escape(column name) + " " + type + rendered constraints`. The column name is `SfId` for a renamed `Id` |
| CreateTable.PostgresColdefFromSffield | createtable.py:93-130 | An address gives seven lines and any other field one. The result is refused exactly when the field name contains `"`, and the first identifier that cannot be written is the one reported |
| CreateTable.PrimaryKeyExample | createtable.py:117-122 | `Id` of type `id` and length 18, quoted and not renamed, gives ` "Id" VARCHAR(18) PRIMARY KEY` |
| CreateTable.ColumnLinesAppend | createtable.py:144-151 | The column lines of a + b are those of a followed by those of b; the first refusal wins |
| CreateTable.ColumnLinesOkIff | createtable.py:144-151 | The column list is built exactly when no field name contains `"` |
| CreateTable.ColumnLinesCount | createtable.py:144-151 | The column list has seven lines per address field and one per other field |
| CreateTable.ColumnLinesInFieldOrder | createtable.py:144-151 | When no field is an address, the i-th column line is the i-th field's definition |
| CreateTable.CalculatedWarnings | createtable.py:145-147 | A "calculate locally" warning names a key exactly when that field is calculated |
| CreateTable.CompoundWarnings | createtable.py:148-150 | A "compose locally" warning names a key exactly when that key is a sync field and compound |
| CreateTable.LogFieldWarnings | createtable.py:145-150 | One field adds its calculated warning, then its compound warning, to those logged before it |
| CreateTable.FieldColumns | createtable.py:143-151 | The loop gives the column lines of all the fields, or the first refusal. On success the warnings are those of every field. On refusal they stop at the first field whose name contains `"` |
| CreateTable.IndexedKeysMembership | createtable.py:158-164 | A key gets an index exactly when some field with that key is in the indexed set and has a truthy `IsIndexed`, and is not the unrenamed `Id` |
| CreateTable.IndexedKeysAppend | createtable.py:159-170 | The indexed keys of a + b are those of a followed by those of b, so declaration order is kept |
| CreateTable.NoIndexForPrimaryKey | createtable.py:160-161 | Without renaming, `Id` is never indexed |
| CreateTable.RenamedIdIsIndexedByOriginalName | createtable.py:160-170 | With renaming, `Id` is indexed like any other field, and its index statement ends with `(` + escape(`Id`) + `);`, so it names the column `Id`, not `SfId` |
| CreateTable.IndexStatementsEach | createtable.py:159-170 | There is one index statement per indexed key, the j-th for the j-th key; the list is built exactly when every statement is |
| CreateTable.IndexStatementFails | createtable.py:165-170 | An index statement is refused exactly when the table name, the key or the schema contains `"` |
| CreateTable.FieldIndexes | createtable.py:158-170 | The second loop gives the index statements of the indexed keys, in field order, or the first refusal |
| CreateTable.CreateStatementsShape | createtable.py:152-171 | Statement 0 is `CREATE TABLE <qualified> (\n` + (serial column if renamed, then column lines) joined by `,\n` + `\n);`. Exactly one index statement per indexed key follows, in order |
| CreateTable.CreateStatementsFailIff | createtable.py:133-171 | The build is refused exactly when a field name, the table name, the schema or an indexed key contains `"`. Unknown types never make it fail |
| CreateTable.GetPgsqlCreate | createtable.py:133-171 | The method returns exactly the statements specified by `CreateStatements` and logs the warnings that `Warnings` specifies. When a field is refused, the warnings stop at that field |

## Left out

- postgres.py, the database connection, is I/O through a foreign library. It is not part of this model.
- The command-line block (createtable.py:174-201) is left out: argument parsing, printing, executing statements and committing.
- Logging is modelled as a returned list of warnings. The debug message and the logger configuration are not modelled.
- `TableDesc` and `config` are not part of this model. The configuration is a `Config` record. The table description is given as three inputs:
  - the sync fields as an ordered sequence of (key, descriptor) pairs;
  - the set of indexed field names;
  - the set of compound field names.
- Key uniqueness of the sync-field dictionary is not enforced on the sequence. Every property holds for any sequence.
- The text of Python's `str()` for floats and for dates and times is not modelled. It is carried as given text in `JsonValue.Float` and `JsonValue.Other`, and so is the truthiness of those values. Integers are rendered exactly.
- GetPgsqlCreate: the serial column is put in front of the field lines after the first loop, rather than being the initial value of the list the loop grows. The resulting list is the same.
- GetPgsqlCreate: the two loops are the methods FieldColumns and FieldIndexes. The second loop calls `postgres_table_name` once per index statement, and so does the model.
- AddressColdefs: the seven sub-columns are generated from a table of (suffix, type) pairs rather than written out one by one. The names, types and order are those of createtable.py:101-116.
- A renamed `Id` (the column `SfId`) gets no constraint at all, whatever its nillable, unique and default entries say (createtable.py:118-122); it is not treated like an ordinary column, and the model follows that.

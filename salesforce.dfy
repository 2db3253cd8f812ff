/**
 * The records the mapping engine works on: Salesforce JSON values, field
 * descriptors, the configuration flags it reads, its error outcomes and the
 * advisory warnings it logs.
 */
module Salesforce {
  import opened Text

  /**
   * A value decoded from a Salesforce JSON document, with Python's dynamic
   * typing made explicit. For a floating-point number and for a JSON array
   * or object, the text Python's str() gives and Python's truthiness of the
   * value are taken as given.
   */
  datatype JsonValue =
    | Null
    | Bool(b: bool)
    | Int(i: int)
    | Float(text: string, isZero: bool)
    | Str(s: string)
    | Other(text: string, isEmpty: bool)

  /** Python's truthiness (`if value:`). */
  predicate Truthy(v: JsonValue)
  {
    match v
    case Null => false
    case Bool(b) => b
    case Int(i) => i != 0
    case Float(_, isZero) => !isZero
    case Str(s) => s != ""
    case Other(_, isEmpty) => !isEmpty
  }

  /** Python's str(value). */
  function PyStr(v: JsonValue): string
  {
    match v
    case Null => "None"
    case Bool(b) => if b then "True" else "False"
    case Int(i) => IntToDecimal(i)
    case Float(text, _) => text
    case Str(s) => s
    case Other(text, _) => text
  }

  /**
   * One Salesforce field descriptor: the entries of the describe record that
   * the mapping reads. `isIndexed` is the value of the optional `IsIndexed`
   * entry (Null when it is missing).
   */
  datatype Field = Field(
    name: string,
    sfType: string,
    byteLength: int,
    nillable: bool,
    unique: bool,
    defaultValue: JsonValue,
    calculated: bool,
    isIndexed: JsonValue)

  /**
   * The configuration the mapping reads: quote identifiers, an optional
   * schema to qualify table names with, and whether a surrogate `id SERIAL`
   * key replaces the Salesforce `Id` as primary key.
   */
  datatype Config = Config(quoteNames: bool, schema: Option<string>, renameId: bool)

  /** The ways the mapping can fail instead of producing text. */
  datatype Error =
    | UnsafeIdentifier(name: string)  // an identifier containing '"'
    | NotText(value: JsonValue)       // a text-typed cell whose value is not a string

  datatype Result<T> = Ok(value: T) | Err(error: Error)
  {
    predicate IsFailure()
    {
      Err?
    }

    function PropagateFailure<U>(): Result<U>
      requires Err?
    {
      Err(error)
    }

    function Extract(): T
      requires Ok?
    {
      value
    }
  }

  /** Advisory diagnostics about a sync field (they never block the build). */
  datatype Warning =
    | CalculateLocally(field: string)  // the field is calculated by Salesforce
    | ComposeLocally(field: string)    // the field is a compound of other fields
}

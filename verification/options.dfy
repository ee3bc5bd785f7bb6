/**
 * The option sets that callers hand to the validator and to the client: a PHP
 * array from field name to a scalar, which is either a string or an integer.
 */
module Options {

  datatype Value = Str(s: string) | Int(i: int)

  /** Field name to value; PHP keys are unique, so a map. */
  type OptionSet = map<string, Value>
}

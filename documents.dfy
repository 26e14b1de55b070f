/**
 * The MongoDB values this model handles: documents as maps from field name to value,
 * and the error objects the driver hands to callbacks.
 */
module Documents {

  /** JavaScript strings, as sequences of characters. */
  type Text = seq<char>

  /**
   * A field value. Only strings and dates are inspected; every other BSON value
   * (numbers, arrays, sub-documents, ...) is kept as an opaque representation.
   */
  datatype Value = Str(text: Text) | Date(epochMillis: int) | Other(repr: Text)

  /** A document: its fields and their values. */
  type Doc = map<Text, Value>

  /** An error object passed to a driver callback (a non-null `err`). */
  datatype DbError = DbError(message: Text)
}

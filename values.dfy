/**
 * Shared value types of the annotated data model: optional values, results
 * carrying a decoding failure, the untyped values that fill an open
 * "extended properties" bag, and the base attribute record (a half-open
 * character span plus its own bag).
 */
module Values {

  /** A Java reference that may be null. */
  datatype Option<+T> = None | Some(value: T)

  /** The outcome of an operation that may throw. */
  datatype Result<+T, +E> = Success(value: T) | Failure(error: E) {
    predicate IsFailure() { Failure? }

    function PropagateFailure<U>(): Result<U, E>
      requires Failure?
    {
      Failure(error)
    }

    function Extract(): T
      requires Success?
    {
      value
    }

    /** The value, or a fallback when this is a failure. */
    function GetOr(fallback: T): T {
      if Success? then value else fallback
    }
  }

  /** The range of java.lang.Integer. */
  type Int32 = x: int | -0x8000_0000 <= x < 0x8000_0000

  /**
   * An untyped value as the generic JSON engine leaves it in a bag: JSON null,
   * a 32-bit integer (java.lang.Integer), a boolean, a string, an array of
   * values, or anything else (an object, a floating-point or long number).
   */
  datatype Value =
    | JNull
    | JInt(i: Int32)
    | JBool(b: bool)
    | JString(s: string)
    | JArray(items: seq<Value>)
    | JOther(description: string)

  /** An open, string-keyed property bag ("extended properties"). */
  type Bag = map<string, Value>

  /** The base attribute record: a half-open span [startOffset, endOffset) and a bag. */
  datatype Attribute = Attribute(startOffset: int, endOffset: int, extendedProperties: Bag)
}

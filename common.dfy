/** Shared vocabulary of the funds-movement core: optional (nullable) values,
    customer identity, and the two ways an operation can go wrong. */
module Common {

  /** A value that may be absent; stands for a nullable Java reference. */
  datatype Option<T> = None | Some(value: T)

  /** A customer as this core sees it: an identity that can be compared for
      equality and nothing more. */
  datatype Customer = Customer(key: nat)

  /** The exceptions the core throws. Every deliberate check throws an
      IllegalArgumentException with a message; one message ends with a
      decimal amount, kept here as the prefix and the amount. Dereferencing a
      missing account before its null check throws a NullPointerException. */
  datatype Error =
    | IllegalArgument(message: string)
    | IllegalArgumentWithAmount(prefix: string, amount: real)
    | NullPointer

  /** The result of an operation that returns a value or throws. */
  datatype Result<T> = Ok(value: T) | Err(error: Error)

  /** The result of an operation that returns nothing or throws. */
  datatype Outcome = Pass | Fail(error: Error)

  /** A sequence in which no element occurs twice. */
  predicate NoDuplicates<T(==)>(s: seq<T>)
  {
    forall i, j :: 0 <= i < j < |s| ==> s[i] != s[j]
  }
}

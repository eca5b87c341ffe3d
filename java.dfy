/** Java's two ways of saying "no value" that the dispatcher relies on:
    a null reference and a thrown exception. */
module Java {

  /** A Java reference that may be null. `JString` is a nullable `String`. */
  datatype Nullable<+T> = Null | Ref(value: T)

  type JString = Nullable<string>

  /** The result of calling a collaborator that either returns a value or throws. */
  datatype Call<+T> = Returns(value: T) | Throws

  /** A void collaborator call: it completes, or it throws an exception whose
      `toString()` text is `text`. */
  datatype Outcome = Pass | Fail(text: string)
}

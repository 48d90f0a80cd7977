/** `ParameterInitializer`: an immutable pair of a description (used in test
    names) and the text of the expression that initializes a parameter. */
module ParameterInitializers {
  import opened Wrappers
  import opened JavaLang

  /** Both fields are final: a value never changes once built. The source class
      has no equality of its own, so two initializers are told apart by position
      in the sequences below, never merged. */
  datatype ParameterInitializer = ParameterInitializer(description: string, initializerText: string)

  /** An entry of a rule's invalid-initializer mapping: the initializer and the
      exception class a constructor is expected to throw when given it. */
  datatype InvalidInitializer = InvalidInitializer(initializer: ParameterInitializer, expected: ExceptionClass)

  /** The constructor: a missing (null) argument is rejected with a
      NullPointerException, the description being checked first; otherwise
      `getDescription` and `getInitializerText` give back exactly the arguments. */
  function NewParameterInitializer(description: Option<string>, initializerText: Option<string>)
    : (r: Throws<ParameterInitializer>)
    ensures r.Success? <==> description.Some? && initializerText.Some?
    ensures r.Success? ==>
              r.value.description == description.value && r.value.initializerText == initializerText.value
    ensures description.None? ==> r == Failure(Thrown(NullPointerException, "description cannot be null."))
    ensures description.Some? && initializerText.None? ==>
              r == Failure(Thrown(NullPointerException, "initializerText cannot be null."))
  {
    if description.None? then Failure(Thrown(NullPointerException, "description cannot be null."))
    else if initializerText.None? then Failure(Thrown(NullPointerException, "initializerText cannot be null."))
    else Success(ParameterInitializer(description.value, initializerText.value))
  }
}

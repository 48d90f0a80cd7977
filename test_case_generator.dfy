/** `TestCaseGenerator`: one JUnit test case per invalid initializer of every rule
    of every selected constructor. The test case declares one variable per
    parameter (the rule under test with its invalid initializer, every other rule
    with its first valid one), calls the constructor with them and expects the
    initializer's exception. */
module TestCaseGenerators {
  import opened Wrappers
  import opened JavaLang
  import opened Psi
  import opened ParameterInitializers
  import opened ParameterRules
  import opened PsiUtilities
  import AbstractParameterRules
  import NumericParameterRules
  import IntegerParameterRules

  // ---------------------------------------------------------------------------
  // Generated code

  /** `Type name = initializer;` */
  datatype Declaration = Declaration(name: string, psiType: PsiType, initializerText: string)

  /** A generated test method: its name, its `@Test` annotation, the variable
      declarations of its body and the closing constructor call. */
  datatype TestCase = TestCase(name: string, annotation: string, body: seq<Declaration>, invocation: string)

  /** The elements of a Java file that the generator reads or writes. */
  datatype FileElement =
    | PackageStatement(packageName: string)
    | ImportStatement(isStatic: bool, reference: string)
    | ClassDeclaration(name: string)

  const MOCK_IMPORT: FileElement := ImportStatement(true, "org.mockito.Mockito.mock")
  const TEST_IMPORT: FileElement := ImportStatement(false, "org.junit.Test")

  const CONSTRUCTOR_BASE := "constructor"
  const THROWS := "_throws"
  const ANNOTATION_OPEN := "@Test(expected = "
  const ANNOTATION_CLOSE := ".class)"
  const NEW := "new "
  const ARGUMENT_SEPARATOR := ", "
  const INVOCATION_CLOSE := ");"
  const NO_BODY := "Unable to retrieve body for "
  const NOT_AN_IDENTIFIER := "' is not an identifier."
  const NO_MOCKITO := "Please add Mockito to the project's classpath before proceeding."
  const NO_JUNIT := "Please add JUnit to the project's classpath before proceeding."
  const INVALID_MAP := "Invalid map of method rules. At least one method's list of parameter rules does not match the method signature for that method."

  /** The test's name: "constructor_", the initializer's description, "_throws"
      and the expected exception's simple name. */
  function TestName(entry: InvalidInitializer): string {
    CONSTRUCTOR_BASE + "_" + entry.initializer.description + THROWS + entry.expected.SimpleName()
  }

  /** The host creates a test method only under a name that is a Java
      identifier; everything in the name but the initializer's description
      already is one. */
  lemma TestNameAccepted(entry: InvalidInitializer)
    ensures IsJavaIdentifier(TestName(entry)) <==> AllIdentifierParts(entry.initializer.description)
  {
    var d := entry.initializer.description;
    var simple := entry.expected.SimpleName();
    var name := TestName(entry);
    assert name[0] == 'c';
    assert name[1..] == "onstructor_" + d + (THROWS + simple);
    SimpleNameIdentifierParts(entry.expected);
    IdentifierPartsAppend(THROWS, simple);
    IdentifierPartsAppend("onstructor_", d);
    IdentifierPartsAppend("onstructor_" + d, THROWS + simple);
  }

  /** A description `name + word + v` is made of identifier characters iff `v`
      is not negative, when `name` and `word` are. */
  lemma BoundaryDescriptionParts(name: string, word: string, v: int)
    requires AllIdentifierParts(name) && AllIdentifierParts(word)
    ensures AllIdentifierParts(name + word + ValueOf(v)) <==> v >= 0
  {
    IdentifierPartsAppend(name, word);
    IdentifierPartsAppend(name + word, ValueOf(v));
    ValueOfIdentifierParts(v);
  }

  /** A negative integer boundary puts a minus sign into the description of
      every invalid initializer of the rule, so the host refuses every test name
      for that rule; a boundary that is not negative, on a parameter whose name
      is made of identifier characters, never does. */
  lemma IntegerBoundaryNamesAccepted(base: AbstractParameterRules.RuleBase, c: NumericParameterRules.NumericConstraint,
                                     v: Int32, k: nat)
    requires c != NumericParameterRules.Any
    requires AllIdentifierParts(base.name)
    requires k < |IntegerParameterRules.InvalidInitializers(base, c, Some(v))|
    ensures IsJavaIdentifier(TestName(IntegerParameterRules.InvalidInitializers(base, c, Some(v))[k])) <==> v >= 0
  {
    var entry := IntegerParameterRules.InvalidInitializers(base, c, Some(v))[k];
    assert AllIdentifierParts(entry.initializer.description) <==> v >= 0 by {
      IntegerDescriptionParts(base, c, v, k);
    }
    TestNameAccepted(entry);
  }

  /** The description of each invalid initializer of a constrained integer rule
      is made of identifier characters iff the boundary is not negative. */
  lemma IntegerDescriptionParts(base: AbstractParameterRules.RuleBase, c: NumericParameterRules.NumericConstraint,
                                v: Int32, k: nat)
    requires c != NumericParameterRules.Any
    requires AllIdentifierParts(base.name)
    requires k < |IntegerParameterRules.InvalidInitializers(base, c, Some(v))|
    ensures AllIdentifierParts(IntegerParameterRules.InvalidInitializers(base, c, Some(v))[k].initializer.description)
            <==> v >= 0
  {
    var entries := IntegerParameterRules.InvalidInitializers(base, c, Some(v));
    var word := BoundaryWord(c, k);
    assert entries[k].initializer.description == base.name + word + ValueOf(v);
    BoundaryDescriptionParts(base.name, word, v);
  }

  /** The word between the parameter's name and the boundary in the description
      of the `k`-th invalid initializer of a constrained integer rule. */
  function BoundaryWord(c: NumericParameterRules.NumericConstraint, k: nat): (r: string)
    ensures AllIdentifierParts(r)
  {
    match c
    case LessEqual => "GreaterThan"
    case Less => if k == 0 then "GreaterThan" else "EqualTo"
    case Equal => if k == 0 then "LessThan" else "GreaterThan"
    case Greater => if k == 0 then "LessThan" else "EqualTo"
    case _ => "LessThan"
  }

  /** `@Test(expected = X.class)` */
  function Annotation(expected: ExceptionClass): string {
    ANNOTATION_OPEN + expected.SimpleName() + ANNOTATION_CLOSE
  }

  /** A test's name ends with the simple name of the exception its annotation
      expects, right after "_throws". */
  lemma NameMatchesAnnotation(entry: InvalidInitializer)
    ensures var name := TestName(entry);
            var suffix := THROWS + entry.expected.SimpleName();
            |suffix| <= |name| && name[|name| - |suffix|..] == suffix
            && Annotation(entry.expected)[|ANNOTATION_OPEN|..|ANNOTATION_OPEN| + |entry.expected.SimpleName()|]
               == entry.expected.SimpleName()
  {
    var name := TestName(entry);
    var simple := entry.expected.SimpleName();
    var stem := CONSTRUCTOR_BASE + "_" + entry.initializer.description;
    assert name == stem + (THROWS + simple);
    assert Annotation(entry.expected) == ANNOTATION_OPEN + simple + ANNOTATION_CLOSE;
    assert (ANNOTATION_OPEN + simple + ANNOTATION_CLOSE)[..|ANNOTATION_OPEN| + |simple|] == ANNOTATION_OPEN + simple;
  }

  // ---------------------------------------------------------------------------
  // What generation reads from a rule

  /** A non-empty list of valid initializers: what `getValidInitializers()` of a
      valid rule returns. */
  type ValidInitializers = s: seq<ParameterInitializer> | |s| >= 1 witness [ParameterInitializer("", "")]

  /** What generation reads from one rule: the rule itself (compared by identity),
      and what `getValidInitializers()` and `getInvalidInitializers()` return or
      throw. Nothing changes a rule while test cases are generated, so these
      values stand for every call made to it. */
  datatype RuleView = RuleView(rule: ParameterRule, valid: Throws<ValidInitializers>, invalid: Throws<seq<InvalidInitializer>>)

  function ViewOf(rule: ParameterRule): (v: RuleView)
    reads rule.Obj()
    ensures v.rule == rule
    ensures v.valid.Success? <==> rule.GetValidInitializers().Success?
    ensures v.valid.Success? ==> v.valid.value == rule.GetValidInitializers().value
    ensures v.valid.Failure? ==> v.valid.error == rule.GetValidInitializers().error
    ensures v.invalid == rule.GetInvalidInitializers()
  {
    var valid := rule.GetValidInitializers();
    RuleView(rule, if valid.Success? then Success(valid.value) else Failure(valid.error), rule.GetInvalidInitializers())
  }

  function ViewsOf(rules: seq<ParameterRule>): (r: seq<RuleView>)
    reads Objects(rules)
    ensures |r| == |rules| && forall i :: 0 <= i < |rules| ==> r[i] == ViewOf(rules[i])
  {
    seq(|rules|, i requires 0 <= i < |rules| reads Objects(rules) => ViewOf(rules[i]))
  }

  /** A constructor to test and what generation reads from its rules. */
  datatype MethodView = MethodView(psiMethod: PsiMethod, views: seq<RuleView>)

  /** The objects behind every rule of every constructor. */
  function AllObjects(methodRules: seq<MethodRules>): set<object> {
    set i, rule | 0 <= i < |methodRules| && rule in methodRules[i].rules :: rule.Obj()
  }

  function MethodViewsOf(methodRules: seq<MethodRules>): (r: seq<MethodView>)
    reads AllObjects(methodRules)
    ensures |r| == |methodRules|
    ensures forall i :: 0 <= i < |methodRules| ==>
              r[i] == MethodView(methodRules[i].psiMethod, ViewsOf(methodRules[i].rules))
  {
    seq(|methodRules|, i requires 0 <= i < |methodRules| reads AllObjects(methodRules) =>
      MethodView(methodRules[i].psiMethod, ViewsOf(methodRules[i].rules)))
  }

  // ---------------------------------------------------------------------------
  // Declarations

  /** The declaration for a parameter in a test of `tested`: the rule under test
      (the same rule object) gets the invalid initializer's text, every other
      rule its first valid initializer's text. */
  function DeclarationFor(v: RuleView, tested: ParameterRule, invalidText: string): Declaration
    requires v.rule == tested || v.valid.Success?
  {
    var text := if v.rule == tested then invalidText else v.valid.value[0].initializerText;
    Declaration(v.rule.Name(), v.rule.Type(), text)
  }

  /** Declaring one parameter: a rule that is not under test and cannot give
      valid initializers throws. */
  function DeclarationOf(v: RuleView, tested: ParameterRule, invalidText: string): Throws<Declaration> {
    if v.rule == tested || v.valid.Success? then Success(DeclarationFor(v, tested, invalidText))
    else Failure(v.valid.error)
  }

  /** The declarations of the first `n` parameters, in order. */
  function Declarations(views: seq<RuleView>, n: nat, tested: ParameterRule, invalidText: string)
    : (r: Throws<seq<Declaration>>)
    requires n <= |views|
    ensures r.Success? ==> |r.value| == n
  {
    if n == 0 then Success([])
    else
      var init :- Declarations(views, n - 1, tested, invalidText);
      var d :- DeclarationOf(views[n - 1], tested, invalidText);
      Success(init + [d])
  }

  /** Declaring succeeds exactly when every rule other than the one under test
      gives valid initializers, and then declares each parameter as
      `DeclarationFor` says. */
  lemma {:induction false} DeclarationsElementwise(views: seq<RuleView>, n: nat, tested: ParameterRule,
                                                   invalidText: string)
    requires n <= |views|
    ensures Declarations(views, n, tested, invalidText).Success? <==>
              forall i :: 0 <= i < n ==> views[i].rule == tested || views[i].valid.Success?
    ensures Declarations(views, n, tested, invalidText).Success? ==>
              forall i :: 0 <= i < n ==>
                Declarations(views, n, tested, invalidText).value[i] == DeclarationFor(views[i], tested, invalidText)
  {
    if n > 0 {
      DeclarationsElementwise(views, n - 1, tested, invalidText);
    }
  }

  /** Once the declarations of a prefix fail, all of them fail the same way. */
  lemma {:induction false} DeclarationsFailurePersists(views: seq<RuleView>, k: nat, n: nat, tested: ParameterRule,
                                                       invalidText: string)
    requires k <= n <= |views| && Declarations(views, k, tested, invalidText).Failure?
    ensures Declarations(views, n, tested, invalidText) == Declarations(views, k, tested, invalidText)
    decreases n - k
  {
    if k < n {
      DeclarationsFailurePersists(views, k, n - 1, tested, invalidText);
    }
  }

  /** The loop of `generateTestCases` that adds one declaration per parameter to
      the test's body. */
  method DeclareVariables(views: seq<RuleView>, tested: ParameterRule, invalidText: string)
    returns (r: Throws<seq<Declaration>>)
    ensures r == Declarations(views, |views|, tested, invalidText)
  {
    var body: seq<Declaration> := [];
    for i := 0 to |views|
      invariant Declarations(views, i, tested, invalidText) == Success(body)
    {
      var v := views[i];
      if v.rule == tested {
        body := body + [Declaration(v.rule.Name(), v.rule.Type(), invalidText)];
      } else {
        if v.valid.Failure? {
          DeclarationsFailurePersists(views, i + 1, |views|, tested, invalidText);
          return Failure(v.valid.error);
        }
        body := body + [Declaration(v.rule.Name(), v.rule.Type(), v.valid.value[0].initializerText)];
      }
    }
    return Success(body);
  }

  // ---------------------------------------------------------------------------
  // The constructor call

  /** The names of the declared variables, in order. */
  function DeclaredNames(body: seq<Declaration>): (r: seq<string>)
    ensures |r| == |body| && forall i :: 0 <= i < |body| ==> r[i] == body[i].name
  {
    seq(|body|, i requires 0 <= i < |body| => body[i].name)
  }

  /** `new Name(a, b, c);` with the declared variables as arguments. */
  function Invocation(methodName: string, body: seq<Declaration>): string {
    NEW + methodName + "(" + Join(DeclaredNames(body), ARGUMENT_SEPARATOR) + INVOCATION_CLOSE
  }

  lemma InvocationParts(methodName: string, body: seq<Declaration>)
    ensures var head := NEW + methodName + "(";
            |head| == |NEW| + |methodName| + 1
            && Invocation(methodName, body) == head + Join(DeclaredNames(body), ARGUMENT_SEPARATOR) + INVOCATION_CLOSE
  {
  }

  /** The k-th declared variable is the k-th argument of the call: it stands
      where the arguments and separators before it end. */
  lemma InvocationPassesEachVariable(methodName: string, body: seq<Declaration>, k: nat)
    requires k < |body|
    ensures var start := |NEW| + |methodName| + 1 + JoinOffset(DeclaredNames(body), ARGUMENT_SEPARATOR, k);
            start + |body[k].name| <= |Invocation(methodName, body)|
            && Invocation(methodName, body)[start..start + |body[k].name|] == body[k].name
  {
    var names := DeclaredNames(body);
    InvocationParts(methodName, body);
    JoinedItemAt(NEW + methodName + "(", names, ARGUMENT_SEPARATOR, INVOCATION_CLOSE, k);
  }

  /** The StringBuilder loop of `generateTestCases` that writes the constructor
      call, with a separator before every argument but the first. */
  method BuildInvocation(methodName: string, body: seq<Declaration>) returns (s: string)
    ensures s == Invocation(methodName, body)
  {
    var builder := NEW + methodName + "(";
    ghost var head := builder;
    ghost var names := DeclaredNames(body);
    var first := true;
    for i := 0 to |body|
      invariant first <==> i == 0
      invariant builder == head + Join(names[..i], ARGUMENT_SEPARATOR)
    {
      ghost var before := builder;
      if !first {
        builder := builder + ARGUMENT_SEPARATOR;
      }
      builder := builder + body[i].name;
      first := false;
      JoinStep(names, ARGUMENT_SEPARATOR, i);
    }
    assert names[..|body|] == names;
    builder := builder + INVOCATION_CLOSE;
    return builder;
  }

  // ---------------------------------------------------------------------------
  // One test case

  /** The test case for one invalid initializer of `tested`. The host refuses
      to create a method whose name is not a Java identifier, and may hand back a
      method without a body (`bodies` false); either stops generation. */
  function TestCaseFor(m: PsiMethod, views: seq<RuleView>, tested: ParameterRule, entry: InvalidInitializer,
                       bodies: bool): Throws<TestCase>
  {
    var name := TestName(entry);
    if !IsJavaIdentifier(name) then Failure(Thrown(IncorrectOperationException, "'" + name + NOT_AN_IDENTIFIER))
    else if !bodies then Failure(Thrown(TestGenerationException, NO_BODY + name))
    else
      var body :- Declarations(views, |views|, tested, entry.initializer.initializerText);
      Success(TestCase(name, Annotation(entry.expected), body, Invocation(m.name, body)))
  }

  /** A generated test case declares every parameter in order, the rule under
      test with the invalid initializer, and calls the constructor with them. */
  lemma TestCaseShape(m: PsiMethod, views: seq<RuleView>, k: nat, entry: InvalidInitializer, bodies: bool)
    requires k < |views|
    requires TestCaseFor(m, views, views[k].rule, entry, bodies).Success?
    ensures var c := TestCaseFor(m, views, views[k].rule, entry, bodies).value;
            var text := entry.initializer.initializerText;
            c.name == TestName(entry) && c.annotation == Annotation(entry.expected)
            && |c.body| == |views|
            && c.body[k] == Declaration(views[k].rule.Name(), views[k].rule.Type(), text)
            && (forall i :: 0 <= i < |views| ==>
                  (views[i].rule == views[k].rule || views[i].valid.Success?)
                  && c.body[i] == DeclarationFor(views[i], views[k].rule, text))
            && c.invocation == Invocation(m.name, c.body)
  {
    DeclarationsElementwise(views, |views|, views[k].rule, entry.initializer.initializerText);
  }

  /** One iteration of the innermost loop of `generateTestCases`. */
  method GenerateTestCase(m: PsiMethod, views: seq<RuleView>, tested: ParameterRule, entry: InvalidInitializer,
                          bodies: bool) returns (r: Throws<TestCase>)
    ensures r == TestCaseFor(m, views, tested, entry, bodies)
  {
    var name := TestName(entry);
    if !IsJavaIdentifier(name) {
      return Failure(Thrown(IncorrectOperationException, "'" + name + NOT_AN_IDENTIFIER));
    }
    var annotation := Annotation(entry.expected);
    if !bodies {
      return Failure(Thrown(TestGenerationException, NO_BODY + name));
    }
    var body := DeclareVariables(views, tested, entry.initializer.initializerText);
    if body.Failure? {
      return body.PropagateFailure();
    }
    var invocation := BuildInvocation(m.name, body.value);
    return Success(TestCase(name, annotation, body.value, invocation));
  }

  // ---------------------------------------------------------------------------
  // Every invalid initializer of one rule

  /** Applying a throwing `f` to the first `n` items in order, stopping at the
      first exception: the shape of a Java for-each loop that adds what each
      call returns to a list. */
  function CollectEach<A, B>(f: A -> Throws<B>, xs: seq<A>, n: nat): Throws<seq<B>>
    requires n <= |xs|
  {
    if n == 0 then Success([])
    else
      var init :- CollectEach(f, xs, n - 1);
      var b :- f(xs[n - 1]);
      Success(init + [b])
  }

  /** Collecting succeeds exactly when every call does. */
  lemma {:induction false} CollectEachSucceeds<A, B>(f: A -> Throws<B>, xs: seq<A>, n: nat)
    requires n <= |xs|
    ensures CollectEach(f, xs, n).Success? <==> forall j :: 0 <= j < n ==> f(xs[j]).Success?
    ensures CollectEach(f, xs, n).Success? ==> |CollectEach(f, xs, n).value| == n
  {
    if n > 0 {
      CollectEachSucceeds(f, xs, n - 1);
    }
  }

  /** The j-th collected value is what the j-th call returned. */
  lemma {:induction false} CollectEachElement<A, B>(f: A -> Throws<B>, xs: seq<A>, n: nat, j: nat)
    requires j < n <= |xs| && CollectEach(f, xs, n).Success?
    ensures f(xs[j]).Success? && |CollectEach(f, xs, n).value| == n
    ensures CollectEach(f, xs, n).value[j] == f(xs[j]).value
  {
    CollectEachSucceeds(f, xs, n);
    if j < n - 1 {
      CollectEachElement(f, xs, n - 1, j);
    }
  }

  /** Once a call throws, collecting throws the same from then on. */
  lemma {:induction false} CollectEachFailurePersists<A, B>(f: A -> Throws<B>, xs: seq<A>, k: nat, n: nat)
    requires k <= n <= |xs| && CollectEach(f, xs, k).Failure?
    ensures CollectEach(f, xs, n) == CollectEach(f, xs, k)
    decreases n - k
  {
    if k < n {
      CollectEachFailurePersists(f, xs, k, n - 1);
    }
  }

  /** The test cases for the first `e` invalid initializers of `tested`. */
  function CasesForEntries(m: PsiMethod, views: seq<RuleView>, tested: ParameterRule,
                           entries: seq<InvalidInitializer>, e: nat, bodies: bool): Throws<seq<TestCase>>
    requires e <= |entries|
  {
    CollectEach((entry: InvalidInitializer) => TestCaseFor(m, views, tested, entry, bodies), entries, e)
  }

  /** One test case per invalid initializer, the j-th for the j-th; generation
      fails exactly when one of them does. */
  lemma CasesForEntriesElementwise(m: PsiMethod, views: seq<RuleView>, tested: ParameterRule,
                                   entries: seq<InvalidInitializer>, e: nat, bodies: bool)
    requires e <= |entries|
    ensures CasesForEntries(m, views, tested, entries, e, bodies).Success? <==>
              forall j :: 0 <= j < e ==> TestCaseFor(m, views, tested, entries[j], bodies).Success?
    ensures CasesForEntries(m, views, tested, entries, e, bodies).Success? ==>
              |CasesForEntries(m, views, tested, entries, e, bodies).value| == e
              && forall j :: 0 <= j < e ==>
                   CasesForEntries(m, views, tested, entries, e, bodies).value[j]
                   == TestCaseFor(m, views, tested, entries[j], bodies).value
  {
    var f := (entry: InvalidInitializer) => TestCaseFor(m, views, tested, entry, bodies);
    CollectEachSucceeds(f, entries, e);
    if CollectEach(f, entries, e).Success? {
      forall j | 0 <= j < e
        ensures CollectEach(f, entries, e).value[j] == f(entries[j]).value
      {
        CollectEachElement(f, entries, e, j);
      }
    }
  }

  /** The test cases for rule `k`: each of its invalid initializers (which an
      invalid integer rule cannot give) yields one. */
  function CasesForRule(m: PsiMethod, views: seq<RuleView>, k: nat, bodies: bool): Throws<seq<TestCase>>
    requires k < |views|
  {
    var entries :- views[k].invalid;
    CasesForEntries(m, views, views[k].rule, entries, |entries|, bodies)
  }

  /** The loop over the invalid initializers of rule `k`. */
  method GenerateForRule(m: PsiMethod, views: seq<RuleView>, k: nat, bodies: bool) returns (r: Throws<seq<TestCase>>)
    requires k < |views|
    ensures r == CasesForRule(m, views, k, bodies)
  {
    var invalid := views[k].invalid;
    if invalid.Failure? {
      return invalid.PropagateFailure();
    }
    var entries := invalid.value;
    var tested := views[k].rule;
    var testCases: seq<TestCase> := [];
    for e := 0 to |entries|
      invariant CasesForEntries(m, views, tested, entries, e, bodies) == Success(testCases)
    {
      var c := GenerateTestCase(m, views, tested, entries[e], bodies);
      if c.Failure? {
        CollectEachFailurePersists((entry: InvalidInitializer) => TestCaseFor(m, views, tested, entry, bodies),
                                   entries, e + 1, |entries|);
        return c.PropagateFailure();
      }
      testCases := testCases + [c.value];
    }
    return Success(testCases);
  }

  // ---------------------------------------------------------------------------
  // Every rule of one constructor

  /** The test cases for the first `n` rules of a constructor, rule by rule. */
  function CasesForRules(m: PsiMethod, views: seq<RuleView>, n: nat, bodies: bool): Throws<seq<TestCase>>
    requires n <= |views|
  {
    if n == 0 then Success([])
    else
      var init :- CasesForRules(m, views, n - 1, bodies);
      var cases :- CasesForRule(m, views, n - 1, bodies);
      Success(init + cases)
  }

  lemma {:induction false} CasesForRulesFailurePersists(m: PsiMethod, views: seq<RuleView>, k: nat, n: nat, bodies: bool)
    requires k <= n <= |views| && CasesForRules(m, views, k, bodies).Failure?
    ensures CasesForRules(m, views, n, bodies) == CasesForRules(m, views, k, bodies)
    decreases n - k
  {
    if k < n {
      CasesForRulesFailurePersists(m, views, k, n - 1, bodies);
    }
  }

  /** Rules keep their order: the cases of the first `k` rules come first. */
  lemma {:induction false} CasesForRulesPrefix(m: PsiMethod, views: seq<RuleView>, k: nat, n: nat, bodies: bool)
    requires k <= n <= |views| && CasesForRules(m, views, n, bodies).Success?
    ensures CasesForRules(m, views, k, bodies).Success?
    ensures CasesForRules(m, views, k, bodies).value <= CasesForRules(m, views, n, bodies).value
    decreases n - k
  {
    if k < n {
      CasesForRulesPrefix(m, views, k, n - 1, bodies);
    }
  }

  /** The loop over the rules of one constructor. */
  method GenerateForMethod(m: PsiMethod, views: seq<RuleView>, bodies: bool) returns (r: Throws<seq<TestCase>>)
    ensures r == CasesForRules(m, views, |views|, bodies)
  {
    var testCases: seq<TestCase> := [];
    for k := 0 to |views|
      invariant CasesForRules(m, views, k, bodies) == Success(testCases)
    {
      var cases := GenerateForRule(m, views, k, bodies);
      if cases.Failure? {
        CasesForRulesFailurePersists(m, views, k + 1, |views|, bodies);
        return cases.PropagateFailure();
      }
      testCases := testCases + cases.value;
    }
    return Success(testCases);
  }

  // ---------------------------------------------------------------------------
  // Every constructor

  /** The test cases for the first `n` constructors, constructor by constructor. */
  function CasesForMethods(methods: seq<MethodView>, n: nat, bodies: bool): Throws<seq<TestCase>>
    requires n <= |methods|
  {
    if n == 0 then Success([])
    else
      var init :- CasesForMethods(methods, n - 1, bodies);
      var entry := methods[n - 1];
      var cases :- CasesForRules(entry.psiMethod, entry.views, |entry.views|, bodies);
      Success(init + cases)
  }

  /** `generateTestCases(methodRules)` */
  function GenerateTestCases(methodRules: seq<MethodRules>, bodies: bool): Throws<seq<TestCase>>
    reads AllObjects(methodRules)
  {
    CasesForMethods(MethodViewsOf(methodRules), |methodRules|, bodies)
  }

  lemma {:induction false} CasesForMethodsFailurePersists(methods: seq<MethodView>, k: nat, n: nat, bodies: bool)
    requires k <= n <= |methods| && CasesForMethods(methods, k, bodies).Failure?
    ensures CasesForMethods(methods, n, bodies) == CasesForMethods(methods, k, bodies)
    decreases n - k
  {
    if k < n {
      CasesForMethodsFailurePersists(methods, k, n - 1, bodies);
    }
  }

  /** Constructors keep the map's order: the cases of the first `k` come first. */
  lemma {:induction false} CasesForMethodsPrefix(methods: seq<MethodView>, k: nat, n: nat, bodies: bool)
    requires k <= n <= |methods| && CasesForMethods(methods, n, bodies).Success?
    ensures CasesForMethods(methods, k, bodies).Success?
    ensures CasesForMethods(methods, k, bodies).value <= CasesForMethods(methods, n, bodies).value
    decreases n - k
  {
    if k < n {
      CasesForMethodsPrefix(methods, k, n - 1, bodies);
    }
  }

  /** The three nested loops of `generateTestCases`: constructors in the map's
      order, rules in parameter order, invalid initializers in their order. */
  method GenerateAll(methods: seq<MethodView>, bodies: bool) returns (r: Throws<seq<TestCase>>)
    ensures r == CasesForMethods(methods, |methods|, bodies)
  {
    var testCases: seq<TestCase> := [];
    for n := 0 to |methods|
      invariant CasesForMethods(methods, n, bodies) == Success(testCases)
    {
      var cases := GenerateForMethod(methods[n].psiMethod, methods[n].views, bodies);
      if cases.Failure? {
        CasesForMethodsFailurePersists(methods, n + 1, |methods|, bodies);
        return cases.PropagateFailure();
      }
      testCases := testCases + cases.value;
    }
    return Success(testCases);
  }

  // ---------------------------------------------------------------------------
  // How many test cases

  /** The number of invalid initializers a rule gives (none when it throws). */
  function InvalidCount(v: RuleView): nat {
    if v.invalid.Success? then |v.invalid.value| else 0
  }

  /** The invalid initializers of the first `n` rules. */
  function RulesInvalidCount(views: seq<RuleView>, n: nat): nat
    requires n <= |views|
  {
    if n == 0 then 0 else RulesInvalidCount(views, n - 1) + InvalidCount(views[n - 1])
  }

  /** The invalid initializers of every rule of the first `n` constructors. */
  function MethodsInvalidCount(methods: seq<MethodView>, n: nat): nat
    requires n <= |methods|
  {
    if n == 0 then 0
    else MethodsInvalidCount(methods, n - 1) + RulesInvalidCount(methods[n - 1].views, |methods[n - 1].views|)
  }

  lemma {:induction false} CasesForRulesCount(m: PsiMethod, views: seq<RuleView>, n: nat, bodies: bool)
    requires n <= |views| && CasesForRules(m, views, n, bodies).Success?
    ensures |CasesForRules(m, views, n, bodies).value| == RulesInvalidCount(views, n)
  {
    if n > 0 {
      CasesForRulesCount(m, views, n - 1, bodies);
      var entries := views[n - 1].invalid.value;
      CasesForEntriesElementwise(m, views, views[n - 1].rule, entries, |entries|, bodies);
    }
  }

  /** Generation yields exactly one test case per invalid initializer of every
      rule of every constructor. */
  lemma {:induction false} CasesForMethodsCount(methods: seq<MethodView>, n: nat, bodies: bool)
    requires n <= |methods| && CasesForMethods(methods, n, bodies).Success?
    ensures |CasesForMethods(methods, n, bodies).value| == MethodsInvalidCount(methods, n)
  {
    if n > 0 {
      CasesForMethodsCount(methods, n - 1, bodies);
      var entry := methods[n - 1];
      CasesForRulesCount(entry.psiMethod, entry.views, |entry.views|, bodies);
    }
  }

  /** No rule gives an invalid initializer. */
  predicate Quiet(views: seq<RuleView>) {
    forall i :: 0 <= i < |views| ==> views[i].invalid == Success([])
  }

  /** Rules without invalid initializers yield no test case, and no error even
      when the host would give no bodies. */
  lemma {:induction false} CasesForRulesQuiet(m: PsiMethod, views: seq<RuleView>, n: nat, bodies: bool)
    requires n <= |views| && Quiet(views)
    ensures CasesForRules(m, views, n, bodies) == Success([])
  {
    if n > 0 {
      CasesForRulesQuiet(m, views, n - 1, bodies);
      var entries := views[n - 1].invalid.value;
      assert |entries| == 0;
      assert CasesForRule(m, views, n - 1, bodies) == CasesForEntries(m, views, views[n - 1].rule, entries, 0, bodies);
      var none: seq<TestCase> := [];
      assert none + none == none;
      assert CasesForRules(m, views, n, bodies) == Success(none + none);
    }
  }

  lemma {:induction false} CasesForMethodsQuiet(methods: seq<MethodView>, n: nat, bodies: bool)
    requires n <= |methods|
    requires forall i :: 0 <= i < |methods| ==> Quiet(methods[i].views)
    ensures CasesForMethods(methods, n, bodies) == Success([])
  {
    if n > 0 {
      CasesForMethodsQuiet(methods, n - 1, bodies);
      var entry := methods[n - 1];
      CasesForRulesQuiet(entry.psiMethod, entry.views, |entry.views|, bodies);
      var none: seq<TestCase> := [];
      assert none + none == none;
      assert CasesForMethods(methods, n, bodies) == Success(none + none);
    }
  }

  /** Rules at their defaults give no invalid initializer. */
  lemma QuietAtDefaults(rules: seq<ParameterRule>)
    requires AllAtDefaults(rules)
    ensures Quiet(ViewsOf(rules))
  {
    var views := ViewsOf(rules);
    forall i | 0 <= i < |views|
      ensures views[i].invalid == Success([])
    {
      assert rules[i] in rules;
      DefaultsAreValidAndQuiet(rules[i]);
    }
  }

  /** Constructors whose rules are all at their defaults (as the dialog leaves
      them until the user changes one) yield no test case. */
  lemma NothingToGenerateAtDefaults(methodRules: seq<MethodRules>, bodies: bool)
    requires forall i :: 0 <= i < |methodRules| ==> AllAtDefaults(methodRules[i].rules)
    ensures GenerateTestCases(methodRules, bodies) == Success([])
  {
    var methods := MethodViewsOf(methodRules);
    forall i | 0 <= i < |methods|
      ensures Quiet(methods[i].views)
    {
      QuietAtDefaults(methodRules[i].rules);
    }
    CasesForMethodsQuiet(methods, |methods|, bodies);
  }

  // ---------------------------------------------------------------------------
  // Imports

  /** Whether the project's classpath holds Mockito and JUnit. */
  datatype Classpath = Classpath(hasMockito: bool, hasJUnit: bool)

  /** `getImports()`: Mockito's `mock` and JUnit's `Test`, in that order; Mockito is
      looked up first, so a classpath missing both reports Mockito. */
  function GetImports(classpath: Classpath): (r: Throws<seq<FileElement>>)
    ensures r.Success? <==> classpath.hasMockito && classpath.hasJUnit
    ensures r.Success? ==> r.value == [MOCK_IMPORT, TEST_IMPORT]
    ensures !classpath.hasMockito ==> r == Failure(Thrown(TestGenerationException, NO_MOCKITO))
    ensures classpath.hasMockito && !classpath.hasJUnit ==> r == Failure(Thrown(TestGenerationException, NO_JUNIT))
  {
    if !classpath.hasMockito then Failure(Thrown(TestGenerationException, NO_MOCKITO))
    else if !classpath.hasJUnit then Failure(Thrown(TestGenerationException, NO_JUNIT))
    else Success([MOCK_IMPORT, TEST_IMPORT])
  }

  /** `PsiJavaFile.getPackageStatement()`: the file's first package statement. */
  function PackageStatementOf(children: seq<FileElement>): (r: Option<FileElement>)
    ensures r.Some? ==> r.value in children && r.value.PackageStatement?
    ensures r.None? ==> forall i :: 0 <= i < |children| ==> !children[i].PackageStatement?
  {
    if children == [] then None
    else if children[0].PackageStatement? then Some(children[0])
    else PackageStatementOf(children[1..])
  }

  /** Where the imports go: right after the package statement, the last added
      first; at the end of a file without one. */
  function WithImports(children: seq<FileElement>, imports: seq<FileElement>): seq<FileElement> {
    var anchor := PackageStatementOf(children);
    if anchor.None? then children + imports
    else
      var at := IndexOf(children, anchor.value) + 1;
      children[..at] + Reversed(imports) + children[at..]
  }

  /** After the package statement, JUnit's import ends up before Mockito's. */
  lemma ImportsFollowPackageStatement(children: seq<FileElement>)
    requires PackageStatementOf(children).Some?
    ensures var at := IndexOf(children, PackageStatementOf(children).value) + 1;
            WithImports(children, [MOCK_IMPORT, TEST_IMPORT]) == children[..at] + [TEST_IMPORT, MOCK_IMPORT] + children[at..]
  {
    var s := [MOCK_IMPORT, TEST_IMPORT];
    assert s[..1] == [MOCK_IMPORT];
    assert Reversed(s[..1]) == [MOCK_IMPORT] by {
      assert Reversed(s[..1][..0]) == [];
    }
    assert Reversed(s) == [TEST_IMPORT] + Reversed(s[..1]);
  }

  // ---------------------------------------------------------------------------
  // createTestCases

  /** Every constructor comes with exactly one rule per parameter. */
  predicate ArityMatches(methodRules: seq<MethodRules>) {
    forall i :: 0 <= i < |methodRules| ==> |methodRules[i].psiMethod.parameters| == |methodRules[i].rules|
  }

  /** The argument check loop of `createTestCases`. */
  method CheckArity(methodRules: seq<MethodRules>) returns (r: Result<(), Thrown>)
    ensures r.Success? <==> ArityMatches(methodRules)
    ensures r.Failure? ==> r.error == Thrown(IllegalArgumentException, INVALID_MAP)
  {
    for i := 0 to |methodRules|
      invariant forall j :: 0 <= j < i ==> |methodRules[j].psiMethod.parameters| == |methodRules[j].rules|
    {
      if |methodRules[i].psiMethod.parameters| != |methodRules[i].rules| {
        return Failure(Thrown(IllegalArgumentException, INVALID_MAP));
      }
    }
    return Success(());
  }

  /** `createTestCases(testClass, methodRules)`: a rule list of the wrong length is
      rejected before anything is written; otherwise the imports are written
      into the test file first, and then the generated test cases are appended
      to the test class. A failure while generating leaves the imports written
      and the class as it was. */
  method CreateTestCases(testFile: PsiElementList<FileElement>, testClass: PsiElementList<TestCase>,
                         methodRules: seq<MethodRules>, classpath: Classpath, bodies: bool)
    returns (r: Result<(), Thrown>)
    modifies testFile, testClass
    ensures !ArityMatches(methodRules) ==>
              r == Failure(Thrown(IllegalArgumentException, INVALID_MAP))
              && testFile.children == old(testFile.children) && testClass.children == old(testClass.children)
    ensures ArityMatches(methodRules) && GetImports(classpath).Failure? ==>
              r == Failure(GetImports(classpath).error)
              && testFile.children == old(testFile.children) && testClass.children == old(testClass.children)
    ensures ArityMatches(methodRules) && GetImports(classpath).Success? ==>
              testFile.children == WithImports(old(testFile.children), GetImports(classpath).value)
    ensures ArityMatches(methodRules) && GetImports(classpath).Success? && old(GenerateTestCases(methodRules, bodies)).Failure? ==>
              r == Failure(old(GenerateTestCases(methodRules, bodies)).error) && testClass.children == old(testClass.children)
    ensures ArityMatches(methodRules) && GetImports(classpath).Success? && old(GenerateTestCases(methodRules, bodies)).Success? ==>
              r.Success? && testClass.children == old(testClass.children) + old(GenerateTestCases(methodRules, bodies)).value
  {
    var methods := MethodViewsOf(methodRules);
    var arity := CheckArity(methodRules);
    if arity.Failure? {
      return arity;
    }
    var imports := GetImports(classpath);
    if imports.Failure? {
      return Failure(imports.error);
    }
    var anchor := PackageStatementOf(testFile.children);
    var added := AddElements(testFile, imports.value, anchor);
    var testCases := GenerateAll(methods, bodies);
    if testCases.Failure? {
      return Failure(testCases.error);
    }
    added := AddElements(testClass, testCases.value, None);
    return Success(());
  }
}

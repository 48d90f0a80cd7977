/** `ParameterRule`: the interface every rule implements. A rule is one of the
    three rule classes; two rules are the same rule only when they are the same
    object, as with Java's default `equals`. */
module ParameterRules {
  import opened Wrappers
  import opened JavaLang
  import opened Psi
  import opened ParameterInitializers
  import opened AbstractParameterRules
  import opened NumericParameterRules
  import opened IntegerParameterRules
  import opened ObjectParameterRules
  import opened StringParameterRules

  /** Which rule class a rule is. */
  datatype RuleKind = IntegerKind | ObjectKind | StringKind

  datatype ParameterRule =
    | IntegerRule(integer: IntegerParameterRule)
    | ObjectRule(obj: ObjectParameterRule)
    | StringRule(str: StringParameterRule)
  {
    /** The object holding the rule's settings. */
    function Obj(): object {
      match this
      case IntegerRule(r) => r
      case ObjectRule(r) => r
      case StringRule(r) => r
    }

    function Kind(): RuleKind {
      match this
      case IntegerRule(_) => IntegerKind
      case ObjectRule(_) => ObjectKind
      case StringRule(_) => StringKind
    }

    /** The final type and name the rule was built with. */
    function Base(): RuleBase {
      match this
      case IntegerRule(r) => r.base
      case ObjectRule(r) => r.base
      case StringRule(r) => r.base
    }

    /** `getName()`: never null, never empty. */
    function Name(): (n: string)
      ensures |n| >= 1
    {
      Base().name
    }

    /** `getType()` */
    function Type(): PsiType {
      Base().psiType
    }

    /** `isValid()` */
    predicate IsValid()
      reads Obj()
    {
      match this
      case IntegerRule(r) => r.IsValid()
      case ObjectRule(r) => r.IsValid()
      case StringRule(r) => r.IsValid()
    }

    /** `getValidInitializers()`: only an integer rule can fail, and only when it is
        not valid; otherwise the list is never empty. */
    function GetValidInitializers(): (r: Throws<seq<ParameterInitializer>>)
      reads Obj()
      ensures r.Success? <==> IsValid()
      ensures r.Success? ==> |r.value| >= 1
      ensures r.Failure? ==> r.error.cls == IllegalArgumentException
    {
      match this
      case IntegerRule(r) => r.GetValidInitializers()
      case ObjectRule(r) => Success(r.GetValidInitializers())
      case StringRule(r) => Success(r.GetValidInitializers())
    }

    /** `getInvalidInitializers()`: fails exactly when the rule is not valid. Each
        entry pairs one initializer with the one exception class it must raise. */
    function GetInvalidInitializers(): (r: Throws<seq<InvalidInitializer>>)
      reads Obj()
      ensures r.Success? <==> IsValid()
      ensures r.Failure? ==> r.error.cls == IllegalArgumentException
    {
      match this
      case IntegerRule(r) => r.GetInvalidInitializers()
      case ObjectRule(r) => Success(r.GetInvalidInitializers())
      case StringRule(r) => Success(r.GetInvalidInitializers())
    }

    /** The settings a rule has when it is built: constraint ANY with an empty
        boundary, and every check box unselected. */
    predicate AtDefaults()
      reads Obj()
    {
      match this
      case IntegerRule(r) => r.constraint == Any && r.valueText == ""
      case ObjectRule(r) => !r.disallowNull
      case StringRule(r) => !r.disallowNull && !r.disallowBlank
    }
  }

  /** The objects behind a list of rules. */
  function Objects(rules: seq<ParameterRule>): set<object> {
    set r | r in rules :: r.Obj()
  }

  /** Every rule of the list is at its defaults. */
  predicate AllAtDefaults(rules: seq<ParameterRule>)
    reads Objects(rules)
  {
    forall rule :: rule in rules ==> rule.AtDefaults()
  }

  /** No two rules of the list share their settings object. */
  predicate DistinctObjects(rules: seq<ParameterRule>) {
    forall j, k :: 0 <= j < k < |rules| ==> rules[j].Obj() != rules[k].Obj()
  }

  lemma ObjectsAppend(rules: seq<ParameterRule>, rule: ParameterRule)
    ensures Objects(rules + [rule]) == Objects(rules) + {rule.Obj()}
  {
    assert forall r :: r in rules + [rule] <==> r in rules || r == rule;
  }

  /** Appending a rule whose object is new to the list keeps the objects
      distinct. */
  lemma DistinctAppend(rules: seq<ParameterRule>, rule: ParameterRule)
    requires DistinctObjects(rules) && rule.Obj() !in Objects(rules)
    ensures DistinctObjects(rules + [rule])
  {
    var all := rules + [rule];
    forall j, k | 0 <= j < k < |all|
      ensures all[j].Obj() != all[k].Obj()
    {
      if k == |rules| {
        assert all[j] in rules;
      }
    }
  }

  /** A method to test together with the rules for its parameters, in order. */
  datatype MethodRules = MethodRules(psiMethod: PsiMethod, rules: seq<ParameterRule>)

  /** A rule left at its defaults is valid and has no invalid initializers, so it
      contributes no test case. */
  lemma DefaultsAreValidAndQuiet(rule: ParameterRule)
    requires rule.AtDefaults()
    ensures rule.IsValid()
    ensures rule.GetInvalidInitializers() == Success([])
  {
  }
}

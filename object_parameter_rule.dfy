/** `ObjectParameterRule`: a rule for a parameter of any reference type. Its one
    setting is the "Disallow null" check box. */
module ObjectParameterRules {
  import opened Wrappers
  import opened JavaLang
  import opened Psi
  import opened ParameterInitializers
  import opened AbstractParameterRules

  /** The base of an object rule: its type is never primitive. */
  type ObjectBase = b: RuleBase | !b.psiType.PrimitiveType? witness AbstractParameterRule(ClassType("java.lang.Object", "Object"), "p")

  /** The constructor's checks: those of `AbstractParameterRule`, then a primitive
      type is an IllegalArgumentException. */
  function NewObjectRuleBase(psiType: Option<PsiType>, name: Option<string>): (r: Throws<ObjectBase>)
    ensures r.Success? <==> NewAbstractParameterRule(psiType, name).Success? && !psiType.value.PrimitiveType?
    ensures r.Success? ==> r.value == NewAbstractParameterRule(psiType, name).value
    ensures NewAbstractParameterRule(psiType, name).Failure? ==> r == NewAbstractParameterRule(psiType, name).PropagateFailure()
    ensures NewAbstractParameterRule(psiType, name).Success? && psiType.value.PrimitiveType? ==>
              r == Failure(Thrown(IllegalArgumentException, "type cannot be a primitive type."))
  {
    var base :- NewAbstractParameterRule(psiType, name);
    if base.psiType.PrimitiveType? then Failure(Thrown(IllegalArgumentException, "type cannot be a primitive type."))
    else Success(base)
  }

  class ObjectParameterRule {
    const base: ObjectBase
    /** The "Disallow null" check box. */
    var disallowNull: bool

    /** The constructor after its checks: the check box starts unselected. */
    constructor (base: ObjectBase)
      ensures this.base == base && !disallowNull
    {
      this.base := base;
      disallowNull := false;
    }

    /** `new ObjectParameterRule(type, name)` */
    static method New(psiType: Option<PsiType>, name: Option<string>) returns (r: Throws<ObjectParameterRule>)
      ensures r.Failure? <==> NewObjectRuleBase(psiType, name).Failure?
      ensures r.Failure? ==> r == NewObjectRuleBase(psiType, name).PropagateFailure()
      ensures r.Success? ==> fresh(r.value) && r.value.base == NewObjectRuleBase(psiType, name).value
      ensures r.Success? ==> !r.value.disallowNull
    {
      var checked := NewObjectRuleBase(psiType, name);
      if checked.Failure? {
        return checked.PropagateFailure();
      }
      var rule := new ObjectParameterRule(checked.value);
      return Success(rule);
    }

    /** The user ticks or clears "Disallow null". */
    method SetDisallowNull(selected: bool)
      modifies this
      ensures disallowNull == selected
    {
      disallowNull := selected;
    }

    /** `isValid()`: an object rule is always valid. */
    function IsValid(): (valid: bool)
      ensures valid
    {
      true
    }

    /** `getValidInitializers()` */
    function GetValidInitializers(): (r: seq<ParameterInitializer>)
      reads this
      ensures r == ObjectValidInitializers(base)
    {
      ObjectValidInitializers(base)
    }

    /** `getInvalidInitializers()` */
    function GetInvalidInitializers(): (r: seq<InvalidInitializer>)
      reads this
      ensures r == ObjectInvalidInitializers(base, disallowNull)
    {
      ObjectInvalidInitializers(base, disallowNull)
    }
  }

  /** The one valid initializer, whatever the flag: described as "valid" + Name,
      its text mocks the type by its short name. */
  function ObjectValidInitializers(base: RuleBase): (r: seq<ParameterInitializer>)
    ensures |r| == 1
    ensures r[0].description == "valid" + base.CapitalizedName()
    ensures r[0].initializerText == "mock(" + base.psiType.PresentableText() + ".class)"
  {
    [ParameterInitializer("valid" + base.CapitalizedName(), "mock(" + base.psiType.PresentableText() + ".class)")]
  }

  /** The invalid mapping is empty exactly when null is allowed; otherwise it holds
      only the literal `null`, described as "null" + Name and expected to be
      rejected with a NullPointerException. */
  function ObjectInvalidInitializers(base: RuleBase, disallowNull: bool): (r: seq<InvalidInitializer>)
    ensures r == [] <==> !disallowNull
    ensures disallowNull ==>
              |r| == 1 && r[0].expected == NullPointerException
              && r[0].initializer == ParameterInitializer("null" + base.CapitalizedName(), "null")
  {
    if disallowNull then [InvalidInitializer(ParameterInitializer("null" + base.CapitalizedName(), "null"), NullPointerException)]
    else []
  }

  /** The valid and the invalid descriptions of an object rule never coincide, so
      the test names built from them are distinct from any valid-case name. */
  lemma ObjectDescriptionsDiffer(base: RuleBase, disallowNull: bool)
    ensures forall e :: e in ObjectInvalidInitializers(base, disallowNull) ==>
              e.initializer.description != ObjectValidInitializers(base)[0].description
  {
    if disallowNull {
      assert ObjectValidInitializers(base)[0].description[0] == 'v';
      assert ObjectInvalidInitializers(base, disallowNull)[0].initializer.description[0] == 'n';
    }
  }
}

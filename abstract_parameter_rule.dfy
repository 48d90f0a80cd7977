/** `AbstractParameterRule`: the parameter's type and name, both final and
    checked when a rule is built, and the capitalized name used in descriptions. */
module AbstractParameterRules {
  import opened Wrappers
  import opened JavaLang
  import opened Psi

  /** The two final fields every rule carries. */
  datatype AbstractParameterRule = AbstractParameterRule(psiType: PsiType, name: string)
  {
    /** `getCapitalizedName()`: the name with its first character upper-cased and
        every later character kept. */
    function CapitalizedName(): (r: string)
      requires |name| >= 1
      ensures |r| == |name| && r[1..] == name[1..]
      ensures r[0] == UpperAscii(name[0]) && !('a' <= r[0] <= 'z')
    {
      [UpperAscii(name[0])] + name[1..]
    }
  }

  /** A rule's base as every rule class holds it: built by `NewAbstractParameterRule`,
      so its name is never empty. */
  type RuleBase = b: AbstractParameterRule | |b.name| >= 1 witness AbstractParameterRule(INT, "p")

  /** The constructor: a null type or name is a NullPointerException, an empty name
      an IllegalArgumentException; otherwise `getType` and `getName` give back the
      arguments unchanged. */
  function NewAbstractParameterRule(psiType: Option<PsiType>, name: Option<string>): (r: Throws<RuleBase>)
    ensures r.Success? <==> psiType.Some? && name.Some? && |name.value| >= 1
    ensures r.Success? ==> r.value.psiType == psiType.value && r.value.name == name.value
    ensures r.Failure? ==>
              r.error.cls == if psiType.None? || name.None? then NullPointerException else IllegalArgumentException
  {
    if psiType.None? then Failure(Thrown(NullPointerException, "type cannot be null."))
    else if name.None? then Failure(Thrown(NullPointerException, "name cannot be null."))
    else if |name.value| < 1 then Failure(Thrown(IllegalArgumentException, "name must be of length >= 1"))
    else Success(AbstractParameterRule(psiType.value, name.value))
  }

  /** Capitalizing an already capitalized name changes nothing. */
  lemma CapitalizedNameIdempotent(b: RuleBase)
    ensures AbstractParameterRule(b.psiType, b.CapitalizedName()).CapitalizedName() == b.CapitalizedName()
  {
  }
}

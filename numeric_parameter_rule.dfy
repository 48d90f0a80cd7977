/** `NumericParameterRule`: the relational constraints a user can put on a
    numeric parameter, and the checks shared by numeric rules. */
module NumericParameterRules {
  import opened Wrappers
  import opened JavaLang
  import opened Psi
  import opened AbstractParameterRules

  /** `NumericConstraint`, in declaration order. */
  datatype NumericConstraint = Any | LessEqual | Less | Equal | Greater | GreaterEqual
  {
    /** `toString()`: the human readable form shown in the combo box. */
    function ToString(): string {
      match this
      case Any => "any"
      case LessEqual => "<="
      case Less => "<"
      case Equal => "=="
      case Greater => ">"
      case GreaterEqual => ">="
    }

    /** What each constraint asks of a value `x` given the boundary `v`, as its
        documentation says ("must be less than or equal to some value", ...). */
    predicate Holds(x: int, v: int) {
      match this
      case Any => true
      case LessEqual => x <= v
      case Less => x < v
      case Equal => x == v
      case Greater => x > v
      case GreaterEqual => x >= v
    }
  }

  /** `NumericConstraint.values()` */
  const Values: seq<NumericConstraint> := [Any, LessEqual, Less, Equal, Greater, GreaterEqual]

  /** There are exactly six constraints, each listed once, and their renderings
      are pairwise different. */
  lemma ValuesListsEachConstraintOnce(c: NumericConstraint, d: NumericConstraint)
    ensures |Values| == 6 && c in Values
    ensures forall i, j :: 0 <= i < j < |Values| ==> Values[i] != Values[j]
    ensures c != d ==> c.ToString() != d.ToString()
  {
  }

  /** `NumericParameterRule.isValid()`: a numeric rule is valid unless a subclass
      says otherwise. */
  function NumericIsValid(): (valid: bool)
    ensures valid
  {
    true
  }

  /** The constructor: the checks of `AbstractParameterRule`, then a non-primitive
      type is an IllegalArgumentException. */
  function NewNumericParameterRule(psiType: Option<PsiType>, name: Option<string>): (r: Throws<RuleBase>)
    ensures r.Success? <==> NewAbstractParameterRule(psiType, name).Success? && psiType.value.PrimitiveType?
    ensures r.Success? ==> r == NewAbstractParameterRule(psiType, name)
    ensures NewAbstractParameterRule(psiType, name).Failure? ==>
              r == NewAbstractParameterRule(psiType, name).PropagateFailure()
    ensures NewAbstractParameterRule(psiType, name).Success? && !psiType.value.PrimitiveType? ==>
              r == Failure(Thrown(IllegalArgumentException, "type must be a primitive type."))
  {
    var base :- NewAbstractParameterRule(psiType, name);
    if !base.psiType.PrimitiveType? then Failure(Thrown(IllegalArgumentException, "type must be a primitive type."))
    else Success(base)
  }
}

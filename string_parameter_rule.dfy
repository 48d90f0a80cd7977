/** `StringParameterRule`: the object rule specialised to `java.lang.String`, with
    a second check box, "Disallow blank". */
module StringParameterRules {
  import opened Wrappers
  import opened JavaLang
  import opened Psi
  import opened ParameterInitializers
  import opened AbstractParameterRules
  import opened ObjectParameterRules

  const STRING_CANONICAL_TEXT: string := "java.lang.String"

  /** The literal passed as the valid value. */
  const VALID_TEXT: string := "\"test\""

  /** The literal passed as the blank value: two newlines, two spaces, a tab and a
      space, written with Java escapes. */
  const BLANK_TEXT: string := "\"\\n\\n  \\t \""

  /** The base of a string rule: an object rule base whose type is `String`. */
  type StringBase = b: ObjectBase | b.psiType.CanonicalText() == STRING_CANONICAL_TEXT
    witness AbstractParameterRule(ClassType(STRING_CANONICAL_TEXT, "String"), "p")

  /** The constructor's checks: those of `ObjectParameterRule`, then a type whose
      canonical text is not "java.lang.String" is an IllegalArgumentException. */
  function NewStringRuleBase(psiType: Option<PsiType>, name: Option<string>): (r: Throws<StringBase>)
    ensures r.Success? <==>
              NewObjectRuleBase(psiType, name).Success? && psiType.value.CanonicalText() == STRING_CANONICAL_TEXT
    ensures r.Success? ==> r.value == NewObjectRuleBase(psiType, name).value
    ensures NewObjectRuleBase(psiType, name).Failure? ==> r == NewObjectRuleBase(psiType, name).PropagateFailure()
    ensures NewObjectRuleBase(psiType, name).Success? && psiType.value.CanonicalText() != STRING_CANONICAL_TEXT ==>
              r == Failure(Thrown(IllegalArgumentException, "type must be String."))
  {
    var base :- NewObjectRuleBase(psiType, name);
    if base.psiType.CanonicalText() != STRING_CANONICAL_TEXT then Failure(Thrown(IllegalArgumentException, "type must be String."))
    else Success(base)
  }

  class StringParameterRule {
    const base: StringBase
    /** The "Disallow null" check box inherited from the object rule. */
    var disallowNull: bool
    /** The "Disallow blank" check box. */
    var disallowBlank: bool

    /** The constructor after its checks: both check boxes start unselected. */
    constructor (base: StringBase)
      ensures this.base == base && !disallowNull && !disallowBlank
    {
      this.base := base;
      disallowNull := false;
      disallowBlank := false;
    }

    /** `new StringParameterRule(type, name)` */
    static method New(psiType: Option<PsiType>, name: Option<string>) returns (r: Throws<StringParameterRule>)
      ensures r.Failure? <==> NewStringRuleBase(psiType, name).Failure?
      ensures r.Failure? ==> r == NewStringRuleBase(psiType, name).PropagateFailure()
      ensures r.Success? ==> fresh(r.value) && r.value.base == NewStringRuleBase(psiType, name).value
      ensures r.Success? ==> !r.value.disallowNull && !r.value.disallowBlank
    {
      var checked := NewStringRuleBase(psiType, name);
      if checked.Failure? {
        return checked.PropagateFailure();
      }
      var rule := new StringParameterRule(checked.value);
      return Success(rule);
    }

    /** The user ticks or clears "Disallow null". */
    method SetDisallowNull(selected: bool)
      modifies this
      ensures disallowNull == selected && disallowBlank == old(disallowBlank)
    {
      disallowNull := selected;
    }

    /** The user ticks or clears "Disallow blank". */
    method SetDisallowBlank(selected: bool)
      modifies this
      ensures disallowBlank == selected && disallowNull == old(disallowNull)
    {
      disallowBlank := selected;
    }

    /** `isValid()`, inherited from the object rule: always valid. */
    function IsValid(): (valid: bool)
      ensures valid
    {
      true
    }

    /** `getValidInitializers()` */
    function GetValidInitializers(): (r: seq<ParameterInitializer>)
      reads this
      ensures r == StringValidInitializers(base)
    {
      StringValidInitializers(base)
    }

    /** `getInvalidInitializers()` */
    function GetInvalidInitializers(): (r: seq<InvalidInitializer>)
      reads this
      ensures r == StringInvalidInitializers(base, disallowNull, disallowBlank)
    {
      StringInvalidInitializers(base, disallowNull, disallowBlank)
    }
  }

  /** The one valid initializer: described as "valid" + Name, it passes the
      literal "test", which is not blank. */
  function StringValidInitializers(base: RuleBase): (r: seq<ParameterInitializer>)
    ensures |r| == 1 && r[0].description == "valid" + base.CapitalizedName()
    ensures StringLiteralValue(r[0].initializerText) == Some("test") && !IsBlank("test")
  {
    ValidLiteralValue();
    [ParameterInitializer("valid" + base.CapitalizedName(), VALID_TEXT)]
  }

  /** The entry "Disallow blank" adds: a literal that evaluates to a non-empty,
      all-whitespace string, expected to be rejected with an
      IllegalArgumentException. */
  function BlankEntry(base: RuleBase): (e: InvalidInitializer)
    ensures e.expected == IllegalArgumentException
    ensures e.initializer.description == "blank" + base.CapitalizedName()
    ensures var value := StringLiteralValue(e.initializer.initializerText);
            value.Some? && |value.value| > 0 && IsBlank(value.value)
  {
    BlankLiteralValue();
    InvalidInitializer(ParameterInitializer("blank" + base.CapitalizedName(), BLANK_TEXT), IllegalArgumentException)
  }

  /** The object rule's invalid entries, in their order, followed by the blank
      entry when "Disallow blank" is selected. */
  function StringInvalidInitializers(base: RuleBase, disallowNull: bool, disallowBlank: bool): (r: seq<InvalidInitializer>)
    ensures ObjectInvalidInitializers(base, disallowNull) <= r
    ensures |r| == (if disallowNull then 1 else 0) + (if disallowBlank then 1 else 0)
    ensures disallowBlank ==> r[|r| - 1] == BlankEntry(base)
  {
    ObjectInvalidInitializers(base, disallowNull) + (if disallowBlank then [BlankEntry(base)] else [])
  }

  /** The valid literal evaluates to "test", which is not blank. */
  lemma ValidLiteralValue()
    ensures StringLiteralValue(VALID_TEXT) == Some("test") && !IsBlank("test")
  {
    assert VALID_TEXT[1..|VALID_TEXT| - 1] == "test";
    UnescapePlain("test");
    assert !IsWhitespace("test"[0]);
  }

  /** The blank literal evaluates to two newlines, two spaces, a tab and a space:
      a non-empty string of whitespace only. */
  lemma BlankLiteralValue()
    ensures StringLiteralValue(BLANK_TEXT) == Some("\n\n  \t ") && IsBlank("\n\n  \t ")
  {
    assert BLANK_TEXT[1..|BLANK_TEXT| - 1] == EscapeJava("\n\n  \t ");
    UnescapeEscape("\n\n  \t ");
  }

  /** With both boxes ticked there are two invalid entries, the null entry before
      the blank one; with one box ticked there is one; with neither, none. */
  lemma InvalidEntriesByFlags(base: RuleBase, disallowNull: bool, disallowBlank: bool)
    ensures var r := StringInvalidInitializers(base, disallowNull, disallowBlank);
            && (disallowNull && disallowBlank ==>
                  |r| == 2 && r[0].expected == NullPointerException && r[1].expected == IllegalArgumentException)
            && (disallowNull != disallowBlank ==> |r| == 1)
            && (!disallowNull && !disallowBlank ==> r == [])
  {
  }
}

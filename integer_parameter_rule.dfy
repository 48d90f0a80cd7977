/** `IntegerParameterRule`: a rule for an `int` parameter. The user picks a
    constraint and types a boundary; the rule expands them into boundary values
    v-1, v and v+1, computed in 32-bit `int` arithmetic. */
module IntegerParameterRules {
  import opened Wrappers
  import opened JavaLang
  import opened Psi
  import opened ParameterInitializers
  import opened AbstractParameterRules
  import opened NumericParameterRules

  /** The base of an integer rule: its type is always `int`. */
  type IntegerBase = b: RuleBase | b.psiType == INT witness AbstractParameterRule(INT, "p")

  const NOT_VALID_MESSAGE: string := "Must be valid when getting initializers!"

  class IntegerParameterRule {
    const base: IntegerBase
    /** The constraint selected in the combo box. */
    var constraint: NumericConstraint
    /** The text of the boundary field. */
    var valueText: string

    /** The constructor after its argument checks: the constraint starts at ANY
        and the boundary field is empty, so a fresh rule is valid. */
    constructor (base: IntegerBase)
      ensures this.base == base && constraint == Any && valueText == ""
      ensures IsValid()
    {
      this.base := base;
      constraint := Any;
      valueText := "";
    }

    /** `new IntegerParameterRule(name)`: the checks of the numeric rule with type
        `int`, which reject only a null or empty name. */
    static method New(name: Option<string>) returns (r: Throws<IntegerParameterRule>)
      ensures r.Failure? <==> name.None? || name.value == ""
      ensures r.Failure? ==> r == NewNumericParameterRule(Some(INT), name).PropagateFailure()
      ensures name.None? ==> r.Failure? && r.error.cls == NullPointerException
      ensures name.Some? && name.value == "" ==> r.Failure? && r.error.cls == IllegalArgumentException
      ensures r.Success? ==> fresh(r.value) && r.value.base == AbstractParameterRule(INT, name.value)
      ensures r.Success? ==> r.value.constraint == Any && r.value.valueText == ""
    {
      var checked := NewNumericParameterRule(Some(INT), name);
      if checked.Failure? {
        return checked.PropagateFailure();
      }
      var rule := new IntegerParameterRule(checked.value);
      return Success(rule);
    }

    /** The user selects a constraint. */
    method SelectConstraint(c: NumericConstraint)
      modifies this
      ensures constraint == c && valueText == old(valueText)
    {
      constraint := c;
    }

    /** The user edits the boundary field. */
    method SetValueText(text: string)
      modifies this
      ensures valueText == text && constraint == old(constraint)
    {
      valueText := text;
    }

    /** `checkedGetValue()`: the boundary as `Integer.parseInt` reads it, or
        nothing when it does not parse. */
    function CheckedGetValue(): Option<Int32>
      reads this
    {
      ParseInt(valueText)
    }

    /** `isValid()`: the constraint is ANY or the boundary parses as an `int`. */
    function IsValid(): (valid: bool)
      reads this
      ensures valid <==> constraint == Any || ParseInt(valueText).Some?
    {
      NumericIsValid() && (constraint == Any || CheckedGetValue().Some?)
    }

    /** `getValidInitializers()`: an IllegalArgumentException when the rule is not
        valid, otherwise the expansion of the current constraint and boundary. */
    function GetValidInitializers(): (r: Throws<seq<ParameterInitializer>>)
      reads this
      ensures r.Success? <==> IsValid()
      ensures r.Failure? ==> r.error == Thrown(IllegalArgumentException, NOT_VALID_MESSAGE)
      ensures r.Success? ==> r.value == ValidInitializers(base, constraint, CheckedGetValue()) && |r.value| >= 1
    {
      if !IsValid() then Failure(Thrown(IllegalArgumentException, NOT_VALID_MESSAGE))
      else Success(ValidInitializers(base, constraint, CheckedGetValue()))
    }

    /** `getInvalidInitializers()`: an IllegalArgumentException when the rule is not
        valid, otherwise the expansion of the current constraint and boundary. */
    function GetInvalidInitializers(): (r: Throws<seq<InvalidInitializer>>)
      reads this
      ensures r.Success? <==> IsValid()
      ensures r.Failure? ==> r.error == Thrown(IllegalArgumentException, NOT_VALID_MESSAGE)
      ensures r.Success? ==> r.value == InvalidInitializers(base, constraint, CheckedGetValue())
    {
      if !IsValid() then Failure(Thrown(IllegalArgumentException, NOT_VALID_MESSAGE))
      else Success(InvalidInitializers(base, constraint, CheckedGetValue()))
    }
  }

  // ---------------------------------------------------------------------------
  // The expansion, as a function of the name, the constraint and the boundary

  /** The initializer for the value just below the boundary. */
  function LessThan(name: string, v: Int32): ParameterInitializer {
    ParameterInitializer(name + "LessThan" + ValueOf(v), ValueOf(Wrap32(v - 1)))
  }

  /** The initializer for the boundary itself. */
  function EqualTo(name: string, v: Int32): ParameterInitializer {
    ParameterInitializer(name + "EqualTo" + ValueOf(v), ValueOf(v))
  }

  /** The initializer for the value just above the boundary. */
  function GreaterThan(name: string, v: Int32): ParameterInitializer {
    ParameterInitializer(name + "GreaterThan" + ValueOf(v), ValueOf(Wrap32(v + 1)))
  }

  /** The switch of `getValidInitializers`. The boundary is present whenever the
      constraint is not ANY, which is what `isValid` guarantees. */
  function ValidInitializers(base: RuleBase, c: NumericConstraint, value: Option<Int32>): seq<ParameterInitializer>
    requires c == Any || value.Some?
  {
    match c
    case Any => [ParameterInitializer("valid" + base.CapitalizedName(), "0")]
    case LessEqual => [LessThan(base.name, value.value), EqualTo(base.name, value.value)]
    case Less => [LessThan(base.name, value.value)]
    case Equal => [EqualTo(base.name, value.value)]
    case Greater => [GreaterThan(base.name, value.value)]
    case GreaterEqual => [GreaterThan(base.name, value.value), EqualTo(base.name, value.value)]
  }

  /** The switch of `getInvalidInitializers`: every entry expects an
      IllegalArgumentException. */
  function InvalidInitializers(base: RuleBase, c: NumericConstraint, value: Option<Int32>): seq<InvalidInitializer>
    requires c == Any || value.Some?
  {
    match c
    case Any => []
    case LessEqual => [Rejected(GreaterThan(base.name, value.value))]
    case Less => [Rejected(GreaterThan(base.name, value.value)), Rejected(EqualTo(base.name, value.value))]
    case Equal => [Rejected(LessThan(base.name, value.value)), Rejected(GreaterThan(base.name, value.value))]
    case Greater => [Rejected(LessThan(base.name, value.value)), Rejected(EqualTo(base.name, value.value))]
    case GreaterEqual => [Rejected(LessThan(base.name, value.value))]
  }

  function Rejected(init: ParameterInitializer): InvalidInitializer {
    InvalidInitializer(init, IllegalArgumentException)
  }

  function Initializers(entries: seq<InvalidInitializer>): (r: seq<ParameterInitializer>)
    ensures |r| == |entries| && forall i :: 0 <= i < |r| ==> r[i] == entries[i].initializer
  {
    seq(|entries|, i requires 0 <= i < |entries| => entries[i].initializer)
  }

  /** The value the generated code passes for an initializer, as Java reads its text. */
  function ValueIn(init: ParameterInitializer): Option<Int32> {
    ParseInt(init.initializerText)
  }

  function ValuesIn(inits: seq<ParameterInitializer>): (r: seq<Option<Int32>>)
    ensures |r| == |inits| && forall i :: 0 <= i < |r| ==> r[i] == ValueIn(inits[i])
  {
    seq(|inits|, i requires 0 <= i < |inits| => ValueIn(inits[i]))
  }

  // ---------------------------------------------------------------------------
  // Properties of the expansion

  /** ANY gives exactly the single initializer `"valid" + Name` with text "0" and
      nothing invalid; the other constraints give 2/1 (<=, >=), 1/2 (<, >) or 1/2
      (==) valid/invalid initializers, and every invalid one expects an
      IllegalArgumentException. */
  lemma ExpansionShape(base: RuleBase, c: NumericConstraint, value: Option<Int32>)
    requires c == Any || value.Some?
    ensures c == Any ==>
              ValidInitializers(base, c, value) == [ParameterInitializer("valid" + base.CapitalizedName(), "0")]
              && InvalidInitializers(base, c, value) == []
    ensures |ValidInitializers(base, c, value)| == (if c in {LessEqual, GreaterEqual} then 2 else 1)
    ensures |InvalidInitializers(base, c, value)| == (if c == Any then 0 else if c in {LessEqual, GreaterEqual} then 1 else 2)
    ensures forall e :: e in InvalidInitializers(base, c, value) ==> e.expected == IllegalArgumentException
  {
  }

  /** The values read back from the valid and the invalid initializers are
      exactly v-1, v and v+1, each once; every valid value meets the constraint and
      every invalid value breaks it. */
  ghost predicate PartitionsNeighbourhood(c: NumericConstraint, v: int, valid: seq<Option<int>>, invalid: seq<Option<int>>) {
    && multiset(valid + invalid) == multiset{Some(v - 1), Some(v), Some(v + 1)}
    && (forall x :: x in valid ==> x.Some? && c.Holds(x.value, v))
    && (forall x :: x in invalid ==> x.Some? && !c.Holds(x.value, v))
  }

  /** Strictly inside the `int` range the expansion partitions the neighbourhood of
      the boundary into the values the constraint accepts and those it rejects. */
  lemma {:induction false} ExpansionPartitionsNeighbourhood(base: RuleBase, c: NumericConstraint, v: Int32)
    requires c != Any && INT_MIN < v < INT_MAX
    ensures PartitionsNeighbourhood(c, v, ValuesIn(ValidInitializers(base, c, Some(v))),
                                    ValuesIn(Initializers(InvalidInitializers(base, c, Some(v)))))
  {
    ExpansionValues(base, c, v);
    NeighbourhoodSplits(c, v);
  }

  /** How each constraint splits v-1, v and v+1, in the order the expansion lists them. */
  lemma NeighbourhoodSplits(c: NumericConstraint, v: Int32)
    requires c != Any && INT_MIN < v < INT_MAX
    ensures c == LessEqual ==> PartitionsNeighbourhood(c, v, [Some(v - 1), Some(v)], [Some(v + 1)])
    ensures c == Less ==> PartitionsNeighbourhood(c, v, [Some(v - 1)], [Some(v + 1), Some(v)])
    ensures c == Equal ==> PartitionsNeighbourhood(c, v, [Some(v)], [Some(v - 1), Some(v + 1)])
    ensures c == Greater ==> PartitionsNeighbourhood(c, v, [Some(v + 1)], [Some(v - 1), Some(v)])
    ensures c == GreaterEqual ==> PartitionsNeighbourhood(c, v, [Some(v + 1), Some(v)], [Some(v - 1)])
  {
    match c
    case LessEqual => NeighbourhoodSplitsLessEqual(v);
    case Less => NeighbourhoodSplitsLess(v);
    case Equal => NeighbourhoodSplitsEqual(v);
    case Greater => NeighbourhoodSplitsGreater(v);
    case GreaterEqual => NeighbourhoodSplitsGreaterEqual(v);
  }

  lemma NeighbourhoodSplitsLessEqual(v: int)
    ensures PartitionsNeighbourhood(LessEqual, v, [Some(v - 1), Some(v)], [Some(v + 1)])
  {
  }

  lemma NeighbourhoodSplitsLess(v: int)
    ensures PartitionsNeighbourhood(Less, v, [Some(v - 1)], [Some(v + 1), Some(v)])
  {
  }

  lemma NeighbourhoodSplitsEqual(v: int)
    ensures PartitionsNeighbourhood(Equal, v, [Some(v)], [Some(v - 1), Some(v + 1)])
  {
  }

  lemma NeighbourhoodSplitsGreater(v: int)
    ensures PartitionsNeighbourhood(Greater, v, [Some(v + 1)], [Some(v - 1), Some(v)])
  {
  }

  lemma NeighbourhoodSplitsGreaterEqual(v: int)
    ensures PartitionsNeighbourhood(GreaterEqual, v, [Some(v + 1), Some(v)], [Some(v - 1)])
  {
  }

  /** The values the expansion's texts read back as, constraint by constraint. */
  lemma ExpansionValues(base: RuleBase, c: NumericConstraint, v: Int32)
    requires c != Any && INT_MIN < v < INT_MAX
    ensures c == LessEqual ==>
              ValuesIn(ValidInitializers(base, c, Some(v))) == [Some(v - 1), Some(v)]
              && ValuesIn(Initializers(InvalidInitializers(base, c, Some(v)))) == [Some(v + 1)]
    ensures c == Less ==>
              ValuesIn(ValidInitializers(base, c, Some(v))) == [Some(v - 1)]
              && ValuesIn(Initializers(InvalidInitializers(base, c, Some(v)))) == [Some(v + 1), Some(v)]
    ensures c == Equal ==>
              ValuesIn(ValidInitializers(base, c, Some(v))) == [Some(v)]
              && ValuesIn(Initializers(InvalidInitializers(base, c, Some(v)))) == [Some(v - 1), Some(v + 1)]
    ensures c == Greater ==>
              ValuesIn(ValidInitializers(base, c, Some(v))) == [Some(v + 1)]
              && ValuesIn(Initializers(InvalidInitializers(base, c, Some(v)))) == [Some(v - 1), Some(v)]
    ensures c == GreaterEqual ==>
              ValuesIn(ValidInitializers(base, c, Some(v))) == [Some(v + 1), Some(v)]
              && ValuesIn(Initializers(InvalidInitializers(base, c, Some(v)))) == [Some(v - 1)]
  {
    match c
    case LessEqual => ExpansionValuesLessEqual(base, v);
    case Less => ExpansionValuesLess(base, v);
    case Equal => ExpansionValuesEqual(base, v);
    case Greater => ExpansionValuesGreater(base, v);
    case GreaterEqual => ExpansionValuesGreaterEqual(base, v);
  }

  lemma ExpansionValuesLessEqual(base: RuleBase, v: Int32)
    requires INT_MIN < v < INT_MAX
    ensures ValuesIn(ValidInitializers(base, LessEqual, Some(v))) == [Some(v - 1), Some(v)]
    ensures ValuesIn(Initializers(InvalidInitializers(base, LessEqual, Some(v)))) == [Some(v + 1)]
  {
    NeighbourValues(base.name, v);
    var lt, eq, gt := LessThan(base.name, v), EqualTo(base.name, v), GreaterThan(base.name, v);
    assert ValidInitializers(base, LessEqual, Some(v)) == [lt, eq];
    assert Initializers(InvalidInitializers(base, LessEqual, Some(v))) == [gt];
    ValuesInPair(lt, eq);
  }

  lemma ExpansionValuesLess(base: RuleBase, v: Int32)
    requires INT_MIN < v < INT_MAX
    ensures ValuesIn(ValidInitializers(base, Less, Some(v))) == [Some(v - 1)]
    ensures ValuesIn(Initializers(InvalidInitializers(base, Less, Some(v)))) == [Some(v + 1), Some(v)]
  {
    NeighbourValues(base.name, v);
    var lt, eq, gt := LessThan(base.name, v), EqualTo(base.name, v), GreaterThan(base.name, v);
    assert ValidInitializers(base, Less, Some(v)) == [lt];
    assert Initializers(InvalidInitializers(base, Less, Some(v))) == [gt, eq];
    ValuesInPair(gt, eq);
  }

  lemma ExpansionValuesEqual(base: RuleBase, v: Int32)
    requires INT_MIN < v < INT_MAX
    ensures ValuesIn(ValidInitializers(base, Equal, Some(v))) == [Some(v)]
    ensures ValuesIn(Initializers(InvalidInitializers(base, Equal, Some(v)))) == [Some(v - 1), Some(v + 1)]
  {
    NeighbourValues(base.name, v);
    var lt, eq, gt := LessThan(base.name, v), EqualTo(base.name, v), GreaterThan(base.name, v);
    assert ValidInitializers(base, Equal, Some(v)) == [eq];
    assert Initializers(InvalidInitializers(base, Equal, Some(v))) == [lt, gt];
    ValuesInPair(lt, gt);
  }

  lemma ExpansionValuesGreater(base: RuleBase, v: Int32)
    requires INT_MIN < v < INT_MAX
    ensures ValuesIn(ValidInitializers(base, Greater, Some(v))) == [Some(v + 1)]
    ensures ValuesIn(Initializers(InvalidInitializers(base, Greater, Some(v)))) == [Some(v - 1), Some(v)]
  {
    NeighbourValues(base.name, v);
    var lt, eq, gt := LessThan(base.name, v), EqualTo(base.name, v), GreaterThan(base.name, v);
    assert ValidInitializers(base, Greater, Some(v)) == [gt];
    assert Initializers(InvalidInitializers(base, Greater, Some(v))) == [lt, eq];
    ValuesInPair(lt, eq);
  }

  lemma ExpansionValuesGreaterEqual(base: RuleBase, v: Int32)
    requires INT_MIN < v < INT_MAX
    ensures ValuesIn(ValidInitializers(base, GreaterEqual, Some(v))) == [Some(v + 1), Some(v)]
    ensures ValuesIn(Initializers(InvalidInitializers(base, GreaterEqual, Some(v)))) == [Some(v - 1)]
  {
    NeighbourValues(base.name, v);
    var lt, eq, gt := LessThan(base.name, v), EqualTo(base.name, v), GreaterThan(base.name, v);
    assert ValidInitializers(base, GreaterEqual, Some(v)) == [gt, eq];
    assert Initializers(InvalidInitializers(base, GreaterEqual, Some(v))) == [lt];
    ValuesInPair(gt, eq);
  }

  lemma ValuesInPair(a: ParameterInitializer, b: ParameterInitializer)
    ensures ValuesIn([a, b]) == [ValueIn(a), ValueIn(b)]
  {
  }

  /** Away from the ends of the `int` range, the three initializers read back as
      v-1, v and v+1. */
  lemma NeighbourValues(name: string, v: Int32)
    requires INT_MIN < v < INT_MAX
    ensures ValueIn(LessThan(name, v)) == Some(v - 1)
    ensures ValueIn(EqualTo(name, v)) == Some(v)
    ensures ValueIn(GreaterThan(name, v)) == Some(v + 1)
  {
    ParseIntValueOf(v - 1);
    ParseIntValueOf(v);
    ParseIntValueOf(v + 1);
  }

  /** The three descriptions a boundary can produce are pairwise different, so no
      two initializers of one rule share a test name. */
  lemma {:induction false} DescriptionsDistinct(name: string, v: Int32)
    ensures LessThan(name, v).description != EqualTo(name, v).description
    ensures LessThan(name, v).description != GreaterThan(name, v).description
    ensures EqualTo(name, v).description != GreaterThan(name, v).description
  {
    var n := |name|;
    assert LessThan(name, v).description[n] == 'L';
    assert EqualTo(name, v).description[n] == 'E';
    assert GreaterThan(name, v).description[n] == 'G';
  }

  /** At the top of the `int` range `v + 1` wraps: with constraint <= and boundary
      Integer.MAX_VALUE the one "invalid" initializer is Integer.MIN_VALUE, a value
      that meets the constraint. */
  lemma UpperBoundaryWraps(base: RuleBase)
    ensures var invalid := InvalidInitializers(base, LessEqual, Some(INT_MAX));
            && invalid == [Rejected(GreaterThan(base.name, INT_MAX))]
            && ValueIn(invalid[0].initializer) == Some(INT_MIN)
            && LessEqual.Holds(INT_MIN, INT_MAX)
  {
    ParseIntValueOf(INT_MIN);
  }

  /** At the bottom of the `int` range `v - 1` wraps: with constraint >= and
      boundary Integer.MIN_VALUE the one "invalid" initializer is
      Integer.MAX_VALUE, a value that meets the constraint. */
  lemma LowerBoundaryWraps(base: RuleBase)
    ensures var invalid := InvalidInitializers(base, GreaterEqual, Some(INT_MIN));
            && invalid == [Rejected(LessThan(base.name, INT_MIN))]
            && ValueIn(invalid[0].initializer) == Some(INT_MAX)
            && GreaterEqual.Holds(INT_MAX, INT_MIN)
  {
    ParseIntValueOf(INT_MAX);
  }

  /** The texts of 9, 10 and 11. */
  lemma DecimalTextsNearTen()
    ensures ValueOf(9) == "9" && ValueOf(11) == "11" && ValueOf(10) == "10"
  {
    assert DigitChar(0) == '0' && DigitChar(1) == '1' && DigitChar(9) == '9';
    assert Digits(10) == Digits(1) + [DigitChar(0)];
    assert Digits(11) == Digits(1) + [DigitChar(1)];
  }

  /** The three initializers of a parameter `count` around the boundary 10. */
  lemma CountInitializersNearTen()
    ensures GreaterThan("count", 10) == ParameterInitializer("countGreaterThan10", "11")
    ensures EqualTo("count", 10) == ParameterInitializer("countEqualTo10", "10")
    ensures LessThan("count", 10) == ParameterInitializer("countLessThan10", "9")
  {
    DecimalTextsNearTen();
    assert Wrap32(10 + 1) == 11 && Wrap32(10 - 1) == 9;
  }

  /** The worked example of a rule `count >= 10`. */
  lemma CountAtLeastTen()
    ensures ValidInitializers(AbstractParameterRule(INT, "count"), GreaterEqual, Some(10))
            == [ParameterInitializer("countGreaterThan10", "11"), ParameterInitializer("countEqualTo10", "10")]
    ensures InvalidInitializers(AbstractParameterRule(INT, "count"), GreaterEqual, Some(10))
            == [InvalidInitializer(ParameterInitializer("countLessThan10", "9"), IllegalArgumentException)]
  {
    CountInitializersNearTen();
  }
}

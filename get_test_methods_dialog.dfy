/** The non-visual part of `GetTestMethodsDialog`: which constructors are offered,
    the default rule built for each parameter, the accept/reject decision, the
    plan handed to the generator and the text shown for each method. */
module GetTestMethodsDialogs {
  import opened Wrappers
  import opened JavaLang
  import opened Psi
  import opened AbstractParameterRules
  import opened NumericParameterRules
  import opened IntegerParameterRules
  import opened ObjectParameterRules
  import opened StringParameterRules
  import opened ParameterRules

  const NO_METHOD_SELECTED: string := "Must select at least one method!"
  const INVALID_RULES: string := "One or more methods have invalid parameter rules configured!"

  const CONSTRUCTOR_PREFIX: string := "Constructor: ("
  const NO_PARAMETERS: string := "no parameters"

  // The pieces of the IllegalStateException messages, kept as named constants.
  const NULL_NAME_PREFIX: string := "Unexpected error retrieving method parameter information. Parameter of type "
  const ON_METHOD: string := " on method "
  const HAS_NULL_NAME: string := " has a null name."
  const UNSUPPORTED_TYPE_PREFIX: string :=
    "This functionality cannot currently be used on a class containing an unsupported parameter type: "
  const NULL_RETURN_TYPE_PREFIX: string := "Unexpected error retrieving method descriptions. Non-constructor Method "
  const HAS_NULL_RETURN_TYPE: string := " has null return type."

  // ---------------------------------------------------------------------------
  // Which methods are offered

  /** Only non-private constructors that take at least one parameter are offered. */
  predicate IsOffered(m: PsiMethod) {
    m.access != Private && m.isConstructor && |m.parameters| > 0
  }

  /** The offered methods, in the class's order. */
  function Offered(methods: seq<PsiMethod>): (r: seq<PsiMethod>)
    ensures forall m :: m in r <==> m in methods && IsOffered(m)
  {
    if methods == [] then []
    else
      var last := methods[|methods| - 1];
      assert methods == methods[..|methods| - 1] + [last];
      Offered(methods[..|methods| - 1]) + (if IsOffered(last) then [last] else [])
  }

  /** Offering keeps the class's order: the methods of a longer class are offered
      after those of its beginning. */
  lemma {:induction false} OfferedAppend(front: seq<PsiMethod>, back: seq<PsiMethod>)
    ensures Offered(front + back) == Offered(front) + Offered(back)
    decreases |back|
  {
    if back != [] {
      var last := back[|back| - 1];
      var init := back[..|back| - 1];
      assert (front + back)[..|front + back| - 1] == front + init;
      assert (front + back)[|front + back| - 1] == last;
      OfferedAppend(front, init);
    } else {
      assert front + back == front;
    }
  }

  // ---------------------------------------------------------------------------
  // The default rule of a parameter

  /** The rule a parameter gets: its class and its type and name. */
  datatype RuleSpec = RuleSpec(kind: RuleKind, base: RuleBase)

  function NullNameMessage(p: PsiParameter, methodName: string): string {
    NULL_NAME_PREFIX + p.psiType.PresentableText() + ON_METHOD + methodName + HAS_NULL_NAME
  }

  function UnsupportedTypeMessage(p: PsiParameter): string {
    UNSUPPORTED_TYPE_PREFIX
    + p.psiType.PresentableText()
  }

  /** The kind of rule a parameter's type calls for: `int` gets an integer rule,
      `java.lang.String` a string rule and every other reference type an object
      rule. */
  function KindOf(t: PsiType): RuleKind {
    if t.PrimitiveType? then IntegerKind
    else if t.CanonicalText() == STRING_CANONICAL_TEXT then StringKind
    else ObjectKind
  }

  /** The rule `buildDefaultParameterRules` builds for one parameter: a parameter
      without a name, or of a primitive type other than `int`, is an
      IllegalStateException; an empty name is the IllegalArgumentException the
      rule constructors raise; otherwise the rule of the type's kind, holding the
      parameter's type and name. */
  function ClassifyParameter(methodName: string, p: PsiParameter): (r: Throws<RuleSpec>)
  {
    if p.name.None? then Failure(Thrown(IllegalStateException, NullNameMessage(p, methodName)))
    else if p.psiType.PrimitiveType? && p.psiType != INT then Failure(Thrown(IllegalStateException, UnsupportedTypeMessage(p)))
    else if |p.name.value| < 1 then Failure(Thrown(IllegalArgumentException, "name must be of length >= 1"))
    else Success(RuleSpec(KindOf(p.psiType), AbstractParameterRule(p.psiType, p.name.value)))
  }

  /** The classification agrees with the rule constructors the source calls: an
      `int` parameter with `new IntegerParameterRule(name)`, a `String` parameter
      with `new StringParameterRule(type, name)` and any other reference type with
      `new ObjectParameterRule(type, name)`; each succeeds exactly when the
      classification does, with the same type and name, and fails with the same
      exception. */
  lemma ClassifyMatchesConstructors(methodName: string, p: PsiParameter)
    requires p.name.Some? && (p.psiType.PrimitiveType? ==> p.psiType == INT)
    ensures var r := ClassifyParameter(methodName, p);
            match KindOf(p.psiType)
            case IntegerKind =>
              p.psiType == INT
              && (r.Success? <==> NewNumericParameterRule(Some(INT), p.name).Success?)
              && (r.Success? ==> r.value.base == NewNumericParameterRule(Some(INT), p.name).value)
              && (r.Failure? ==> r.error == NewNumericParameterRule(Some(INT), p.name).error)
            case StringKind =>
              (r.Success? <==> NewStringRuleBase(Some(p.psiType), p.name).Success?)
              && (r.Success? ==> r.value.base == NewStringRuleBase(Some(p.psiType), p.name).value)
              && (r.Failure? ==> r.error == NewStringRuleBase(Some(p.psiType), p.name).error)
            case ObjectKind =>
              (r.Success? <==> NewObjectRuleBase(Some(p.psiType), p.name).Success?)
              && (r.Success? ==> r.value.base == NewObjectRuleBase(Some(p.psiType), p.name).value)
              && (r.Failure? ==> r.error == NewObjectRuleBase(Some(p.psiType), p.name).error)
  {
  }

  /** The rules of a parameter list, in order; the first parameter that cannot get
      one stops the build with its error. */
  function DefaultRuleSpecs(methodName: string, params: seq<PsiParameter>): (r: Throws<seq<RuleSpec>>)
    ensures r.Success? ==> |r.value| == |params|
  {
    if params == [] then Success([])
    else
      var init :- DefaultRuleSpecs(methodName, params[..|params| - 1]);
      var last :- ClassifyParameter(methodName, params[|params| - 1]);
      Success(init + [last])
  }

  /** The build succeeds exactly when every parameter can get a rule, and then
      the i-th rule is the i-th parameter's. */
  lemma {:induction false} DefaultRuleSpecsElementwise(methodName: string, params: seq<PsiParameter>)
    ensures DefaultRuleSpecs(methodName, params).Success? <==>
              forall i :: 0 <= i < |params| ==> ClassifyParameter(methodName, params[i]).Success?
    ensures DefaultRuleSpecs(methodName, params).Success? ==>
              forall i :: 0 <= i < |params| ==> DefaultRuleSpecs(methodName, params).value[i] == ClassifyParameter(methodName, params[i]).value
    decreases |params|
  {
    if params != [] {
      var init := params[..|params| - 1];
      DefaultRuleSpecsElementwise(methodName, init);
      assert forall i :: 0 <= i < |init| ==> init[i] == params[i];
    }
  }

  /** A failed build reports the error of the first parameter that cannot get a
      rule: every parameter before it can. */
  lemma {:induction false} DefaultRuleSpecsFirstFailure(methodName: string, params: seq<PsiParameter>)
    requires DefaultRuleSpecs(methodName, params).Failure?
    ensures exists i :: 0 <= i < |params|
              && ClassifyParameter(methodName, params[i]).Failure?
              && DefaultRuleSpecs(methodName, params).error == ClassifyParameter(methodName, params[i]).error
              && forall j :: 0 <= j < i ==> ClassifyParameter(methodName, params[j]).Success?
    decreases |params|
  {
    var n := |params|;
    var init := params[..n - 1];
    assert forall j :: 0 <= j < |init| ==> init[j] == params[j];
    if DefaultRuleSpecs(methodName, init).Failure? {
      DefaultRuleSpecsFirstFailure(methodName, init);
      var i :| 0 <= i < |init|
              && ClassifyParameter(methodName, init[i]).Failure?
              && DefaultRuleSpecs(methodName, init).error == ClassifyParameter(methodName, init[i]).error
              && forall j :: 0 <= j < i ==> ClassifyParameter(methodName, init[j]).Success?;
      assert params[i] == init[i];
    } else {
      DefaultRuleSpecsElementwise(methodName, init);
      assert ClassifyParameter(methodName, params[n - 1]).Failure?;
    }
  }

  /** Once a prefix of the parameters fails, the whole list fails with the same
      error: the first failure wins. */
  lemma {:induction false} DefaultRuleSpecsFailurePersists(methodName: string, params: seq<PsiParameter>, k: nat)
    requires k <= |params| && DefaultRuleSpecs(methodName, params[..k]).Failure?
    ensures DefaultRuleSpecs(methodName, params) == DefaultRuleSpecs(methodName, params[..k])
    decreases |params| - k
  {
    if k < |params| {
      assert params[..k + 1][..k] == params[..k];
      DefaultRuleSpecsFailurePersists(methodName, params, k + 1);
    } else {
      assert params[..k] == params;
    }
  }

  /** The spec of a built rule. */
  function SpecOf(rule: ParameterRule): RuleSpec {
    RuleSpec(rule.Kind(), rule.Base())
  }

  /** The specs of built rules, in order. */
  function Specs(rules: seq<ParameterRule>): (r: seq<RuleSpec>)
    ensures |r| == |rules| && forall i :: 0 <= i < |rules| ==> r[i] == SpecOf(rules[i])
  {
    seq(|rules|, i requires 0 <= i < |rules| => SpecOf(rules[i]))
  }

  /** Builds the rule of one parameter with the constructor its type calls for. */
  method MakeDefaultRule(methodName: string, p: PsiParameter) returns (r: Throws<ParameterRule>)
    ensures r.Failure? <==> ClassifyParameter(methodName, p).Failure?
    ensures r.Failure? ==> r.error == ClassifyParameter(methodName, p).error
    ensures r.Success? ==> SpecOf(r.value) == ClassifyParameter(methodName, p).value
    ensures r.Success? ==> fresh(r.value.Obj()) && r.value.AtDefaults()
  {
    if p.name.None? {
      return Failure(Thrown(IllegalStateException, NullNameMessage(p, methodName)));
    }
    if p.psiType.PrimitiveType? && p.psiType != INT {
      return Failure(Thrown(IllegalStateException, UnsupportedTypeMessage(p)));
    }
    ClassifyMatchesConstructors(methodName, p);
    if p.psiType.PrimitiveType? {
      if p.psiType == INT {
        var rule := IntegerParameterRule.New(p.name);
        if rule.Failure? {
          return rule.PropagateFailure();
        }
        return Success(IntegerRule(rule.value));
      }
      return Failure(Thrown(IllegalStateException, UnsupportedTypeMessage(p)));
    } else if p.psiType.CanonicalText() == STRING_CANONICAL_TEXT {
      var rule := StringParameterRule.New(Some(p.psiType), p.name);
      if rule.Failure? {
        return rule.PropagateFailure();
      }
      return Success(StringRule(rule.value));
    } else {
      var rule := ObjectParameterRule.New(Some(p.psiType), p.name);
      if rule.Failure? {
        return rule.PropagateFailure();
      }
      return Success(ObjectRule(rule.value));
    }
  }

  /** One iteration of `buildDefaultParameterRules`: the rules so far followed by
      a new rule for `p`, or the error `p` raises. */
  method AppendDefaultRule(methodName: string, p: PsiParameter, rules: seq<ParameterRule>) returns (r: Throws<seq<ParameterRule>>)
    requires AllAtDefaults(rules) && DistinctObjects(rules)
    ensures r.Failure? <==> ClassifyParameter(methodName, p).Failure?
    ensures r.Failure? ==> r.error == ClassifyParameter(methodName, p).error
    ensures r.Success? ==>
              |r.value| == |rules| + 1 && r.value == rules + [r.value[|rules|]]
              && Specs(r.value) == Specs(rules) + [ClassifyParameter(methodName, p).value]
              && fresh(r.value[|rules|].Obj()) && Objects(r.value) == Objects(rules) + {r.value[|rules|].Obj()}
    ensures r.Success? ==> AllAtDefaults(r.value) && DistinctObjects(r.value)
  {
    var rule := MakeDefaultRule(methodName, p);
    if rule.Failure? {
      return rule.PropagateFailure();
    }
    ObjectsAppend(rules, rule.value);
    DistinctAppend(rules, rule.value);
    var all := rules + [rule.value];
    assert Specs(all) == Specs(rules) + [SpecOf(rule.value)];
    return Success(all);
  }

  /** `buildDefaultParameterRules(method)`: one new rule per parameter, in
      declaration order, each at its defaults; or the error of the first parameter
      that cannot get a rule. */
  method BuildDefaultParameterRules(m: PsiMethod) returns (r: Throws<seq<ParameterRule>>)
    ensures r.Failure? <==> DefaultRuleSpecs(m.name, m.parameters).Failure?
    ensures r.Failure? ==> r.error == DefaultRuleSpecs(m.name, m.parameters).error
    ensures r.Success? ==> DefaultRuleSpecs(m.name, m.parameters) == Success(Specs(r.value))
    ensures r.Success? ==> fresh(Objects(r.value)) && DistinctObjects(r.value)
    ensures r.Success? ==> AllAtDefaults(r.value)
  {
    var params := m.parameters;
    var rules: seq<ParameterRule> := [];
    for i := 0 to |params|
      invariant |rules| == i && DefaultRuleSpecs(m.name, params[..i]) == Success(Specs(rules))
      invariant fresh(Objects(rules)) && DistinctObjects(rules)
      invariant AllAtDefaults(rules)
    {
      var next := AppendDefaultRule(m.name, params[i], rules);
      DefaultRuleSpecsStep(m.name, params, i);
      if next.Failure? {
        DefaultRuleSpecsFailurePersists(m.name, params, i + 1);
        return next.PropagateFailure();
      }
      rules := next.value;
    }
    assert params[..|params|] == params;
    return Success(rules);
  }

  /** One more parameter: the rules so far followed by its rule, or the first
      error. */
  lemma DefaultRuleSpecsStep(methodName: string, params: seq<PsiParameter>, i: nat)
    requires i < |params|
    ensures DefaultRuleSpecs(methodName, params[..i + 1]) ==
              (var init :- DefaultRuleSpecs(methodName, params[..i]);
               var last :- ClassifyParameter(methodName, params[i]);
               Success(init + [last]))
  {
    assert params[..i + 1][..i] == params[..i];
  }

  // ---------------------------------------------------------------------------
  // The presentable signature

  /** One parameter as shown: its type's short text, a space and its name (a
      missing name is appended as "null"). */
  function ParameterText(p: PsiParameter): string {
    p.psiType.PresentableText() + " " + (if p.name.Some? then p.name.value else "null")
  }

  function NullReturnTypeMessage(m: PsiMethod): string {
    NULL_RETURN_TYPE_PREFIX + m.name + HAS_NULL_RETURN_TYPE
  }

  /** What comes before the parameter list: "Constructor: (" for a constructor,
      "<return type> <name>: (" for a method, and an IllegalStateException for a
      method without a return type. */
  function SignaturePrefix(m: PsiMethod): Throws<string> {
    if m.isConstructor then Success(CONSTRUCTOR_PREFIX)
    else if m.returnType.None? then Failure(Thrown(IllegalStateException, NullReturnTypeMessage(m)))
    else Success(m.returnType.value.PresentableText() + " " + m.name + ": (")
  }

  /** The texts of the parameters, in order. */
  function ParameterTexts(params: seq<PsiParameter>): (r: seq<string>)
    ensures |r| == |params| && forall i :: 0 <= i < |params| ==> r[i] == ParameterText(params[i])
  {
    seq(|params|, i requires 0 <= i < |params| => ParameterText(params[i]))
  }

  /** The text of the parameter list: the items joined by ", ", or "no
      parameters" when there are none. */
  function ParameterListText(params: seq<PsiParameter>): string {
    if |params| > 0 then Join(ParameterTexts(params), ", ") else NO_PARAMETERS
  }

  /** The signature shown for a method: the prefix, the parameter list and a
      closing parenthesis. */
  function Signature(m: PsiMethod): Throws<string> {
    var prefix :- SignaturePrefix(m);
    Success(prefix + ParameterListText(m.parameters) + ")")
  }

  /** `getPresentableMethodSignature(method)`, built piece by piece as the
      StringBuilder does. */
  method PresentableMethodSignature(m: PsiMethod) returns (r: Throws<string>)
    ensures r == Signature(m)
  {
    var start := SignaturePrefix(m);
    if start.Failure? {
      return start.PropagateFailure();
    }
    var builder := start.value;
    ghost var prefix := builder;
    var params := m.parameters;
    ghost var texts := ParameterTexts(params);
    if |params| > 0 {
      var first := true;
      for i := 0 to |params|
        invariant first <==> i == 0
        invariant builder == prefix + Join(texts[..i], ", ")
      {
        ghost var before := builder;
        ghost var sep: string := if first then "" else ", ";
        if !first {
          builder := builder + ", ";
        }
        assert builder == before + sep;
        var typeText := params[i].psiType.PresentableText();
        var nameText := if params[i].name.Some? then params[i].name.value else "null";
        builder := builder + typeText;
        builder := builder + " ";
        builder := builder + nameText;
        first := false;
        AppendAssoc(before, sep, typeText, nameText);
        JoinStep(texts, ", ", i);
        AppendAssoc3(prefix, Join(texts[..i], ", "), sep, texts[i]);
      }
      assert texts[..|params|] == texts;
    } else {
      builder := builder + NO_PARAMETERS;
    }
    builder := builder + ")";
    return Success(builder);
  }

  /** Appending the pieces of one parameter one by one appends its text. */
  lemma AppendAssoc(before: string, sep: string, typeText: string, nameText: string)
    ensures before + sep + typeText + " " + nameText == before + (sep + (typeText + " " + nameText))
  {
  }

  /** Regrouping the builder's text around the separator and the new item. */
  lemma AppendAssoc3(a: string, b: string, c: string, d: string)
    ensures a + (b + c + d) == a + b + (c + d)
  {
  }

  /** Every offered constructor is shown as "Constructor: (" followed by its
      parameter list and a closing parenthesis; one with no parameters as
      "Constructor: (no parameters)". */
  lemma ConstructorSignatures(m: PsiMethod)
    requires m.isConstructor
    ensures Signature(m) == Success(CONSTRUCTOR_PREFIX + ParameterListText(m.parameters) + ")")
    ensures |m.parameters| == 0 ==> Signature(m) == Success(CONSTRUCTOR_PREFIX + NO_PARAMETERS + ")")
    ensures |m.parameters| == 1 ==> Signature(m) == Success(CONSTRUCTOR_PREFIX + ParameterText(m.parameters[0]) + ")")
  {
  }

  /** Each parameter's "Type name" appears in the parameter list at its offset,
      so no parameter is dropped or garbled. */
  lemma ParameterListContainsEach(params: seq<PsiParameter>, k: nat)
    requires k < |params|
    ensures var text := ParameterListText(params);
            var start := JoinOffset(ParameterTexts(params), ", ", k);
            start + |ParameterText(params[k])| <= |text|
            && text[start..start + |ParameterText(params[k])|] == ParameterText(params[k])
  {
    JoinContainsItems(ParameterTexts(params), ", ", k);
  }

  // ---------------------------------------------------------------------------
  // Opening the dialog

  const SOURCE_CLASS_NULL: string := "sourceClass cannot be null."

  /** The rule specs of every offered constructor, in the class's order; the first
      constructor whose rules cannot be built stops the dialog from opening. */
  function OfferedRuleSpecs(methods: seq<PsiMethod>): (r: Throws<seq<seq<RuleSpec>>>)
    ensures r.Success? ==> |r.value| == |Offered(methods)|
  {
    if methods == [] then Success([])
    else
      var init :- OfferedRuleSpecs(methods[..|methods| - 1]);
      var last := methods[|methods| - 1];
      if IsOffered(last) then
        var specs :- DefaultRuleSpecs(last.name, last.parameters);
        Success(init + [specs])
      else Success(init)
  }

  /** One more method of the class: offered or not, and its specs or its error. */
  lemma OfferedStep(methods: seq<PsiMethod>, j: nat)
    requires j < |methods|
    ensures Offered(methods[..j + 1]) == Offered(methods[..j]) + (if IsOffered(methods[j]) then [methods[j]] else [])
    ensures OfferedRuleSpecs(methods[..j + 1]) ==
              (var init :- OfferedRuleSpecs(methods[..j]);
               if IsOffered(methods[j]) then
                 var specs :- DefaultRuleSpecs(methods[j].name, methods[j].parameters);
                 Success(init + [specs])
               else Success(init))
  {
    assert methods[..j + 1][..j] == methods[..j];
  }

  /** When the dialog opens, the i-th offered constructor has the i-th list of
      specs, which is that constructor's own. */
  lemma {:induction false} OfferedRuleSpecsElementwise(methods: seq<PsiMethod>)
    requires OfferedRuleSpecs(methods).Success?
    ensures var offered := Offered(methods);
            forall i :: 0 <= i < |offered| ==>
              DefaultRuleSpecs(offered[i].name, offered[i].parameters) == Success(OfferedRuleSpecs(methods).value[i])
    decreases |methods|
  {
    var n := |methods|;
    if n > 0 {
      var init := methods[..n - 1];
      var last := methods[n - 1];
      OfferedStep(methods, n - 1);
      assert methods[..n] == methods;
      OfferedRuleSpecsElementwise(init);
      if IsOffered(last) {
        OfferedLast(methods);
      }
    }
  }

  /** The dialog opens whenever every offered constructor gets its rules. */
  lemma {:induction false} OfferedRuleSpecsSucceed(methods: seq<PsiMethod>)
    requires var offered := Offered(methods);
             forall i :: 0 <= i < |offered| ==> DefaultRuleSpecs(offered[i].name, offered[i].parameters).Success?
    ensures OfferedRuleSpecs(methods).Success?
    decreases |methods|
  {
    var n := |methods|;
    if n > 0 {
      var init := methods[..n - 1];
      OfferedStep(methods, n - 1);
      assert methods[..n] == methods;
      var offeredInit := Offered(init);
      assert forall i :: 0 <= i < |offeredInit| ==> Offered(methods)[i] == offeredInit[i];
      OfferedRuleSpecsSucceed(init);
      if IsOffered(methods[n - 1]) {
        OfferedLast(methods);
      }
    }
  }

  /** An offered last method comes last among the offered ones. */
  lemma OfferedLast(methods: seq<PsiMethod>)
    requires |methods| > 0 && IsOffered(methods[|methods| - 1])
    ensures var offered := Offered(methods);
            var offeredInit := Offered(methods[..|methods| - 1]);
            offered == offeredInit + [methods[|methods| - 1]]
            && |offered| == |offeredInit| + 1
            && (forall i :: 0 <= i < |offeredInit| ==> offered[i] == offeredInit[i])
            && offered[|offeredInit|] == methods[|methods| - 1]
  {
  }

  /** Once the constructors of a prefix of the class fail, the dialog fails with
      the same error. */
  lemma {:induction false} OfferedRuleSpecsFailurePersists(methods: seq<PsiMethod>, k: nat)
    requires k <= |methods| && OfferedRuleSpecs(methods[..k]).Failure?
    ensures OfferedRuleSpecs(methods) == OfferedRuleSpecs(methods[..k])
    decreases |methods| - k
  {
    if k < |methods| {
      OfferedStep(methods, k);
      OfferedRuleSpecsFailurePersists(methods, k + 1);
    } else {
      assert methods[..k] == methods;
    }
  }

  /** The objects behind every rule of a list of rule lists. */
  function ObjectsOfEach(rulesList: seq<seq<ParameterRule>>): set<object> {
    set i, rule | 0 <= i < |rulesList| && rule in rulesList[i] :: rule.Obj()
  }

  /** Every rule of every list is at its defaults. */
  predicate EachAtDefaults(rulesList: seq<seq<ParameterRule>>)
    reads ObjectsOfEach(rulesList)
  {
    forall i :: 0 <= i < |rulesList| ==> AllAtDefaults(rulesList[i])
  }

  lemma EachAtDefaultsAppend(rulesList: seq<seq<ParameterRule>>, rules: seq<ParameterRule>)
    requires EachAtDefaults(rulesList) && AllAtDefaults(rules)
    ensures EachAtDefaults(rulesList + [rules])
  {
    var all := rulesList + [rules];
    forall i | 0 <= i < |all|
      ensures AllAtDefaults(all[i])
    {
      if i < |rulesList| {
        assert all[i] == rulesList[i];
      }
    }
  }

  /** Rules whose objects were not touched stay at their defaults. */
  twostate lemma EachAtDefaultsKept(rulesList: seq<seq<ParameterRule>>)
    requires old(EachAtDefaults(rulesList))
    requires unchanged(ObjectsOfEach(rulesList))
    ensures EachAtDefaults(rulesList)
  {
  }

  /** The specs of each list of rules. */
  function SpecsOfEach(rulesList: seq<seq<ParameterRule>>): (r: seq<seq<RuleSpec>>)
    ensures |r| == |rulesList| && forall i :: 0 <= i < |rulesList| ==> r[i] == Specs(rulesList[i])
  {
    seq(|rulesList|, i requires 0 <= i < |rulesList| => Specs(rulesList[i]))
  }

  // ---------------------------------------------------------------------------
  // Accepting or rejecting the selection

  /** `doValidate()` as a decision: nothing selected is rejected first; otherwise a
      selected constructor with an invalid rule is rejected; otherwise the dialog
      accepts (`None`). `validity[i][j]` is whether rule j of constructor i is
      valid. */
  function ValidationOutcome(selected: seq<bool>, validity: seq<seq<bool>>): Option<string>
    requires |validity| == |selected|
  {
    if !exists i :: 0 <= i < |selected| && selected[i] then Some(NO_METHOD_SELECTED)
    else if exists i, j :: 0 <= i < |selected| && 0 <= j < |validity[i]| && selected[i] && !validity[i][j] then Some(INVALID_RULES)
    else None
  }

  /** Rules of constructors that are not selected never change the decision. */
  lemma UnselectedRulesIgnored(selected: seq<bool>, validity: seq<seq<bool>>, other: seq<seq<bool>>)
    requires |validity| == |selected| && |other| == |selected|
    requires forall i :: 0 <= i < |selected| && selected[i] ==> validity[i] == other[i]
    ensures ValidationOutcome(selected, validity) == ValidationOutcome(selected, other)
  {
    if exists i, j :: 0 <= i < |selected| && 0 <= j < |validity[i]| && selected[i] && !validity[i][j] {
      var i, j :| 0 <= i < |selected| && 0 <= j < |validity[i]| && selected[i] && !validity[i][j];
      assert other[i][j] == validity[i][j];
    }
  }

  // ---------------------------------------------------------------------------
  // The plan handed to the generator

  /** The positions of the ticked check boxes, in order. */
  function SelectedIndices(selected: seq<bool>): (r: seq<nat>)
    ensures forall k :: 0 <= k < |r| ==> r[k] < |selected| && selected[r[k]]
    ensures forall i :: 0 <= i < |selected| && selected[i] ==> i in r
    ensures forall a, b :: 0 <= a < b < |r| ==> r[a] < r[b]
  {
    if selected == [] then []
    else
      var n := |selected| - 1;
      var init := SelectedIndices(selected[..n]);
      if selected[n] then init + [n] else init
  }

  /** `getSelectedMethodRules()`: the stream filter over the offered constructors,
      keeping the ticked ones with their own rules, in the dialog's order. */
  function SelectedMethodRules(available: seq<PsiMethod>, rules: seq<seq<ParameterRule>>, selected: seq<bool>): (r: seq<MethodRules>)
    requires |rules| == |available| && |selected| == |available|
  {
    if available == [] then []
    else
      var n := |available| - 1;
      var init := SelectedMethodRules(available[..n], rules[..n], selected[..n]);
      if selected[n] then init + [MethodRules(available[n], rules[n])] else init
  }

  /** The plan lists, at its k-th position, the constructor of the k-th ticked
      check box together with that constructor's own rules. */
  lemma {:induction false} SelectedMethodRulesByIndex(available: seq<PsiMethod>, rules: seq<seq<ParameterRule>>, selected: seq<bool>)
    requires |rules| == |available| && |selected| == |available|
    ensures var r := SelectedMethodRules(available, rules, selected);
            var idx := SelectedIndices(selected);
            |r| == |idx| && forall k :: 0 <= k < |r| ==> r[k] == MethodRules(available[idx[k]], rules[idx[k]])
    decreases |available|
  {
    if available != [] {
      var n := |available| - 1;
      SelectedMethodRulesByIndex(available[..n], rules[..n], selected[..n]);
      var init := SelectedMethodRules(available[..n], rules[..n], selected[..n]);
      var idxInit := SelectedIndices(selected[..n]);
      var idx := SelectedIndices(selected);
      var r := SelectedMethodRules(available, rules, selected);
      assert idx == if selected[n] then idxInit + [n] else idxInit;
      assert r == if selected[n] then init + [MethodRules(available[n], rules[n])] else init;
      forall k | 0 <= k < |idxInit|
        ensures r[k] == MethodRules(available[idx[k]], rules[idx[k]])
      {
        assert idx[k] == idxInit[k] < n;
        assert r[k] == init[k];
      }
    }
  }

  /** One offered constructor as the dialog's constructor handles it: its label
      and its default rules, or the error its rules raise. */
  method OfferConstructor(m: PsiMethod) returns (r: Throws<(string, seq<ParameterRule>)>)
    requires IsOffered(m)
    ensures r.Failure? <==> DefaultRuleSpecs(m.name, m.parameters).Failure?
    ensures r.Failure? ==> r.error == DefaultRuleSpecs(m.name, m.parameters).error
    ensures r.Success? ==>
              Signature(m) == Success(r.value.0)
              && DefaultRuleSpecs(m.name, m.parameters) == Success(Specs(r.value.1))
              && |r.value.1| == |m.parameters|
    ensures r.Success? ==> fresh(Objects(r.value.1)) && DistinctObjects(r.value.1) && AllAtDefaults(r.value.1)
  {
    var caption := PresentableMethodSignature(m);
    ConstructorSignatures(m);
    var rules := BuildDefaultParameterRules(m);
    if rules.Failure? {
      return rules.PropagateFailure();
    }
    return Success((caption.value, rules.value));
  }

  /** What opening the dialog has gathered from `methods`: the offered constructors,
      a label with each one's signature, and rules of the right arity, pairwise on
      distinct objects, whose specs are the ones `OfferedRuleSpecs` computes. */
  ghost predicate Collected(methods: seq<PsiMethod>, available: seq<PsiMethod>, labels: seq<string>,
                            rulesList: seq<seq<ParameterRule>>)
  {
    && available == Offered(methods)
    && OfferedRuleSpecs(methods) == Success(SpecsOfEach(rulesList))
    && LabelsMatch(available, labels)
    && RulesMatch(available, rulesList)
  }

  /** Each constructor's label is its signature. */
  ghost predicate LabelsMatch(available: seq<PsiMethod>, labels: seq<string>) {
    |labels| == |available| && forall i :: 0 <= i < |labels| ==> Signature(available[i]) == Success(labels[i])
  }

  /** Each constructor has one rule per parameter, each on its own object. */
  ghost predicate RulesMatch(available: seq<PsiMethod>, rulesList: seq<seq<ParameterRule>>) {
    |rulesList| == |available|
    && (forall i :: 0 <= i < |rulesList| ==> |rulesList[i]| == |available[i].parameters|)
    && (forall i :: 0 <= i < |rulesList| ==> DistinctObjects(rulesList[i]))
  }

  lemma LabelsMatchAppend(available: seq<PsiMethod>, labels: seq<string>, m: PsiMethod, caption: string)
    requires LabelsMatch(available, labels) && Signature(m) == Success(caption)
    ensures LabelsMatch(available + [m], labels + [caption])
  {
    var a, l := available + [m], labels + [caption];
    forall i | 0 <= i < |l|
      ensures Signature(a[i]) == Success(l[i])
    {
      if i < |labels| {
        assert a[i] == available[i] && l[i] == labels[i];
      }
    }
  }

  lemma RulesMatchAppend(available: seq<PsiMethod>, rulesList: seq<seq<ParameterRule>>, m: PsiMethod,
                         rules: seq<ParameterRule>)
    requires RulesMatch(available, rulesList)
    requires |rules| == |m.parameters| && DistinctObjects(rules)
    ensures RulesMatch(available + [m], rulesList + [rules])
  {
    var a, r := available + [m], rulesList + [rules];
    forall i | 0 <= i < |r|
      ensures |r[i]| == |a[i].parameters| && DistinctObjects(r[i])
    {
      if i < |rulesList| {
        assert a[i] == available[i] && r[i] == rulesList[i];
      }
    }
  }

  /** A method that is not offered adds nothing. */
  lemma {:induction false} CollectedSkip(methods: seq<PsiMethod>, j: nat, available: seq<PsiMethod>, labels: seq<string>,
                      rulesList: seq<seq<ParameterRule>>)
    requires j < |methods| && !IsOffered(methods[j])
    requires Collected(methods[..j], available, labels, rulesList)
    ensures Collected(methods[..j + 1], available, labels, rulesList)
  {
    OfferedStep(methods, j);
  }

  /** An offered constructor adds its signature and its rules at the end. */
  lemma {:induction false} CollectedAdd(methods: seq<PsiMethod>, j: nat, available: seq<PsiMethod>, labels: seq<string>,
                     rulesList: seq<seq<ParameterRule>>, caption: string, rules: seq<ParameterRule>)
    requires j < |methods| && IsOffered(methods[j])
    requires Collected(methods[..j], available, labels, rulesList)
    requires Signature(methods[j]) == Success(caption)
    requires DefaultRuleSpecs(methods[j].name, methods[j].parameters) == Success(Specs(rules))
    requires |rules| == |methods[j].parameters| && DistinctObjects(rules)
    ensures Collected(methods[..j + 1], available + [methods[j]], labels + [caption], rulesList + [rules])
  {
    OfferedStep(methods, j);
    assert SpecsOfEach(rulesList + [rules]) == SpecsOfEach(rulesList) + [Specs(rules)];
    LabelsMatchAppend(available, labels, methods[j], caption);
    RulesMatchAppend(available, rulesList, methods[j], rules);
  }

  /** A failing offered constructor makes opening fail with its error. */
  lemma {:induction false} OfferedFails(methods: seq<PsiMethod>, j: nat)
    requires j < |methods| && IsOffered(methods[j])
    requires OfferedRuleSpecs(methods[..j]).Success?
    requires DefaultRuleSpecs(methods[j].name, methods[j].parameters).Failure?
    ensures OfferedRuleSpecs(methods) == Failure(DefaultRuleSpecs(methods[j].name, methods[j].parameters).error)
  {
    var error := DefaultRuleSpecs(methods[j].name, methods[j].parameters).error;
    assert OfferedRuleSpecs(methods[..j + 1]) == Failure(error) by {
      OfferedStep(methods, j);
    }
    OfferedRuleSpecsFailurePersists(methods, j + 1);
  }

  /** One iteration of the dialog constructor's loop: method `j` is skipped,
      or offered with its label and default rules, or stops the dialog. */
  method CollectOne(methods: seq<PsiMethod>, j: nat, available: seq<PsiMethod>, labels: seq<string>,
                    rulesList: seq<seq<ParameterRule>>)
    returns (r: Throws<(seq<PsiMethod>, seq<string>, seq<seq<ParameterRule>>)>)
    requires j < |methods|
    requires Collected(methods[..j], available, labels, rulesList) && EachAtDefaults(rulesList)
    ensures r.Failure? ==> OfferedRuleSpecs(methods) == Failure(r.error)
    ensures r.Success? ==> Collected(methods[..j + 1], r.value.0, r.value.1, r.value.2) && EachAtDefaults(r.value.2)
  {
    var m := methods[j];
    if !IsOffered(m) {
      CollectedSkip(methods, j, available, labels, rulesList);
      return Success((available, labels, rulesList));
    }
    label before:
    var offer := OfferConstructor(m);
    EachAtDefaultsKept@before(rulesList);
    if offer.Failure? {
      OfferedFails(methods, j);
      return offer.PropagateFailure();
    }
    var (caption, rules) := offer.value;
    CollectedAdd(methods, j, available, labels, rulesList, caption, rules);
    EachAtDefaultsAppend(rulesList, rules);
    return Success((available + [m], labels + [caption], rulesList + [rules]));
  }

  /** The loop of the dialog's constructor over the class's methods: each offered
      constructor gets its label and its default rules, in the class's order, and
      the first constructor whose rules cannot be built stops the dialog. */
  method CollectOffered(methods: seq<PsiMethod>)
    returns (r: Throws<(seq<PsiMethod>, seq<string>, seq<seq<ParameterRule>>)>)
    ensures r.Failure? <==> OfferedRuleSpecs(methods).Failure?
    ensures r.Failure? ==> r.error == OfferedRuleSpecs(methods).error
    ensures r.Success? ==> Collected(methods, r.value.0, r.value.1, r.value.2) && EachAtDefaults(r.value.2)
  {
    var available: seq<PsiMethod> := [];
    var labels: seq<string> := [];
    var rulesList: seq<seq<ParameterRule>> := [];
    for j := 0 to |methods|
      invariant Collected(methods[..j], available, labels, rulesList)
      invariant EachAtDefaults(rulesList)
    {
      var step := CollectOne(methods, j, available, labels, rulesList);
      if step.Failure? {
        return step.PropagateFailure();
      }
      available, labels, rulesList := step.value.0, step.value.1, step.value.2;
    }
    assert methods[..|methods|] == methods;
    return Success((available, labels, rulesList));
  }

  // ---------------------------------------------------------------------------
  // The dialog

  class GetTestMethodsDialog {
    /** The offered constructors, in the class's order. */
    const availableMethods: seq<PsiMethod>
    /** The label of each constructor's check box. */
    const labels: seq<string>
    /** The rules of each offered constructor, one per parameter. */
    const parameterRules: seq<seq<ParameterRule>>
    /** Whether each constructor's check box is ticked. */
    var selected: seq<bool>

    /** One label, one rule list and one check box per offered constructor, and
        one rule per parameter. */
    ghost predicate Valid()
      reads this
    {
      |labels| == |availableMethods| && |parameterRules| == |availableMethods| && |selected| == |availableMethods|
      && forall i :: 0 <= i < |availableMethods| ==> |parameterRules[i]| == |availableMethods[i].parameters|
    }

    /** The dialog after its constructor's loop: every check box starts unticked. */
    constructor (availableMethods: seq<PsiMethod>, labels: seq<string>, parameterRules: seq<seq<ParameterRule>>)
      requires |labels| == |availableMethods| && |parameterRules| == |availableMethods|
      requires forall i :: 0 <= i < |availableMethods| ==> |parameterRules[i]| == |availableMethods[i].parameters|
      ensures this.availableMethods == availableMethods && this.labels == labels && this.parameterRules == parameterRules
      ensures |selected| == |availableMethods| && forall i :: 0 <= i < |selected| ==> !selected[i]
      ensures Valid()
    {
      this.availableMethods := availableMethods;
      this.labels := labels;
      this.parameterRules := parameterRules;
      selected := seq(|availableMethods|, _ => false);
    }

    /** `new GetTestMethodsDialog(sourceClass)`: a null class is a
        NullPointerException; otherwise each offered constructor, in the class's
        order, gets its signature as label and its default rules, and the first
        constructor whose rules cannot be built stops the dialog with that error. */
    static method Open(sourceClass: Option<PsiClass>) returns (r: Throws<GetTestMethodsDialog>)
      ensures sourceClass.None? ==> r == Failure(Thrown(NullPointerException, SOURCE_CLASS_NULL))
      ensures sourceClass.Some? ==>
                (r.Failure? <==> OfferedRuleSpecs(sourceClass.value.methods).Failure?)
                && (r.Failure? ==> r.error == OfferedRuleSpecs(sourceClass.value.methods).error)
      ensures r.Success? ==>
                fresh(r.value) && r.value.Valid()
                && r.value.availableMethods == Offered(sourceClass.value.methods)
                && OfferedRuleSpecs(sourceClass.value.methods) == Success(SpecsOfEach(r.value.parameterRules))
      ensures r.Success? ==>
                (forall i :: 0 <= i < |r.value.labels| ==> Signature(r.value.availableMethods[i]) == Success(r.value.labels[i]))
                && (forall i :: 0 <= i < |r.value.selected| ==> !r.value.selected[i])
      ensures r.Success? ==>
                EachAtDefaults(r.value.parameterRules)
                && forall i :: 0 <= i < |r.value.parameterRules| ==> DistinctObjects(r.value.parameterRules[i])
    {
      if sourceClass.None? {
        return Failure(Thrown(NullPointerException, SOURCE_CLASS_NULL));
      }
      var methods := sourceClass.value.methods;
      var collected := CollectOffered(methods);
      if collected.Failure? {
        return collected.PropagateFailure();
      }
      var (available, labels, rulesList) := collected.value;
      label before:
      var dialog := new GetTestMethodsDialog(available, labels, rulesList);
      EachAtDefaultsKept@before(rulesList);
      return Success(dialog);
    }

    /** The user ticks or clears the check box of constructor i. */
    method SetSelected(i: nat, ticked: bool)
      requires Valid() && i < |selected|
      modifies this
      ensures selected == old(selected)[i := ticked]
      ensures Valid()
    {
      selected := selected[i := ticked];
    }

    /** The objects holding the settings of every rule of the dialog. */
    function RuleObjects(): set<object>
      reads this
    {
      ObjectsOfEach(parameterRules)
    }

    /** `isValid()` of every rule, constructor by constructor. */
    function Validity(): (v: seq<seq<bool>>)
      reads this, RuleObjects()
      ensures |v| == |parameterRules|
      ensures forall i :: 0 <= i < |v| ==>
                |v[i]| == |parameterRules[i]| && forall j :: 0 <= j < |v[i]| ==> v[i][j] == parameterRules[i][j].IsValid()
    {
      seq(|parameterRules|, i requires 0 <= i < |parameterRules| reads this, RuleObjects() =>
        seq(|parameterRules[i]|, j requires 0 <= j < |parameterRules[i]| reads this, RuleObjects() =>
          parameterRules[i][j].IsValid()))
    }

    /** `doValidate()`: the flag-and-break loops over the ticked constructors and
        their rules decide exactly as `ValidationOutcome` does. */
    method DoValidate() returns (r: Option<string>)
      requires Valid()
      ensures r == ValidationOutcome(selected, Validity())
    {
      var valid := true;
      var anySelected := false;
      for i := 0 to |availableMethods|
        invariant anySelected <==> exists k :: 0 <= k < i && selected[k]
        invariant valid
        invariant forall k, j :: 0 <= k < i && 0 <= j < |parameterRules[k]| && selected[k] ==> parameterRules[k][j].IsValid()
      {
        if selected[i] {
          anySelected := true;
          var rules := parameterRules[i];
          for j := 0 to |rules|
            invariant valid
            invariant forall jj :: 0 <= jj < j ==> rules[jj].IsValid()
          {
            if !rules[j].IsValid() {
              valid := false;
              break;
            }
          }
          if !valid {
            break;
          }
        }
      }
      if !anySelected {
        return Some(NO_METHOD_SELECTED);
      } else if !valid {
        return Some(INVALID_RULES);
      }
      return None;
    }

    /** `getSelectedMethodRules()`: the ticked constructors with their rules, in the
        dialog's order; every entry has exactly one rule per parameter. */
    function GetSelectedMethodRules(): (r: seq<MethodRules>)
      reads this
      requires Valid()
      ensures r == SelectedMethodRules(availableMethods, parameterRules, selected)
      ensures forall k :: 0 <= k < |r| ==> |r[k].rules| == |r[k].psiMethod.parameters|
    {
      SelectedMethodRulesByIndex(availableMethods, parameterRules, selected);
      SelectedMethodRules(availableMethods, parameterRules, selected)
    }
  }
}

# BoilerplateJUnitGenerator, modelled in Dafny

BoilerplateJUnitGenerator is an IntelliJ plugin that writes JUnit tests for the
constructors of a Java class. The user opens a dialog on a source class and
ticks the constructors to test. Each constructor parameter gets a
*parameter rule*:

- an `int` parameter gets a relational constraint (any, `<=`, `<`, `==`, `>`,
  `>=`) and a boundary value;
- a reference parameter gets a "Disallow null" box;
- a `String` parameter also gets a "Disallow blank" box.

Each rule expands its settings into *valid initializers* and *invalid
initializers*. Every invalid initializer is paired with the exception the
constructor must throw. The generator then writes one test method per invalid
initializer of every rule of every ticked constructor. That method declares one
variable per parameter, calls the constructor and expects the exception. The
test class is placed under `src/test/java/<package>`, next to the source file's
`src/main/java/<package>`. Missing directories and the test class are created
when needed.

The model covers:

- the rules (`parameters/`);
- the non-visual part of the dialog, meaning which constructors are offered,
  the default rules, validation, the selected plan and the signature text;
- the generator (test-case synthesis, imports, insertion);
- the path logic of `PsiUtility`.

Layout, one module per Java file:

| file | module | models |
|---|---|---|
| `wrappers.dfy` | `Wrappers` | `Option`, `Result` |
| `java_lang.dfy` | `JavaLang` | exception classes, 32-bit `int` wrap-around, `String.valueOf(int)`, `Integer.parseInt` on ASCII digits, `String.split("\\.")`, joining with a separator, ASCII upper-casing, Java string-literal escapes, Java identifier characters |
| `psi.dfy` | `Psi` | the host's types, parameters, methods and classes as plain values |
| `parameter_initializer.dfy` | `ParameterInitializers` | `ParameterInitializer` |
| `abstract_parameter_rule.dfy` | `AbstractParameterRules` | `AbstractParameterRule` |
| `numeric_parameter_rule.dfy` | `NumericParameterRules` | `NumericParameterRule` and `NumericConstraint` |
| `integer_parameter_rule.dfy` | `IntegerParameterRules` | `IntegerParameterRule` (a class with the constraint and the boundary text as fields) |
| `object_parameter_rule.dfy` | `ObjectParameterRules` | `ObjectParameterRule` (a class with the "Disallow null" flag) |
| `string_parameter_rule.dfy` | `StringParameterRules` | `StringParameterRule` (a class with both flags) |
| `parameter_rule.dfy` | `ParameterRules` | the `ParameterRule` interface as a datatype over the three rule classes |
| `get_test_methods_dialog.dfy` | `GetTestMethodsDialogs` | `GetTestMethodsDialog` |
| `test_case_generator.dfy` | `TestCaseGenerators` | `TestCaseGenerator` |
| `psi_utility.dfy` | `PsiUtilities` | `PsiUtility` |

Conventions of the model:

- A Java exception is a `Failure(Thrown(class, message))` of a `Result`.
- A constructor that can throw becomes two parts: a static `New` method that
  runs the argument checks, and a Dafny constructor for the checked case.
- A rule's invalid map becomes an ordered sequence of
  (initializer, exception class) pairs. `ParameterInitializer` has no `equals`
  of its own, so no two entries are ever merged.
- A generated test method is a record of strings: its name, its annotation,
  its declarations and its constructor call.
- The directory tree is a set of name paths.
- A PSI node the generator adds to is a class holding a sequence of children.

Two behaviours of the code worth noting:

- Asking an integer rule that is not valid for its initializers throws
  `IllegalArgumentException`, because it uses `Preconditions.checkArgument`.
- A rule list whose length differs from the constructor's parameter count makes
  `createTestCases` throw `IllegalArgumentException`.

## Model

Source paths are relative to the repository root.

| member | source | states |
|---|---|---|
| ParameterInitializers.NewParameterInitializer | src/com/rtoth/boilerplate/parameters/ParameterInitializer.java:50-54 | Construction succeeds iff both arguments are non-null. A null description is a NullPointerException checked first; a null text is one checked second. On success, `getDescription`/`getInitializerText` return the arguments unchanged. |
| AbstractParameterRules.AbstractParameterRule.CapitalizedName | src/com/rtoth/boilerplate/parameters/AbstractParameterRule.java:57-60 | The result has the name's length, every character after the first is unchanged, and the first is the upper-cased first character (never a lower-case ASCII letter). |
| AbstractParameterRules.NewAbstractParameterRule | src/com/rtoth/boilerplate/parameters/AbstractParameterRule.java:38-43 | Succeeds iff type and name are non-null and the name is non-empty; the stored type and name are the arguments; a null argument is a NullPointerException, an empty name an IllegalArgumentException. |
| AbstractParameterRules.CapitalizedNameIdempotent | src/com/rtoth/boilerplate/parameters/AbstractParameterRule.java:57-60 | Capitalizing an already capitalized name changes nothing. |
| NumericParameterRules.ValuesListsEachConstraintOnce | src/com/rtoth/boilerplate/parameters/NumericParameterRule.java:113-152 | There are exactly six constraints, each listed once, and different constraints render as different strings. |
| NumericParameterRules.NumericIsValid | src/com/rtoth/boilerplate/parameters/NumericParameterRule.java:97-101 | The base numeric rule is always valid. |
| NumericParameterRules.NewNumericParameterRule | src/com/rtoth/boilerplate/parameters/NumericParameterRule.java:64-67 | Succeeds iff the abstract rule's checks pass and the type is primitive; the abstract rule's failures propagate unchanged (NullPointerException for a null type or name, IllegalArgumentException for an empty name); a non-primitive type is an IllegalArgumentException with the source's message. |
| IntegerParameterRules.IntegerParameterRule.constructor | src/com/rtoth/boilerplate/parameters/IntegerParameterRule.java:48-62 | A new rule has constraint ANY and an empty boundary, and is valid. |
| IntegerParameterRules.IntegerParameterRule.New | src/com/rtoth/boilerplate/parameters/IntegerParameterRule.java:48-50 | Fails iff the name is null or empty, with the numeric rule's error: a NullPointerException for a null name, an IllegalArgumentException for an empty one; otherwise a fresh rule of type `int` with the given name, at constraint ANY with an empty boundary. |
| IntegerParameterRules.IntegerParameterRule.SelectConstraint | src/com/rtoth/boilerplate/parameters/NumericParameterRule.java:86-95 | Selecting a constraint makes it the one `getConstraint` returns and leaves the boundary text alone. |
| IntegerParameterRules.IntegerParameterRule.SetValueText | src/com/rtoth/boilerplate/parameters/IntegerParameterRule.java:294-298 | Editing the boundary changes the text `getValue` parses and leaves the constraint alone. |
| IntegerParameterRules.IntegerParameterRule.IsValid | src/com/rtoth/boilerplate/parameters/IntegerParameterRule.java:83-87 | Valid iff the constraint is ANY or the boundary text parses as an `int` (a parse failure is "no value", not an exception). |
| IntegerParameterRules.IntegerParameterRule.GetValidInitializers | src/com/rtoth/boilerplate/parameters/IntegerParameterRule.java:89-178 | Throws IllegalArgumentException ("Must be valid when getting initializers!") iff the rule is not valid; otherwise returns the expansion of the current constraint and boundary, which is never empty. |
| IntegerParameterRules.IntegerParameterRule.GetInvalidInitializers | src/com/rtoth/boilerplate/parameters/IntegerParameterRule.java:180-278 | Throws the same IllegalArgumentException iff the rule is not valid; otherwise returns the invalid expansion of the current constraint and boundary. |
| IntegerParameterRules.ExpansionShape | src/com/rtoth/boilerplate/parameters/IntegerParameterRule.java:97-270 | ANY gives exactly `[("valid"+CapName, "0")]` and no invalid entry; `<=`/`>=` give 2 valid and 1 invalid, `<`, `==`, `>` give 1 valid and 2 invalid; every invalid entry expects IllegalArgumentException. |
| IntegerParameterRules.ExpansionPartitionsNeighbourhood | src/com/rtoth/boilerplate/parameters/IntegerParameterRule.java:109-270 | For every constraint other than ANY and a boundary v strictly inside the `int` range, the values the valid and invalid texts read back as are v-1, v and v+1, each exactly once; every valid value satisfies the constraint against v and every invalid value violates it. |
| IntegerParameterRules.NeighbourhoodSplits | src/com/rtoth/boilerplate/parameters/NumericParameterRule.java:118-131 | How each constraint's meaning splits v-1, v, v+1 into accepted and rejected values, in the order the expansion lists them. |
| IntegerParameterRules.NeighbourhoodSplitsLessEqual | src/com/rtoth/boilerplate/parameters/NumericParameterRule.java:118-119 | `<=` accepts v-1 and v and rejects v+1. |
| IntegerParameterRules.NeighbourhoodSplitsLess | src/com/rtoth/boilerplate/parameters/NumericParameterRule.java:121-122 | `<` accepts v-1 and rejects v+1 and v. |
| IntegerParameterRules.NeighbourhoodSplitsEqual | src/com/rtoth/boilerplate/parameters/NumericParameterRule.java:124-125 | `==` accepts v and rejects v-1 and v+1. |
| IntegerParameterRules.NeighbourhoodSplitsGreater | src/com/rtoth/boilerplate/parameters/NumericParameterRule.java:127-128 | `>` accepts v+1 and rejects v-1 and v. |
| IntegerParameterRules.NeighbourhoodSplitsGreaterEqual | src/com/rtoth/boilerplate/parameters/NumericParameterRule.java:130-131 | `>=` accepts v+1 and v and rejects v-1. |
| IntegerParameterRules.ExpansionValues | src/com/rtoth/boilerplate/parameters/IntegerParameterRule.java:109-270 | Constraint by constraint, the exact values the valid and the invalid initializer texts read back as, in list order. |
| IntegerParameterRules.ExpansionValuesLessEqual | src/com/rtoth/boilerplate/parameters/IntegerParameterRule.java:109-124 | `<=`: valid values [v-1, v], invalid [v+1]. |
| IntegerParameterRules.ExpansionValuesLess | src/com/rtoth/boilerplate/parameters/IntegerParameterRule.java:125-134 | `<`: valid [v-1], invalid [v+1, v]. |
| IntegerParameterRules.ExpansionValuesEqual | src/com/rtoth/boilerplate/parameters/IntegerParameterRule.java:135-144 | `==`: valid [v], invalid [v-1, v+1]. |
| IntegerParameterRules.ExpansionValuesGreater | src/com/rtoth/boilerplate/parameters/IntegerParameterRule.java:145-154 | `>`: valid [v+1], invalid [v-1, v]. |
| IntegerParameterRules.ExpansionValuesGreaterEqual | src/com/rtoth/boilerplate/parameters/IntegerParameterRule.java:155-170 | `>=`: valid [v+1, v], invalid [v-1]. |
| IntegerParameterRules.NeighbourValues | src/com/rtoth/boilerplate/parameters/IntegerParameterRule.java:111-122 | Strictly inside the `int` range, the "LessThan", "EqualTo" and "GreaterThan" initializers' texts parse back to v-1, v and v+1. |
| IntegerParameterRules.DescriptionsDistinct | src/com/rtoth/boilerplate/parameters/IntegerParameterRule.java:113-166 | The three descriptions a boundary produces (name+"LessThan"+v, name+"EqualTo"+v, name+"GreaterThan"+v) are pairwise different, so one rule never gives two tests the same name. |
| IntegerParameterRules.UpperBoundaryWraps | src/com/rtoth/boilerplate/parameters/IntegerParameterRule.java:195-205 | With `<=` and boundary Integer.MAX_VALUE, `value + 1` wraps: the one "invalid" initializer passes Integer.MIN_VALUE, which satisfies the constraint. |
| IntegerParameterRules.LowerBoundaryWraps | src/com/rtoth/boilerplate/parameters/IntegerParameterRule.java:260-270 | With `>=` and boundary Integer.MIN_VALUE, `value - 1` wraps: the one "invalid" initializer passes Integer.MAX_VALUE, which satisfies the constraint. |
| IntegerParameterRules.CountAtLeastTen | src/com/rtoth/boilerplate/parameters/IntegerParameterRule.java:155-170 | `count >= 10` expands to valid [("countGreaterThan10","11"), ("countEqualTo10","10")] and invalid [("countLessThan10","9") → IllegalArgumentException]. |
| ObjectParameterRules.NewObjectRuleBase | src/com/rtoth/boilerplate/parameters/ObjectParameterRule.java:63-66 | Succeeds iff the abstract rule's checks pass and the type is not primitive; abstract failures propagate unchanged; a primitive type is an IllegalArgumentException. |
| ObjectParameterRules.ObjectParameterRule.constructor | src/com/rtoth/boilerplate/parameters/ObjectParameterRule.java:49 | The "Disallow null" box starts unselected. |
| ObjectParameterRules.ObjectParameterRule.New | src/com/rtoth/boilerplate/parameters/ObjectParameterRule.java:63-66 | Fails exactly as the constructor's checks do, with their error; otherwise a fresh rule holding the checked type and name, null allowed. |
| ObjectParameterRules.ObjectParameterRule.SetDisallowNull | src/com/rtoth/boilerplate/parameters/ObjectParameterRule.java:49 | Ticking or clearing the box sets the flag `getInvalidInitializers` reads. |
| ObjectParameterRules.ObjectParameterRule.IsValid | src/com/rtoth/boilerplate/parameters/ObjectParameterRule.java:85-89 | An object rule is always valid. |
| ObjectParameterRules.ObjectParameterRule.GetValidInitializers | src/com/rtoth/boilerplate/parameters/ObjectParameterRule.java:98-109 | Returns the object rule's valid list for the rule's type and name, whatever the flag. |
| ObjectParameterRules.ObjectParameterRule.GetInvalidInitializers | src/com/rtoth/boilerplate/parameters/ObjectParameterRule.java:111-126 | Returns the invalid list for the current flag. |
| ObjectParameterRules.ObjectValidInitializers | src/com/rtoth/boilerplate/parameters/ObjectParameterRule.java:100-109 | Exactly one entry: ("valid"+CapName, "mock(" + type's short text + ".class)"). |
| ObjectParameterRules.ObjectInvalidInitializers | src/com/rtoth/boilerplate/parameters/ObjectParameterRule.java:113-126 | Empty iff null is allowed; otherwise exactly ("null"+CapName, "null") → NullPointerException. |
| ObjectParameterRules.ObjectDescriptionsDiffer | src/com/rtoth/boilerplate/parameters/ObjectParameterRule.java:103-123 | No invalid entry's description equals the valid entry's. |
| StringParameterRules.NewStringRuleBase | src/com/rtoth/boilerplate/parameters/StringParameterRule.java:59-63 | Succeeds iff the object rule's checks pass and the canonical text is "java.lang.String"; earlier failures propagate unchanged; another type is an IllegalArgumentException "type must be String.". |
| StringParameterRules.StringParameterRule.constructor | src/com/rtoth/boilerplate/parameters/StringParameterRule.java:45 | Both check boxes start unselected. |
| StringParameterRules.StringParameterRule.New | src/com/rtoth/boilerplate/parameters/StringParameterRule.java:59-63 | Fails exactly as the checks do, with their error; otherwise a fresh rule with the checked type and name and both boxes clear. |
| StringParameterRules.StringParameterRule.SetDisallowNull | src/com/rtoth/boilerplate/parameters/ObjectParameterRule.java:49 | Sets the inherited "Disallow null" flag and leaves "Disallow blank" alone. |
| StringParameterRules.StringParameterRule.SetDisallowBlank | src/com/rtoth/boilerplate/parameters/StringParameterRule.java:45 | Sets the "Disallow blank" flag and leaves "Disallow null" alone. |
| StringParameterRules.StringParameterRule.IsValid | src/com/rtoth/boilerplate/parameters/ObjectParameterRule.java:85-89 | A string rule, inheriting the object rule's check, is always valid. |
| StringParameterRules.StringParameterRule.GetValidInitializers | src/com/rtoth/boilerplate/parameters/StringParameterRule.java:75-85 | Returns the string rule's valid list. |
| StringParameterRules.StringParameterRule.GetInvalidInitializers | src/com/rtoth/boilerplate/parameters/StringParameterRule.java:87-104 | Returns the invalid list for the two current flags. |
| StringParameterRules.StringValidInitializers | src/com/rtoth/boilerplate/parameters/StringParameterRule.java:77-85 | Exactly one entry, described "valid"+CapName, whose literal evaluates to "test", a non-blank string. |
| StringParameterRules.BlankEntry | src/com/rtoth/boilerplate/parameters/StringParameterRule.java:95-101 | The blank entry is described "blank"+CapName, expects IllegalArgumentException, and its literal evaluates to a non-empty all-whitespace string. |
| StringParameterRules.StringInvalidInitializers | src/com/rtoth/boilerplate/parameters/StringParameterRule.java:89-104 | Starts with the object rule's entries in their order, has one entry per ticked box, and ends with the blank entry when "Disallow blank" is ticked. |
| StringParameterRules.ValidLiteralValue | src/com/rtoth/boilerplate/parameters/StringParameterRule.java:82 | The literal `"test"` evaluates to test, which is not blank. |
| StringParameterRules.BlankLiteralValue | src/com/rtoth/boilerplate/parameters/StringParameterRule.java:98 | The literal `"\n\n  \t "` evaluates to two newlines, two spaces, a tab and a space: blank. |
| JavaLang.UnescapeEscape | src/com/rtoth/boilerplate/parameters/StringParameterRule.java:98 | Every string, written as a Java literal body with the `\n`, `\t`, `\\` and `\"` escapes, reads back as itself; the blank literal is one such body. |
| StringParameterRules.InvalidEntriesByFlags | src/com/rtoth/boilerplate/parameters/StringParameterRule.java:89-104 | Both boxes: two entries, the NullPointerException one before the IllegalArgumentException one; exactly one box: one entry; neither: none. |
| ParameterRules.ParameterRule.Name | src/com/rtoth/boilerplate/parameters/ParameterRule.java:60-66 | `getName()` is never null or empty. |
| ParameterRules.ParameterRule.GetValidInitializers | src/com/rtoth/boilerplate/parameters/ParameterRule.java:68-77 | Succeeds iff the rule is valid, and then the list has at least one element; otherwise the error is an IllegalArgumentException. |
| ParameterRules.ParameterRule.GetInvalidInitializers | src/com/rtoth/boilerplate/parameters/ParameterRule.java:79-90 | Succeeds iff the rule is valid (the list may be empty); otherwise the error is an IllegalArgumentException. |
| ParameterRules.DefaultsAreValidAndQuiet | src/com/rtoth/boilerplate/parameters/ParameterRule.java:79-90 | A rule at its initial settings is valid and has an empty invalid mapping: the parameter is "always valid". |
| JavaLang.Wrap32 | src/com/rtoth/boilerplate/parameters/IntegerParameterRule.java:114 | `int` arithmetic: an in-range result is unchanged, MAX_VALUE+1 wraps to MIN_VALUE and MIN_VALUE-1 wraps to MAX_VALUE. |
| JavaLang.ParseIntValueOf | src/com/rtoth/boilerplate/parameters/IntegerParameterRule.java:294-298 | `Integer.parseInt(String.valueOf(n)) == n` for every `int` n. |
| JavaLang.DecimalValueOfDigits | src/com/rtoth/boilerplate/parameters/IntegerParameterRule.java:113 | The digits `String.valueOf` writes for n denote n. |
| JavaLang.ValueOfInjective | src/com/rtoth/boilerplate/parameters/IntegerParameterRule.java:113 | Different `int`s are written as different texts, so different boundaries give different descriptions. |
| JavaLang.SplitJoin | src/com/rtoth/boilerplate/PsiUtility.java:178-180 | Splitting a dotted package name at '.' gives back its non-empty segments. |
| JavaLang.JoinContainsItems | src/com/rtoth/boilerplate/GetTestMethodsDialog.java:379-390 | In a separator-joined text every item appears, at the offset the items and separators before it end. |
| GetTestMethodsDialogs.Offered | src/com/rtoth/boilerplate/GetTestMethodsDialog.java:99-110 | A method is offered iff it is a non-private constructor with at least one parameter. |
| GetTestMethodsDialogs.OfferedAppend | src/com/rtoth/boilerplate/GetTestMethodsDialog.java:99-110 | Offering keeps the class's order. |
| GetTestMethodsDialogs.ClassifyMatchesConstructors | src/com/rtoth/boilerplate/GetTestMethodsDialog.java:300-321 | The rule kind and the outcome match the constructor the source calls: `int` → `new IntegerParameterRule(name)`, "java.lang.String" → `new StringParameterRule`, other reference types → `new ObjectParameterRule`; same success, same type and name, same error. |
| GetTestMethodsDialogs.DefaultRuleSpecs | src/com/rtoth/boilerplate/GetTestMethodsDialog.java:289-331 | A successful build has exactly one rule per parameter. |
| GetTestMethodsDialogs.DefaultRuleSpecsElementwise | src/com/rtoth/boilerplate/GetTestMethodsDialog.java:294-329 | The build succeeds iff every parameter can get a rule, and the i-th rule is the i-th parameter's. |
| GetTestMethodsDialogs.DefaultRuleSpecsFirstFailure | src/com/rtoth/boilerplate/GetTestMethodsDialog.java:294-329 | A failed build reports the error of a parameter all of whose predecessors succeed: null name or non-`int` primitive → IllegalStateException, empty name → IllegalArgumentException. |
| GetTestMethodsDialogs.DefaultRuleSpecsFailurePersists | src/com/rtoth/boilerplate/GetTestMethodsDialog.java:294-329 | Once a prefix of the parameters fails, the whole build fails with that error. |
| GetTestMethodsDialogs.MakeDefaultRule | src/com/rtoth/boilerplate/GetTestMethodsDialog.java:296-328 | Builds a fresh rule, at its initial settings, of the classified kind, type and name; or fails with the classification's error. |
| GetTestMethodsDialogs.AppendDefaultRule | src/com/rtoth/boilerplate/GetTestMethodsDialog.java:294-329 | One loop iteration: the rules so far plus one fresh rule for the parameter, keeping every rule on its own object and at its defaults; or the parameter's error. |
| GetTestMethodsDialogs.BuildDefaultParameterRules | src/com/rtoth/boilerplate/GetTestMethodsDialog.java:288-332 | Returns fresh, pairwise distinct rules at their defaults, one per parameter in declaration order, matching `DefaultRuleSpecs`; fails iff and as it fails. |
| GetTestMethodsDialogs.PresentableMethodSignature | src/com/rtoth/boilerplate/GetTestMethodsDialog.java:352-399 | The StringBuilder loop with its `first` flag yields prefix + "Type name" items joined by ", " (or "no parameters") + ")"; a method without a return type is an IllegalStateException. |
| GetTestMethodsDialogs.ConstructorSignatures | src/com/rtoth/boilerplate/GetTestMethodsDialog.java:358-396 | A constructor's signature is "Constructor: (" + parameter list + ")", "Constructor: (no parameters)" without parameters. |
| GetTestMethodsDialogs.ParameterListContainsEach | src/com/rtoth/boilerplate/GetTestMethodsDialog.java:376-391 | Every parameter's "Type name" appears in the signature's parameter list at its offset. |
| GetTestMethodsDialogs.OfferedRuleSpecs | src/com/rtoth/boilerplate/GetTestMethodsDialog.java:99-110 | When opening succeeds there is one rule list per offered constructor. |
| GetTestMethodsDialogs.OfferedRuleSpecsElementwise | src/com/rtoth/boilerplate/GetTestMethodsDialog.java:99-110 | The i-th offered constructor's rule list is that constructor's own default rules. |
| GetTestMethodsDialogs.OfferedRuleSpecsSucceed | src/com/rtoth/boilerplate/GetTestMethodsDialog.java:99-110 | Opening succeeds whenever every offered constructor's rules can be built. |
| GetTestMethodsDialogs.OfferedRuleSpecsFailurePersists | src/com/rtoth/boilerplate/GetTestMethodsDialog.java:99-110 | The first failing constructor's error is the dialog's error. |
| GetTestMethodsDialogs.UnselectedRulesIgnored | src/com/rtoth/boilerplate/GetTestMethodsDialog.java:222-243 | Rules of constructors that are not ticked never change the validation outcome. |
| GetTestMethodsDialogs.SelectedIndices | src/com/rtoth/boilerplate/GetTestMethodsDialog.java:273 | Exactly the positions of the ticked boxes, in increasing order. |
| GetTestMethodsDialogs.SelectedMethodRulesByIndex | src/com/rtoth/boilerplate/GetTestMethodsDialog.java:270-277 | The plan's k-th entry is the k-th ticked constructor with its own rules. |
| GetTestMethodsDialogs.OfferConstructor | src/com/rtoth/boilerplate/GetTestMethodsDialog.java:102-108 | An offered constructor gets its signature as label and fresh default rules, one per parameter; or the error its rules raise. |
| GetTestMethodsDialogs.CollectOne | src/com/rtoth/boilerplate/GetTestMethodsDialog.java:99-110 | One loop iteration keeps "offered so far, labelled by signature, with their default rules"; a failure is the whole dialog's failure. |
| GetTestMethodsDialogs.CollectOffered | src/com/rtoth/boilerplate/GetTestMethodsDialog.java:96-112 | The loop yields exactly the offered constructors, in order, each labelled with its signature and given its default rules; fails iff and as `OfferedRuleSpecs` fails. |
| GetTestMethodsDialogs.GetTestMethodsDialog.constructor | src/com/rtoth/boilerplate/GetTestMethodsDialog.java:105-112 | The dialog holds the collected constructors, labels and rules, and every box starts unticked. |
| GetTestMethodsDialogs.GetTestMethodsDialog.Open | src/com/rtoth/boilerplate/GetTestMethodsDialog.java:89-116 | A null class is a NullPointerException; otherwise the dialog offers exactly the offered constructors, labelled by signature, with default rules on distinct objects at their defaults and nothing ticked; the first failing constructor's error stops it. |
| GetTestMethodsDialogs.GetTestMethodsDialog.SetSelected | src/com/rtoth/boilerplate/GetTestMethodsDialog.java:105-107 | Ticking or clearing one box changes only that box. |
| GetTestMethodsDialogs.GetTestMethodsDialog.DoValidate | src/com/rtoth/boilerplate/GetTestMethodsDialog.java:217-255 | The flag-and-break loops return "Must select at least one method!" when nothing is ticked, else the invalid-rules message when a ticked constructor has an invalid rule, else accept. |
| GetTestMethodsDialogs.GetTestMethodsDialog.GetSelectedMethodRules | src/com/rtoth/boilerplate/GetTestMethodsDialog.java:269-277 | The ticked constructors with their own rules, in the dialog's order; each has exactly one rule per parameter. |
| TestCaseGenerators.NameMatchesAnnotation | src/com/rtoth/boilerplate/TestCaseGenerator.java:159-168 | A test's name ends with "_throws" + the simple name of the exception its `@Test(expected = …)` annotation names. |
| TestCaseGenerators.Declarations | src/com/rtoth/boilerplate/TestCaseGenerator.java:174-199 | A successful body has one declaration per parameter. |
| TestCaseGenerators.DeclarationsElementwise | src/com/rtoth/boilerplate/TestCaseGenerator.java:174-199 | The body is built iff every rule other than the one under test has valid initializers; then the i-th declaration is parameter i's, with the invalid text for the rule under test (compared by identity) and the first valid text for every other. |
| TestCaseGenerators.DeclarationsFailurePersists | src/com/rtoth/boilerplate/TestCaseGenerator.java:174-199 | The first rule that cannot give a valid initializer decides the error. |
| TestCaseGenerators.DeclareVariables | src/com/rtoth/boilerplate/TestCaseGenerator.java:173-199 | The declaration loop builds exactly `Declarations` of all the rules. |
| TestCaseGenerators.InvocationPassesEachVariable | src/com/rtoth/boilerplate/TestCaseGenerator.java:201-216 | Every declared variable appears as an argument of the constructor call, at the offset the earlier arguments and ", " separators end. |
| TestCaseGenerators.BuildInvocation | src/com/rtoth/boilerplate/TestCaseGenerator.java:201-216 | The StringBuilder loop with its `first` flag writes "new " + name + "(" + names joined by ", " + ");". |
| TestCaseGenerators.TestCaseShape | src/com/rtoth/boilerplate/TestCaseGenerator.java:159-219 | A generated test has the test name and annotation of its entry, one declaration per parameter in order (the tested one with the invalid text), and a call passing them. |
| TestCaseGenerators.GenerateTestCase | src/com/rtoth/boilerplate/TestCaseGenerator.java:159-225 | One innermost iteration produces `TestCaseFor`. It fails with an IncorrectOperationException when the test's name is not a Java identifier, which `createMethod` checks before the body is read. It fails with a TestGenerationException "Unable to retrieve body for <name>" when the host gives no body. |
| TestCaseGenerators.TestNameAccepted | src/com/rtoth/boilerplate/TestCaseGenerator.java:159-161 | The host accepts a test's name iff the initializer's description is made of Java identifier characters. |
| TestCaseGenerators.IntegerBoundaryNamesAccepted | src/com/rtoth/boilerplate/TestCaseGenerator.java:159-161 | For a constrained integer rule whose parameter name is made of identifier characters, each test name is accepted iff the boundary is not negative. A negative boundary puts a minus sign into every test name, so the host refuses them all. |
| TestCaseGenerators.IntegerDescriptionParts | src/com/rtoth/boilerplate/parameters/IntegerParameterRule.java:190-270 | Each invalid initializer's description of a constrained integer rule is made of identifier characters iff the boundary is not negative. |
| JavaLang.ValueOfIdentifierParts | src/com/rtoth/boilerplate/parameters/IntegerParameterRule.java:190-270 | `String.valueOf(n)` is made of identifier characters iff `n >= 0`. |
| TestCaseGenerators.CasesForEntriesElementwise | src/com/rtoth/boilerplate/TestCaseGenerator.java:153-226 | One test per invalid initializer, the j-th for the j-th, and the loop fails iff one test fails. |
| TestCaseGenerators.GenerateForRule | src/com/rtoth/boilerplate/TestCaseGenerator.java:151-227 | The loop over one rule's invalid initializers yields exactly `CasesForRule`. |
| TestCaseGenerators.CasesForRulesFailurePersists | src/com/rtoth/boilerplate/TestCaseGenerator.java:151-227 | A failure at one rule aborts the whole constructor with that error. |
| TestCaseGenerators.CasesForRulesPrefix | src/com/rtoth/boilerplate/TestCaseGenerator.java:151-227 | Tests for earlier rules come before tests for later ones. |
| TestCaseGenerators.GenerateForMethod | src/com/rtoth/boilerplate/TestCaseGenerator.java:144-228 | The loop over a constructor's rules yields exactly `CasesForRules`. |
| TestCaseGenerators.CasesForMethodsFailurePersists | src/com/rtoth/boilerplate/TestCaseGenerator.java:144-229 | A failure at one constructor aborts generation with that error. |
| TestCaseGenerators.CasesForMethodsPrefix | src/com/rtoth/boilerplate/TestCaseGenerator.java:144-229 | Tests for earlier constructors come before tests for later ones. |
| TestCaseGenerators.GenerateAll | src/com/rtoth/boilerplate/TestCaseGenerator.java:136-230 | The three nested loops yield exactly `CasesForMethods`: constructors in map order, rules in parameter order, entries in their order. |
| TestCaseGenerators.CasesForRulesCount | src/com/rtoth/boilerplate/TestCaseGenerator.java:151-227 | A constructor yields as many tests as its rules have invalid initializers. |
| TestCaseGenerators.CasesForMethodsCount | src/com/rtoth/boilerplate/TestCaseGenerator.java:144-229 | When generation succeeds, it yields exactly one test per invalid initializer of every rule of every constructor. It does not succeed when a test name is refused: for a negative integer boundary, see `IntegerBoundaryNamesAccepted`. |
| TestCaseGenerators.CasesForRulesQuiet | src/com/rtoth/boilerplate/TestCaseGenerator.java:151-227 | Rules without invalid initializers yield no test and no error, even when the host gives no bodies. |
| TestCaseGenerators.CasesForMethodsQuiet | src/com/rtoth/boilerplate/TestCaseGenerator.java:144-229 | Constructors whose rules have no invalid initializers yield no test. |
| TestCaseGenerators.QuietAtDefaults | src/com/rtoth/boilerplate/TestCaseGenerator.java:153-154 | Rules at their initial settings give no invalid initializer. |
| TestCaseGenerators.NothingToGenerateAtDefaults | src/com/rtoth/boilerplate/TestCaseGenerator.java:136-230 | With every rule at its initial settings, generation yields the empty list. |
| TestCaseGenerators.GetImports | src/com/rtoth/boilerplate/TestCaseGenerator.java:243-275 | Succeeds iff Mockito and JUnit are on the classpath, with [static `Mockito.mock`, `org.junit.Test`]; missing Mockito is reported first, then missing JUnit, each as a TestGenerationException. |
| TestCaseGenerators.PackageStatementOf | src/com/rtoth/boilerplate/TestCaseGenerator.java:112 | The anchor is a package statement of the file, and none exists when it is absent. |
| TestCaseGenerators.ImportsFollowPackageStatement | src/com/rtoth/boilerplate/TestCaseGenerator.java:112 | After the package statement the file holds the JUnit import, then the Mockito import, then the rest. |
| TestCaseGenerators.CheckArity | src/com/rtoth/boilerplate/TestCaseGenerator.java:102-108 | Succeeds iff every constructor has exactly one rule per parameter; otherwise IllegalArgumentException with the source's message. |
| TestCaseGenerators.CreateTestCases | src/com/rtoth/boilerplate/TestCaseGenerator.java:96-115 | An arity mismatch or a missing library changes nothing; otherwise the imports are written after the package statement first, then either the generated tests are appended to the class, or generation fails, leaving the imports written and the class unchanged. |
| PsiUtilities.GetSingleClass | src/com/rtoth/boilerplate/PsiUtility.java:71-85 | Some class iff the file declares exactly one, and then that class. |
| PsiUtilities.SourceRootShape | src/com/rtoth/boilerplate/PsiUtility.java:174-202 | A found source root is named "src" and the file's directory is root/main/java/<segments>. |
| PsiUtilities.DefaultPackageHasNoSourceRoot | src/com/rtoth/boilerplate/PsiUtility.java:178-180 | An empty package name splits into one empty segment, so a file in the default package never has a source root. |
| PsiUtilities.WalkStep | src/com/rtoth/boilerplate/PsiUtility.java:192-202 | A directory matching the popped name, with names left, moves the walk to its parent. |
| PsiUtilities.WalkFound | src/com/rtoth/boilerplate/PsiUtility.java:197-200 | The directory matching the last name on the stack is the source root. |
| PsiUtilities.WalkMismatch | src/com/rtoth/boilerplate/PsiUtility.java:192-196 | A name mismatch means there is no source root. |
| PsiUtilities.WalkExhausted | src/com/rtoth/boilerplate/PsiUtility.java:186-209 | Running out of parent directories means there is no source root. |
| PsiUtilities.FindSourceRoot | src/com/rtoth/boilerplate/PsiUtility.java:174-209 | The stack-popping walk finds the source root iff the file's directory ends with src/main/java/<segments>, and then the "src" directory; otherwise none (also without a directory). |
| PsiUtilities.MissingMembers | src/com/rtoth/boilerplate/PsiUtility.java:222-232 | The created directories are exactly those on the way down that did not exist. |
| PsiUtilities.MissingNone | src/com/rtoth/boilerplate/PsiUtility.java:222-232 | When every directory exists, nothing is created. |
| PsiUtilities.TestDirectoryMirrorsSource | src/com/rtoth/boilerplate/PsiUtility.java:218-235 | `src/main/java/<package>` has the test directory `src/test/java/<package>` under the same `src`. |
| PsiUtilities.ProjectFiles.FindOrCreateSubdirectory | src/com/rtoth/boilerplate/PsiUtility.java:224-232 | The subdirectory parent/name exists afterwards; it is created iff it was missing; nothing else changes. |
| PsiUtilities.ProjectFiles.FindOrCreatePath | src/com/rtoth/boilerplate/PsiUtility.java:220-235 | Ends at root/names, adds every directory on the way down, creates exactly the missing ones in order, and touches no file. |
| PsiUtilities.ProjectFiles.FindOrCreateTestDirectory | src/com/rtoth/boilerplate/PsiUtility.java:169-241 | Returns the test directory of the file (none and no change without a source root); afterwards it exists, and exactly the missing directories on the way were created. |
| PsiUtilities.ProjectFiles.FindOrCreateTestClass | src/com/rtoth/boilerplate/PsiUtility.java:107-148 | A class outside a Java file is an IllegalArgumentException and nothing changes; without a test directory, none and nothing changes; otherwise the directories gained are exactly those on the test path `src/test/java/<package>`, an existing `<Name>Test.java` yields its single class (none if it declares another number) and leaves the files alone, and a missing one is created holding a new class `<Name>Test`. |
| PsiUtilities.FindOrCreateIdempotent | src/com/rtoth/boilerplate/PsiUtility.java:222-232 | A second find-or-create of the same path creates nothing and adds no directory. |
| PsiUtilities.AddElements | src/com/rtoth/boilerplate/PsiUtility.java:254-282 | An anchor that is not a child is an IllegalArgumentException and nothing is added; without an anchor the elements are appended in order; with one, each is added right after it, so they appear after it in reverse order. |
| PsiUtilities.AddedAfterAnchor | src/com/rtoth/boilerplate/PsiUtility.java:269-274 | The k-th element after the anchor is the k-th added counting from the last. |

## Left out

- Swing and dialog presentation are not modelled, because they compute nothing the generator uses. This covers `createCenterPanel`, the `selectedCardId` card bookkeeping, `getUiComponent`, layout, colours and the enabling of widgets. Check boxes and combo boxes become plain fields.
- The `JFormattedTextField` with its `NumberFormat`, because only the text that `Integer.parseInt` reads matters. The boundary is that text, and the model does not restrict what can be typed.
- Host (PSI) operations are not modelled:
  - the element factory;
  - write-command actions;
  - `JavaPsiFacade` class lookup.

  Tests are records of strings. Whether the host gives a test method a body is the parameter `bodies`. Whether Mockito and JUnit are on the classpath is the `Classpath` value.
- Unicode case mapping, because only ASCII letters are upper-cased.
- IntegerParameterRules.IntegerParameterRule.IsValid: the boundary text is read by an `Integer.parseInt` that accepts an optional sign and ASCII digits only. Java also accepts other Unicode decimal digits (such as Arabic-Indic digits) through `Character.digit`; the model calls such a boundary not valid.
- AbstractParameterRules.AbstractParameterRule.CapitalizedName: a non-ASCII first character is kept as it is. Java would upper-case it.
- IntegerParameterRules.ExpansionPartitionsNeighbourhood: proved only for boundaries strictly inside the `int` range. At Integer.MAX_VALUE and Integer.MIN_VALUE, `value ± 1` wraps, and the partition fails. `UpperBoundaryWraps` and `LowerBoundaryWraps` show this.
- The `catch (EmptyStackException)` in the source-root walk, because it cannot be reached. The walk stops when it pops the last name, so it never pops an empty stack. The model's loop invariant keeps at least one name on the stack.
- PsiUtilities.ProjectFiles.FindOrCreateTestClass: a file named `<Name>Test.java` that the host does not parse as Java is treated like a missing file. The source's `instanceof` check sends that case to the create branch too. What the host then does with the name clash is not modelled.
- TestCaseGenerators.GenerateTestCase: the host's identifier check on a new method's name is modelled on ASCII. A letter, `_` or `$` can start a name; digits may also follow. Every non-ASCII character is accepted, where Java accepts only its Unicode identifier characters. Java keywords are not checked, because every test name starts with "constructor_". The exception's message stands for the host's own wording.
- `createSubdirectory` and `createClass` failing inside the host, because they are host operations; creation always succeeds in the model.
- Object identity of PSI elements. Elements are values here, so the anchor of `addElements` is the first child equal to it. This is the file's first package statement, the one `getPackageStatement` returns.
- Test generation reads each rule once into a `RuleView` value and uses that value for every later call. Nothing changes a rule during generation, so repeated calls in the source return the same results.
- The `rules != null` check in `doValidate`, because every offered constructor has a rule list.
- The null checks on arguments that the Java code marks `@NotNull` and that the dialog and generator always pass (`methodRules`, `testClass`, `method`, `file`, `root`, `toAdd`), because callers never pass null. The null checks that matter to callers are modelled: the rule constructors, `ParameterInitializer`, and the dialog's source class.
- `BoilerplateJUnitGenerator`, `MethodTestStrategy`, `FixedPointNumericParameterRule` and `BoilerplateJUnitGenerationAction`, because they are superseded, unreachable or IDE wiring only. `TestGenerationException` is an error value.

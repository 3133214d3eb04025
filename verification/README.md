# HiddenField shadow detection, modelled in Dafny

This project models the core of Checkstyle's HiddenField check
(`HiddenFieldCheck.java`). The check walks a Java syntax tree and reports every
local variable or parameter whose name is the name of a field visible at that
point. Some cases are exempt: names matched by an ignore pattern, setter
parameters, constructor parameters and parameters of abstract methods.

The model has these parts:

- `Frames` models `FieldFrame`. The parent-linked chain is a `seq<Frame>`,
  root first and current frame last. The empty sequence stands for a null
  current frame. `ContainsStaticField` asks every ancestor. `ContainsInstanceField`
  stops climbing at a static type. Each is proved equal to an independent
  "some frame declares it" definition.
- `Naming` models `capitalize`, the JavaBeans rule that builds the expected
  setter name.
- `Exemptions` holds the ignore pattern (an opaque predicate) and the three
  `isIgnored*` predicates.
- `Evaluator` models `beginTree`, `visitToken`, `leaveToken`,
  `processVariable` and `inStatic`. A whole traversal is a pure fold over
  abstract events (`Enter` a type, `Visit` a declaration, `Leave` a token). The
  fold threads the frame chain and the remembered class name, and it returns
  the reported names in order.
- `Properties` holds lemmas about whole traversals.
- `Scenarios` holds worked traversals.

The Java null dereferences the core can hit are modelled as faults. A run
that faults returns `Err(Abort(fault, reported))`, keeping the names
reported before the fault, because `log` has already delivered them:

- leaving a type, or checking a declaration, after the root frame was popped;
- comparing a chain setter's return type with a class name that was never
  set. This happens when no `CLASS_DEF` has been entered. `mInClassName` is
  never reset by `beginTree`, so `Check` takes the name left by the previous
  tree as input.

The model follows the code in these details:

- The chain-setter comparison uses the name of the last class *entered*. That
  name is not restored when a nested class is left. So, although the class's
  Javadoc (lines 296-300) speaks of "the class in which such method is
  declared", it is not necessarily the immediately enclosing type's name.
- A type is static exactly when its own `MODIFIERS` child contains `static`
  (the `FieldFrame` constructor's "static inner type", line 521). This holds
  for enums too.
- Popping the root frame is not rejected. It leaves a null frame, and only a
  later use of that frame fails.
- `inStatic` walks past class boundaries. `CTOR_DEF` does not stop the walk.

## Model

| member | source | states |
|---|---|---|
| Frames.AddInstanceField | src/main/java/com/puppycrawl/tools/checkstyle/checks/coding/HiddenFieldCheck.java:542-545 | adds the name to the instance set and leaves the static set and the static flag unchanged |
| Frames.AddStaticField | src/main/java/com/puppycrawl/tools/checkstyle/checks/coding/HiddenFieldCheck.java:551-554 | adds the name to the static set and leaves the instance set and the static flag unchanged |
| Frames.AddFieldIdempotent | src/main/java/com/puppycrawl/tools/checkstyle/checks/coding/HiddenFieldCheck.java:514-518 | adding a name twice is the same as adding it once (set semantics) |
| Frames.Parent | src/main/java/com/puppycrawl/tools/checkstyle/checks/coding/HiddenFieldCheck.java:587-590 | the parent chain is one frame shorter, and appending the current frame to it gives the chain back |
| Frames.PushThenPop | src/main/java/com/puppycrawl/tools/checkstyle/checks/coding/HiddenFieldCheck.java:231-236 | popping a freshly pushed frame returns exactly the chain it was pushed on |
| Frames.ContainsStaticField | src/main/java/com/puppycrawl/tools/checkstyle/checks/coding/HiddenFieldCheck.java:575-580 | true iff some frame of the chain has the name in its static set, whatever the frames' static flags |
| Frames.ContainsInstanceField | src/main/java/com/puppycrawl/tools/checkstyle/checks/coding/HiddenFieldCheck.java:561-567 | true iff some frame has the name in its instance set and no frame above it (towards the current one) is a static type |
| Frames.StaticTypeBoundary | src/main/java/com/puppycrawl/tools/checkstyle/checks/coding/HiddenFieldCheck.java:561-580 | inside a static type only its own instance fields are visible, while every enclosing static field stays visible |
| Frames.InstanceTypeKeepsVisibility | src/main/java/com/puppycrawl/tools/checkstyle/checks/coding/HiddenFieldCheck.java:561-580 | entering a non-static type hides no field that was visible before |
| Naming.ToUpperCase | src/main/java/com/puppycrawl/tools/checkstyle/checks/coding/HiddenFieldCheck.java:384 | maps a lower-case letter to its upper-case letter and leaves every other character alone |
| Naming.IsUpperCase | src/main/java/com/puppycrawl/tools/checkstyle/checks/coding/HiddenFieldCheck.java:381 | upper case means exactly one of the 26 Latin capitals |
| Naming.Capitalize | src/main/java/com/puppycrawl/tools/checkstyle/checks/coding/HiddenFieldCheck.java:373-385 | keeps the length and every character after the first; returns the input unchanged when the second character is upper case; otherwise the first character ends up not lower case |
| Naming.CapitalizeIdempotent | src/main/java/com/puppycrawl/tools/checkstyle/checks/coding/HiddenFieldCheck.java:373-385 | capitalising twice is capitalising once |
| Naming.CapitalizeCollision | src/main/java/com/puppycrawl/tools/checkstyle/checks/coding/HiddenFieldCheck.java:378-384 | two names with the same capitalisation differ at most in the case of their first letter, and not at all when the second letter is upper case |
| Naming.CapitalizeExamples | src/main/java/com/puppycrawl/tools/checkstyle/checks/coding/HiddenFieldCheck.java:373-385 | `time` becomes `Time`, `xYzz` stays `xYzz`, the empty name stays empty |
| Exemptions.SetterName | src/main/java/com/puppycrawl/tools/checkstyle/checks/coding/HiddenFieldCheck.java:330 | the expected setter name is `set` followed by the name, three characters longer, agreeing with the name after its first letter; the name is kept whole when its second letter is upper case (`setxYzz`), and otherwise its first letter is upper-cased (`setTime`) |
| Exemptions.PatternMatches | src/main/java/com/puppycrawl/tools/checkstyle/checks/coding/HiddenFieldCheck.java:260 | without a configured pattern nothing matches; with one, a name matches iff the pattern finds a match in it |
| Exemptions.IsIgnoredSetterParam | src/main/java/com/puppycrawl/tools/checkstyle/checks/coding/HiddenFieldCheck.java:307-365 | exempt iff ignoreSetter is on and a sole parameter of a METHOD_DEF named set+Capitalize(name) returns void or, with setterCanReturnItsClass on, returns the remembered class name; faults exactly when that comparison meets no remembered name |
| Exemptions.IsIgnoredConstructorParam | src/main/java/com/puppycrawl/tools/checkstyle/checks/coding/HiddenFieldCheck.java:394-404 | only a constructor's parameter can be exempted, and such a parameter is exempted iff ignoreConstructorParameter is on |
| Exemptions.IsIgnoredParamOfAbstractMethod | src/main/java/com/puppycrawl/tools/checkstyle/checks/coding/HiddenFieldCheck.java:414-427 | only a parameter of an abstract METHOD_DEF can be exempted, and such a parameter is exempted iff ignoreAbstractMethods is on |
| Exemptions.ExemptionsNeedParametersAndFlags | src/main/java/com/puppycrawl/tools/checkstyle/checks/coding/HiddenFieldCheck.java:307-427 | no exemption applies to a local variable, nor to anything when every exemption flag is off |
| Exemptions.ConstructorExemptionExclusive | src/main/java/com/puppycrawl/tools/checkstyle/checks/coding/HiddenFieldCheck.java:394-427 | a constructor parameter is never exempted as a setter or abstract-method parameter |
| Exemptions.ExemptionMonotone | src/main/java/com/puppycrawl/tools/checkstyle/checks/coding/HiddenFieldCheck.java:307-427 | turning more exemption flags on never removes an exemption, whether or not a class name is remembered |
| Exemptions.SetterNameShape | src/main/java/com/puppycrawl/tools/checkstyle/checks/coding/HiddenFieldCheck.java:327-337 | an exempted setter's name starts with `set`, followed by the parameter name with at most its first letter upper-cased |
| Exemptions.SetterNameDeterminesProperty | src/main/java/com/puppycrawl/tools/checkstyle/checks/coding/HiddenFieldCheck.java:327-337 | two parameters exempted as setters of the same method name agree in length and in everything after the first letter |
| Evaluator.InStatic | src/main/java/com/puppycrawl/tools/checkstyle/checks/coding/HiddenFieldCheck.java:275-291 | the verdict of the nearest enclosing static initializer (static) or method (static iff it has `static`); not static when there is none |
| Evaluator.BeginTree | src/main/java/com/puppycrawl/tools/checkstyle/checks/coding/HiddenFieldCheck.java:171-174 | no field, static or instance, is visible in a fresh tree |
| Properties.VisitBeforeAnyType | src/main/java/com/puppycrawl/tools/checkstyle/checks/coding/HiddenFieldCheck.java:171-174 | a declaration visited before any type is entered is neither reported nor faults, and leaves the state alone |
| Evaluator.Harvest | src/main/java/com/puppycrawl/tools/checkstyle/checks/coding/HiddenFieldCheck.java:206-223 | after the loop a name is in the static (instance) set iff it was there before or some direct child declares it as a field with (without) `static` |
| Evaluator.IsStaticInnerType | src/main/java/com/puppycrawl/tools/checkstyle/checks/coding/HiddenFieldCheck.java:192-195 | a type without a MODIFIERS child is never static; with one, it is static iff the modifiers contain `static` |
| Evaluator.TypeFrame | src/main/java/com/puppycrawl/tools/checkstyle/checks/coding/HiddenFieldCheck.java:192-223 | the new frame is static iff the type's own modifiers exist and contain `static`; its sets are exactly the body's direct fields split by `static`, and empty when there is no body |
| Evaluator.Eligible | src/main/java/com/puppycrawl/tools/checkstyle/checks/coding/HiddenFieldCheck.java:248-250 | a declaration in an interface or annotation is never examined; otherwise a parameter always is, and a variable iff it is local |
| Evaluator.ProcessVariable | src/main/java/com/puppycrawl/tools/checkstyle/checks/coding/HiddenFieldCheck.java:246-267 | reports iff the declaration is a local or parameter outside interfaces, a visible static field or (outside a static context) a visible instance field has its name, the pattern does not match, and no exemption holds; faults on a null frame exactly when an eligible declaration meets one, and on a null class name exactly when such a shadowing, unmatched declaration reaches the chain-setter comparison |
| Evaluator.Step | src/main/java/com/puppycrawl/tools/checkstyle/checks/coding/HiddenFieldCheck.java:177-237 | entering a type pushes exactly its frame (and remembers a class's name); leaving a type pops the current frame or faults on a null frame; a declaration leaves the state alone, reports its own name exactly when processVariable does and nothing otherwise, and faults exactly when processVariable faults, with the same fault |
| Properties.StepFrames | src/main/java/com/puppycrawl/tools/checkstyle/checks/coding/HiddenFieldCheck.java:201-236 | one callback pushes the frame of an entered type, pops the current frame on leaving a type, and otherwise keeps the chain; with a current frame the only possible fault is the null class name, and with a remembered class name there is none |
| Properties.RunAppend | src/main/java/com/puppycrawl/tools/checkstyle/checks/coding/HiddenFieldCheck.java:176-185 | reports of a traversal are those of its first part followed by those of the rest, so violations come out in visit order |
| Properties.ReportsSurviveFaults | src/main/java/com/puppycrawl/tools/checkstyle/checks/coding/HiddenFieldCheck.java:265 | the reports of a completed run are a prefix of the reports of any longer run, even one that later faults |
| Properties.FrameDiscipline | src/main/java/com/puppycrawl/tools/checkstyle/checks/coding/HiddenFieldCheck.java:201-236 | entering pushes one frame and the matching leave pops it: frames below the popped ones are untouched, the final depth is the initial depth plus the open type bodies, and no null-frame fault occurs while one frame is never popped |
| Properties.BalancedEndsAtRoot | src/main/java/com/puppycrawl/tools/checkstyle/checks/coding/HiddenFieldCheck.java:171-237 | from beginTree the root stays at the bottom, depth is 1 plus the open type bodies, and a balanced traversal ends at exactly the root |
| Properties.NoFaultOnceNamed | src/main/java/com/puppycrawl/tools/checkstyle/checks/coding/HiddenFieldCheck.java:197-199 | once a class name is remembered and the root frame is never popped, the traversal cannot fault |
| Properties.CheckNoFaultWhenRemembered | src/main/java/com/puppycrawl/tools/checkstyle/checks/coding/HiddenFieldCheck.java:171-174 | beginTree keeps the class name the previous tree left, so checking a tree with a remembered name never faults while the root frame is never popped |
| Properties.ReportsComeFromVisits | src/main/java/com/puppycrawl/tools/checkstyle/checks/coding/HiddenFieldCheck.java:246-266 | every reported name, of a completed or an aborted run, is the name of an eligible declaration visited in the traversal |
| Properties.EnterLeaveRestoresFrames | src/main/java/com/puppycrawl/tools/checkstyle/checks/coding/HiddenFieldCheck.java:197-237 | entering and leaving a type restores the frame chain and reports nothing, but a class's name stays remembered after the class is left |
| Scenarios.InstanceMethodParameterReported | src/main/java/com/puppycrawl/tools/checkstyle/checks/coding/HiddenFieldCheck.java:258-266 | a parameter of an instance method named after an instance field is reported once |
| Scenarios.StaticFieldCrossesStaticClass | src/main/java/com/puppycrawl/tools/checkstyle/checks/coding/HiddenFieldCheck.java:575-580 | a local in a static nested class named after an enclosing static field is reported |
| Scenarios.InstanceFieldStopsAtStaticClass | src/main/java/com/puppycrawl/tools/checkstyle/checks/coding/HiddenFieldCheck.java:561-567 | a local in a static nested class named after an enclosing instance field is not reported |
| Scenarios.StaticMethodParameterNotReported | src/main/java/com/puppycrawl/tools/checkstyle/checks/coding/HiddenFieldCheck.java:258-259 | a static method's parameter named after an instance field is not reported |
| Scenarios.ConstructorParameterIgnored | src/main/java/com/puppycrawl/tools/checkstyle/checks/coding/HiddenFieldCheck.java:394-404 | with ignoreConstructorParameter a shadowing constructor parameter is not reported |
| Scenarios.VoidSetterIgnored | src/main/java/com/puppycrawl/tools/checkstyle/checks/coding/HiddenFieldCheck.java:69-71 | `void setTime(long time)` is an exempt setter, even with no class name remembered |
| Scenarios.IntSetterNotIgnored | src/main/java/com/puppycrawl/tools/checkstyle/checks/coding/HiddenFieldCheck.java:73 | `int setTime(long time)` is not exempt when chain setters are off |
| Scenarios.ChainSetterIgnored | src/main/java/com/puppycrawl/tools/checkstyle/checks/coding/HiddenFieldCheck.java:74-81 | `PageBuilder setName(String name)` inside `PageBuilder` is exempt with chain setters on |
| Scenarios.ChainSetterWithoutClassFaults | src/main/java/com/puppycrawl/tools/checkstyle/checks/coding/HiddenFieldCheck.java:363-364 | a chain setter of any non-void return type faults when no class name is remembered |
| Scenarios.ReportsInVisitOrder | src/main/java/com/puppycrawl/tools/checkstyle/checks/coding/HiddenFieldCheck.java:246-267 | two shadowing declarations are reported in the order they are visited |
| Scenarios.PatternSuppresses | src/main/java/com/puppycrawl/tools/checkstyle/checks/coding/HiddenFieldCheck.java:260 | a shadowing name matched by the ignore pattern is not reported |
| Scenarios.ReportBeforeFaultKept | src/main/java/com/puppycrawl/tools/checkstyle/checks/coding/HiddenFieldCheck.java:264-265 | a report made inside a top-level enum survives a later null-class-name fault on a chain setter, which aborts the run |
| Scenarios.NestedClassHidesChainSetter | src/main/java/com/puppycrawl/tools/checkstyle/checks/coding/HiddenFieldCheck.java:197-237 | in `class Outer { int x; class Inner {} Outer setX(int x) }` with chain setters on, leaving `Inner` keeps the name `Inner` remembered, so the setter parameter `x` is reported |

## Left out

- The regular-expression engine, `setIgnoreFormat`, `getRegexp` and the `ConversionException` for a bad pattern. The compiled pattern is an opaque `string -> bool` "find" predicate, and an invalid pattern never reaches the check.
- The `DetailAST` tree and `ScopeUtils`. `inInterfaceOrAnnotationBlock`, `isLocalVariableDef`, `branchContains`, `findFirstToken` and `getChildCount` become fields of the abstract records. The tree is assumed well formed: every node the check dereferences exists. That covers a field's name and MODIFIERS, a method's MODIFIERS, name and TYPE, and the first child of that TYPE.
- `Declaration.parentChildCount` is the raw child count of the parameter's parent node. In a real tree this count includes separator tokens. Only the value 1 matters to the model.
- `log` and the message key. A report is just the name, with no source position.
- Unicode case mapping. `Naming.IsUpperCase` and `Naming.ToUpperCase` cover ASCII only. Locale-sensitive `String.toUpperCase` can change a string's length, and the model does not capture that.
- `Naming.Capitalize` does not model a null argument, because names are never null.
- Token registration (`getDefaultTokens`, `getAcceptableTokens`, `getRequiredTokens`) and the boolean property setters. The flags form the `Config` record.
- `Evaluator.Run` and `Evaluator.Check` have no contracts of their own. What they do is stated by the `Properties` and `Scenarios` lemmas.

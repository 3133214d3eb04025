/**
  Worked traversals: small classes written as event sequences, with the
  reports the check produces for them.
*/
module Scenarios {
  import opened Base
  import opened Syntax
  import opened Frames
  import opened Exemptions
  import opened Evaluator
  import opened Properties

  const NoMods := Mods(false)

  /** A class whose body declares one field named `count`, static or not. */
  function ClassWithCount(name: string, isStaticField: bool, isStaticClass: bool): TypeNode
  {
    TypeNode(ClassDef, Some(Mods(isStaticClass)), name,
             Some([OtherChild, FieldChild("count", Mods(isStaticField)), OtherChild]))
  }

  /** A class with no fields. */
  function EmptyClass(name: string, isStaticClass: bool): TypeNode
  {
    TypeNode(ClassDef, Some(Mods(isStaticClass)), name, Some([OtherChild]))
  }

  /** The only parameter of a method `methodName` returning `returnType`. */
  function Param(name: string, methodName: string, isStaticMethod: bool, returnType: string): Declaration
  {
    Declaration(name, ParameterDef, false, false,
                [Ancestor(OtherNode, false), Ancestor(MethodDef, isStaticMethod), Ancestor(OtherNode, false)],
                1, MethodDef, methodName, returnType == "void", returnType, false)
  }

  /** The only parameter of a constructor. */
  function CtorParam(name: string): Declaration
  {
    Declaration(name, ParameterDef, false, false,
                [Ancestor(OtherNode, false), Ancestor(CtorDef, false), Ancestor(OtherNode, false)],
                1, CtorDef, "", false, "", false)
  }

  /** A local variable in the body of a method. */
  function Local(name: string, isStaticMethod: bool): Declaration
  {
    Declaration(name, VariableDef, false, true,
                [Ancestor(OtherNode, false), Ancestor(MethodDef, isStaticMethod), Ancestor(OtherNode, false)],
                3, OtherNode, "", false, "", false)
  }

  const LeaveClass := Leave(TypeToken(ClassDef))

  /** A successful step followed by a successful run. */
  lemma RunOkCons(cfg: Config, s: State, e: Event, rest: seq<Event>, t: Trace, u: Trace)
    requires Step(cfg, s, e) == Ok(t)
    requires Run(cfg, t.state, rest) == Ok(u)
    ensures Run(cfg, s, [e] + rest) == Ok(Trace(u.state, t.reports + u.reports))
  {
    RunCons(cfg, s, e, rest);
  }

  /** A successful first step followed by a successful run of the rest. */
  lemma RunOkPrefix(cfg: Config, s: State, evs: seq<Event>, t: Trace, u: Trace)
    requires |evs| > 0
    requires Step(cfg, s, evs[0]) == Ok(t)
    requires Run(cfg, t.state, evs[1..]) == Ok(u)
    ensures Run(cfg, s, evs) == Ok(Trace(u.state, t.reports + u.reports))
  {
    RunAfterOkStep(cfg, s, evs);
  }

  /** A run of one successful step. */
  lemma RunOne(cfg: Config, s: State, e: Event, t: Trace)
    requires Step(cfg, s, e) == Ok(t)
    ensures Run(cfg, s, [e]) == Ok(t)
  {
    var none: seq<Event> := [];
    assert [e] + none == [e];
    assert t.reports + [] == t.reports;
    RunOkCons(cfg, s, e, none, t, Trace(t.state, []));
  }

  /** A run of two successful steps. */
  lemma RunTwo(cfg: Config, s: State, e0: Event, e1: Event, t0: Trace, t1: Trace)
    requires Step(cfg, s, e0) == Ok(t0)
    requires Step(cfg, t0.state, e1) == Ok(t1)
    ensures Run(cfg, s, [e0, e1]) == Ok(Trace(t1.state, t0.reports + t1.reports))
  {
    RunOne(cfg, t0.state, e1, t1);
    RunOkCons(cfg, s, e0, [e1], t0, t1);
    assert [e0] + [e1] == [e0, e1];
  }

  /** A run of three successful steps. */
  lemma RunSteps(cfg: Config, s0: State, e0: Event, e1: Event, e2: Event, t0: Trace, t1: Trace, t2: Trace)
    requires Step(cfg, s0, e0) == Ok(t0)
    requires Step(cfg, t0.state, e1) == Ok(t1)
    requires Step(cfg, t1.state, e2) == Ok(t2)
    ensures Run(cfg, s0, [e0, e1, e2]) == Ok(Trace(t2.state, t0.reports + (t1.reports + t2.reports)))
  {
    var evs := [e0, e1, e2];
    assert evs[0] == e0 && evs[1..] == [e1, e2];
    RunTwo(cfg, t0.state, e1, e2, t1, t2);
    RunOkPrefix(cfg, s0, evs, t0, Trace(t2.state, t1.reports + t2.reports));
  }

  /** A parameter shadowing an instance field in an instance method is reported. */
  lemma InstanceMethodParameterReported()
    ensures Check(DefaultConfig, None, [Enter(ClassWithCount("A", false, false)), Visit(Param("count", "m", false, "void")), LeaveClass])
            == Ok(Trace(State([RootFrame], Some("A")), ["count"]))
  {
    var t := ClassWithCount("A", false, false);
    var f := TypeFrame(t);
    assert "count" in f.instanceFields by { assert IsField(t.body.value[1], "count", false); }
    var s1 := State([RootFrame, f], Some("A"));
    assert ContainsInstanceField(s1.frames, "count");
    assert [RootFrame] + [f] == s1.frames;
    assert Parent(s1.frames) == [RootFrame];
    RunSteps(DefaultConfig, BeginTree(None), Enter(t), Visit(Param("count", "m", false, "void")), LeaveClass,
             Trace(s1, []), Trace(s1, ["count"]), Trace(State([RootFrame], Some("A")), []));
    assert [] + (["count"] + []) == ["count"];
  }

  /** A local variable in a static nested class shadowing an enclosing static field is reported. */
  lemma StaticFieldCrossesStaticClass()
    ensures Check(DefaultConfig, None,
                  [Enter(ClassWithCount("A", true, false)), Enter(EmptyClass("B", true)), Visit(Local("count", false))])
            == Ok(Trace(State([RootFrame, TypeFrame(ClassWithCount("A", true, false)), TypeFrame(EmptyClass("B", true))], Some("B")), ["count"]))
  {
    var a := ClassWithCount("A", true, false);
    var b := EmptyClass("B", true);
    var fa := TypeFrame(a);
    var fb := TypeFrame(b);
    assert "count" in fa.staticFields by { assert IsField(a.body.value[1], "count", true); }
    var s1 := State([RootFrame, fa], Some("A"));
    var s2 := State([RootFrame, fa, fb], Some("B"));
    assert s2.frames[1] == fa;
    assert ContainsStaticField(s2.frames, "count");
    assert [RootFrame] + [fa] == s1.frames;
    assert s1.frames + [fb] == s2.frames;
    RunSteps(DefaultConfig, BeginTree(None), Enter(a), Enter(b), Visit(Local("count", false)),
             Trace(s1, []), Trace(s2, []), Trace(s2, ["count"]));
    assert [] + ([] + ["count"]) == ["count"];
  }

  /** An instance field of an enclosing class is not visible inside a static nested class. */
  lemma InstanceFieldStopsAtStaticClass()
    ensures Check(DefaultConfig, None,
                  [Enter(ClassWithCount("A", false, false)), Enter(EmptyClass("B", true)), Visit(Local("count", false))])
            == Ok(Trace(State([RootFrame, TypeFrame(ClassWithCount("A", false, false)), TypeFrame(EmptyClass("B", true))], Some("B")), []))
  {
    var a := ClassWithCount("A", false, false);
    var b := EmptyClass("B", true);
    var fa := TypeFrame(a);
    var fb := TypeFrame(b);
    assert !DeclaresField(b.body.value, "count", false);
    assert !DeclaresField(a.body.value, "count", true);
    var s1 := State([RootFrame, fa], Some("A"));
    var s2 := State([RootFrame, fa, fb], Some("B"));
    StaticTypeBoundary(s1.frames, fb, "count");
    assert [RootFrame] + [fa] == s1.frames;
    assert s1.frames + [fb] == s2.frames;
    assert !ContainsStaticField(s2.frames, "count");
    RunSteps(DefaultConfig, BeginTree(None), Enter(a), Enter(b), Visit(Local("count", false)),
             Trace(s1, []), Trace(s2, []), Trace(s2, []));
    var none: seq<string> := [];
    assert none + (none + none) == none;
  }

  /** A static method's parameter does not shadow an instance field. */
  lemma StaticMethodParameterNotReported()
    ensures Check(DefaultConfig, None, [Enter(ClassWithCount("A", false, false)), Visit(Param("count", "m", true, "void")), LeaveClass])
            == Ok(Trace(State([RootFrame], Some("A")), []))
  {
    var t := ClassWithCount("A", false, false);
    var f := TypeFrame(t);
    assert !DeclaresField(t.body.value, "count", true);
    var s1 := State([RootFrame, f], Some("A"));
    assert !ContainsStaticField(s1.frames, "count");
    assert [RootFrame] + [f] == s1.frames;
    assert Parent(s1.frames) == [RootFrame];
    RunSteps(DefaultConfig, BeginTree(None), Enter(t), Visit(Param("count", "m", true, "void")), LeaveClass,
             Trace(s1, []), Trace(s1, []), Trace(State([RootFrame], Some("A")), []));
    var none: seq<string> := [];
    assert none + (none + none) == none;
  }

  /** With ignoreConstructorParameter, a constructor parameter is not reported. */
  lemma ConstructorParameterIgnored()
    ensures Check(DefaultConfig.(ignoreConstructorParameter := true), None,
                  [Enter(ClassWithCount("A", false, false)), Visit(CtorParam("count")), LeaveClass])
            == Ok(Trace(State([RootFrame], Some("A")), []))
  {
    var t := ClassWithCount("A", false, false);
    var s1 := State([RootFrame, TypeFrame(t)], Some("A"));
    assert [RootFrame] + [TypeFrame(t)] == s1.frames;
    assert Parent(s1.frames) == [RootFrame];
    RunSteps(DefaultConfig.(ignoreConstructorParameter := true), BeginTree(None), Enter(t), Visit(CtorParam("count")), LeaveClass,
             Trace(s1, []), Trace(s1, []), Trace(State([RootFrame], Some("A")), []));
    var none: seq<string> := [];
    assert none + (none + none) == none;
  }

  /** `void setTime(long time)` is a setter, even with no class name remembered. */
  lemma VoidSetterIgnored()
    ensures IsIgnoredSetterParam(DefaultConfig.(ignoreSetter := true), Param("time", "setTime", false, "void"), None) == Ok(true)
  {
    assert SetterName("time") == "setTime";
  }

  /** `int setTime(long time)` is not a setter. */
  lemma IntSetterNotIgnored()
    ensures IsIgnoredSetterParam(DefaultConfig.(ignoreSetter := true), Param("time", "setTime", false, "int"), Some("A")) == Ok(false)
  {
  }

  const ChainSetterConfig := DefaultConfig.(ignoreSetter := true, setterCanReturnItsClass := true)

  /** `PageBuilder setName(String name)` in class `PageBuilder` is a setter when setters may return their class. */
  lemma ChainSetterIgnored()
    ensures IsIgnoredSetterParam(ChainSetterConfig, Param("name", "setName", false, "PageBuilder"), Some("PageBuilder")) == Ok(true)
  {
    assert SetterName("name") == "setName";
  }

  /** A chain setter `T setName(String name)` of any non-void type, with no class name remembered, faults. */
  lemma ChainSetterWithoutClassFaults(returnType: string)
    requires returnType != "void"
    ensures IsIgnoredSetterParam(ChainSetterConfig, Param("name", "setName", false, returnType), None) == Err(NullClassName)
  {
    assert SetterName("name") == "setName";
  }

  /** Two shadowing declarations are reported in the order they are visited. */
  lemma ReportsInVisitOrder()
    ensures Check(DefaultConfig, None,
                  [Enter(TypeNode(ClassDef, Some(NoMods), "A", Some([FieldChild("a", NoMods), FieldChild("b", NoMods)]))),
                   Visit(Local("b", false)), Visit(Local("a", false))])
            == Ok(Trace(State([RootFrame, TypeFrame(TypeNode(ClassDef, Some(NoMods), "A", Some([FieldChild("a", NoMods), FieldChild("b", NoMods)])))], Some("A")), ["b", "a"]))
  {
    var body := [FieldChild("a", NoMods), FieldChild("b", NoMods)];
    var t := TypeNode(ClassDef, Some(NoMods), "A", Some(body));
    var f := TypeFrame(t);
    assert "a" in f.instanceFields by { assert IsField(body[0], "a", false); }
    assert "b" in f.instanceFields by { assert IsField(body[1], "b", false); }
    var s1 := State([RootFrame, f], Some("A"));
    assert ContainsInstanceField(s1.frames, "a") && ContainsInstanceField(s1.frames, "b");
    assert [RootFrame] + [f] == s1.frames;
    RunSteps(DefaultConfig, BeginTree(None), Enter(t), Visit(Local("b", false)), Visit(Local("a", false)),
             Trace(s1, []), Trace(s1, ["b"]), Trace(s1, ["a"]));
    assert [] + (["b"] + ["a"]) == ["b", "a"];
  }

  /** A name matched by the ignore pattern is not reported. */
  lemma PatternSuppresses(ignored: string -> bool)
    requires ignored("ignoreMe")
    ensures Check(DefaultConfig.(ignoreFormat := Some(ignored)), None,
                  [Enter(TypeNode(ClassDef, Some(NoMods), "A", Some([FieldChild("ignoreMe", NoMods)]))),
                   Visit(Param("ignoreMe", "m", false, "void")), LeaveClass])
            == Ok(Trace(State([RootFrame], Some("A")), []))
  {
    var cfg := DefaultConfig.(ignoreFormat := Some(ignored));
    var t := TypeNode(ClassDef, Some(NoMods), "A", Some([FieldChild("ignoreMe", NoMods)]));
    var s1 := State([RootFrame, TypeFrame(t)], Some("A"));
    assert [RootFrame] + [TypeFrame(t)] == s1.frames;
    assert Parent(s1.frames) == [RootFrame];
    RunSteps(cfg, BeginTree(None), Enter(t), Visit(Param("ignoreMe", "m", false, "void")), LeaveClass,
             Trace(s1, []), Trace(s1, []), Trace(State([RootFrame], Some("A")), []));
    var none: seq<string> := [];
    assert none + (none + none) == none;
  }

  /** `class Outer { int x; ... }`. */
  const OuterWithX := TypeNode(ClassDef, Some(NoMods), "Outer", Some([FieldChild("x", NoMods)]))

  /** The parameter of the chain setter `Outer setX(int x)`. */
  const OuterSetterParam := Param("x", "setX", false, "Outer")

  /**
    Back in `Outer` after the inner class `Inner` was left, the remembered class
    name is still `Inner`, so `Outer setX(int x)` is not taken for a chain
    setter and its parameter is reported.
  */
  lemma OuterSetterReportedAfterInner()
    ensures Step(ChainSetterConfig, State([RootFrame, TypeFrame(OuterWithX)], Some("Inner")), Visit(OuterSetterParam))
            == Ok(Trace(State([RootFrame, TypeFrame(OuterWithX)], Some("Inner")), ["x"]))
  {
    var f := TypeFrame(OuterWithX);
    assert "x" in f.instanceFields by { assert IsField(OuterWithX.body.value[0], "x", false); }
    assert ContainsInstanceField([RootFrame, f], "x");
    assert SetterName("x") == "setX";
    assert IsIgnoredSetterParam(ChainSetterConfig, OuterSetterParam, Some("Inner")) == Ok(false);
    assert !InStatic(OuterSetterParam.ancestors);
  }

  /**
    `class Outer { int x; class Inner {} Outer setX(int x) {...} }` with chain
    setters on: leaving `Inner` does not restore the class name `Outer`, so the
    setter's parameter `x` is reported.
  */
  lemma NestedClassHidesChainSetter()
    ensures Check(ChainSetterConfig, None,
                  [Enter(OuterWithX), Enter(EmptyClass("Inner", false)), LeaveClass, Visit(OuterSetterParam)])
            == Ok(Trace(State([RootFrame, TypeFrame(OuterWithX)], Some("Inner")), ["x"]))
  {
    var cfg := ChainSetterConfig;
    var fo := TypeFrame(OuterWithX);
    var inner := EmptyClass("Inner", false);
    var s1 := State([RootFrame, fo], Some("Outer"));
    var s2 := State([RootFrame, fo, TypeFrame(inner)], Some("Inner"));
    var s3 := State([RootFrame, fo], Some("Inner"));
    assert Step(cfg, BeginTree(None), Enter(OuterWithX)) == Ok(Trace(s1, [])) by {
      assert [RootFrame] + [fo] == s1.frames;
    }
    assert Step(cfg, s1, Enter(inner)) == Ok(Trace(s2, [])) by {
      assert s1.frames + [TypeFrame(inner)] == s2.frames;
    }
    assert Step(cfg, s2, LeaveClass) == Ok(Trace(s3, [])) by {
      assert Parent(s2.frames) == s3.frames;
    }
    OuterSetterReportedAfterInner();
    var rest := [Enter(inner), LeaveClass, Visit(OuterSetterParam)];
    RunSteps(cfg, s1, Enter(inner), LeaveClass, Visit(OuterSetterParam), Trace(s2, []), Trace(s3, []), Trace(s3, ["x"]));
    assert [] + ([] + ["x"]) == ["x"];
    RunOkCons(cfg, BeginTree(None), Enter(OuterWithX), rest, Trace(s1, []), Trace(s3, ["x"]));
    assert [Enter(OuterWithX)] + rest == [Enter(OuterWithX), Enter(inner), LeaveClass, Visit(OuterSetterParam)];
    assert [] + ["x"] == ["x"];
  }

  /** A top-level enum `E` with the fields `x` and `name`. */
  const EnumXName := TypeNode(EnumDef, Some(NoMods), "E", Some([FieldChild("x", NoMods), FieldChild("name", NoMods)]))

  /** Inside the enum both of its fields are visible instance fields. */
  lemma EnumFieldsVisible()
    ensures ContainsInstanceField([RootFrame, TypeFrame(EnumXName)], "x")
    ensures ContainsInstanceField([RootFrame, TypeFrame(EnumXName)], "name")
  {
    var f := TypeFrame(EnumXName);
    assert "x" in f.instanceFields by { assert IsField(EnumXName.body.value[0], "x", false); }
    assert "name" in f.instanceFields by { assert IsField(EnumXName.body.value[1], "name", false); }
  }

  /** Inside the enum, with no class name remembered, the chain setter's parameter faults. */
  lemma ChainSetterFaultsWithoutClassName()
    ensures Step(ChainSetterConfig, State([RootFrame, TypeFrame(EnumXName)], None), Visit(Param("name", "setName", false, "E")))
            == Err(NullClassName)
  {
    var d := Param("name", "setName", false, "E");
    EnumFieldsVisible();
    ChainSetterWithoutClassFaults("E");
    assert !InStatic(d.ancestors);
    assert ProcessVariable(ChainSetterConfig, State([RootFrame, TypeFrame(EnumXName)], None), d) == Err(NullClassName);
  }

  /** Entering the enum from the start of the tree pushes its frame and remembers no class name. */
  lemma EnterEnum()
    ensures Step(ChainSetterConfig, BeginTree(None), Enter(EnumXName))
            == Ok(Trace(State([RootFrame, TypeFrame(EnumXName)], None), []))
  {
    assert [RootFrame] + [TypeFrame(EnumXName)] == [RootFrame, TypeFrame(EnumXName)];
  }

  /** Inside the enum, a local `x` is reported. */
  lemma LocalInEnumReported()
    ensures Step(ChainSetterConfig, State([RootFrame, TypeFrame(EnumXName)], None), Visit(Local("x", false)))
            == Ok(Trace(State([RootFrame, TypeFrame(EnumXName)], None), ["x"]))
  {
    EnumFieldsVisible();
    assert !InStatic(Local("x", false).ancestors);
  }

  /** A step that faults aborts the run at once, with nothing reported by it. */
  lemma RunFaultCons(cfg: Config, s: State, e: Event, rest: seq<Event>, f: Fault)
    requires Step(cfg, s, e) == Err(f)
    ensures Run(cfg, s, [e] + rest) == Err(Abort(f, []))
  {
    RunCons(cfg, s, e, rest);
  }

  /** A successful step followed by an aborted run: the step's reports stay in front. */
  lemma RunErrCons(cfg: Config, s: State, e: Event, rest: seq<Event>, t: Trace, a: Abort)
    requires Step(cfg, s, e) == Ok(t)
    requires Run(cfg, t.state, rest) == Err(a)
    ensures Run(cfg, s, [e] + rest) == Err(Abort(a.fault, t.reports + a.reported))
  {
    RunCons(cfg, s, e, rest);
  }

  /**
    A top-level enum with fields `x` and `name`, a local `x`, then the parameter of
    the chain setter `E setName(String name)`: with no class name remembered the
    setter check faults, and the report for `x` made before it is kept.
  */
  lemma ReportBeforeFaultKept()
    ensures Check(ChainSetterConfig, None,
                  [Enter(EnumXName), Visit(Local("x", false)), Visit(Param("name", "setName", false, "E"))])
            == Err(Abort(NullClassName, ["x"]))
  {
    var cfg := ChainSetterConfig;
    var t := EnumXName;
    var s1 := State([RootFrame, TypeFrame(t)], None);
    var local := Visit(Local("x", false));
    var setter := Visit(Param("name", "setName", false, "E"));
    var none: seq<Event> := [];
    EnterEnum();
    LocalInEnumReported();
    ChainSetterFaultsWithoutClassName();
    RunFaultCons(cfg, s1, setter, none, NullClassName);
    assert [setter] + none == [setter];
    RunErrCons(cfg, s1, local, [setter], Trace(s1, ["x"]), Abort(NullClassName, []));
    assert [local] + [setter] == [local, setter];
    assert ["x"] + [] == ["x"];
    RunErrCons(cfg, BeginTree(None), Enter(t), [local, setter], Trace(s1, []), Abort(NullClassName, ["x"]));
    assert [Enter(t)] + [local, setter] == [Enter(t), local, setter];
    assert [] + ["x"] == ["x"];
  }
}

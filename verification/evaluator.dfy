/**
  The traversal-driven evaluator: the check's state (current frame chain and
  remembered class name), the reaction to each traversal callback, and the
  fold of those reactions over a whole traversal.
*/
module Evaluator {
  import opened Base
  import opened Syntax
  import opened Frames
  import opened Exemptions

  /** The check's mutable fields: the current frame chain and the last class name seen. */
  datatype State = State(frames: Chain, className: Option<string>)

  /** What a run leaves behind: the final state and the reported names, in report order. */
  datatype Trace = Trace(state: State, reports: seq<string>)

  /**
    A run stopped by a fault: the fault, and the names already reported
    before it (a report is logged at once and is not withdrawn by a later fault).
  */
  datatype Abort = Abort(fault: Fault, reported: seq<string>)

  /**
    beginTree: a fresh root frame. The class name is not reset, so it carries
    whatever the previous tree left (None for the first tree). No field is
    visible in a fresh tree.
  */
  function BeginTree(remembered: Option<string>): (s: State)
    ensures forall n :: !ContainsStaticField(s.frames, n) && !ContainsInstanceField(s.frames, n)
  {
    State([RootFrame], remembered)
  }

  // ---------------------------------------------------------------- inStatic

  /** The ancestors at which inStatic stops: a static initializer or a method. */
  predicate Decisive(a: Ancestor)
  {
    a.kind == StaticInit || a.kind == MethodDef
  }

  /** The verdict a decisive ancestor gives. */
  predicate StaticVerdict(a: Ancestor)
  {
    a.kind == StaticInit || a.hasStatic
  }

  /** No ancestor nearer than index `i` is decisive. */
  predicate NearestDecisive(anc: seq<Ancestor>, i: int)
    requires 0 <= i < |anc|
  {
    Decisive(anc[i]) && forall j :: 0 <= j < i ==> !Decisive(anc[j])
  }

  /**
    inStatic: the verdict of the nearest enclosing static initializer (static)
    or method (static iff it carries `static`); not static when there is none.
  */
  function InStatic(anc: seq<Ancestor>): (r: bool)
    ensures r <==> exists i :: 0 <= i < |anc| && NearestDecisive(anc, i) && StaticVerdict(anc[i])
    decreases |anc|
  {
    if |anc| == 0 then false
    else if anc[0].kind == StaticInit then true
    else if anc[0].kind == MethodDef then anc[0].hasStatic
    else InStatic(anc[1..])
  }

  // ------------------------------------------------------ entering a type body

  /** The child declares field `n`, with `static` among its modifiers iff `isStatic`. */
  predicate IsField(c: BodyChild, n: string, isStatic: bool)
  {
    c.FieldChild? && c.name == n && c.mods.hasStatic == isStatic
  }

  /** Some direct child of the body declares field `n` with that static classification. */
  predicate DeclaresField(children: seq<BodyChild>, n: string, isStatic: bool)
  {
    exists i :: 0 <= i < |children| && IsField(children[i], n, isStatic)
  }

  /** Files one direct child of a type body into the frame. */
  function AddChild(f: Frame, c: BodyChild): Frame
  {
    match c
    case FieldChild(n, mods) => if mods.hasStatic then AddStaticField(f, n) else AddInstanceField(f, n)
    case OtherChild => f
  }

  /** The loop over the OBJBLOCK children, adding each field declaration to the frame. */
  function Harvest(f: Frame, children: seq<BodyChild>): (g: Frame)
    ensures g.isStaticType == f.isStaticType
    ensures forall n :: n in g.staticFields <==> n in f.staticFields || DeclaresField(children, n, true)
    ensures forall n :: n in g.instanceFields <==> n in f.instanceFields || DeclaresField(children, n, false)
    decreases |children|
  {
    if |children| == 0 then f
    else
      var g := Harvest(AddChild(f, children[0]), children[1..]);
      assert forall n, b :: DeclaresField(children, n, b) <==>
        IsField(children[0], n, b) || DeclaresField(children[1..], n, b) by {
        forall n, b | DeclaresField(children, n, b)
          ensures IsField(children[0], n, b) || DeclaresField(children[1..], n, b)
        {
          var i :| 0 <= i < |children| && IsField(children[i], n, b);
          if i > 0 {
            assert children[1..][i - 1] == children[i];
          }
        }
      }
      g
  }

  /** A type is a static nested type only if its own MODIFIERS child exists and contains `static`. */
  predicate IsStaticInnerType(t: TypeNode)
    ensures t.mods.None? ==> !IsStaticInnerType(t)
    ensures t.mods.Some? ==> (IsStaticInnerType(t) <==> t.mods.value.hasStatic)
  {
    t.mods.Some? && t.mods.value.hasStatic
  }

  /**
    The frame visitToken builds for a type node: its static flag from the
    node's own modifiers, and exactly the body's direct fields, split by
    their `static` modifier; a missing body gives empty sets.
  */
  function TypeFrame(t: TypeNode): (f: Frame)
    ensures f.isStaticType <==> IsStaticInnerType(t)
    ensures t.body.None? ==> f.staticFields == {} && f.instanceFields == {}
    ensures t.body.Some? ==> forall n :: n in f.staticFields <==> DeclaresField(t.body.value, n, true)
    ensures t.body.Some? ==> forall n :: n in f.instanceFields <==> DeclaresField(t.body.value, n, false)
  {
    var f := NewFrame(IsStaticInnerType(t));
    if t.body.None? then f else Harvest(f, t.body.value)
  }

  // ------------------------------------------------------- visiting a declaration

  /** The declaration is one the check examines: a local variable or a parameter outside interfaces and annotations. */
  predicate Eligible(d: Declaration)
    ensures d.inInterfaceOrAnnotation ==> !Eligible(d)
    ensures d.kind == ParameterDef ==> (Eligible(d) <==> !d.inInterfaceOrAnnotation)
    ensures d.kind == VariableDef ==> (Eligible(d) <==> !d.inInterfaceOrAnnotation && d.isLocal)
  {
    !d.inInterfaceOrAnnotation && (d.isLocal || d.kind == ParameterDef)
  }

  /**
    processVariable: whether the declaration is reported. It is reported when it
    is eligible, names a visible static field, or a visible instance field outside
    a static context, the ignore pattern does not match it, and no exemption holds.
    Dereferencing a null frame or a null class name aborts.
  */
  function ProcessVariable(cfg: Config, s: State, d: Declaration): (r: Result<bool, Fault>)
    ensures r == Ok(true) <==>
              && Eligible(d) && s.frames != []
              && (StaticVisible(s.frames, d.name) || (!InStatic(d.ancestors) && InstanceVisible(s.frames, d.name)))
              && !PatternMatches(cfg, d.name)
              && IsIgnoredSetterParam(cfg, d, s.className).Ok?
              && !Exempt(cfg, d, s.className)
    ensures !Eligible(d) ==> r == Ok(false)
    ensures r == Err(NullCurrentFrame) <==> Eligible(d) && s.frames == []
    ensures r == Err(NullClassName) <==>
              && Eligible(d) && s.frames != []
              && (StaticVisible(s.frames, d.name) || (!InStatic(d.ancestors) && InstanceVisible(s.frames, d.name)))
              && !PatternMatches(cfg, d.name)
              && IsIgnoredSetterParam(cfg, d, s.className).Err?
    ensures r == Err(NullClassName) ==> s.className == None
  {
    if !Eligible(d) then Ok(false)
    else if s.frames == [] then Err(NullCurrentFrame)
    else if !(ContainsStaticField(s.frames, d.name)
              || (!InStatic(d.ancestors) && ContainsInstanceField(s.frames, d.name))) then Ok(false)
    else if PatternMatches(cfg, d.name) then Ok(false)
    else
      match IsIgnoredSetterParam(cfg, d, s.className)
      case Err(e) => Err(e)
      case Ok(setter) =>
        Ok(!setter && !IsIgnoredConstructorParam(cfg, d) && !IsIgnoredParamOfAbstractMethod(cfg, d))
  }

  // ------------------------------------------------------------- the traversal

  /**
    One callback: visitToken on a type or a declaration, or leaveToken.
    Entering a type pushes exactly its frame; leaving a type pops the current
    frame; a declaration leaves the state alone and reports at most its own name.
  */
  function Step(cfg: Config, s: State, e: Event): (r: Result<Trace, Fault>)
    ensures e.Enter? ==> r.Ok? && r.value.state.frames == s.frames + [TypeFrame(e.node)] && r.value.reports == []
    ensures e.Enter? && e.node.kind == ClassDef ==> r.value.state.className == Some(e.node.name)
    ensures !(e.Enter? && e.node.kind == ClassDef) && r.Ok? ==> r.value.state.className == s.className
    ensures e.Leave? && e.token.TypeToken? ==>
              if s.frames == [] then r == Err(NullCurrentFrame)
              else r.Ok? && s.frames == r.value.state.frames + [s.frames[|s.frames| - 1]] && r.value.reports == []
    ensures e.Leave? && e.token.DeclToken? ==> r == Ok(Trace(s, []))
    ensures e.Visit? ==> (r.Ok? <==> ProcessVariable(cfg, s, e.decl).Ok?)
    ensures e.Visit? && r.Ok? ==>
              && r.value.state == s
              && r.value.reports == if ProcessVariable(cfg, s, e.decl) == Ok(true) then [e.decl.name] else []
    ensures e.Visit? && r.Err? ==> r.error == ProcessVariable(cfg, s, e.decl).error
    ensures r.Ok? ==> |r.value.reports| <= 1
  {
    match e
    case Enter(t) =>
      var name := if t.kind == ClassDef then Some(t.name) else s.className;
      Ok(Trace(State(s.frames + [TypeFrame(t)], name), []))
    case Visit(d) =>
      (match ProcessVariable(cfg, s, d)
       case Err(f) => Err(f)
       case Ok(reported) => Ok(Trace(s, if reported then [d.name] else [])))
    case Leave(tok) =>
      if tok.DeclToken? then Ok(Trace(s, []))
      else if s.frames == [] then Err(NullCurrentFrame)
      else Ok(Trace(s.(frames := Parent(s.frames)), []))
  }

  /**
    The callbacks in order, reports concatenated; the first fault aborts the
    run, keeping the names reported before it.
  */
  function Run(cfg: Config, s: State, evs: seq<Event>): Result<Trace, Abort>
    decreases |evs|
  {
    if |evs| == 0 then Ok(Trace(s, []))
    else
      match Step(cfg, s, evs[0])
      case Err(f) => Err(Abort(f, []))
      case Ok(t1) =>
        match Run(cfg, t1.state, evs[1..])
        case Err(a) => Err(Abort(a.fault, t1.reports + a.reported))
        case Ok(t2) => Ok(Trace(t2.state, t1.reports + t2.reports))
  }

  /** A whole tree: beginTree, then the callbacks. */
  function Check(cfg: Config, remembered: Option<string>, evs: seq<Event>): Result<Trace, Abort>
  {
    Run(cfg, BeginTree(remembered), evs)
  }
}

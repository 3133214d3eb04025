/**
  Properties of whole traversals: reports come out in visit order, the frame
  chain follows the nesting of type bodies, a well-nested traversal never
  dereferences a null frame, and the remembered class name is not restored.
*/
module Properties {
  import opened Base
  import opened Syntax
  import opened Frames
  import opened Exemptions
  import opened Evaluator

  /** The names a run has reported, whether it finished or was aborted by a fault. */
  function Reported(r: Result<Trace, Abort>): seq<string>
  {
    match r
    case Ok(t) => t.reports
    case Err(a) => a.reported
  }

  /** A single step's outcome as the outcome of a run: a fault aborts with nothing reported yet. */
  function Lift(r: Result<Trace, Fault>): Result<Trace, Abort>
  {
    match r
    case Ok(t) => Ok(t)
    case Err(f) => Err(Abort(f, []))
  }

  /** Running one event sequence after another, concatenating the reports. */
  function Continue(cfg: Config, r: Result<Trace, Abort>, evs: seq<Event>): Result<Trace, Abort>
  {
    match r
    case Err(a) => Err(a)
    case Ok(t1) =>
      match Run(cfg, t1.state, evs)
      case Err(a) => Err(Abort(a.fault, t1.reports + a.reported))
      case Ok(t2) => Ok(Trace(t2.state, t1.reports + t2.reports))
  }

  /** A run is its first step continued by the rest. */
  lemma RunCons(cfg: Config, s: State, e: Event, rest: seq<Event>)
    ensures Run(cfg, s, [e] + rest) == Continue(cfg, Lift(Step(cfg, s, e)), rest)
  {
  }

  /** Reports made before a run, put in front of the run's own, whether it finished or aborted. */
  function Prepend(reports: seq<string>, r: Result<Trace, Abort>): (p: Result<Trace, Abort>)
    ensures p.Ok? <==> r.Ok?
    ensures Reported(p) == reports + Reported(r)
  {
    match r
    case Ok(t) => Ok(Trace(t.state, reports + t.reports))
    case Err(a) => Err(Abort(a.fault, reports + a.reported))
  }

  /** A run whose first step succeeds is the rest of the run with that step's reports in front. */
  lemma RunAfterOkStep(cfg: Config, s: State, evs: seq<Event>)
    requires |evs| > 0 && Step(cfg, s, evs[0]).Ok?
    ensures Run(cfg, s, evs) == Prepend(Step(cfg, s, evs[0]).value.reports, Run(cfg, Step(cfg, s, evs[0]).value.state, evs[1..]))
  {
  }

  /** Putting two report lists in front, one after the other, puts their concatenation in front. */
  lemma PrependTwice(a: seq<string>, b: seq<string>, r: Result<Trace, Abort>)
    ensures Prepend(a, Prepend(b, r)) == Prepend(a + b, r)
  {
    match r
    case Ok(t) =>
      assert a + (b + t.reports) == (a + b) + t.reports;
    case Err(x) =>
      assert a + (b + x.reported) == (a + b) + x.reported;
  }

  /** Continuing commutes with putting reports in front. */
  lemma ContinuePrepend(cfg: Config, reports: seq<string>, r: Result<Trace, Abort>, b: seq<Event>)
    ensures Continue(cfg, Prepend(reports, r), b) == Prepend(reports, Continue(cfg, r, b))
  {
    if r.Ok? {
      var t := r.value;
      var rest := Run(cfg, t.state, b);
      assert Continue(cfg, r, b) == Prepend(t.reports, rest);
      assert Continue(cfg, Prepend(reports, r), b) == Prepend(reports + t.reports, rest);
      PrependTwice(reports, t.reports, rest);
    }
  }

  /**
    Reports come out in visit order: running `a + b` reports what `a` reports,
    followed by what `b` reports from the state `a` leaves; a fault in `a`
    stops the run before `b`, and a fault in `b` keeps what `a` reported.
  */
  lemma {:induction false} RunAppend(cfg: Config, s: State, a: seq<Event>, b: seq<Event>)
    ensures Run(cfg, s, a + b) == Continue(cfg, Run(cfg, s, a), b)
    decreases |a|
  {
    if |a| == 0 {
      assert a + b == b;
      match Run(cfg, s, b)
      case Err(x) =>
        assert [] + x.reported == x.reported;
      case Ok(t2) =>
        assert [] + t2.reports == t2.reports;
    } else {
      assert (a + b)[0] == a[0];
      assert (a + b)[1..] == a[1..] + b;
      if Step(cfg, s, a[0]).Ok? {
        var t1 := Step(cfg, s, a[0]).value;
        RunAppend(cfg, t1.state, a[1..], b);
        RunAfterOkStep(cfg, s, a + b);
        RunAfterOkStep(cfg, s, a);
        ContinuePrepend(cfg, t1.reports, Run(cfg, t1.state, a[1..]), b);
      }
    }
  }

  /**
    A report, once made, is never withdrawn: whatever follows a completed run,
    faulting or not, the longer run's reports start with the shorter run's.
  */
  lemma ReportsSurviveFaults(cfg: Config, s: State, a: seq<Event>, b: seq<Event>)
    requires Run(cfg, s, a).Ok?
    ensures Run(cfg, s, a).value.reports <= Reported(Run(cfg, s, a + b))
  {
    RunAppend(cfg, s, a, b);
  }

  /** A type token is left: the callback that pops a frame. */
  predicate ClosesType(e: Event)
  {
    e.Leave? && e.token.TypeToken?
  }

  /** Type bodies entered minus type bodies left. */
  function Depth(evs: seq<Event>): int
    decreases |evs|
  {
    if |evs| == 0 then 0
    else if evs[0].Enter? then Depth(evs[1..]) + 1
    else if ClosesType(evs[0]) then Depth(evs[1..]) - 1
    else Depth(evs[1..])
  }

  /**
    Starting with `open` frames that may be popped, no prefix of the events
    leaves more type bodies than it entered.
  */
  predicate NeverUnderflows(open: nat, evs: seq<Event>)
    decreases |evs|
  {
    if |evs| == 0 then true
    else if evs[0].Enter? then NeverUnderflows(open + 1, evs[1..])
    else if ClosesType(evs[0]) then open > 0 && NeverUnderflows(open - 1, evs[1..])
    else NeverUnderflows(open, evs[1..])
  }

  /**
    One callback and the frame chain: an enter pushes the frame of the type, the
    leave of a type pops one, everything else keeps the chain, and with a
    current frame the only fault left is the chain-setter comparison.
  */
  lemma StepFrames(cfg: Config, s: State, e: Event)
    ensures Step(cfg, s, e).Ok? ==>
              Step(cfg, s, e).value.state.frames ==
                if e.Enter? then s.frames + [TypeFrame(e.node)]
                else if ClosesType(e) && s.frames != [] then Parent(s.frames)
                else s.frames
    ensures Step(cfg, s, e).Err? && s.frames != [] ==> Step(cfg, s, e).error == NullClassName
    ensures s.frames != [] && s.className.Some? ==> Step(cfg, s, e).Ok?
  {
  }

  /** A declaration visited before any type is entered shadows nothing: it is neither reported nor faults. */
  lemma VisitBeforeAnyType(cfg: Config, remembered: Option<string>, d: Declaration)
    ensures ProcessVariable(cfg, BeginTree(remembered), d) == Ok(false)
    ensures Step(cfg, BeginTree(remembered), Visit(d)) == Ok(Trace(BeginTree(remembered), []))
  {
  }

  /** How many type bodies one event opens: one for an enter, minus one for the leave of a type. */
  function Opened(e: Event): int
  {
    if e.Enter? then 1 else if ClosesType(e) then -1 else 0
  }

  /** One successful step moves the boundary of the `k` top frames with the frame it pushes or pops. */
  lemma StepKeepsBelow(cfg: Config, s: State, e: Event, k: nat)
    requires k <= |s.frames|
    requires ClosesType(e) ==> k > 0
    requires Step(cfg, s, e).Ok?
    ensures 0 <= k + Opened(e) <= |Step(cfg, s, e).value.state.frames|
    ensures |Step(cfg, s, e).value.state.frames| == |s.frames| + Opened(e)
    ensures Step(cfg, s, e).value.state.frames[..|s.frames| - k] == s.frames[..|s.frames| - k]
  {
    StepFrames(cfg, s, e);
    var f1 := Step(cfg, s, e).value.state.frames;
    if e.Enter? {
      assert f1[..|s.frames| - k] == s.frames[..|s.frames| - k];
    } else if ClosesType(e) {
      assert f1[..|s.frames| - k] == s.frames[..|s.frames| - k];
    }
  }

  /**
    Enter pushes exactly one frame on the current chain and the matching leave
    pops it: when the events pop at most the `k` top frames, the frames below
    them are untouched and the final depth is the initial depth plus the open
    type bodies.
  */
  lemma {:induction false} FramesBelowKept(cfg: Config, s: State, evs: seq<Event>, k: nat)
    requires k <= |s.frames|
    requires NeverUnderflows(k, evs)
    ensures Run(cfg, s, evs).Ok? ==>
              && s.frames[..|s.frames| - k] <= Run(cfg, s, evs).value.state.frames
              && |Run(cfg, s, evs).value.state.frames| == |s.frames| + Depth(evs)
    decreases |evs|
  {
    if |evs| > 0 && Step(cfg, s, evs[0]).Ok? {
      var e := evs[0];
      var s1 := Step(cfg, s, e).value.state;
      StepKeepsBelow(cfg, s, e, k);
      RunAfterOkStep(cfg, s, evs);
      var k1: nat := k + Opened(e);
      assert |s1.frames| - k1 == |s.frames| - k;
      FramesBelowKept(cfg, s1, evs[1..], k1);
    }
  }

  /**
    While some frame is never popped the current frame is never null, so the
    only fault left is the chain-setter comparison without a class name.
  */
  lemma {:induction false} OnlyClassNameFaults(cfg: Config, s: State, evs: seq<Event>, k: nat)
    requires k < |s.frames|
    requires NeverUnderflows(k, evs)
    ensures Run(cfg, s, evs).Err? ==> Run(cfg, s, evs).error.fault == NullClassName
    decreases |evs|
  {
    if |evs| > 0 {
      var e := evs[0];
      StepFrames(cfg, s, e);
      var r := Step(cfg, s, e);
      if r.Ok? {
        var s1 := r.value.state;
        RunAfterOkStep(cfg, s, evs);
        if e.Enter? {
          OnlyClassNameFaults(cfg, s1, evs[1..], k + 1);
        } else if ClosesType(e) {
          OnlyClassNameFaults(cfg, s1, evs[1..], k - 1);
        } else {
          OnlyClassNameFaults(cfg, s1, evs[1..], k);
        }
      }
    }
  }

  /** The two halves together: the frame discipline of a traversal. */
  lemma FrameDiscipline(cfg: Config, s: State, evs: seq<Event>, k: nat)
    requires k <= |s.frames|
    requires NeverUnderflows(k, evs)
    ensures Run(cfg, s, evs).Ok? ==>
              && s.frames[..|s.frames| - k] <= Run(cfg, s, evs).value.state.frames
              && |Run(cfg, s, evs).value.state.frames| == |s.frames| + Depth(evs)
    ensures k < |s.frames| && Run(cfg, s, evs).Err? ==> Run(cfg, s, evs).error.fault == NullClassName
  {
    FramesBelowKept(cfg, s, evs, k);
    if k < |s.frames| {
      OnlyClassNameFaults(cfg, s, evs, k);
    }
  }

  /**
    A traversal that never leaves more type bodies than it entered keeps the
    root frame at the bottom, ends with one frame per still-open type body on
    top of it, and ends at exactly the root when balanced.
  */
  lemma BalancedEndsAtRoot(cfg: Config, remembered: Option<string>, evs: seq<Event>)
    requires NeverUnderflows(0, evs)
    requires Check(cfg, remembered, evs).Ok?
    ensures [RootFrame] <= Check(cfg, remembered, evs).value.state.frames
    ensures |Check(cfg, remembered, evs).value.state.frames| == 1 + Depth(evs)
    ensures Depth(evs) == 0 ==> Check(cfg, remembered, evs).value.state.frames == [RootFrame]
  {
    FrameDiscipline(cfg, BeginTree(remembered), evs, 0);
  }

  /**
    Once a class name is remembered it stays remembered, so with a frame that is
    never popped the run cannot fault at all.
  */
  lemma {:induction false} NoFaultOnceNamed(cfg: Config, s: State, evs: seq<Event>, k: nat)
    requires k < |s.frames|
    requires NeverUnderflows(k, evs)
    requires s.className.Some?
    ensures Run(cfg, s, evs).Ok?
    decreases |evs|
  {
    if |evs| > 0 {
      var e := evs[0];
      StepFrames(cfg, s, e);
      var s1 := Step(cfg, s, e).value.state;
      RunAfterOkStep(cfg, s, evs);
      var k1: nat := k + Opened(e);
      StepKeepsBelow(cfg, s, e, k);
      NoFaultOnceNamed(cfg, s1, evs[1..], k1);
    }
  }

  /**
    beginTree does not reset the remembered class name, so a tree checked after
    one that named a class cannot fault as long as it never pops the root frame.
  */
  lemma CheckNoFaultWhenRemembered(cfg: Config, x: string, evs: seq<Event>)
    requires NeverUnderflows(0, evs)
    ensures Check(cfg, Some(x), evs).Ok?
  {
    NoFaultOnceNamed(cfg, BeginTree(Some(x)), evs, 0);
  }

  /** Every reported name, also of an aborted run, is the name of an eligible declaration visited during the run. */
  lemma {:induction false} ReportsComeFromVisits(cfg: Config, s: State, evs: seq<Event>)
    ensures forall n :: n in Reported(Run(cfg, s, evs)) ==>
              exists i :: 0 <= i < |evs| && evs[i].Visit? && evs[i].decl.name == n && Eligible(evs[i].decl)
    decreases |evs|
  {
    if |evs| > 0 && Step(cfg, s, evs[0]).Ok? {
      var t1 := Step(cfg, s, evs[0]).value;
      ReportsComeFromVisits(cfg, t1.state, evs[1..]);
      assert Reported(Run(cfg, s, evs)) == t1.reports + Reported(Run(cfg, t1.state, evs[1..]));
      forall n | n in Reported(Run(cfg, s, evs))
        ensures exists i :: 0 <= i < |evs| && evs[i].Visit? && evs[i].decl.name == n && Eligible(evs[i].decl)
      {
        if n in t1.reports {
          assert evs[0].Visit? && evs[0].decl.name == n && Eligible(evs[0].decl);
        } else {
          var i :| 0 <= i < |evs[1..]| && evs[1..][i].Visit? && evs[1..][i].decl.name == n && Eligible(evs[1..][i].decl);
          assert evs[i + 1] == evs[1..][i];
        }
      }
    }
  }

  /**
    Entering a type and leaving it restores the frame chain, but the class name
    remembered on entering a class is kept after the class is left.
  */
  lemma EnterLeaveRestoresFrames(cfg: Config, s: State, t: TypeNode)
    ensures Run(cfg, s, [Enter(t), Leave(TypeToken(t.kind))]).Ok?
    ensures Run(cfg, s, [Enter(t), Leave(TypeToken(t.kind))]).value.state.frames == s.frames
    ensures Run(cfg, s, [Enter(t), Leave(TypeToken(t.kind))]).value.reports == []
    ensures t.kind == ClassDef ==> Run(cfg, s, [Enter(t), Leave(TypeToken(t.kind))]).value.state.className == Some(t.name)
    ensures t.kind != ClassDef ==> Run(cfg, s, [Enter(t), Leave(TypeToken(t.kind))]).value.state.className == s.className
  {
    PushThenPop(s.frames, TypeFrame(t));
    var leave := Leave(TypeToken(t.kind));
    var t1 := Step(cfg, s, Enter(t)).value;
    assert t1.state.frames == s.frames + [TypeFrame(t)];
    var t2 := Step(cfg, t1.state, leave).value;
    assert t2 == Trace(t1.state.(frames := s.frames), []);
    assert [leave][0] == leave && [leave][1..] == [];
    assert Run(cfg, t2.state, []) == Ok(Trace(t2.state, []));
    var r := Run(cfg, t1.state, [leave]);
    assert Step(cfg, t1.state, [leave][0]) == Ok(t2);
    assert r.Ok?;
    assert r.value.state == t2.state;
    assert r.value.reports == [];
    assert Run(cfg, t1.state, [leave]) == Ok(Trace(t2.state, []));
    assert [Enter(t), leave][1..] == [leave];
  }
}

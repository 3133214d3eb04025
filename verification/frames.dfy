/**
  The field-frame chain: one frame per entered type body, each holding the
  names of the fields declared directly in that body, split into instance and
  static names, and whether the type itself is a static nested type.

  The parent-linked chain is a sequence, outermost (root) frame first and the
  current frame last; the parent of the current frame is the sequence without
  its last element, and the empty sequence stands for a null current frame.
*/
module Frames {

  datatype Frame = Frame(isStaticType: bool, instanceFields: set<string>, staticFields: set<string>)

  type Chain = seq<Frame>

  /** The frame created before a traversal: marked static, with no fields. */
  const RootFrame := Frame(true, {}, {})

  /** A new frame with no fields yet. */
  function NewFrame(isStaticType: bool): Frame
  {
    Frame(isStaticType, {}, {})
  }

  function AddInstanceField(f: Frame, n: string): (g: Frame)
    ensures n in g.instanceFields
    ensures forall m :: m in g.instanceFields <==> m == n || m in f.instanceFields
    ensures g.staticFields == f.staticFields && g.isStaticType == f.isStaticType
  {
    f.(instanceFields := f.instanceFields + {n})
  }

  function AddStaticField(f: Frame, n: string): (g: Frame)
    ensures n in g.staticFields
    ensures forall m :: m in g.staticFields <==> m == n || m in f.staticFields
    ensures g.instanceFields == f.instanceFields && g.isStaticType == f.isStaticType
  {
    f.(staticFields := f.staticFields + {n})
  }

  /** Adding a name twice is the same as adding it once (set semantics). */
  lemma AddFieldIdempotent(f: Frame, n: string)
    ensures AddInstanceField(AddInstanceField(f, n), n) == AddInstanceField(f, n)
    ensures AddStaticField(AddStaticField(f, n), n) == AddStaticField(f, n)
  {
  }

  /** The current frame's parent chain (null when the current frame is the root). */
  function Parent(c: Chain): (p: Chain)
    requires |c| > 0
    ensures |p| == |c| - 1
    ensures c == p + [c[|c| - 1]]
  {
    c[..|c| - 1]
  }

  /** Pushing a frame and then popping it gives back the chain it was pushed on. */
  lemma PushThenPop(c: Chain, f: Frame)
    ensures Parent(c + [f]) == c
    ensures (c + [f])[|c|] == f
  {
  }

  /** Reference meaning of static visibility: some frame of the chain declares the name static. */
  predicate StaticVisible(c: Chain, n: string)
  {
    exists i :: 0 <= i < |c| && n in c[i].staticFields
  }

  /** No frame strictly above index `i` (towards the current frame) is a static type. */
  predicate ClimbPasses(c: Chain, i: int)
    requires 0 <= i < |c|
  {
    forall j :: i < j < |c| ==> !c[j].isStaticType
  }

  /**
    Reference meaning of instance visibility: some frame declares the name as an
    instance field and is reached from the current frame without climbing out of
    a static type.
  */
  predicate InstanceVisible(c: Chain, n: string)
  {
    exists i :: 0 <= i < |c| && n in c[i].instanceFields && ClimbPasses(c, i)
  }

  /** FieldFrame.containsStaticField: asks every ancestor, whatever its static flag. */
  function ContainsStaticField(c: Chain, n: string): (r: bool)
    ensures r <==> StaticVisible(c, n)
    decreases |c|
  {
    |c| > 0 && (n in c[|c| - 1].staticFields || ContainsStaticField(Parent(c), n))
  }

  /** FieldFrame.containsInstanceField: stops climbing at a static type. */
  function ContainsInstanceField(c: Chain, n: string): (r: bool)
    ensures r <==> InstanceVisible(c, n)
    decreases |c|
  {
    |c| > 0
    && (n in c[|c| - 1].instanceFields
        || (!c[|c| - 1].isStaticType && ContainsInstanceField(Parent(c), n)))
  }

  /**
    Inside a static nested type, an instance field of an enclosing type is not
    visible unless the static type declares it itself, while every static field
    of an enclosing type stays visible.
  */
  lemma StaticTypeBoundary(c: Chain, f: Frame, n: string)
    requires f.isStaticType
    ensures ContainsInstanceField(c + [f], n) <==> n in f.instanceFields
    ensures ContainsStaticField(c, n) ==> ContainsStaticField(c + [f], n)
  {
  }

  /** Pushing a non-static frame keeps every field visible that was visible before. */
  lemma InstanceTypeKeepsVisibility(c: Chain, f: Frame, n: string)
    requires !f.isStaticType
    ensures ContainsInstanceField(c, n) ==> ContainsInstanceField(c + [f], n)
    ensures ContainsStaticField(c, n) ==> ContainsStaticField(c + [f], n)
  {
  }
}

/** The engine's transform stack: a stack of matrices whose top is the
    transform every drawing call uses. The stack is a sequence, bottom entry
    first and top entry last. */
module MatrixStacks {
  import opened Transforms

  /** One call on the stack, for reasoning about runs of calls. Rotate
      carries the cosine and sine of its angle. */
  datatype StackOp =
    | Reset
    | Push
    | Pop
    | Translate(v: Vec2)
    | Rotate(c: real, s: real)
    | Scale(v: Vec2)

  /** Replaces the top entry by `e * top`. */
  function PreMultiplyTop(s: seq<Mat4>, e: Mat4): seq<Mat4>
    requires |s| > 0
  {
    s[..|s| - 1] + [Mul(e, s[|s| - 1])]
  }

  /** What one call does to the entries. Every call but Reset reads the top,
      so it needs a non-empty stack; Pop of the last entry leaves none. */
  function Step(s: seq<Mat4>, op: StackOp): seq<Mat4>
    requires op.Reset? || |s| > 0
  {
    match op
    case Reset => [Identity]
    case Push => s + [s[|s| - 1]]
    case Pop => s[..|s| - 1]
    case Translate(v) => PreMultiplyTop(s, Translation(v))
    case Rotate(c, sn) => PreMultiplyTop(s, Rotation(c, sn))
    case Scale(v) => PreMultiplyTop(s, Scaling(v))
  }

  /** The depth after one call, starting from depth n. */
  function NextDepth(n: nat, op: StackOp): nat
  {
    match op
    case Reset => 1
    case Push => n + 1
    case Pop => if n == 0 then 0 else n - 1
    case _ => n
  }

  /** The calls can be made one after the other starting from depth n:
      each call other than Reset finds a non-empty stack. */
  predicate Runnable(n: nat, ops: seq<StackOp>)
    decreases |ops|
  {
    ops == [] || ((ops[0].Reset? || n > 0) && Runnable(NextDepth(n, ops[0]), ops[1..]))
  }

  /** The entries after making the calls one after the other. */
  function Run(s: seq<Mat4>, ops: seq<StackOp>): seq<Mat4>
    requires Runnable(|s|, ops)
    decreases |ops|
  {
    if ops == [] then s else Run(Step(s, ops[0]), ops[1..])
  }

  /** The calls never take the depth below `floor` (at least 1) and contain
      no Reset: starting from depth n they work inside the frames above
      depth `floor`. */
  predicate KeepsFloor(ops: seq<StackOp>, n: nat, floor: nat)
    decreases |ops|
  {
    1 <= floor <= n &&
    (ops == [] || (!ops[0].Reset? && KeepsFloor(ops[1..], NextDepth(n, ops[0]), floor)))
  }

  /** The depth after the calls. */
  function FinalDepth(n: nat, ops: seq<StackOp>): nat
    decreases |ops|
  {
    if ops == [] then n else FinalDepth(NextDepth(n, ops[0]), ops[1..])
  }

  /** Depth bookkeeping: each call changes the depth as NextDepth says. */
  lemma StepDepth(s: seq<Mat4>, op: StackOp)
    requires op.Reset? || |s| > 0
    ensures |Step(s, op)| == NextDepth(|s|, op)
  {
  }

  /** One call made at depth above `floor` leaves the bottom `floor - 1`
      entries as they were. */
  lemma StepKeepsBelow(s: seq<Mat4>, op: StackOp, floor: nat)
    requires !op.Reset? && 1 <= floor <= |s| && floor <= NextDepth(|s|, op)
    ensures |Step(s, op)| == NextDepth(|s|, op)
    ensures Step(s, op)[..floor - 1] == s[..floor - 1]
  {
  }

  /** Calls that keep to the frames above `floor` can all be made, end at
      FinalDepth, and leave the entries below `floor` untouched: a drawing
      routine that works inside its own frames cannot disturb its caller's. */
  lemma {:induction false} FramesBelowUntouched(s: seq<Mat4>, ops: seq<StackOp>, floor: nat)
    requires KeepsFloor(ops, |s|, floor)
    ensures Runnable(|s|, ops)
    ensures |Run(s, ops)| == FinalDepth(|s|, ops) >= floor
    ensures Run(s, ops)[..floor - 1] == s[..floor - 1]
    decreases |ops|
  {
    if ops != [] {
      var t := Step(s, ops[0]);
      StepKeepsBelow(s, ops[0], floor);
      FramesBelowUntouched(t, ops[1..], floor);
      calc {
        Run(s, ops)[..floor - 1];
        Run(t, ops[1..])[..floor - 1];
        t[..floor - 1];
        s[..floor - 1];
      }
    }
  }

  /** Push, any calls that stay within the pushed frame and come back to its
      depth, then Pop: the stack is exactly what it was, top included. */
  lemma {:induction false} BalancedFrameRestores(s: seq<Mat4>, body: seq<StackOp>)
    requires |s| > 0
    requires KeepsFloor(body, |s| + 1, |s| + 1) && FinalDepth(|s| + 1, body) == |s| + 1
    ensures Runnable(|s|, [StackOp.Push] + body + [StackOp.Pop])
    ensures Run(s, [StackOp.Push] + body + [StackOp.Pop]) == s
  {
    var pushed := Step(s, StackOp.Push);
    FramesBelowUntouched(pushed, body, |s| + 1);
    var inner := Run(pushed, body);
    assert inner[..|s|] == s;
    RunAppend(pushed, body, [StackOp.Pop]);
    var ops := [StackOp.Push] + body + [StackOp.Pop];
    assert ops[0] == StackOp.Push && ops[1..] == body + [StackOp.Pop];
    assert Run(inner, [StackOp.Pop]) == Run(Step(inner, StackOp.Pop), []);
  }

  /** Running two lists of calls is running the first, then the second. */
  lemma {:induction false} RunAppend(s: seq<Mat4>, first: seq<StackOp>, second: seq<StackOp>)
    requires Runnable(|s|, first) && Runnable(|Run(s, first)|, second)
    ensures Runnable(|s|, first + second)
    ensures Run(s, first + second) == Run(Run(s, first), second)
    decreases |first|
  {
    if first == [] {
      assert first + second == second;
    } else {
      var t := Step(s, first[0]);
      StepDepth(s, first[0]);
      assert (first + second)[0] == first[0] && (first + second)[1..] == first[1..] + second;
      RunAppend(t, first[1..], second);
    }
  }

  /** Every entry the stack holds is a planar transform. */
  ghost predicate AllPlanar(s: seq<Mat4>)
  {
    forall i | 0 <= i < |s| :: Planar(s[i])
  }

  /** Every call keeps all entries planar. */
  lemma StepPlanar(s: seq<Mat4>, op: StackOp)
    requires op.Reset? || |s| > 0
    requires AllPlanar(s)
    ensures AllPlanar(Step(s, op))
  {
    match op
    case Reset =>
      ElementaryPlanar(Vec2(0.0, 0.0), 1.0, 0.0);
    case Push =>
    case Pop =>
    case Translate(v) =>
      ElementaryPlanar(v, 1.0, 0.0);
      MulPlanar(Translation(v), s[|s| - 1]);
    case Rotate(c, sn) =>
      ElementaryPlanar(Vec2(1.0, 1.0), c, sn);
      MulPlanar(Rotation(c, sn), s[|s| - 1]);
    case Scale(v) =>
      ElementaryPlanar(v, 1.0, 0.0);
      MulPlanar(Scaling(v), s[|s| - 1]);
  }

  /** The transform stack (`MatrixStack` in the engine). */
  class MatrixStack {
    /** The entries, bottom first; the last one is the top. */
    var matrices: seq<Mat4>

    /** Every entry is a transform of the drawing plane. */
    ghost predicate Valid()
      reads this
    {
      AllPlanar(matrices)
    }

    /** A new stack holds exactly one entry, the identity. */
    constructor ()
      ensures Valid()
      ensures matrices == [Identity]
    {
      matrices := [Identity];
      ElementaryPlanar(Vec2(0.0, 0.0), 1.0, 0.0);
    }

    /** Discards every entry, whatever the depth, and starts again from one
        identity. */
    method Reset()
      modifies this
      ensures Valid()
      ensures matrices == [Identity]
      ensures matrices == Step(old(matrices), StackOp.Reset)
    {
      matrices := [Identity];
      ElementaryPlanar(Vec2(0.0, 0.0), 1.0, 0.0);
    }

    /** Pushes a copy of the top: one entry deeper, the new top equal to the
        old one, everything below as it was. */
    method Push()
      requires Valid() && |matrices| > 0
      modifies this
      ensures Valid()
      ensures |matrices| == |old(matrices)| + 1
      ensures matrices[..|old(matrices)|] == old(matrices)
      ensures matrices[|matrices| - 1] == old(matrices)[|old(matrices)| - 1]
      ensures matrices == Step(old(matrices), StackOp.Push)
    {
      var top := Top();
      matrices := matrices + [top];
    }

    /** Removes the top entry; the others stay as they were. The engine does
        not guard this: popping an empty stack is undefined behaviour of
        `std::stack`, so the stack must hold an entry. Popping the last one
        is allowed and leaves the stack empty. */
    method Pop()
      requires Valid() && |matrices| > 0
      modifies this
      ensures Valid()
      ensures |matrices| == |old(matrices)| - 1
      ensures matrices == old(matrices)[..|old(matrices)| - 1]
      ensures matrices == Step(old(matrices), StackOp.Pop)
    {
      matrices := matrices[..|matrices| - 1];
    }

    /** Sets the top to `Translation(v) * top`; depth and lower entries are
        unchanged. */
    method Translate(v: Vec2)
      requires Valid() && |matrices| > 0
      modifies this
      ensures Valid()
      ensures |matrices| == |old(matrices)|
      ensures matrices[..|matrices| - 1] == old(matrices)[..|old(matrices)| - 1]
      ensures matrices[|matrices| - 1] == Mul(Translation(v), old(matrices)[|old(matrices)| - 1])
      ensures matrices == Step(old(matrices), StackOp.Translate(v))
    {
      StepPlanar(matrices, StackOp.Translate(v));
      matrices := matrices[..|matrices| - 1] + [Mul(Translation(v), matrices[|matrices| - 1])];
    }

    /** Sets the top to `Rotation(c, s) * top`, where c and s are the cosine
        and sine of the angle; depth and lower entries are unchanged. */
    method Rotate(c: real, s: real)
      requires Valid() && |matrices| > 0
      modifies this
      ensures Valid()
      ensures |matrices| == |old(matrices)|
      ensures matrices[..|matrices| - 1] == old(matrices)[..|old(matrices)| - 1]
      ensures matrices[|matrices| - 1] == Mul(Rotation(c, s), old(matrices)[|old(matrices)| - 1])
      ensures matrices == Step(old(matrices), StackOp.Rotate(c, s))
    {
      StepPlanar(matrices, StackOp.Rotate(c, s));
      matrices := matrices[..|matrices| - 1] + [Mul(Rotation(c, s), matrices[|matrices| - 1])];
    }

    /** Sets the top to `Scaling(v) * top`; depth and lower entries are
        unchanged. */
    method Scale(v: Vec2)
      requires Valid() && |matrices| > 0
      modifies this
      ensures Valid()
      ensures |matrices| == |old(matrices)|
      ensures matrices[..|matrices| - 1] == old(matrices)[..|old(matrices)| - 1]
      ensures matrices[|matrices| - 1] == Mul(Scaling(v), old(matrices)[|old(matrices)| - 1])
      ensures matrices == Step(old(matrices), StackOp.Scale(v))
    {
      StepPlanar(matrices, StackOp.Scale(v));
      matrices := matrices[..|matrices| - 1] + [Mul(Scaling(v), matrices[|matrices| - 1])];
    }

    /** The most recently pushed entry, the one drawing calls use. */
    method Top() returns (m: Mat4)
      requires Valid() && |matrices| > 0
      ensures m == matrices[|matrices| - 1]
      ensures Planar(m)
    {
      m := matrices[|matrices| - 1];
    }
  }
}

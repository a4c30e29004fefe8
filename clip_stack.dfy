// The driver's clip state: a chain of rectangular clip frames, each linked to
// the frame it was pushed over, with the most recent frame as the current one.

module ClipStack {
  import opened Wrappers

  /** The rectangle of one clip frame, in integer device coordinates. */
  datatype ClipRect = ClipRect(x: int, y: int, w: int, h: int)

  /** A chain of clip frames, oldest first. The last element is the current
      frame; every other element is the `prev` frame of the one after it. An
      empty chain is the unclipped state (a null current frame). */
  type Chain = seq<ClipRect>

  /** The two things that can happen to the chain. */
  datatype ClipOp = Push(rect: ClipRect) | Pop

  /** The current frame, if any. */
  function Top(c: Chain): (r: Option<ClipRect>)
    ensures r.None? <==> c == []
    ensures r.Some? ==> r.value == c[|c| - 1]
  {
    if c == [] then None else Some(c[|c| - 1])
  }

  /** The chain reached by following `prev` from the current frame. */
  function Prev(c: Chain): (r: Chain)
    requires c != []
    ensures |r| == |c| - 1 && c == r + [c[|c| - 1]]
  {
    c[..|c| - 1]
  }

  /** The chain after one operation. A push links a new current frame whose
      `prev` is the old current frame; a pop unlinks the current frame and
      leaves an empty chain empty. */
  function Apply(c: Chain, op: ClipOp): (r: Chain)
    ensures op.Push? ==> Top(r) == Some(op.rect) && Prev(r) == c
    ensures op.Pop? && c != [] ==> r == Prev(c)
    ensures op.Pop? && c == [] ==> r == []
  {
    match op
    case Push(rect) => c + [rect]
    case Pop => if c == [] then [] else c[..|c| - 1]
  }

  /** The chain after a sequence of operations, applied in order. */
  function Run(c: Chain, ops: seq<ClipOp>): Chain
  {
    if ops == [] then c else Apply(Run(c, ops[..|ops| - 1]), ops[|ops| - 1])
  }

  /** Pushes minus pops. */
  function Net(ops: seq<ClipOp>): int
  {
    if ops == [] then 0
    else Net(ops[..|ops| - 1]) + (if ops[|ops| - 1].Push? then 1 else -1)
  }

  /** No prefix of `ops` pops more frames than it pushed: `ops` never reaches
      below the chain it starts from. */
  predicate NeverBelow(ops: seq<ClipOp>) {
    forall n :: 0 <= n <= |ops| ==> Net(ops[..n]) >= 0
  }

  /** Balanced: as many pops as pushes, and never a pop below the start. */
  predicate Balanced(ops: seq<ClipOp>) {
    NeverBelow(ops) && Net(ops) == 0
  }

  /** Pushing a frame and popping it restores the chain. */
  lemma PushThenPop(c: Chain, rect: ClipRect)
    ensures Apply(Apply(c, Push(rect)), Pop) == c
  {
  }

  /** A sequence that never reaches below its start keeps the starting chain
      as a prefix and changes the depth by its net count. */
  lemma {:induction false} RunKeepsPrefix(c: Chain, ops: seq<ClipOp>)
    requires NeverBelow(ops)
    ensures |Run(c, ops)| == |c| + Net(ops)
    ensures c <= Run(c, ops)
  {
    if ops != [] {
      var init := ops[..|ops| - 1];
      assert NeverBelow(init) by {
        forall n | 0 <= n <= |init|
          ensures Net(init[..n]) >= 0
        {
          assert init[..n] == ops[..n];
        }
      }
      assert ops[..|ops|] == ops;
      RunKeepsPrefix(c, init);
      var before := Run(c, init);
      if ops[|ops| - 1].Pop? {
        assert |before| > |c|;
        assert before[..|before| - 1][..|c|] == before[..|c|];
      }
    }
  }

  /** A balanced sequence of pushes and pops restores the chain exactly:
      the same depth, the same current frame, the same frames below it. */
  lemma BalancedRestores(c: Chain, ops: seq<ClipOp>)
    requires Balanced(ops)
    ensures Run(c, ops) == c
  {
    RunKeepsPrefix(c, ops);
  }
}

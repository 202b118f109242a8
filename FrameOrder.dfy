/**
  The order in which one frame updates the particles: for each index i in
  turn, move particle i, then collide it with every later particle j in index
  order. The order is written out as a sequence of operations so that what the
  frame's nested loops visit, and when, can be stated and proved.
*/
module FrameOrder {

  /** One update step of a frame. */
  datatype Op = MoveOp(i: nat) | CollideOp(i: nat, j: nat)

  /** The operation is one a frame over n particles may perform. */
  predicate Fits(op: Op, n: nat)
  {
    match op
    case MoveOp(i) => i < n
    case CollideOp(i, j) => i < j < n
  }

  /** Every operation of `ops` fits n particles. */
  predicate AllFit(ops: seq<Op>, n: nat)
  {
    forall k :: 0 <= k < |ops| ==> Fits(ops[k], n)
  }

  /** The collisions of particle i with particles i+1 .. j-1, in index order:
      the inner loop after j - i - 1 iterations. */
  function Pairs(i: nat, j: nat): (r: seq<Op>)
    ensures |r| == if j <= i + 1 then 0 else j - i - 1
    ensures forall k :: 0 <= k < |r| ==> r[k] == CollideOp(i, i + 1 + k)
    decreases j
  {
    if j <= i + 1 then [] else Pairs(i, j - 1) + [CollideOp(i, j - 1)]
  }

  /** The inner loop's iteration j adds the collision of particles i and j.
      The successor j' is a parameter rather than `j + 1` written in the
      terms: that keeps the solver from having to equate the two. */
  lemma PairsUnfold(i: nat, j: nat, j': nat)
    requires i < j && j' == j + 1
    ensures Pairs(i, j') == Pairs(i, j) + [CollideOp(i, j)]
  {
  }

  /** One iteration of the outer loop: move particle i, then collide it with
      every later particle. */
  function Block(n: nat, i: nat): (r: seq<Op>)
    ensures |r| == if i < n then n - i else 1
    ensures r[0] == MoveOp(i)
    ensures forall k :: 1 <= k < |r| ==> r[k] == CollideOp(i, i + k)
  {
    [MoveOp(i)] + Pairs(i, n)
  }

  /** The first i iterations of the outer loop. */
  function Prefix(n: nat, i: nat): (r: seq<Op>)
    requires i <= n
    ensures AllFit(r, n)
    ensures forall k :: 0 <= k < |r| ==> r[k].i < i
    decreases i
  {
    if i == 0 then []
    else
      var r := Prefix(n, i - 1) + Block(n, i - 1);
      assert forall k :: |Prefix(n, i - 1)| <= k < |r| ==> r[k] == Block(n, i - 1)[k - |Prefix(n, i - 1)|];
      r
  }

  /** The outer loop's iteration i adds a move of particle i followed by its
      collisions with the later particles. */
  lemma PrefixUnfold(n: nat, i: nat)
    requires i < n
    ensures Prefix(n, i + 1) == Prefix(n, i) + [MoveOp(i)] + Pairs(i, n)
  {
  }

  /** The whole frame over n particles. */
  function Schedule(n: nat): (r: seq<Op>)
    ensures AllFit(r, n)
  {
    Prefix(n, n)
  }

  /** The loop-nest order: by outer index, then by position in the block
      (a move, at column i, comes before the collisions, at columns j > i). */
  function Column(op: Op): nat
  {
    match op
    case MoveOp(i) => i
    case CollideOp(_, j) => j
  }

  predicate Precedes(a: Op, b: Op)
  {
    a.i < b.i || (a.i == b.i && Column(a) < Column(b))
  }

  predicate Sorted(ops: seq<Op>)
  {
    forall a, b :: 0 <= a < b < |ops| ==> Precedes(ops[a], ops[b])
  }

  /** Each block is in loop-nest order and belongs to row i. */
  lemma BlockSorted(n: nat, i: nat)
    ensures Sorted(Block(n, i))
    ensures forall k :: 0 <= k < |Block(n, i)| ==> Block(n, i)[k].i == i
  {
    var b := Block(n, i);
    forall k | 1 <= k < |b| ensures b[k] == CollideOp(i, i + k) {
      assert b[k] == Pairs(i, n)[k - 1];
    }
  }

  /** The outer loop's iterations up to k, followed by iteration k (i is
      k's successor, passed in for the same reason as in PairsUnfold). */
  lemma PrefixDef(n: nat, k: nat, i: nat)
    requires i == k + 1 <= n
    ensures Prefix(n, i) == Prefix(n, k) + Block(n, k)
  {
    assert i - 1 == k;
  }

  /** Two runs in loop-nest order, every operation of the first preceding
      every operation of the second, make one run in loop-nest order. */
  lemma ConcatSorted(p: seq<Op>, b: seq<Op>)
    requires Sorted(p) && Sorted(b)
    requires forall x, y :: 0 <= x < |p| && 0 <= y < |b| ==> Precedes(p[x], b[y])
    ensures Sorted(p + b)
  {
    var r := p + b;
    forall x, y | 0 <= x < y < |r| ensures Precedes(r[x], r[y]) {
      if y < |p| {
        assert r[x] == p[x] && r[y] == p[y];
      } else if x < |p| {
        assert r[x] == p[x] && r[y] == b[y - |p|];
      } else {
        assert r[x] == b[x - |p|] && r[y] == b[y - |p|];
      }
    }
  }

  /** The first i iterations are in loop-nest order. */
  lemma {:induction false} PrefixSorted(n: nat, i: nat)
    requires i <= n
    ensures Sorted(Prefix(n, i))
  {
    if i > 0 {
      var k := i - 1;
      PrefixSorted(n, k);
      BlockSorted(n, k);
      PrefixDef(n, k, i);
      ConcatSorted(Prefix(n, k), Block(n, k));
    }
  }

  /** A frame performs its operations in loop-nest order: an operation comes
      before another exactly when it precedes it in that order. */
  lemma ScheduleSorted(n: nat)
    ensures Sorted(Schedule(n))
  {
    PrefixSorted(n, n);
  }

  /** The operations of iteration k are the move of particle k and its
      collisions with the later particles. */
  lemma BlockMembers(n: nat, k: nat, op: Op)
    requires k < n
    ensures op in Block(n, k) <==> Fits(op, n) && op.i == k
  {
    var b := Block(n, k);
    if Fits(op, n) && op.i == k {
      match op
      case MoveOp(_) =>
        assert b[0] == op;
      case CollideOp(_, j) =>
        assert b[j - k] == Pairs(k, n)[j - k - 1] == op;
    }
    if op in b {
      var x :| 0 <= x < |b| && b[x] == op;
      BlockSorted(n, k);
      if x > 0 { assert b[x] == Pairs(k, n)[x - 1]; }
    }
  }

  /** The operations of the first i iterations are those of rows below i. */
  lemma {:induction false} PrefixMembers(n: nat, i: nat, op: Op)
    requires i <= n
    ensures op in Prefix(n, i) <==> Fits(op, n) && op.i < i
  {
    if i > 0 {
      var k := i - 1;
      PrefixMembers(n, k, op);
      BlockMembers(n, k, op);
      PrefixDef(n, k, i);
    }
  }

  /** A frame over n particles moves every particle and collides every pair
      i < j, and performs nothing else. */
  lemma ScheduleMembers(n: nat, op: Op)
    ensures op in Schedule(n) <==> Fits(op, n)
  {
    PrefixMembers(n, n, op);
  }

  /** No operation is performed twice: together with ScheduleMembers, each
      particle is moved exactly once and each pair i < j collided exactly
      once. */
  lemma ScheduleNoRepeats(n: nat)
    ensures forall a, b ::
      0 <= a < |Schedule(n)| && 0 <= b < |Schedule(n)| && Schedule(n)[a] == Schedule(n)[b] ==> a == b
  {
    ScheduleSorted(n);
  }

  /** Particle i is moved before it is collided with any later particle j, and
      that collision happens before particle j is moved. Particles are moved
      in index order. */
  lemma ScheduleInterleaving(n: nat, i: nat, j: nat, a: nat, b: nat, c: nat)
    requires a < |Schedule(n)| && b < |Schedule(n)| && c < |Schedule(n)|
    requires Schedule(n)[a] == MoveOp(i)
    requires Schedule(n)[b] == CollideOp(i, j)
    requires Schedule(n)[c] == MoveOp(j)
    ensures a < b < c
  {
    ScheduleSorted(n);
  }

  /** Particles are moved in index order. */
  lemma ScheduleMovesInOrder(n: nat, i: nat, j: nat, a: nat, c: nat)
    requires a < |Schedule(n)| && c < |Schedule(n)|
    requires Schedule(n)[a] == MoveOp(i) && Schedule(n)[c] == MoveOp(j)
    ensures a < c <==> i < j
  {
    ScheduleSorted(n);
  }
}

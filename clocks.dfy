/**
 * Logical clocks shared by the four causal-delivery engines: vector clocks
 * (one counter per process) and matrix clocks (one vector per process), the
 * component-wise order on them, the merge and tick operations, and the two
 * deliverability tests.  Processes are the indices 0 .. N-1, standing for the
 * names "P1", "P2", "P3" in that order.
 */
module Clocks {

  /** Number of processes in the fixed membership. */
  const N: nat := 3

  /** A process identifier. */
  type Pid = i: nat | i < N

  /** A vector clock: entry k counts the events of process k known to the holder. */
  type Vec = v: seq<nat> | |v| == N witness seq(N, _ => 0)

  /** A matrix clock: row p is the holder's view of p's vector clock. */
  type Mat = m: seq<Vec> | |m| == N witness seq<Vec>(N, _ => ZeroVec())

  function Max(a: nat, b: nat): (r: nat)
    ensures r >= a && r >= b && (r == a || r == b)
  {
    if a >= b then a else b
  }

  // ---------------------------------------------------------------- vectors

  /** The all-zero vector clock a process starts with. */
  function ZeroVec(): (r: Vec)
    ensures forall k: Pid :: r[k] == 0
  {
    seq(N, _ => 0)
  }

  /** `a` is dominated by `b` entry by entry. */
  predicate VecLeq(a: Vec, b: Vec)
  {
    forall k: Pid :: a[k] <= b[k]
  }

  lemma VecLeqTrans(a: Vec, b: Vec, c: Vec)
    requires VecLeq(a, b) && VecLeq(b, c)
    ensures VecLeq(a, c)
  {
  }

  /** Component-wise maximum: the least vector dominating both arguments. */
  function MaxVec(a: Vec, b: Vec): (r: Vec)
    ensures VecLeq(a, r) && VecLeq(b, r)
    ensures forall c: Vec :: VecLeq(a, c) && VecLeq(b, c) ==> VecLeq(r, c)
  {
    seq(N, k requires 0 <= k < N => Max(a[k], b[k]))
  }

  /** Advance the counter of process `p` by one, leaving the others alone. */
  function Tick(v: Vec, p: Pid): (r: Vec)
    ensures VecLeq(v, r) && r[p] == v[p] + 1
    ensures forall k: Pid :: k != p ==> r[k] == v[k]
  {
    v[p := v[p] + 1]
  }

  /**
   * The causal-delivery test on vector clocks: a message from `sender` carrying
   * `tag` is deliverable at a process whose clock is `local` exactly when it is
   * the next event of its sender the process has not seen, and it depends on no
   * event of any other process the process has not seen.
   */
  predicate Deliverable(local: Vec, tag: Vec, sender: Pid)
    ensures Deliverable(local, tag, sender) ==> forall k: Pid :: MaxVec(local, tag)[k] == Tick(local, sender)[k]
  {
    && tag[sender] == local[sender] + 1
    && forall k: Pid :: k != sender ==> tag[k] <= local[k]
  }

  /** Once the holder's entry for the sender has reached the tag's, the message is never deliverable. */
  lemma SeenNotDeliverable(local: Vec, tag: Vec, sender: Pid)
    requires tag[sender] <= local[sender]
    ensures !Deliverable(local, tag, sender)
  {
  }

  // --------------------------------------------------------------- matrices

  /** The all-zero matrix clock every matrix-clock process starts with. */
  function InitialMatrix(): (r: Mat)
    ensures forall p: Pid, q: Pid :: r[p][q] == 0
  {
    seq<Vec>(N, _ => ZeroVec())
  }

  /** Two matrix clocks with the same entries are the same clock. */
  lemma MatExt(a: Mat, b: Mat)
    requires forall p: Pid, q: Pid :: a[p][q] == b[p][q]
    ensures a == b
  {
    assert forall p: Pid :: a[p] == b[p];
  }

  /** `a` is dominated by `b` entry by entry. */
  predicate MatLeq(a: Mat, b: Mat)
  {
    forall p: Pid, q: Pid :: a[p][q] <= b[p][q]
  }

  lemma MatLeqTrans(a: Mat, b: Mat, c: Mat)
    requires MatLeq(a, b) && MatLeq(b, c)
    ensures MatLeq(a, c)
  {
  }

  /** Entry-wise maximum of two matrix clocks: the least matrix dominating both. */
  function MaxMat(a: Mat, b: Mat): (r: Mat)
    ensures MatLeq(a, r) && MatLeq(b, r)
    ensures forall c: Mat :: MatLeq(a, c) && MatLeq(b, c) ==> MatLeq(r, c)
  {
    seq<Vec>(N, p requires 0 <= p < N => MaxVec(a[p], b[p]))
  }

  /** Advance the diagonal entry of process `p` by one, leaving every other entry alone. */
  function TickDiag(m: Mat, p: Pid): (r: Mat)
    ensures MatLeq(m, r) && r[p][p] == m[p][p] + 1
    ensures forall i: Pid, j: Pid :: (i, j) != (p, p) ==> r[i][j] == m[i][j]
  {
    m[p := m[p][p := m[p][p] + 1]]
  }

  /** The diagonal of a matrix clock: each process's own counter as last reported. */
  function Diag(m: Mat): (r: Vec)
    ensures forall k: Pid :: r[k] == m[k][k]
  {
    seq(N, k requires 0 <= k < N => m[k][k])
  }

  /**
   * The causal-delivery test on matrix clocks: only the diagonal entries take
   * part; the sender's must be the next one, every other must already be seen.
   */
  predicate MatDeliverable(local: Mat, snap: Mat, sender: Pid)
    ensures MatDeliverable(local, snap, sender) ==> forall k: Pid :: MaxMat(local, snap)[k][k] == Tick(Diag(local), sender)[k]
  {
    && snap[sender][sender] == local[sender][sender] + 1
    && forall k: Pid :: k != sender ==> snap[k][k] <= local[k][k]
  }

  /** The matrix test is the vector test applied to the two diagonals. */
  lemma MatDeliverableIsDiagonalTest(local: Mat, snap: Mat, sender: Pid)
    ensures MatDeliverable(local, snap, sender) <==> Deliverable(Diag(local), Diag(snap), sender)
  {
  }

  /** Off-diagonal entries never affect the matrix test. */
  lemma MatDeliverableIgnoresOffDiagonal(local: Mat, local': Mat, snap: Mat, snap': Mat, sender: Pid)
    requires Diag(local) == Diag(local') && Diag(snap) == Diag(snap')
    ensures MatDeliverable(local, snap, sender) == MatDeliverable(local', snap', sender)
  {
    MatDeliverableIsDiagonalTest(local, snap, sender);
    MatDeliverableIsDiagonalTest(local', snap', sender);
  }

  lemma MatSeenNotDeliverable(local: Mat, snap: Mat, sender: Pid)
    requires snap[sender][sender] <= local[sender][sender]
    ensures !MatDeliverable(local, snap, sender)
  {
  }
}

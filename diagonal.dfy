/**
 * How the matrix-clock engine of matrix_clock.py relates to the vector-clock
 * engine of SES.py.  The matrix deliverability test reads only diagonals, the
 * diagonal of the entry-wise merge is the vector merge of the diagonals, and
 * both engines tick the receiver's own entry after a delivery and the sender's
 * own entry on a send.  So the diagonal of a matrix process evolves exactly as
 * an SES vector clock fed the diagonals of the same snapshots, and the two
 * engines make the same delivery decisions, in the same order.
 */
module MatrixDiagonal {
  import opened Clocks
  import Ses
  import MatrixClock

  /** The vector message a matrix message stands for: its snapshot's diagonal as the tag. */
  function ProjectMessage(m: MatrixClock.Message): (r: Ses.Message)
    ensures r.id == m.id && r.sender == m.sender
    ensures forall k: Pid :: r.tag[k] == m.snap[k][k]
  {
    Ses.Message(m.id, m.sender, Diag(m.snap))
  }

  function ProjectMessages(ms: seq<MatrixClock.Message>): (r: seq<Ses.Message>)
    ensures |r| == |ms| && forall k :: 0 <= k < |ms| ==> r[k] == ProjectMessage(ms[k])
  {
    seq(|ms|, k requires 0 <= k < |ms| => ProjectMessage(ms[k]))
  }

  /** The vector state a matrix state stands for: same history, diagonal clock, projected buffer. */
  function Project(s: MatrixClock.PState): (r: Ses.PState)
    ensures r.delivered == s.delivered && |r.pending| == |s.pending|
    ensures forall k: Pid :: r.clock[k] == s.matrix[k][k]
  {
    Ses.PState(Diag(s.matrix), s.delivered, ProjectMessages(s.pending))
  }

  function ProjectOp(op: MatrixClock.Op): Ses.Op
  {
    match op
    case Send => Ses.Send
    case Receive(m) => Ses.Receive(ProjectMessage(m))
  }

  function ProjectOps(ops: seq<MatrixClock.Op>): (r: seq<Ses.Op>)
    ensures |r| == |ops| && forall k :: 0 <= k < |ops| ==> r[k] == ProjectOp(ops[k])
  {
    seq(|ops|, k requires 0 <= k < |ops| => ProjectOp(ops[k]))
  }

  // ------------------------------------------------------- single operations

  /** Both engines start from the same (all-zero) state. */
  lemma InitialProjects()
    ensures Project(MatrixClock.Initial()) == Ses.Initial()
  {
    assert Diag(InitialMatrix()) == ZeroVec();
  }

  /** The matrix test accepts a message exactly when the vector test accepts its projection. */
  lemma ReadyProjects(matrix: Mat, m: MatrixClock.Message)
    ensures MatrixClock.Ready(matrix, m) == Ses.Ready(Diag(matrix), ProjectMessage(m))
  {
    MatDeliverableIsDiagonalTest(matrix, m.snap, m.sender);
  }

  /** The diagonal of the matrix merge-and-tick is the vector merge-and-tick of the diagonals. */
  lemma MergeProjects(matrix: Mat, snap: Mat, self: Pid)
    ensures Diag(MatrixClock.MergeOnDeliver(matrix, snap, self)) == Ses.MergeOnDeliver(Diag(matrix), Diag(snap), self)
  {
    var l := Diag(MatrixClock.MergeOnDeliver(matrix, snap, self));
    var r := Ses.MergeOnDeliver(Diag(matrix), Diag(snap), self);
    assert forall k: Pid :: l[k] == r[k];
  }

  /** A send ticks the same diagonal entry the vector send ticks. */
  lemma SentProjects(s: MatrixClock.PState, self: Pid)
    ensures Project(MatrixClock.Sent(s, self)) == Ses.Sent(Project(s), self)
  {
    var l := Diag(TickDiag(s.matrix, self));
    var r := Tick(Diag(s.matrix), self);
    assert forall k: Pid :: l[k] == r[k];
  }

  lemma ApplyDeliveryProjects(s: MatrixClock.PState, self: Pid, m: MatrixClock.Message)
    ensures Project(MatrixClock.ApplyDelivery(s, self, m)) == Ses.ApplyDelivery(Project(s), self, ProjectMessage(m))
  {
    MergeProjects(s.matrix, m.snap, self);
  }

  /** Both scans stop at the same index. */
  lemma {:induction false} FirstReadyProjects(matrix: Mat, pending: seq<MatrixClock.Message>)
    ensures MatrixClock.FirstReady(matrix, pending) == Ses.FirstReady(Diag(matrix), ProjectMessages(pending))
    decreases |pending|
  {
    if |pending| > 0 {
      ReadyProjects(matrix, pending[0]);
      assert ProjectMessages(pending)[1..] == ProjectMessages(pending[1..]);
      FirstReadyProjects(matrix, pending[1..]);
    }
  }

  lemma CutProjects(ms: seq<MatrixClock.Message>, i: nat)
    requires i < |ms|
    ensures ProjectMessages(ms[..i] + ms[i + 1..]) == ProjectMessages(ms)[..i] + ProjectMessages(ms)[i + 1..]
  {
  }

  /** One pass of the matrix drain is one pass of the vector drain. */
  lemma DrainStepProjects(s: MatrixClock.PState, self: Pid, i: nat)
    requires i < |s.pending|
    ensures Project(MatrixClock.DrainStep(s, self, i)) == Ses.DrainStep(Project(s), self, i)
  {
    var cut := s.(pending := s.pending[..i] + s.pending[i + 1..]);
    CutProjects(s.pending, i);
    assert Project(cut) == Project(s).(pending := Project(s).pending[..i] + Project(s).pending[i + 1..]);
    ApplyDeliveryProjects(cut, self, s.pending[i]);
  }

  /** The two drains deliver the same messages in the same order and leave the same buffer. */
  lemma {:induction false} DrainedProjects(s: MatrixClock.PState, self: Pid)
    ensures Project(MatrixClock.Drained(s, self)) == Ses.Drained(Project(s), self)
    decreases |s.pending|
  {
    var i := MatrixClock.FirstReady(s.matrix, s.pending);
    FirstReadyProjects(s.matrix, s.pending);
    if i < |s.pending| {
      DrainStepProjects(s, self, i);
      DrainedProjects(MatrixClock.DrainStep(s, self, i), self);
    }
  }

  lemma ReceivedProjects(s: MatrixClock.PState, self: Pid, m: MatrixClock.Message)
    ensures Project(MatrixClock.Received(s, self, m)) == Ses.Received(Project(s), self, ProjectMessage(m))
  {
    ReadyProjects(s.matrix, m);
    if MatrixClock.Ready(s.matrix, m) {
      ApplyDeliveryProjects(s, self, m);
      DrainedProjects(MatrixClock.ApplyDelivery(s, self, m), self);
    } else {
      assert ProjectMessages(s.pending + [m]) == ProjectMessages(s.pending) + [ProjectMessage(m)];
    }
  }

  // ------------------------------------------------------------------- runs

  /**
   * Over any sequence of sends and receives, the projection of the matrix
   * process is the SES process fed the projected operations.
   */
  lemma {:induction false} RunProjects(s: MatrixClock.PState, self: Pid, ops: seq<MatrixClock.Op>)
    ensures Project(MatrixClock.Run(s, self, ops)) == Ses.Run(Project(s), self, ProjectOps(ops))
    decreases |ops|
  {
    if ops != [] {
      var s' := MatrixClock.Step(s, self, ops[0]);
      match ops[0] {
        case Send => SentProjects(s, self);
        case Receive(m) => ReceivedProjects(s, self, m);
      }
      assert ProjectOps(ops)[1..] == ProjectOps(ops[1..]);
      RunProjects(s', self, ops[1..]);
    }
  }

  /**
   * A matrix-clock process, from its initial state, delivers exactly the ids
   * an SES process delivers when fed the diagonals of the same snapshots, in
   * the same order, and its diagonal is that process's vector clock: the
   * off-diagonal entries never influence a delivery decision.
   */
  lemma SameDeliveriesAsSes(self: Pid, ops: seq<MatrixClock.Op>)
    ensures MatrixClock.Run(MatrixClock.Initial(), self, ops).delivered
         == Ses.Run(Ses.Initial(), self, ProjectOps(ops)).delivered
    ensures Diag(MatrixClock.Run(MatrixClock.Initial(), self, ops).matrix)
         == Ses.Run(Ses.Initial(), self, ProjectOps(ops)).clock
  {
    InitialProjects();
    RunProjects(MatrixClock.Initial(), self, ops);
  }
}

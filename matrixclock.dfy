/**
 * The causal-delivery engine of matrix_clock.py: every process holds an N x N
 * matrix clock.  The deliverability test reads only the diagonal entries; on
 * delivery the whole table takes the entry-wise maximum with the message's
 * snapshot and the receiver's own diagonal entry then ticks; a send ticks the
 * sender's own diagonal entry and snapshots a copy of the matrix.  After a send
 * the sender's buffer is NOT re-examined.
 *
 * Each imperative operation of a process is a method of `Process`, proved
 * against a pure function on `PState`; the properties are lemmas about those
 * functions.
 */
module MatrixClock {
  import opened Clocks
  import opened Engine

  /** A message: its id, its sender and the sender's matrix snapshot taken at send time. */
  datatype Message = Message(id: string, sender: Pid, snap: Mat)

  /** `m` passes the diagonal deliverability test at a process whose matrix is `matrix`. */
  predicate Ready(matrix: Mat, m: Message)
  {
    MatDeliverable(matrix, m.snap, m.sender)
  }

  /** No message of `pending` passes the test. */
  predicate NoneReady(matrix: Mat, pending: seq<Message>)
  {
    forall k :: 0 <= k < |pending| ==> !Ready(matrix, pending[k])
  }

  /** The ids of a list of messages, in order. */
  function Ids(ms: seq<Message>): (r: seq<string>)
    ensures |r| == |ms| && forall k :: 0 <= k < |ms| ==> r[k] == ms[k].id
  {
    seq(|ms|, k requires 0 <= k < |ms| => ms[k].id)
  }

  /**
   * is_deliverable, as the source runs it: the sender's diagonal entry first,
   * then the other diagonal entries in order, answering False at the first
   * that fails.
   */
  method IsDeliverable(matrix: Mat, m: Message) returns (ok: bool)
    ensures ok <==> Ready(matrix, m)
  {
    var sender := m.sender;
    if m.snap[sender][sender] != matrix[sender][sender] + 1 {
      return false;
    }
    for p := 0 to N
      invariant forall k: Pid :: k < p && k != sender ==> m.snap[k][k] <= matrix[k][k]
    {
      if p != sender && m.snap[p][p] > matrix[p][p] {
        return false;
      }
    }
    return true;
  }

  // ------------------------------------------------------------- the model

  /** The per-process state: matrix clock, delivered ids in order, pending buffer. */
  datatype PState = PState(matrix: Mat, delivered: seq<string>, pending: seq<Message>)

  /** A freshly created process: zero matrix, nothing delivered, nothing pending. */
  function Initial(): (s: PState)
    ensures (forall p: Pid, q: Pid :: s.matrix[p][q] == 0) && s.delivered == [] && s.pending == []
  {
    PState(InitialMatrix(), [], [])
  }

  /**
   * The matrix part of deliver_message: entry-wise maximum with the snapshot,
   * then the receiver's own diagonal entry ticks.  No entry decreases, the
   * result dominates the snapshot, and the receiver's own diagonal entry
   * strictly increases.
   */
  function MergeOnDeliver(matrix: Mat, snap: Mat, self: Pid): (r: Mat)
    ensures MatLeq(matrix, r) && MatLeq(snap, r)
    ensures r[self][self] > matrix[self][self] && r[self][self] > snap[self][self]
    ensures forall p: Pid, q: Pid :: (p, q) != (self, self) ==> r[p][q] == matrix[p][q] || r[p][q] == snap[p][q]
  {
    TickDiag(MaxMat(matrix, snap), self)
  }

  /** deliver_message at process `self`: record the id, merge the snapshot into the matrix. */
  function ApplyDelivery(s: PState, self: Pid, m: Message): (r: PState)
    ensures MatLeq(s.matrix, r.matrix) && MatLeq(m.snap, r.matrix) && r.matrix[self][self] > s.matrix[self][self]
    ensures r.delivered == s.delivered + [m.id] && r.pending == s.pending
  {
    PState(MergeOnDeliver(s.matrix, m.snap, self), s.delivered + [m.id], s.pending)
  }

  /**
   * The index of the earliest buffered message that is deliverable now, or
   * `|pending|` when there is none: the scan of one pass of the drain.
   */
  function FirstReady(matrix: Mat, pending: seq<Message>): (i: nat)
    ensures i <= |pending|
    ensures NoneReady(matrix, pending[..i])
    ensures i < |pending| ==> Ready(matrix, pending[i])
  {
    if |pending| == 0 then 0
    else if Ready(matrix, pending[0]) then 0
    else 1 + FirstReady(matrix, pending[1..])
  }

  /** One pass of the drain that found `pending[i]`: cut it out of the buffer and deliver it. */
  function DrainStep(s: PState, self: Pid, i: nat): PState
    requires i < |s.pending|
  {
    ApplyDelivery(s.(pending := s.pending[..i] + s.pending[i + 1..]), self, s.pending[i])
  }

  /**
   * try_deliver_pending at process `self`: deliver the earliest deliverable
   * buffered message, then scan again from the start, until a pass finds none.
   */
  function Drained(s: PState, self: Pid): (r: PState)
    ensures |r.pending| <= |s.pending|
    ensures |r.delivered| + |r.pending| == |s.delivered| + |s.pending|
    decreases |s.pending|
  {
    var i := FirstReady(s.matrix, s.pending);
    if i == |s.pending| then s else Drained(DrainStep(s, self, i), self)
  }

  /** The messages the drain delivers, in the order it delivers them. */
  ghost function DrainedMessages(s: PState, self: Pid): seq<Message>
    decreases |s.pending|
  {
    var i := FirstReady(s.matrix, s.pending);
    if i == |s.pending| then [] else [s.pending[i]] + DrainedMessages(DrainStep(s, self, i), self)
  }

  /** receive_message at process `self`: deliver and drain, or buffer. */
  function Received(s: PState, self: Pid, m: Message): (r: PState)
    ensures |r.delivered| + |r.pending| == |s.delivered| + |s.pending| + 1
    ensures Ready(s.matrix, m) <==> |r.delivered| > |s.delivered|
  {
    if Ready(s.matrix, m) then Drained(ApplyDelivery(s, self, m), self)
    else s.(pending := s.pending + [m])
  }

  /** The sender's side of a send step: its own diagonal entry ticks (no drain follows). */
  function Sent(s: PState, self: Pid): (r: PState)
    ensures r.matrix[self][self] == s.matrix[self][self] + 1
    ensures forall p: Pid, q: Pid :: (p, q) != (self, self) ==> r.matrix[p][q] == s.matrix[p][q]
    ensures r.delivered == s.delivered && r.pending == s.pending
  {
    s.(matrix := TickDiag(s.matrix, self))
  }

  // ------------------------------------------------------ drain properties

  /**
   * A scan that has passed over `pending[..j]` without finding a deliverable
   * message and finds `pending[j]` deliverable has found the earliest one,
   * and no earlier buffered message is equal to it.
   */
  lemma ScanStopsAtFirstReady(matrix: Mat, pending: seq<Message>, j: nat)
    requires j < |pending| && NoneReady(matrix, pending[..j]) && Ready(matrix, pending[j])
    ensures FirstReady(matrix, pending) == j
    ensures pending[j] !in pending[..j]
  {
    assert forall k :: 0 <= k < j ==> pending[..j][k] == pending[k];
    assert forall k :: 0 <= k < j ==> !Ready(matrix, pending[..j][k]);
  }

  /** The drain stops at a fixed point: nothing left in the buffer passes the diagonal test. */
  lemma {:induction false} DrainedIsFixedPoint(s: PState, self: Pid)
    ensures NoneReady(Drained(s, self).matrix, Drained(s, self).pending)
    decreases |s.pending|
  {
    var i := FirstReady(s.matrix, s.pending);
    if i == |s.pending| {
      assert s.pending[..i] == s.pending;
    } else {
      DrainedIsFixedPoint(DrainStep(s, self, i), self);
    }
  }

  /** The drain never lowers a matrix entry. */
  lemma {:induction false} DrainedMonotone(s: PState, self: Pid)
    ensures MatLeq(s.matrix, Drained(s, self).matrix)
    decreases |s.pending|
  {
    var i := FirstReady(s.matrix, s.pending);
    if i < |s.pending| {
      var s' := DrainStep(s, self, i);
      DrainedMonotone(s', self);
      MatLeqTrans(s.matrix, s'.matrix, Drained(s', self).matrix);
    }
  }

  /** Appending `m`'s id and then the ids of `ms` appends the ids of `[m] + ms`. */
  lemma HistoryCons(h: seq<string>, m: Message, ms: seq<Message>)
    ensures h + [m.id] + Ids(ms) == h + Ids([m] + ms)
  {
    IdsCons(m, ms);
  }

  lemma IdsCons(m: Message, ms: seq<Message>)
    ensures Ids([m] + ms) == [m.id] + Ids(ms)
  {
    assert forall k :: 1 <= k <= |ms| ==> ([m] + ms)[k] == ms[k - 1];
  }

  /**
   * The drain only moves ids into the history: it grows by exactly the ids of
   * the messages the drain delivered, in the order they were delivered.
   */
  lemma {:induction false} DrainedExtendsHistory(s: PState, self: Pid)
    ensures Drained(s, self).delivered == s.delivered + Ids(DrainedMessages(s, self))
    decreases |s.pending|
  {
    var i := FirstReady(s.matrix, s.pending);
    if i < |s.pending| {
      var m := s.pending[i];
      var s' := DrainStep(s, self, i);
      var moved := DrainedMessages(s', self);
      DrainedExtendsHistory(s', self);
      assert DrainedMessages(s, self) == [m] + moved;
      assert Drained(s, self).delivered == s.delivered + [m.id] + Ids(moved);
      HistoryCons(s.delivered, m, moved);
    } else {
      assert Ids([]) == [];
    }
  }

  /**
   * The drain only moves messages out of the buffer: every buffered copy
   * either stays buffered or is delivered, and no copy is counted twice.
   */
  lemma {:induction false} DrainedConserves(s: PState, self: Pid)
    ensures multiset(Drained(s, self).pending) + multiset(DrainedMessages(s, self)) == multiset(s.pending)
    decreases |s.pending|
  {
    var i := FirstReady(s.matrix, s.pending);
    if i < |s.pending| {
      var m := s.pending[i];
      var s' := DrainStep(s, self, i);
      var moved := DrainedMessages(s', self);
      var r := Drained(s', self);
      DrainedConserves(s', self);
      assert DrainedMessages(s, self) == [m] + moved;
      assert Drained(s, self) == r;
      assert multiset([m] + moved) == multiset{m} + multiset(moved);
      MultisetWithout(s.pending, i);
      assert multiset(s'.pending) + multiset{m} == multiset(s.pending);
    }
  }

  // ---------------------------------------------------- runs of one process

  /** One thing that can happen at a process: it sends, or it receives a message. */
  datatype Op = Send | Receive(m: Message)

  function Step(s: PState, self: Pid, op: Op): PState
  {
    match op
    case Send => Sent(s, self)
    case Receive(m) => Received(s, self, m)
  }

  /** The state of process `self` after the operations `ops`, in order. */
  function Run(s: PState, self: Pid, ops: seq<Op>): PState
    decreases |ops|
  {
    if ops == [] then s else Run(Step(s, self, ops[0]), self, ops[1..])
  }

  /** One step never lowers a matrix entry and only appends to the history. */
  lemma StepMonotone(s: PState, self: Pid, op: Op)
    ensures MatLeq(s.matrix, Step(s, self, op).matrix)
    ensures s.delivered <= Step(s, self, op).delivered
  {
    if op.Receive? && Ready(s.matrix, op.m) {
      var s' := ApplyDelivery(s, self, op.m);
      DrainedMonotone(s', self);
      DrainedExtendsHistory(s', self);
      MatLeqTrans(s.matrix, s'.matrix, Drained(s', self).matrix);
    }
  }

  /**
   * Over any sequence of sends and receives, no matrix entry ever decreases
   * and the delivered history is only ever appended to.
   */
  lemma {:induction false} RunMonotone(s: PState, self: Pid, ops: seq<Op>)
    ensures MatLeq(s.matrix, Run(s, self, ops).matrix)
    ensures s.delivered <= Run(s, self, ops).delivered
    decreases |ops|
  {
    if ops != [] {
      var s' := Step(s, self, ops[0]);
      StepMonotone(s, self, ops[0]);
      RunMonotone(s', self, ops[1..]);
      MatLeqTrans(s.matrix, s'.matrix, Run(s', self, ops[1..]).matrix);
    }
  }

  // --------------------------------------------------- at-most-once delivery

  /**
   * `m` has been seen at `s`: the diagonal entry for its sender has reached the snapshot's.
   * Delivering `m` makes it seen, and from then on it fails the diagonal test.
   */
  predicate Seen(s: PState, m: Message)
  {
    s.matrix[m.sender][m.sender] >= m.snap[m.sender][m.sender]
  }

  /** The messages one step delivers, in the order it delivers them. */
  ghost function StepMessages(s: PState, self: Pid, op: Op): seq<Message>
  {
    match op
    case Send => []
    case Receive(m) => if Ready(s.matrix, m) then [m] + DrainedMessages(ApplyDelivery(s, self, m), self) else []
  }

  /** A drain never delivers a message the process has seen, and leaves it seen. */
  lemma {:induction false} SeenNotDrained(s: PState, self: Pid, m: Message)
    requires Seen(s, m)
    ensures m !in DrainedMessages(s, self) && Seen(Drained(s, self), m)
    decreases |s.pending|
  {
    var i := FirstReady(s.matrix, s.pending);
    if i < |s.pending| {
      MatSeenNotDeliverable(s.matrix, m.snap, m.sender);
      SeenNotDrained(DrainStep(s, self, i), self, m);
    }
  }

  /**
   * The drain delivers no message twice, even when the buffer holds several
   * copies of it: a copy met after the first was delivered stays buffered.
   */
  lemma {:induction false} DrainedDeliversOnce(s: PState, self: Pid)
    ensures var d := DrainedMessages(s, self);
            forall i, j :: 0 <= i < j < |d| ==> d[i] != d[j]
    decreases |s.pending|
  {
    var i := FirstReady(s.matrix, s.pending);
    if i < |s.pending| {
      var p := s.pending[i];
      var s' := DrainStep(s, self, i);
      SeenNotDrained(s', self, p);
      DrainedDeliversOnce(s', self);
      assert DrainedMessages(s, self) == [p] + DrainedMessages(s', self);
    }
  }

  /** No step delivers a message the process has seen, and every step leaves it seen. */
  lemma SeenStep(s: PState, self: Pid, op: Op, m: Message)
    requires Seen(s, m)
    ensures m !in StepMessages(s, self, op) && Seen(Step(s, self, op), m)
  {
    match op
    case Send =>
    case Receive(m') =>
      if Ready(s.matrix, m') {
        MatSeenNotDeliverable(s.matrix, m.snap, m.sender);
        SeenNotDrained(ApplyDelivery(s, self, m'), self, m);
      }
  }

  /** Whatever the process does, a message it has seen stays seen. */
  lemma {:induction false} SeenRun(s: PState, self: Pid, ops: seq<Op>, m: Message)
    requires Seen(s, m)
    ensures Seen(Run(s, self, ops), m)
    decreases |ops|
  {
    if ops != [] {
      SeenStep(s, self, ops[0], m);
      SeenRun(Step(s, self, ops[0]), self, ops[1..], m);
    }
  }

  /**
   * At-most-once delivery: a receive that delivers `m` delivers it once, a
   * buffered copy of `m` staying in the buffer through the drain that follows;
   * and afterwards, whatever the process does, no step delivers `m` again and
   * receiving it again only buffers it.
   */
  lemma DeliveredAtMostOnce(s: PState, self: Pid, m: Message, ops: seq<Op>)
    requires Ready(s.matrix, m)
    ensures StepMessages(s, self, Receive(m))[0] == m && m !in StepMessages(s, self, Receive(m))[1..]
    ensures var t := Run(Received(s, self, m), self, ops);
            (forall op :: m !in StepMessages(t, self, op)) && Received(t, self, m) == t.(pending := t.pending + [m])
  {
    var s' := ApplyDelivery(s, self, m);
    SeenNotDrained(s', self, m);
    assert StepMessages(s, self, Receive(m))[1..] == DrainedMessages(s', self);
    var t := Run(Received(s, self, m), self, ops);
    SeenRun(Received(s, self, m), self, ops, m);
    forall op
      ensures m !in StepMessages(t, self, op)
    {
      SeenStep(t, self, op, m);
    }
    MatSeenNotDeliverable(t.matrix, m.snap, m.sender);
  }

  /** A message the drain delivers is seen once the drain is over. */
  lemma {:induction false} DrainedSeen(s: PState, self: Pid, m: Message)
    requires m in DrainedMessages(s, self)
    ensures Seen(Drained(s, self), m)
    decreases |s.pending|
  {
    var i := FirstReady(s.matrix, s.pending);
    var s' := DrainStep(s, self, i);
    assert DrainedMessages(s, self) == [s.pending[i]] + DrainedMessages(s', self);
    if s.pending[i] == m {
      SeenNotDrained(s', self, m);
    } else {
      DrainedSeen(s', self, m);
    }
  }

  /** A message any step delivers, on receipt or from the buffer, is seen after that step. */
  lemma StepSeen(s: PState, self: Pid, op: Op, m: Message)
    requires m in StepMessages(s, self, op)
    ensures Seen(Step(s, self, op), m)
  {
    match op
    case Send =>
    case Receive(m') =>
      var s' := ApplyDelivery(s, self, m');
      if m == m' {
        SeenNotDrained(s', self, m);
      } else {
        DrainedSeen(s', self, m);
      }
  }

  /** One step delivers no message twice: neither the received message nor any buffered copy. */
  lemma StepDeliversOnce(s: PState, self: Pid, op: Op)
    ensures var d := StepMessages(s, self, op);
            forall i, j :: 0 <= i < j < |d| ==> d[i] != d[j]
  {
    match op
    case Send =>
    case Receive(m) =>
      if Ready(s.matrix, m) {
        var s' := ApplyDelivery(s, self, m);
        SeenNotDrained(s', self, m);
        DrainedDeliversOnce(s', self);
        assert StepMessages(s, self, op) == [m] + DrainedMessages(s', self);
      }
  }

  /**
   * At-most-once delivery for every delivery path: once a step has delivered
   * `m` (on receipt or by a drain), whatever the process does afterwards, no
   * step delivers `m` again and receiving it again only buffers it.
   */
  lemma DeliveredNeverAgain(s: PState, self: Pid, op: Op, m: Message, ops: seq<Op>)
    requires m in StepMessages(s, self, op)
    ensures var t := Run(Step(s, self, op), self, ops);
            (forall op' :: m !in StepMessages(t, self, op')) && Received(t, self, m) == t.(pending := t.pending + [m])
  {
    StepSeen(s, self, op, m);
    SeenRun(Step(s, self, op), self, ops, m);
    var t := Run(Step(s, self, op), self, ops);
    forall op'
      ensures m !in StepMessages(t, self, op')
    {
      SeenStep(t, self, op', m);
    }
    MatSeenNotDeliverable(t.matrix, m.snap, m.sender);
  }

  /**
   * A receive only moves messages between the two lists: the old buffer plus
   * the received message is exactly the new buffer plus what the receive
   * delivered, and the history grows by exactly the delivered ids, in order.
   */
  lemma ReceivedConserves(s: PState, self: Pid, m: Message)
    ensures multiset(Received(s, self, m).pending) + multiset(StepMessages(s, self, Receive(m)))
         == multiset(s.pending) + multiset{m}
    ensures Received(s, self, m).delivered == s.delivered + Ids(StepMessages(s, self, Receive(m)))
  {
    if Ready(s.matrix, m) {
      var s' := ApplyDelivery(s, self, m);
      var moved := DrainedMessages(s', self);
      assert Received(s, self, m) == Drained(s', self);
      assert StepMessages(s, self, Receive(m)) == [m] + moved;
      DrainedConserves(s', self);
      DrainedExtendsHistory(s', self);
      HistoryCons(s.delivered, m, moved);
      assert multiset([m] + moved) == multiset{m} + multiset(moved);
    } else {
      assert Received(s, self, m).pending == s.pending + [m];
      assert StepMessages(s, self, Receive(m)) == [];
      assert Ids([]) == [];
    }
  }

  // ------------------------------------------------------------- processes

  /** A process of matrix_clock.py, without its drawing state. */
  class Process {
    const name: Pid
    var matrix: Mat
    var delivered: seq<string>
    var pending: seq<Message>

    function State(): PState
      reads this
    {
      PState(matrix, delivered, pending)
    }

    /** Process.__init__: the initial_matrix table, empty history, empty buffer. */
    constructor (name: Pid)
      ensures this.name == name && State() == Initial()
    {
      this.name := name;
      matrix := InitialMatrix();
      delivered := [];
      pending := [];
    }

    /**
     * deliver_message: append the id, merge entry by entry (row by row, each
     * row column by column), then tick the own diagonal entry.
     */
    method DeliverMessage(m: Message)
      modifies this
      ensures State() == ApplyDelivery(old(State()), name, m)
    {
      delivered := delivered + [m.id];
      for p := 0 to N
        invariant forall i: Pid :: i < p ==> matrix[i] == MaxVec(old(matrix)[i], m.snap[i])
        invariant forall i: Pid :: p <= i ==> matrix[i] == old(matrix)[i]
        invariant delivered == old(delivered) + [m.id] && pending == old(pending)
      {
        for q := 0 to N
          invariant forall j: Pid :: j < q ==> matrix[p][j] == Max(old(matrix)[p][j], m.snap[p][j])
          invariant forall j: Pid :: q <= j ==> matrix[p][j] == old(matrix)[p][j]
          invariant forall i: Pid :: i < p ==> matrix[i] == MaxVec(old(matrix)[i], m.snap[i])
          invariant forall i: Pid :: p < i ==> matrix[i] == old(matrix)[i]
          invariant delivered == old(delivered) + [m.id] && pending == old(pending)
        {
          matrix := matrix[p := matrix[p][q := Max(matrix[p][q], m.snap[p][q])]];
        }
        assert matrix[p] == MaxVec(old(matrix)[p], m.snap[p]);
      }
      assert matrix == MaxMat(old(matrix), m.snap);
      matrix := matrix[name := matrix[name][name := matrix[name][name] + 1]];
    }

    /**
     * One pass of try_deliver_pending: walk a copy of the buffer in order and
     * stop at the first message is_deliverable accepts (`|pending|` if none).
     */
    method ScanPending() returns (j: nat)
      ensures j == FirstReady(matrix, pending)
    {
      var snapshot := pending;
      j := 0;
      while j < |snapshot|
        invariant j <= |snapshot|
        invariant NoneReady(matrix, snapshot[..j])
      {
        var ok := IsDeliverable(matrix, snapshot[j]);
        if ok {
          ScanStopsAtFirstReady(matrix, snapshot, j);
          return;
        }
        j := j + 1;
      }
      assert snapshot[..j] == snapshot;
    }

    /**
     * try_deliver_pending: repeat passes over the buffer; each pass delivers
     * the first deliverable message it meets (removing it from the buffer) and
     * starts over, and the loop ends after a pass that delivers nothing.
     */
    method TryDeliverPending()
      modifies this
      ensures State() == Drained(old(State()), name)
    {
      var deliveredNow := true;
      while deliveredNow
        invariant Drained(State(), name) == Drained(old(State()), name)
        invariant !deliveredNow ==> FirstReady(matrix, pending) == |pending|
        decreases |pending| + (if deliveredNow then 1 else 0)
      {
        deliveredNow := false;
        ghost var start := State();
        var j := ScanPending();
        if j < |pending| {
          var m := pending[j];
          ScanStopsAtFirstReady(matrix, pending, j);
          RemoveFirstAt(pending, m, j);
          pending := RemoveFirst(pending, m);
          DeliverMessage(m);
          assert State() == DrainStep(start, name, j);
          deliveredNow := true;
        }
      }
    }

    /** receive_message: deliver and drain when deliverable, otherwise buffer. */
    method ReceiveMessage(m: Message) returns (status: Status)
      modifies this
      ensures State() == Received(old(State()), name, m)
      ensures Ready(old(matrix), m) ==> status == Delivered
      ensures !Ready(old(matrix), m) ==>
                status == Buffered && matrix == old(matrix) && delivered == old(delivered) && pending == old(pending) + [m]
    {
      var ok := IsDeliverable(matrix, m);
      if ok {
        DeliverMessage(m);
        TryDeliverPending();
        status := Delivered;
      } else {
        pending := pending + [m];
        status := Buffered;
      }
    }
  }

  /** The process table comprehension: one fresh process per name, in order. */
  method NewProcesses() returns (procs: seq<Process>)
    ensures |procs| == N
    ensures forall i :: 0 <= i < N ==> fresh(procs[i]) && procs[i].name == i && procs[i].State() == Initial()
  {
    procs := [];
    for i := 0 to N
      invariant |procs| == i
      invariant forall k :: 0 <= k < i ==> fresh(procs[k]) && procs[k].name == k && procs[k].State() == Initial()
    {
      var p := new Process(i);
      procs := procs + [p];
    }
  }

  /** The engine part of Simulation: the process table and the sent messages by id. */
  class Simulation {
    var procs: seq<Process>
    var messages: map<string, Message>

    ghost predicate Valid()
      reads this
    {
      |procs| == N && forall i :: 0 <= i < N ==> procs[i].name == i
    }

    constructor ()
      ensures Valid() && messages == map[]
      ensures forall p: Pid :: fresh(procs[p]) && procs[p].State() == Initial()
    {
      var ps := NewProcesses();
      procs := ps;
      messages := map[];
    }

    /**
     * The send branch of next_step: the sender's own diagonal entry ticks, the
     * message carries a copy of the new matrix and is stored under its id.
     */
    method StepSend(p: Pid, id: string) returns (m: Message)
      requires Valid()
      modifies this, procs[p]
      ensures Valid() && procs == old(procs)
      ensures m == Message(id, p, TickDiag(old(procs[p].matrix), p)) && m.snap == procs[p].matrix
      ensures procs[p].State() == Sent(old(procs[p].State()), p)
      ensures messages == old(messages)[id := m]
      ensures forall q: Pid :: q != p ==> procs[q].State() == old(procs[q].State())
    {
      var proc := procs[p];
      proc.matrix := proc.matrix[p := proc.matrix[p][p := proc.matrix[p][p] + 1]];
      m := Message(id, p, proc.matrix);
      messages := messages[id := m];
    }

    /**
     * The receive branch of next_step: an unknown id is an error that changes
     * nothing; otherwise the receiving process runs receive_message.
     */
    method StepReceive(p: Pid, id: string) returns (status: Status)
      requires Valid()
      modifies procs[p]
      ensures Valid()
      ensures id !in messages ==> status == UnknownMessage && procs[p].State() == old(procs[p].State())
      ensures id in messages ==> procs[p].State() == Received(old(procs[p].State()), p, messages[id])
      ensures id in messages ==> status == (if Ready(old(procs[p].matrix), messages[id]) then Delivered else Buffered)
      ensures forall q: Pid :: q != p ==> procs[q].State() == old(procs[q].State())
    {
      if id in messages {
        status := procs[p].ReceiveMessage(messages[id]);
      } else {
        status := UnknownMessage;
      }
    }

    /** reset_simulation: fresh processes and an empty message table. */
    method Reset()
      modifies this
      ensures Valid() && messages == map[]
      ensures forall p: Pid :: fresh(procs[p]) && procs[p].State() == Initial()
    {
      var ps := NewProcesses();
      procs := ps;
      messages := map[];
    }
  }
}

module MatrixClockScenario {
  import opened Clocks
  import opened Engine
  import opened MatrixClock

  /** The snapshots of P1's two sends: its row reads [1,0,0], then [2,0,0]. */
  function Snap(k: nat): Mat
  {
    [[k, 0, 0], [0, 0, 0], [0, 0, 0]]
  }

  /** P1's two sends: the snapshots are Snap(1) and Snap(2) and nothing else changes. */
  lemma P1SendsTwice()
    ensures Sent(Initial(), 0) == PState(Snap(1), [], [])
    ensures Sent(PState(Snap(1), [], []), 0) == PState(Snap(2), [], [])
  {
    MatExt(InitialMatrix(), Snap(0));
    MatExt(TickDiag(Snap(0), 0), Snap(1));
    MatExt(TickDiag(Snap(1), 0), Snap(2));
  }

  /** At P2 (index 1) m1 arrives first: its diagonal entry 2 is not the next one, so it is buffered. */
  lemma M1BufferedAtP2(m1: Message)
    requires m1 == Message("m1", 0, Snap(2))
    ensures Received(Initial(), 1, m1) == PState(Snap(0), [], [m1])
  {
    MatExt(InitialMatrix(), Snap(0));
  }

  /**
   * m0 arrives next at P2 and is delivered (rows [1,0,0], [0,1,0], [0,0,0]);
   * the drain then delivers the buffered m1 (rows [2,0,0], [0,2,0], [0,0,0]).
   */
  lemma M0ReleasesM1AtP2(m0: Message, m1: Message)
    requires m0 == Message("m0", 0, Snap(1)) && m1 == Message("m1", 0, Snap(2))
    ensures ApplyDelivery(PState(Snap(0), [], [m1]), 1, m0) == PState([[1, 0, 0], [0, 1, 0], [0, 0, 0]], ["m0"], [m1])
    ensures Received(PState(Snap(0), [], [m1]), 1, m0) == PState([[2, 0, 0], [0, 2, 0], [0, 0, 0]], ["m0", "m1"], [])
  {
    var afterM0 := PState([[1, 0, 0], [0, 1, 0], [0, 0, 0]], ["m0"], [m1]);
    MatExt(MaxMat(Snap(0), Snap(1)), Snap(1));
    MatExt(TickDiag(Snap(1), 1), [[1, 0, 0], [0, 1, 0], [0, 0, 0]]);
    assert ApplyDelivery(PState(Snap(0), [], [m1]), 1, m0) == afterM0;
    assert Ready(Snap(0), m0);
    assert Received(PState(Snap(0), [], [m1]), 1, m0) == Drained(afterM0, 1);
    DrainReleasesM1(afterM0, m1);
  }

  lemma DrainReleasesM1(s: PState, m1: Message)
    requires m1 == Message("m1", 0, Snap(2)) && s == PState([[1, 0, 0], [0, 1, 0], [0, 0, 0]], ["m0"], [m1])
    ensures Drained(s, 1) == PState([[2, 0, 0], [0, 2, 0], [0, 0, 0]], ["m0", "m1"], [])
  {
    assert FirstReady(s.matrix, s.pending) == 0;
    MatExt(MaxMat(s.matrix, Snap(2)), [[2, 0, 0], [0, 1, 0], [0, 0, 0]]);
    MatExt(TickDiag([[2, 0, 0], [0, 1, 0], [0, 0, 0]], 1), [[2, 0, 0], [0, 2, 0], [0, 0, 0]]);
    assert s.pending[..0] + s.pending[1..] == [];
    var done := PState([[2, 0, 0], [0, 2, 0], [0, 0, 0]], ["m0", "m1"], []);
    assert DrainStep(s, 1, 0) == done;
    assert Drained(done, 1) == done;
  }

  /**
   * The scripted opening of matrix_clock.py driven through the simulation:
   * P1 sends m0 and m1; P2 receives m1 (buffered), then m0 (delivered, and
   * m1 with it).  The snapshot of m0 keeps P1's row at [1,0,0] although P1's
   * matrix moved on.
   */
  method OutOfOrderDelivery()
    returns (snap0: Mat, snap1: Mat, first: Status, second: Status, matrix: Mat, delivered: seq<string>, pending: seq<Message>)
    ensures snap0 == Snap(1) && snap1 == Snap(2)
    ensures first == Buffered && second == Delivered
    ensures matrix == [[2, 0, 0], [0, 2, 0], [0, 0, 0]] && delivered == ["m0", "m1"] && pending == []
  {
    var sim := new Simulation();
    P1SendsTwice();
    var m0 := sim.StepSend(0, "m0");
    var m1 := sim.StepSend(0, "m1");
    assert m0 == Message("m0", 0, Snap(1)) && m1 == Message("m1", 0, Snap(2));
    assert sim.procs[1].State() == Initial();
    assert sim.messages["m0"] == m0 && sim.messages["m1"] == m1;
    M1BufferedAtP2(m1);
    M0ReleasesM1AtP2(m0, m1);
    first := sim.StepReceive(1, "m1");
    assert sim.procs[1].State() == PState(Snap(0), [], [m1]);
    second := sim.StepReceive(1, "m0");
    snap0, snap1 := sim.messages["m0"].snap, sim.messages["m1"].snap;
    matrix, delivered, pending := sim.procs[1].matrix, sim.procs[1].delivered, sim.procs[1].pending;
  }
}

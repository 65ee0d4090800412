/**
 * The causal-delivery engine of SES.py: vector clocks with the full-merge
 * policy.  On delivery every entry of the receiver's clock takes the maximum
 * with the message's tag and the receiver's own entry then ticks; a send ticks
 * the sender's own entry and tags the message with a copy of the clock.  After
 * a send the sender's buffer is NOT re-examined.
 *
 * Each imperative operation of a process is a method of `Process`, proved
 * against a pure function on `PState` (the triple clock / delivered / pending);
 * the properties of the engine are lemmas about those functions.
 */
module Ses {
  import opened Clocks
  import opened Engine

  /** A message: its id, its sender and the sender's clock snapshot taken at send time. */
  datatype Message = Message(id: string, sender: Pid, tag: Vec)

  /** `m` passes the vector deliverability test at a process whose clock is `clock`. */
  predicate Ready(clock: Vec, m: Message)
  {
    Deliverable(clock, m.tag, m.sender)
  }

  /** No message of `pending` passes the test. */
  predicate NoneReady(clock: Vec, pending: seq<Message>)
  {
    forall k :: 0 <= k < |pending| ==> !Ready(clock, pending[k])
  }

  /** The ids of a list of messages, in order. */
  function Ids(ms: seq<Message>): (r: seq<string>)
    ensures |r| == |ms| && forall k :: 0 <= k < |ms| ==> r[k] == ms[k].id
  {
    seq(|ms|, k requires 0 <= k < |ms| => ms[k].id)
  }

  /**
   * is_deliverable, as the source runs it: walk the processes in order and
   * answer False at the first entry that fails.
   */
  method IsDeliverable(clock: Vec, m: Message) returns (ok: bool)
    ensures ok <==> Ready(clock, m)
  {
    for p := 0 to N
      invariant forall k: Pid :: k < p && k == m.sender ==> m.tag[k] == clock[k] + 1
      invariant forall k: Pid :: k < p && k != m.sender ==> m.tag[k] <= clock[k]
    {
      if p == m.sender {
        if m.tag[p] != clock[p] + 1 {
          return false;
        }
      } else {
        if m.tag[p] > clock[p] {
          return false;
        }
      }
    }
    return true;
  }

  // ------------------------------------------------------------- the model

  /** The per-process state: vector clock, delivered ids in order, pending buffer. */
  datatype PState = PState(clock: Vec, delivered: seq<string>, pending: seq<Message>)

  /** A freshly created process: zero clock, nothing delivered, nothing pending. */
  function Initial(): (s: PState)
    ensures (forall k: Pid :: s.clock[k] == 0) && s.delivered == [] && s.pending == []
  {
    PState(ZeroVec(), [], [])
  }

  /**
   * The clock part of deliver_message: entry-wise maximum with the tag, then
   * the receiver's own entry ticks.  No entry decreases, the result dominates
   * the tag, and the receiver's own entry strictly increases.
   */
  function MergeOnDeliver(clock: Vec, tag: Vec, self: Pid): (r: Vec)
    ensures VecLeq(clock, r) && VecLeq(tag, r)
    ensures r[self] > clock[self] && r[self] > tag[self]
    ensures forall k: Pid :: k != self ==> r[k] == clock[k] || r[k] == tag[k]
  {
    Tick(MaxVec(clock, tag), self)
  }

  /** deliver_message at process `self`: record the id, merge the tag into the clock. */
  function ApplyDelivery(s: PState, self: Pid, m: Message): (r: PState)
    ensures VecLeq(s.clock, r.clock) && VecLeq(m.tag, r.clock) && r.clock[self] > s.clock[self]
    ensures r.delivered == s.delivered + [m.id] && r.pending == s.pending
  {
    PState(MergeOnDeliver(s.clock, m.tag, self), s.delivered + [m.id], s.pending)
  }

  /**
   * The index of the earliest buffered message that is deliverable now, or
   * `|pending|` when there is none: the scan of one pass of the drain.
   */
  function FirstReady(clock: Vec, pending: seq<Message>): (i: nat)
    ensures i <= |pending|
    ensures NoneReady(clock, pending[..i])
    ensures i < |pending| ==> Ready(clock, pending[i])
  {
    if |pending| == 0 then 0
    else if Ready(clock, pending[0]) then 0
    else 1 + FirstReady(clock, pending[1..])
  }

  /** One pass of the drain that found `pending[i]`: cut it out of the buffer and deliver it. */
  function DrainStep(s: PState, self: Pid, i: nat): PState
    requires i < |s.pending|
  {
    ApplyDelivery(s.(pending := s.pending[..i] + s.pending[i + 1..]), self, s.pending[i])
  }

  /**
   * try_deliver_pending at process `self`: deliver the earliest deliverable
   * buffered message, then scan again from the start, until a pass finds none.
   */
  function Drained(s: PState, self: Pid): (r: PState)
    ensures |r.pending| <= |s.pending|
    ensures |r.delivered| + |r.pending| == |s.delivered| + |s.pending|
    decreases |s.pending|
  {
    var i := FirstReady(s.clock, s.pending);
    if i == |s.pending| then s else Drained(DrainStep(s, self, i), self)
  }

  /** The messages the drain delivers, in the order it delivers them. */
  ghost function DrainedMessages(s: PState, self: Pid): seq<Message>
    decreases |s.pending|
  {
    var i := FirstReady(s.clock, s.pending);
    if i == |s.pending| then [] else [s.pending[i]] + DrainedMessages(DrainStep(s, self, i), self)
  }

  /** receive_message at process `self`: deliver and drain, or buffer. */
  function Received(s: PState, self: Pid, m: Message): (r: PState)
    ensures |r.delivered| + |r.pending| == |s.delivered| + |s.pending| + 1
    ensures Ready(s.clock, m) <==> |r.delivered| > |s.delivered|
  {
    if Ready(s.clock, m) then Drained(ApplyDelivery(s, self, m), self)
    else s.(pending := s.pending + [m])
  }

  /** The sender's side of a send step: its own entry ticks (no drain follows in SES.py). */
  function Sent(s: PState, self: Pid): (r: PState)
    ensures r.clock[self] == s.clock[self] + 1 && forall k: Pid :: k != self ==> r.clock[k] == s.clock[k]
    ensures r.delivered == s.delivered && r.pending == s.pending
  {
    s.(clock := Tick(s.clock, self))
  }

  // ------------------------------------------------------ drain properties

  /**
   * A scan that has passed over `pending[..j]` without finding a deliverable
   * message and finds `pending[j]` deliverable has found the earliest one,
   * and no earlier buffered message is equal to it.
   */
  lemma ScanStopsAtFirstReady(clock: Vec, pending: seq<Message>, j: nat)
    requires j < |pending| && NoneReady(clock, pending[..j]) && Ready(clock, pending[j])
    ensures FirstReady(clock, pending) == j
    ensures pending[j] !in pending[..j]
  {
    assert forall k :: 0 <= k < j ==> pending[..j][k] == pending[k];
    assert forall k :: 0 <= k < j ==> !Ready(clock, pending[..j][k]);
  }

  /** The drain stops at a fixed point: nothing left in the buffer is deliverable. */
  lemma {:induction false} DrainedIsFixedPoint(s: PState, self: Pid)
    ensures NoneReady(Drained(s, self).clock, Drained(s, self).pending)
    decreases |s.pending|
  {
    var i := FirstReady(s.clock, s.pending);
    if i == |s.pending| {
      assert s.pending[..i] == s.pending;
    } else {
      DrainedIsFixedPoint(DrainStep(s, self, i), self);
    }
  }

  /** The drain never lowers a clock entry. */
  lemma {:induction false} DrainedMonotone(s: PState, self: Pid)
    ensures VecLeq(s.clock, Drained(s, self).clock)
    decreases |s.pending|
  {
    var i := FirstReady(s.clock, s.pending);
    if i < |s.pending| {
      var s' := DrainStep(s, self, i);
      DrainedMonotone(s', self);
      VecLeqTrans(s.clock, s'.clock, Drained(s', self).clock);
    }
  }

  /**
   * The drain only moves ids into the history: it grows by exactly the ids of
   * the messages the drain delivered, in the order they were delivered.
   */
  lemma {:induction false} DrainedExtendsHistory(s: PState, self: Pid)
    ensures Drained(s, self).delivered == s.delivered + Ids(DrainedMessages(s, self))
    decreases |s.pending|
  {
    var i := FirstReady(s.clock, s.pending);
    if i < |s.pending| {
      var m := s.pending[i];
      var s' := DrainStep(s, self, i);
      var moved := DrainedMessages(s', self);
      DrainedExtendsHistory(s', self);
      assert DrainedMessages(s, self) == [m] + moved;
      assert Drained(s, self).delivered == s.delivered + [m.id] + Ids(moved);
      HistoryCons(s.delivered, m, moved);
    } else {
      assert Ids([]) == [];
    }
  }

  /** Appending `m`'s id and then the ids of `ms` appends the ids of `[m] + ms`. */
  lemma HistoryCons(h: seq<string>, m: Message, ms: seq<Message>)
    ensures h + [m.id] + Ids(ms) == h + Ids([m] + ms)
  {
    assert Ids([m] + ms) == [m.id] + Ids(ms);
  }

  /**
   * The drain only moves messages out of the buffer: every buffered copy
   * either stays buffered or is delivered, and no copy is counted twice.
   */
  lemma {:induction false} DrainedConserves(s: PState, self: Pid)
    ensures multiset(Drained(s, self).pending) + multiset(DrainedMessages(s, self)) == multiset(s.pending)
    decreases |s.pending|
  {
    var i := FirstReady(s.clock, s.pending);
    if i < |s.pending| {
      var m := s.pending[i];
      var s' := DrainStep(s, self, i);
      var moved := DrainedMessages(s', self);
      var r := Drained(s', self);
      DrainedConserves(s', self);
      assert DrainedMessages(s, self) == [m] + moved;
      assert Drained(s, self) == r;
      assert multiset([m] + moved) == multiset{m} + multiset(moved);
      MultisetWithout(s.pending, i);
      assert multiset(s'.pending) + multiset{m} == multiset(s.pending);
    }
  }

  // ---------------------------------------------------- runs of one process

  /** One thing that can happen at a process: it sends, or it receives a message. */
  datatype Op = Send | Receive(m: Message)

  function Step(s: PState, self: Pid, op: Op): PState
  {
    match op
    case Send => Sent(s, self)
    case Receive(m) => Received(s, self, m)
  }

  /** The state of process `self` after the operations `ops`, in order. */
  function Run(s: PState, self: Pid, ops: seq<Op>): PState
    decreases |ops|
  {
    if ops == [] then s else Run(Step(s, self, ops[0]), self, ops[1..])
  }

  /** One step never lowers a clock entry and only appends to the history. */
  lemma StepMonotone(s: PState, self: Pid, op: Op)
    ensures VecLeq(s.clock, Step(s, self, op).clock)
    ensures s.delivered <= Step(s, self, op).delivered
  {
    if op.Receive? && Ready(s.clock, op.m) {
      var s' := ApplyDelivery(s, self, op.m);
      DrainedMonotone(s', self);
      DrainedExtendsHistory(s', self);
      VecLeqTrans(s.clock, s'.clock, Drained(s', self).clock);
    }
  }

  /**
   * Over any sequence of sends and receives, no clock entry ever decreases
   * and the delivered history is only ever appended to.
   */
  lemma {:induction false} RunMonotone(s: PState, self: Pid, ops: seq<Op>)
    ensures VecLeq(s.clock, Run(s, self, ops).clock)
    ensures s.delivered <= Run(s, self, ops).delivered
    decreases |ops|
  {
    if ops != [] {
      var s' := Step(s, self, ops[0]);
      StepMonotone(s, self, ops[0]);
      RunMonotone(s', self, ops[1..]);
      VecLeqTrans(s.clock, s'.clock, Run(s', self, ops[1..]).clock);
    }
  }

  // --------------------------------------------------- at-most-once delivery

  /**
   * `m` has been seen at `s`: the clock's entry for its sender has reached the tag's.
   * Delivering `m` makes it seen, and from then on it fails the test.
   */
  predicate Seen(s: PState, m: Message)
  {
    s.clock[m.sender] >= m.tag[m.sender]
  }

  /** The messages one step delivers, in the order it delivers them. */
  ghost function StepMessages(s: PState, self: Pid, op: Op): seq<Message>
  {
    match op
    case Send => []
    case Receive(m) => if Ready(s.clock, m) then [m] + DrainedMessages(ApplyDelivery(s, self, m), self) else []
  }

  /** A drain never delivers a message the process has seen, and leaves it seen. */
  lemma {:induction false} SeenNotDrained(s: PState, self: Pid, m: Message)
    requires Seen(s, m)
    ensures m !in DrainedMessages(s, self) && Seen(Drained(s, self), m)
    decreases |s.pending|
  {
    var i := FirstReady(s.clock, s.pending);
    if i < |s.pending| {
      SeenNotDeliverable(s.clock, m.tag, m.sender);
      SeenNotDrained(DrainStep(s, self, i), self, m);
    }
  }

  /**
   * The drain delivers no message twice, even when the buffer holds several
   * copies of it: a copy met after the first was delivered stays buffered.
   */
  lemma {:induction false} DrainedDeliversOnce(s: PState, self: Pid)
    ensures var d := DrainedMessages(s, self);
            forall i, j :: 0 <= i < j < |d| ==> d[i] != d[j]
    decreases |s.pending|
  {
    var i := FirstReady(s.clock, s.pending);
    if i < |s.pending| {
      var p := s.pending[i];
      var s' := DrainStep(s, self, i);
      SeenNotDrained(s', self, p);
      DrainedDeliversOnce(s', self);
      assert DrainedMessages(s, self) == [p] + DrainedMessages(s', self);
    }
  }

  /** No step delivers a message the process has seen, and every step leaves it seen. */
  lemma SeenStep(s: PState, self: Pid, op: Op, m: Message)
    requires Seen(s, m)
    ensures m !in StepMessages(s, self, op) && Seen(Step(s, self, op), m)
  {
    match op
    case Send =>
    case Receive(m') =>
      if Ready(s.clock, m') {
        SeenNotDeliverable(s.clock, m.tag, m.sender);
        SeenNotDrained(ApplyDelivery(s, self, m'), self, m);
      }
  }

  /** Whatever the process does, a message it has seen stays seen. */
  lemma {:induction false} SeenRun(s: PState, self: Pid, ops: seq<Op>, m: Message)
    requires Seen(s, m)
    ensures Seen(Run(s, self, ops), m)
    decreases |ops|
  {
    if ops != [] {
      SeenStep(s, self, ops[0], m);
      SeenRun(Step(s, self, ops[0]), self, ops[1..], m);
    }
  }

  /**
   * At-most-once delivery: a receive that delivers `m` delivers it once, a
   * buffered copy of `m` staying in the buffer through the drain that follows;
   * and afterwards, whatever the process does, no step delivers `m` again and
   * receiving it again only buffers it.
   */
  lemma DeliveredAtMostOnce(s: PState, self: Pid, m: Message, ops: seq<Op>)
    requires Ready(s.clock, m)
    ensures StepMessages(s, self, Receive(m))[0] == m && m !in StepMessages(s, self, Receive(m))[1..]
    ensures var t := Run(Received(s, self, m), self, ops);
            (forall op :: m !in StepMessages(t, self, op)) && Received(t, self, m) == t.(pending := t.pending + [m])
  {
    var s' := ApplyDelivery(s, self, m);
    SeenNotDrained(s', self, m);
    assert StepMessages(s, self, Receive(m))[1..] == DrainedMessages(s', self);
    var t := Run(Received(s, self, m), self, ops);
    SeenRun(Received(s, self, m), self, ops, m);
    forall op
      ensures m !in StepMessages(t, self, op)
    {
      SeenStep(t, self, op, m);
    }
    SeenNotDeliverable(t.clock, m.tag, m.sender);
  }

  /** A message the drain delivers is seen once the drain is over. */
  lemma {:induction false} DrainedSeen(s: PState, self: Pid, m: Message)
    requires m in DrainedMessages(s, self)
    ensures Seen(Drained(s, self), m)
    decreases |s.pending|
  {
    var i := FirstReady(s.clock, s.pending);
    var s' := DrainStep(s, self, i);
    assert DrainedMessages(s, self) == [s.pending[i]] + DrainedMessages(s', self);
    if s.pending[i] == m {
      SeenNotDrained(s', self, m);
    } else {
      DrainedSeen(s', self, m);
    }
  }

  /** A message any step delivers, on receipt or from the buffer, is seen after that step. */
  lemma StepSeen(s: PState, self: Pid, op: Op, m: Message)
    requires m in StepMessages(s, self, op)
    ensures Seen(Step(s, self, op), m)
  {
    match op
    case Send =>
    case Receive(m') =>
      var s' := ApplyDelivery(s, self, m');
      if m == m' {
        SeenNotDrained(s', self, m);
      } else {
        DrainedSeen(s', self, m);
      }
  }

  /** One step delivers no message twice: neither the received message nor any buffered copy. */
  lemma StepDeliversOnce(s: PState, self: Pid, op: Op)
    ensures var d := StepMessages(s, self, op);
            forall i, j :: 0 <= i < j < |d| ==> d[i] != d[j]
  {
    match op
    case Send =>
    case Receive(m) =>
      if Ready(s.clock, m) {
        var s' := ApplyDelivery(s, self, m);
        SeenNotDrained(s', self, m);
        DrainedDeliversOnce(s', self);
        assert StepMessages(s, self, op) == [m] + DrainedMessages(s', self);
      }
  }

  /**
   * At-most-once delivery for every delivery path: once a step has delivered
   * `m` (on receipt or by a drain), whatever the process does afterwards, no
   * step delivers `m` again and receiving it again only buffers it.
   */
  lemma DeliveredNeverAgain(s: PState, self: Pid, op: Op, m: Message, ops: seq<Op>)
    requires m in StepMessages(s, self, op)
    ensures var t := Run(Step(s, self, op), self, ops);
            (forall op' :: m !in StepMessages(t, self, op')) && Received(t, self, m) == t.(pending := t.pending + [m])
  {
    StepSeen(s, self, op, m);
    SeenRun(Step(s, self, op), self, ops, m);
    var t := Run(Step(s, self, op), self, ops);
    forall op'
      ensures m !in StepMessages(t, self, op')
    {
      SeenStep(t, self, op', m);
    }
    SeenNotDeliverable(t.clock, m.tag, m.sender);
  }

  /**
   * A receive only moves messages between the two lists: the old buffer plus
   * the received message is exactly the new buffer plus what the receive
   * delivered, and the history grows by exactly the delivered ids, in order.
   */
  lemma ReceivedConserves(s: PState, self: Pid, m: Message)
    ensures multiset(Received(s, self, m).pending) + multiset(StepMessages(s, self, Receive(m)))
         == multiset(s.pending) + multiset{m}
    ensures Received(s, self, m).delivered == s.delivered + Ids(StepMessages(s, self, Receive(m)))
  {
    if Ready(s.clock, m) {
      var s' := ApplyDelivery(s, self, m);
      var moved := DrainedMessages(s', self);
      assert Received(s, self, m) == Drained(s', self);
      assert StepMessages(s, self, Receive(m)) == [m] + moved;
      DrainedConserves(s', self);
      DrainedExtendsHistory(s', self);
      HistoryCons(s.delivered, m, moved);
      assert multiset([m] + moved) == multiset{m} + multiset(moved);
    } else {
      assert Received(s, self, m).pending == s.pending + [m];
      assert StepMessages(s, self, Receive(m)) == [];
      assert Ids([]) == [];
    }
  }

  // ------------------------------------------------------------- processes

  /** A process of SES.py, without its drawing state. */
  class Process {
    const name: Pid
    var clock: Vec
    var delivered: seq<string>
    var pending: seq<Message>

    function State(): PState
      reads this
    {
      PState(clock, delivered, pending)
    }

    /** Process.__init__: zero clock, empty history, empty buffer. */
    constructor (name: Pid)
      ensures this.name == name && State() == Initial()
    {
      this.name := name;
      clock := ZeroVec();
      delivered := [];
      pending := [];
    }

    /** deliver_message: append the id, merge entry by entry, tick the own entry. */
    method DeliverMessage(m: Message)
      modifies this
      ensures State() == ApplyDelivery(old(State()), name, m)
    {
      delivered := delivered + [m.id];
      for p := 0 to N
        invariant forall k: Pid :: k < p ==> clock[k] == Max(old(clock)[k], m.tag[k])
        invariant forall k: Pid :: p <= k ==> clock[k] == old(clock)[k]
        invariant delivered == old(delivered) + [m.id] && pending == old(pending)
      {
        clock := clock[p := Max(clock[p], m.tag[p])];
      }
      assert clock == MaxVec(old(clock), m.tag);
      clock := clock[name := clock[name] + 1];
    }

    /**
     * One pass of try_deliver_pending: walk a copy of the buffer in order and
     * stop at the first message is_deliverable accepts (`|pending|` if none).
     */
    method ScanPending() returns (j: nat)
      ensures j == FirstReady(clock, pending)
    {
      var snapshot := pending;
      j := 0;
      while j < |snapshot|
        invariant j <= |snapshot|
        invariant NoneReady(clock, snapshot[..j])
      {
        var ok := IsDeliverable(clock, snapshot[j]);
        if ok {
          ScanStopsAtFirstReady(clock, snapshot, j);
          return;
        }
        j := j + 1;
      }
      assert snapshot[..j] == snapshot;
    }

    /**
     * try_deliver_pending: repeat passes over the buffer; each pass delivers
     * the first deliverable message it meets (removing it from the buffer) and
     * starts over, and the loop ends after a pass that delivers nothing.
     */
    method TryDeliverPending()
      modifies this
      ensures State() == Drained(old(State()), name)
    {
      var deliveredNow := true;
      while deliveredNow
        invariant Drained(State(), name) == Drained(old(State()), name)
        invariant !deliveredNow ==> FirstReady(clock, pending) == |pending|
        decreases |pending| + (if deliveredNow then 1 else 0)
      {
        deliveredNow := false;
        ghost var start := State();
        var j := ScanPending();
        if j < |pending| {
          var m := pending[j];
          ScanStopsAtFirstReady(clock, pending, j);
          RemoveFirstAt(pending, m, j);
          pending := RemoveFirst(pending, m);
          DeliverMessage(m);
          assert State() == DrainStep(start, name, j);
          deliveredNow := true;
        }
      }
    }

    /** receive_message: deliver and drain when deliverable, otherwise buffer. */
    method ReceiveMessage(m: Message) returns (status: Status)
      modifies this
      ensures State() == Received(old(State()), name, m)
      ensures Ready(old(clock), m) ==> status == Delivered
      ensures !Ready(old(clock), m) ==>
                status == Buffered && clock == old(clock) && delivered == old(delivered) && pending == old(pending) + [m]
    {
      var ok := IsDeliverable(clock, m);
      if ok {
        DeliverMessage(m);
        TryDeliverPending();
        status := Delivered;
      } else {
        pending := pending + [m];
        status := Buffered;
      }
    }
  }

  /** The process table comprehension: one fresh process per name, in order. */
  method NewProcesses() returns (procs: seq<Process>)
    ensures |procs| == N
    ensures forall i :: 0 <= i < N ==> fresh(procs[i]) && procs[i].name == i && procs[i].State() == Initial()
  {
    procs := [];
    for i := 0 to N
      invariant |procs| == i
      invariant forall k :: 0 <= k < i ==> fresh(procs[k]) && procs[k].name == k && procs[k].State() == Initial()
    {
      var p := new Process(i);
      procs := procs + [p];
    }
  }

  /** The engine part of Simulation: the process table and the sent messages by id. */
  class Simulation {
    var procs: seq<Process>
    var messages: map<string, Message>

    ghost predicate Valid()
      reads this
    {
      |procs| == N && forall i :: 0 <= i < N ==> procs[i].name == i
    }

    constructor ()
      ensures Valid() && messages == map[]
      ensures forall p: Pid :: fresh(procs[p]) && procs[p].State() == Initial()
    {
      var ps := NewProcesses();
      procs := ps;
      messages := map[];
    }

    /**
     * The send branch of next_step: the sender's own entry ticks, the message
     * is tagged with a copy of the new clock and stored under its id.
     */
    method StepSend(p: Pid, id: string) returns (m: Message)
      requires Valid()
      modifies this, procs[p]
      ensures Valid() && procs == old(procs)
      ensures m == Message(id, p, Tick(old(procs[p].clock), p)) && m.tag == procs[p].clock
      ensures procs[p].State() == Sent(old(procs[p].State()), p)
      ensures messages == old(messages)[id := m]
      ensures forall q: Pid :: q != p ==> procs[q].State() == old(procs[q].State())
    {
      var proc := procs[p];
      proc.clock := proc.clock[p := proc.clock[p] + 1];
      m := Message(id, p, proc.clock);
      messages := messages[id := m];
    }

    /**
     * The receive branch of next_step: an unknown id is an error that changes
     * nothing; otherwise the receiving process runs receive_message.
     */
    method StepReceive(p: Pid, id: string) returns (status: Status)
      requires Valid()
      modifies procs[p]
      ensures Valid()
      ensures id !in messages ==> status == UnknownMessage && procs[p].State() == old(procs[p].State())
      ensures id in messages ==> procs[p].State() == Received(old(procs[p].State()), p, messages[id])
      ensures id in messages ==> status == (if Ready(old(procs[p].clock), messages[id]) then Delivered else Buffered)
      ensures forall q: Pid :: q != p ==> procs[q].State() == old(procs[q].State())
    {
      if id in messages {
        status := procs[p].ReceiveMessage(messages[id]);
      } else {
        status := UnknownMessage;
      }
    }

    /** reset_simulation: fresh processes and an empty message table. */
    method Reset()
      modifies this
      ensures Valid() && messages == map[]
      ensures forall p: Pid :: fresh(procs[p]) && procs[p].State() == Initial()
    {
      var ps := NewProcesses();
      procs := ps;
      messages := map[];
    }
  }
}

module SesScenario {
  import opened Clocks
  import opened Engine
  import opened Ses

  /** At P2 (index 1) m1 = [2,0,0] from P1 arrives first and is buffered. */
  lemma M1BufferedAtP2(m1: Message)
    requires m1 == Message("m1", 0, [2, 0, 0])
    ensures Received(Initial(), 1, m1) == PState([0, 0, 0], [], [m1])
  {
    assert ZeroVec() == [0, 0, 0];
  }

  /**
   * m0 = [1,0,0] arrives next at P2, is delivered (clock [1,1,0]) and the
   * drain then delivers the buffered m1 (clock [2,2,0]).
   */
  lemma M0ReleasesM1AtP2(m0: Message, m1: Message)
    requires m0 == Message("m0", 0, [1, 0, 0]) && m1 == Message("m1", 0, [2, 0, 0])
    ensures ApplyDelivery(PState([0, 0, 0], [], [m1]), 1, m0) == PState([1, 1, 0], ["m0"], [m1])
    ensures Received(PState([0, 0, 0], [], [m1]), 1, m0) == PState([2, 2, 0], ["m0", "m1"], [])
  {
    var afterM0 := PState([1, 1, 0], ["m0"], [m1]);
    assert MaxVec([0, 0, 0], [1, 0, 0]) == [1, 0, 0];
    assert ApplyDelivery(PState([0, 0, 0], [], [m1]), 1, m0) == afterM0;
    DrainReleasesM1(afterM0, m1);
  }

  lemma DrainReleasesM1(s: PState, m1: Message)
    requires m1 == Message("m1", 0, [2, 0, 0]) && s == PState([1, 1, 0], ["m0"], [m1])
    ensures Drained(s, 1) == PState([2, 2, 0], ["m0", "m1"], [])
  {
    assert FirstReady(s.clock, s.pending) == 0;
    assert MaxVec([1, 1, 0], [2, 0, 0]) == [2, 1, 0];
    assert s.pending[..0] + s.pending[1..] == [];
    var done := PState([2, 2, 0], ["m0", "m1"], []);
    assert DrainStep(s, 1, 0) == done;
    assert Drained(done, 1) == done;
  }

  /**
   * Without duplicate filtering, m1 received twice before m0 sits twice in
   * the buffer.  When m0 arrives, the drain delivers one copy of m1 and keeps
   * the other, which no longer passes the test.
   */
  lemma DuplicateM1KeptAtP2(m0: Message, m1: Message)
    requires m0 == Message("m0", 0, [1, 0, 0]) && m1 == Message("m1", 0, [2, 0, 0])
    ensures Received(PState([0, 0, 0], [], [m1, m1]), 1, m0) == PState([2, 2, 0], ["m0", "m1"], [m1])
    ensures DrainedMessages(PState([1, 1, 0], ["m0"], [m1, m1]), 1) == [m1]
  {
    var s := PState([1, 1, 0], ["m0"], [m1, m1]);
    assert MaxVec([0, 0, 0], [1, 0, 0]) == [1, 0, 0];
    assert ApplyDelivery(PState([0, 0, 0], [], [m1, m1]), 1, m0) == s;
    assert FirstReady(s.clock, s.pending) == 0;
    assert MaxVec([1, 1, 0], [2, 0, 0]) == [2, 1, 0];
    assert s.pending[..0] + s.pending[1..] == [m1];
    var once := PState([2, 2, 0], ["m0", "m1"], [m1]);
    assert DrainStep(s, 1, 0) == once;
    assert FirstReady(once.clock, once.pending) == 1;
    assert Drained(once, 1) == once;
    assert Drained(s, 1) == once;
  }

  /**
   * The first steps of the scripted run, driven through the simulation: P1
   * sends m0 and m1; P2 receives m1 (buffered), then m0 (delivered, and m1
   * with it).  The tag of m0 stays [1,0,0] although P1's clock moved on.
   */
  method OutOfOrderDelivery()
    returns (tag0: Vec, tag1: Vec, first: Status, second: Status, clock: Vec, delivered: seq<string>, pending: seq<Message>)
    ensures tag0 == [1, 0, 0] && tag1 == [2, 0, 0]
    ensures first == Buffered && second == Delivered
    ensures clock == [2, 2, 0] && delivered == ["m0", "m1"] && pending == []
  {
    var sim := new Simulation();
    var m0 := sim.StepSend(0, "m0");
    var m1 := sim.StepSend(0, "m1");
    M1BufferedAtP2(m1);
    M0ReleasesM1AtP2(m0, m1);
    first := sim.StepReceive(1, "m1");
    second := sim.StepReceive(1, "m0");
    tag0, tag1 := sim.messages["m0"].tag, sim.messages["m1"].tag;
    clock, delivered, pending := sim.procs[1].clock, sim.procs[1].delivered, sim.procs[1].pending;
  }
}

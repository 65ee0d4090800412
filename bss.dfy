/**
 * The causal-delivery engine of BSS.py (Birman-Schiper-Stephenson style):
 * vector clocks with the partial-update policy.  On delivery only the
 * sender's entry of the receiver's clock changes, to the tag's value; a send
 * ticks the sender's own entry, tags the message with a copy of the clock and
 * then re-examines the sender's own buffer.
 *
 * Each imperative operation of a process is a method of `Process`, proved
 * against a pure function on `PState` (the triple clock / delivered / pending);
 * the properties of the engine are lemmas about those functions.
 */
module Bss {
  import opened Clocks
  import opened Engine

  /** A message: its id, its sender and the sender's clock snapshot taken at send time. */
  datatype Message = Message(id: string, sender: Pid, tag: Vec)

  /** `m` passes the vector deliverability test at a process whose clock is `clock`. */
  predicate Ready(clock: Vec, m: Message)
  {
    Deliverable(clock, m.tag, m.sender)
  }

  /** No message of `pending` passes the test. */
  predicate NoneReady(clock: Vec, pending: seq<Message>)
  {
    forall k :: 0 <= k < |pending| ==> !Ready(clock, pending[k])
  }

  /** The ids of a list of messages, in order. */
  function Ids(ms: seq<Message>): (r: seq<string>)
    ensures |r| == |ms| && forall k :: 0 <= k < |ms| ==> r[k] == ms[k].id
  {
    seq(|ms|, k requires 0 <= k < |ms| => ms[k].id)
  }

  /**
   * is_deliverable, as the source runs it: walk the processes in order and
   * answer False at the first entry that fails.
   */
  method IsDeliverable(clock: Vec, m: Message) returns (ok: bool)
    ensures ok <==> Ready(clock, m)
  {
    for p := 0 to N
      invariant forall k: Pid :: k < p && k == m.sender ==> m.tag[k] == clock[k] + 1
      invariant forall k: Pid :: k < p && k != m.sender ==> m.tag[k] <= clock[k]
    {
      if p == m.sender {
        if m.tag[p] != clock[p] + 1 {
          return false;
        }
      } else {
        if m.tag[p] > clock[p] {
          return false;
        }
      }
    }
    return true;
  }

  // ------------------------------------------------------------- the model

  /** The per-process state: vector clock, delivered ids in order, pending buffer. */
  datatype PState = PState(clock: Vec, delivered: seq<string>, pending: seq<Message>)

  /** A freshly created process: zero clock, nothing delivered, nothing pending. */
  function Initial(): (s: PState)
    ensures (forall k: Pid :: s.clock[k] == 0) && s.delivered == [] && s.pending == []
  {
    PState(ZeroVec(), [], [])
  }

  /** The clock part of deliver_message: the sender's entry is copied from the tag. */
  function AdoptSenderEntry(clock: Vec, m: Message): (r: Vec)
    ensures r[m.sender] == m.tag[m.sender]
    ensures forall k: Pid :: k != m.sender ==> r[k] == clock[k]
  {
    clock[m.sender := m.tag[m.sender]]
  }

  /**
   * Applied to a message that passed the test, the partial update raises the
   * sender's entry by exactly one, so no entry decreases; and it then gives
   * the same clock as a full entry-wise merge with the tag would.
   */
  lemma AdoptOnReady(clock: Vec, m: Message)
    requires Ready(clock, m)
    ensures AdoptSenderEntry(clock, m) == Tick(clock, m.sender)
    ensures AdoptSenderEntry(clock, m) == MaxVec(clock, m.tag)
    ensures VecLeq(clock, AdoptSenderEntry(clock, m)) && VecLeq(m.tag, AdoptSenderEntry(clock, m))
  {
    var r := AdoptSenderEntry(clock, m);
    assert forall k: Pid :: r[k] == Tick(clock, m.sender)[k];
    assert forall k: Pid :: r[k] == MaxVec(clock, m.tag)[k];
  }

  /** deliver_message: record the id, copy the sender's entry of the tag. */
  function ApplyDelivery(s: PState, m: Message): (r: PState)
    ensures r.clock[m.sender] == m.tag[m.sender] && forall k: Pid :: k != m.sender ==> r.clock[k] == s.clock[k]
    ensures r.delivered == s.delivered + [m.id] && r.pending == s.pending
  {
    PState(AdoptSenderEntry(s.clock, m), s.delivered + [m.id], s.pending)
  }

  /**
   * The index of the earliest buffered message that is deliverable now, or
   * `|pending|` when there is none: the scan of one pass of the drain.
   */
  function FirstReady(clock: Vec, pending: seq<Message>): (i: nat)
    ensures i <= |pending|
    ensures NoneReady(clock, pending[..i])
    ensures i < |pending| ==> Ready(clock, pending[i])
  {
    if |pending| == 0 then 0
    else if Ready(clock, pending[0]) then 0
    else 1 + FirstReady(clock, pending[1..])
  }

  /** One pass of the drain that found `pending[i]`: cut it out of the buffer and deliver it. */
  function DrainStep(s: PState, i: nat): PState
    requires i < |s.pending|
  {
    ApplyDelivery(s.(pending := s.pending[..i] + s.pending[i + 1..]), s.pending[i])
  }

  /**
   * try_deliver_pending: deliver the earliest deliverable buffered message,
   * then scan again from the start, until a pass finds none.
   */
  function Drained(s: PState): (r: PState)
    ensures |r.pending| <= |s.pending|
    ensures |r.delivered| + |r.pending| == |s.delivered| + |s.pending|
    decreases |s.pending|
  {
    var i := FirstReady(s.clock, s.pending);
    if i == |s.pending| then s else Drained(DrainStep(s, i))
  }

  /** The messages the drain delivers, in the order it delivers them. */
  ghost function DrainedMessages(s: PState): seq<Message>
    decreases |s.pending|
  {
    var i := FirstReady(s.clock, s.pending);
    if i == |s.pending| then [] else [s.pending[i]] + DrainedMessages(DrainStep(s, i))
  }

  /** receive_message: deliver and drain, or buffer. */
  function Received(s: PState, m: Message): (r: PState)
    ensures |r.delivered| + |r.pending| == |s.delivered| + |s.pending| + 1
    ensures Ready(s.clock, m) <==> |r.delivered| > |s.delivered|
  {
    if Ready(s.clock, m) then Drained(ApplyDelivery(s, m))
    else s.(pending := s.pending + [m])
  }

  /** The sender's side of a send step: its own entry ticks, then its buffer is drained. */
  function Sent(s: PState, self: Pid): (r: PState)
    ensures |r.delivered| + |r.pending| == |s.delivered| + |s.pending|
  {
    Drained(s.(clock := Tick(s.clock, self)))
  }

  // ------------------------------------------------------ drain properties

  /**
   * A scan that has passed over `pending[..j]` without finding a deliverable
   * message and finds `pending[j]` deliverable has found the earliest one,
   * and no earlier buffered message is equal to it.
   */
  lemma ScanStopsAtFirstReady(clock: Vec, pending: seq<Message>, j: nat)
    requires j < |pending| && NoneReady(clock, pending[..j]) && Ready(clock, pending[j])
    ensures FirstReady(clock, pending) == j
    ensures pending[j] !in pending[..j]
  {
    assert forall k :: 0 <= k < j ==> pending[..j][k] == pending[k];
    assert forall k :: 0 <= k < j ==> !Ready(clock, pending[..j][k]);
  }

  /** The drain stops at a fixed point: nothing left in the buffer is deliverable. */
  lemma {:induction false} DrainedIsFixedPoint(s: PState)
    ensures NoneReady(Drained(s).clock, Drained(s).pending)
    decreases |s.pending|
  {
    var i := FirstReady(s.clock, s.pending);
    if i == |s.pending| {
      assert s.pending[..i] == s.pending;
    } else {
      DrainedIsFixedPoint(DrainStep(s, i));
    }
  }

  /**
   * The drain never lowers a clock entry: it only delivers messages that pass
   * the test, and on those the partial update raises the sender's entry.
   */
  lemma {:induction false} DrainedMonotone(s: PState)
    ensures VecLeq(s.clock, Drained(s).clock)
    decreases |s.pending|
  {
    var i := FirstReady(s.clock, s.pending);
    if i < |s.pending| {
      var s' := DrainStep(s, i);
      AdoptOnReady(s.clock, s.pending[i]);
      DrainedMonotone(s');
      VecLeqTrans(s.clock, s'.clock, Drained(s').clock);
    }
  }

  /**
   * The drain only moves ids into the history: it grows by exactly the ids of
   * the messages the drain delivered, in the order they were delivered.
   */
  lemma {:induction false} DrainedExtendsHistory(s: PState)
    ensures Drained(s).delivered == s.delivered + Ids(DrainedMessages(s))
    decreases |s.pending|
  {
    var i := FirstReady(s.clock, s.pending);
    if i < |s.pending| {
      var m := s.pending[i];
      var s' := DrainStep(s, i);
      DrainedExtendsHistory(s');
      assert Ids([m] + DrainedMessages(s')) == [m.id] + Ids(DrainedMessages(s'));
    } else {
      assert Ids([]) == [];
    }
  }

  /**
   * The drain only moves messages out of the buffer: every buffered copy
   * either stays buffered or is delivered, and no copy is counted twice.
   */
  lemma {:induction false} DrainedConserves(s: PState)
    ensures multiset(Drained(s).pending) + multiset(DrainedMessages(s)) == multiset(s.pending)
    decreases |s.pending|
  {
    var i := FirstReady(s.clock, s.pending);
    if i < |s.pending| {
      var m := s.pending[i];
      var s' := DrainStep(s, i);
      var moved := DrainedMessages(s');
      var r := Drained(s');
      DrainedConserves(s');
      assert DrainedMessages(s) == [m] + moved;
      assert Drained(s) == r;
      assert multiset([m] + moved) == multiset{m} + multiset(moved);
      MultisetWithout(s.pending, i);
      assert multiset(s'.pending) + multiset{m} == multiset(s.pending);
    }
  }

  /** The messages one receive delivers, in order: `m` and whatever its delivery releases, or nothing. */
  ghost function ReceivedMessages(s: PState, m: Message): seq<Message>
  {
    if Ready(s.clock, m) then [m] + DrainedMessages(ApplyDelivery(s, m)) else []
  }

  lemma IdsCons(m: Message, ms: seq<Message>)
    ensures Ids([m] + ms) == [m.id] + Ids(ms)
  {
    assert forall k :: 1 <= k <= |ms| ==> ([m] + ms)[k] == ms[k - 1];
  }

  /**
   * A receive only moves messages between the two lists: the old buffer plus
   * the received message is exactly the new buffer plus what the receive
   * delivered, and the history grows by exactly the delivered ids, in order.
   * So every received message sits in exactly one of the two lists.
   */
  lemma ReceivedConserves(s: PState, m: Message)
    ensures multiset(Received(s, m).pending) + multiset(ReceivedMessages(s, m)) == multiset(s.pending) + multiset{m}
    ensures Received(s, m).delivered == s.delivered + Ids(ReceivedMessages(s, m))
  {
    if Ready(s.clock, m) {
      var s' := ApplyDelivery(s, m);
      var moved := DrainedMessages(s');
      assert Received(s, m) == Drained(s');
      assert ReceivedMessages(s, m) == [m] + moved;
      DrainedConserves(s');
      DrainedExtendsHistory(s');
      IdsCons(m, moved);
      assert multiset([m] + moved) == multiset{m} + multiset(moved);
      assert s.delivered + [m.id] + Ids(moved) == s.delivered + ([m.id] + Ids(moved));
    } else {
      assert Received(s, m).pending == s.pending + [m];
      assert ReceivedMessages(s, m) == [];
      assert Ids([]) == [];
    }
  }

  // ---------------------------------------------------- runs of one process

  /** One thing that can happen at a process: it sends, or it receives a message. */
  datatype Op = Send | Receive(m: Message)

  function Step(s: PState, self: Pid, op: Op): PState
  {
    match op
    case Send => Sent(s, self)
    case Receive(m) => Received(s, m)
  }

  /** The state of process `self` after the operations `ops`, in order. */
  function Run(s: PState, self: Pid, ops: seq<Op>): PState
    decreases |ops|
  {
    if ops == [] then s else Run(Step(s, self, ops[0]), self, ops[1..])
  }

  /** One step never lowers a clock entry and only appends to the history. */
  lemma StepMonotone(s: PState, self: Pid, op: Op)
    ensures VecLeq(s.clock, Step(s, self, op).clock)
    ensures s.delivered <= Step(s, self, op).delivered
  {
    match op
    case Send =>
      var s' := s.(clock := Tick(s.clock, self));
      DrainedMonotone(s');
      DrainedExtendsHistory(s');
      VecLeqTrans(s.clock, s'.clock, Drained(s').clock);
    case Receive(m) =>
      if Ready(s.clock, m) {
        var s' := ApplyDelivery(s, m);
        AdoptOnReady(s.clock, m);
        DrainedMonotone(s');
        DrainedExtendsHistory(s');
        VecLeqTrans(s.clock, s'.clock, Drained(s').clock);
      }
  }

  /**
   * Over any sequence of sends and receives, no clock entry ever decreases
   * and the delivered history is only ever appended to.
   */
  lemma {:induction false} RunMonotone(s: PState, self: Pid, ops: seq<Op>)
    ensures VecLeq(s.clock, Run(s, self, ops).clock)
    ensures s.delivered <= Run(s, self, ops).delivered
    decreases |ops|
  {
    if ops != [] {
      var s' := Step(s, self, ops[0]);
      StepMonotone(s, self, ops[0]);
      RunMonotone(s', self, ops[1..]);
      VecLeqTrans(s.clock, s'.clock, Run(s', self, ops[1..]).clock);
    }
  }

  // --------------------------------------------------- at-most-once delivery

  /**
   * `m` has been seen at `s`: the clock's entry for its sender has reached the tag's.
   * Delivering `m` makes it seen, and from then on it fails the test.
   */
  predicate Seen(s: PState, m: Message)
  {
    s.clock[m.sender] >= m.tag[m.sender]
  }

  /** The messages one step delivers, in the order it delivers them. */
  ghost function StepMessages(s: PState, self: Pid, op: Op): seq<Message>
  {
    match op
    case Send => DrainedMessages(s.(clock := Tick(s.clock, self)))
    case Receive(m) => if Ready(s.clock, m) then [m] + DrainedMessages(ApplyDelivery(s, m)) else []
  }

  /** A drain never delivers a message the process has seen, and leaves it seen. */
  lemma {:induction false} SeenNotDrained(s: PState, m: Message)
    requires Seen(s, m)
    ensures m !in DrainedMessages(s) && Seen(Drained(s), m)
    decreases |s.pending|
  {
    var i := FirstReady(s.clock, s.pending);
    if i < |s.pending| {
      SeenNotDeliverable(s.clock, m.tag, m.sender);
      AdoptOnReady(s.clock, s.pending[i]);
      SeenNotDrained(DrainStep(s, i), m);
    }
  }

  /**
   * The drain delivers no message twice, even when the buffer holds several
   * copies of it: a copy met after the first was delivered stays buffered.
   */
  lemma {:induction false} DrainedDeliversOnce(s: PState)
    ensures var d := DrainedMessages(s);
            forall i, j :: 0 <= i < j < |d| ==> d[i] != d[j]
    decreases |s.pending|
  {
    var i := FirstReady(s.clock, s.pending);
    if i < |s.pending| {
      var p := s.pending[i];
      var s' := DrainStep(s, i);
      SeenNotDrained(s', p);
      DrainedDeliversOnce(s');
      assert DrainedMessages(s) == [p] + DrainedMessages(s');
    }
  }

  /** No step delivers a message the process has seen, and every step leaves it seen. */
  lemma SeenStep(s: PState, self: Pid, op: Op, m: Message)
    requires Seen(s, m)
    ensures m !in StepMessages(s, self, op) && Seen(Step(s, self, op), m)
  {
    match op
    case Send =>
      SeenNotDrained(s.(clock := Tick(s.clock, self)), m);
    case Receive(m') =>
      if Ready(s.clock, m') {
        SeenNotDeliverable(s.clock, m.tag, m.sender);
        SeenNotDrained(ApplyDelivery(s, m'), m);
      }
  }

  /** Whatever the process does, a message it has seen stays seen. */
  lemma {:induction false} SeenRun(s: PState, self: Pid, ops: seq<Op>, m: Message)
    requires Seen(s, m)
    ensures Seen(Run(s, self, ops), m)
    decreases |ops|
  {
    if ops != [] {
      SeenStep(s, self, ops[0], m);
      SeenRun(Step(s, self, ops[0]), self, ops[1..], m);
    }
  }

  /**
   * At-most-once delivery: a receive that delivers `m` delivers it once, a
   * buffered copy of `m` staying in the buffer through the drain that follows;
   * and afterwards, whatever the process does, no step delivers `m` again and
   * receiving it again only buffers it.
   */
  lemma DeliveredAtMostOnce(s: PState, self: Pid, m: Message, ops: seq<Op>)
    requires Ready(s.clock, m)
    ensures StepMessages(s, self, Receive(m))[0] == m && m !in StepMessages(s, self, Receive(m))[1..]
    ensures var t := Run(Received(s, m), self, ops);
            (forall op :: m !in StepMessages(t, self, op)) && Received(t, m) == t.(pending := t.pending + [m])
  {
    var s' := ApplyDelivery(s, m);
    SeenNotDrained(s', m);
    assert StepMessages(s, self, Receive(m))[1..] == DrainedMessages(s');
    var t := Run(Received(s, m), self, ops);
    SeenRun(Received(s, m), self, ops, m);
    forall op
      ensures m !in StepMessages(t, self, op)
    {
      SeenStep(t, self, op, m);
    }
    SeenNotDeliverable(t.clock, m.tag, m.sender);
  }

  /** A message the drain delivers is seen once the drain is over. */
  lemma {:induction false} DrainedSeen(s: PState, m: Message)
    requires m in DrainedMessages(s)
    ensures Seen(Drained(s), m)
    decreases |s.pending|
  {
    var i := FirstReady(s.clock, s.pending);
    var s' := DrainStep(s, i);
    assert DrainedMessages(s) == [s.pending[i]] + DrainedMessages(s');
    if s.pending[i] == m {
      SeenNotDrained(s', m);
    } else {
      DrainedSeen(s', m);
    }
  }

  /** A message any step delivers, on receipt or from the buffer, is seen after that step. */
  lemma StepSeen(s: PState, self: Pid, op: Op, m: Message)
    requires m in StepMessages(s, self, op)
    ensures Seen(Step(s, self, op), m)
  {
    match op
    case Send =>
      DrainedSeen(s.(clock := Tick(s.clock, self)), m);
    case Receive(m') =>
      var s' := ApplyDelivery(s, m');
      if m == m' {
        SeenNotDrained(s', m);
      } else {
        DrainedSeen(s', m);
      }
  }

  /** One step delivers no message twice: neither the received message nor any buffered copy. */
  lemma StepDeliversOnce(s: PState, self: Pid, op: Op)
    ensures var d := StepMessages(s, self, op);
            forall i, j :: 0 <= i < j < |d| ==> d[i] != d[j]
  {
    match op
    case Send =>
      DrainedDeliversOnce(s.(clock := Tick(s.clock, self)));
      assert StepMessages(s, self, op) == DrainedMessages(s.(clock := Tick(s.clock, self)));
    case Receive(m) =>
      if Ready(s.clock, m) {
        var s' := ApplyDelivery(s, m);
        SeenNotDrained(s', m);
        DrainedDeliversOnce(s');
        assert StepMessages(s, self, op) == [m] + DrainedMessages(s');
      }
  }

  /**
   * At-most-once delivery for every delivery path: once a step has delivered
   * `m` (on receipt or by a drain), whatever the process does afterwards, no
   * step delivers `m` again and receiving it again only buffers it.
   */
  lemma DeliveredNeverAgain(s: PState, self: Pid, op: Op, m: Message, ops: seq<Op>)
    requires m in StepMessages(s, self, op)
    ensures var t := Run(Step(s, self, op), self, ops);
            (forall op' :: m !in StepMessages(t, self, op')) && Received(t, m) == t.(pending := t.pending + [m])
  {
    StepSeen(s, self, op, m);
    SeenRun(Step(s, self, op), self, ops, m);
    var t := Run(Step(s, self, op), self, ops);
    forall op'
      ensures m !in StepMessages(t, self, op')
    {
      SeenStep(t, self, op', m);
    }
    SeenNotDeliverable(t.clock, m.tag, m.sender);
  }

  /**
   * A send ticks the sender's own entry and then drains: the result
   * dominates the ticked clock, and the drain only moves messages from the
   * buffer to the history, in the order it delivers them.
   */
  lemma SentConserves(s: PState, self: Pid)
    ensures VecLeq(Tick(s.clock, self), Sent(s, self).clock)
    ensures multiset(Sent(s, self).pending) + multiset(StepMessages(s, self, Send)) == multiset(s.pending)
    ensures Sent(s, self).delivered == s.delivered + Ids(StepMessages(s, self, Send))
  {
    var t := s.(clock := Tick(s.clock, self));
    DrainedMonotone(t);
    DrainedConserves(t);
    DrainedExtendsHistory(t);
  }

  // ------------------------------------------------------------- processes

  /** A process of BSS.py, without its drawing state. */
  class Process {
    const name: Pid
    var clock: Vec
    var delivered: seq<string>
    var pending: seq<Message>

    function State(): PState
      reads this
    {
      PState(clock, delivered, pending)
    }

    /** Process.__init__: zero clock, empty history, empty buffer. */
    constructor (name: Pid)
      ensures this.name == name && State() == Initial()
    {
      this.name := name;
      clock := ZeroVec();
      delivered := [];
      pending := [];
    }

    /** deliver_message: append the id, copy the sender's entry from the tag. */
    method DeliverMessage(m: Message)
      modifies this
      ensures State() == ApplyDelivery(old(State()), m)
    {
      delivered := delivered + [m.id];
      var sender := m.sender;
      clock := clock[sender := m.tag[sender]];
    }

    /**
     * One pass of try_deliver_pending: walk a copy of the buffer in order and
     * stop at the first message is_deliverable accepts (`|pending|` if none).
     */
    method ScanPending() returns (j: nat)
      ensures j == FirstReady(clock, pending)
    {
      var snapshot := pending;
      j := 0;
      while j < |snapshot|
        invariant j <= |snapshot|
        invariant NoneReady(clock, snapshot[..j])
      {
        var ok := IsDeliverable(clock, snapshot[j]);
        if ok {
          ScanStopsAtFirstReady(clock, snapshot, j);
          return;
        }
        j := j + 1;
      }
      assert snapshot[..j] == snapshot;
    }

    /**
     * try_deliver_pending: repeat passes over the buffer; each pass delivers
     * the first deliverable message it meets (removing it from the buffer) and
     * starts over, and the loop ends after a pass that delivers nothing.
     */
    method TryDeliverPending()
      modifies this
      ensures State() == Drained(old(State()))
    {
      var deliveredNow := true;
      while deliveredNow
        invariant Drained(State()) == Drained(old(State()))
        invariant !deliveredNow ==> FirstReady(clock, pending) == |pending|
        decreases |pending| + (if deliveredNow then 1 else 0)
      {
        deliveredNow := false;
        ghost var start := State();
        var j := ScanPending();
        if j < |pending| {
          var m := pending[j];
          ScanStopsAtFirstReady(clock, pending, j);
          RemoveFirstAt(pending, m, j);
          pending := RemoveFirst(pending, m);
          DeliverMessage(m);
          assert State() == DrainStep(start, j);
          deliveredNow := true;
        }
      }
    }

    /** receive_message: deliver and drain when deliverable, otherwise buffer. */
    method ReceiveMessage(m: Message) returns (status: Status)
      modifies this
      ensures State() == Received(old(State()), m)
      ensures Ready(old(clock), m) ==> status == Delivered
      ensures !Ready(old(clock), m) ==>
                status == Buffered && clock == old(clock) && delivered == old(delivered) && pending == old(pending) + [m]
    {
      var ok := IsDeliverable(clock, m);
      if ok {
        DeliverMessage(m);
        TryDeliverPending();
        status := Delivered;
      } else {
        pending := pending + [m];
        status := Buffered;
      }
    }
  }

  /** The process table comprehension: one fresh process per name, in order. */
  method NewProcesses() returns (procs: seq<Process>)
    ensures |procs| == N
    ensures forall i :: 0 <= i < N ==> fresh(procs[i]) && procs[i].name == i && procs[i].State() == Initial()
  {
    procs := [];
    for i := 0 to N
      invariant |procs| == i
      invariant forall k :: 0 <= k < i ==> fresh(procs[k]) && procs[k].name == k && procs[k].State() == Initial()
    {
      var p := new Process(i);
      procs := procs + [p];
    }
  }

  /** The engine part of Simulation: the process table and the sent messages by id. */
  class Simulation {
    var procs: seq<Process>
    var messages: map<string, Message>

    ghost predicate Valid()
      reads this
    {
      |procs| == N && forall i :: 0 <= i < N ==> procs[i].name == i
    }

    constructor ()
      ensures Valid() && messages == map[]
      ensures forall p: Pid :: fresh(procs[p]) && procs[p].State() == Initial()
    {
      var ps := NewProcesses();
      procs := ps;
      messages := map[];
    }

    /**
     * The send branch of next_step: the sender's own entry ticks, the message
     * is tagged with a copy of the new clock and stored under its id, and the
     * sender's buffer is drained.
     */
    method StepSend(p: Pid, id: string) returns (m: Message)
      requires Valid()
      modifies this, procs[p]
      ensures Valid() && procs == old(procs)
      ensures m == Message(id, p, Tick(old(procs[p].clock), p))
      ensures procs[p].State() == Sent(old(procs[p].State()), p)
      ensures messages == old(messages)[id := m]
      ensures forall q: Pid :: q != p ==> procs[q].State() == old(procs[q].State())
    {
      var proc := procs[p];
      proc.clock := proc.clock[p := proc.clock[p] + 1];
      m := Message(id, p, proc.clock);
      messages := messages[id := m];
      proc.TryDeliverPending();
    }

    /**
     * The receive branch of next_step: an unknown id is an error that changes
     * nothing; otherwise the receiving process runs receive_message.
     */
    method StepReceive(p: Pid, id: string) returns (status: Status)
      requires Valid()
      modifies procs[p]
      ensures Valid()
      ensures id !in messages ==> status == UnknownMessage && procs[p].State() == old(procs[p].State())
      ensures id in messages ==> procs[p].State() == Received(old(procs[p].State()), messages[id])
      ensures id in messages ==> status == (if Ready(old(procs[p].clock), messages[id]) then Delivered else Buffered)
      ensures forall q: Pid :: q != p ==> procs[q].State() == old(procs[q].State())
    {
      if id in messages {
        status := procs[p].ReceiveMessage(messages[id]);
      } else {
        status := UnknownMessage;
      }
    }

    /** reset_simulation: fresh processes and an empty message table. */
    method Reset()
      modifies this
      ensures Valid() && messages == map[]
      ensures forall p: Pid :: fresh(procs[p]) && procs[p].State() == Initial()
    {
      var ps := NewProcesses();
      procs := ps;
      messages := map[];
    }
  }
}

module BssScenario {
  import opened Clocks
  import opened Engine
  import opened Bss

  /** P1's two sends: m0 is tagged [1,0,0], m1 [2,0,0], and P1's buffer stays empty. */
  lemma P1SendsTwice()
    ensures Sent(Initial(), 0) == PState([1, 0, 0], [], [])
    ensures Sent(PState([1, 0, 0], [], []), 0) == PState([2, 0, 0], [], [])
  {
    assert ZeroVec() == [0, 0, 0];
    assert Drained(PState([1, 0, 0], [], [])) == PState([1, 0, 0], [], []);
    assert Drained(PState([2, 0, 0], [], [])) == PState([2, 0, 0], [], []);
  }

  /** At P2 (index 1) m1 = [2,0,0] arrives first and is buffered. */
  lemma M1BufferedAtP2(m1: Message)
    requires m1 == Message("m1", 0, [2, 0, 0])
    ensures Received(Initial(), m1) == PState([0, 0, 0], [], [m1])
  {
    assert ZeroVec() == [0, 0, 0];
  }

  /**
   * m0 = [1,0,0] arrives next at P2 and is delivered, giving the clock
   * [1,0,0]; the drain then delivers m1, giving [2,0,0].
   */
  lemma M0ReleasesM1AtP2(m0: Message, m1: Message)
    requires m0 == Message("m0", 0, [1, 0, 0]) && m1 == Message("m1", 0, [2, 0, 0])
    ensures ApplyDelivery(PState([0, 0, 0], [], [m1]), m0) == PState([1, 0, 0], ["m0"], [m1])
    ensures Received(PState([0, 0, 0], [], [m1]), m0) == PState([2, 0, 0], ["m0", "m1"], [])
  {
    var afterM0 := PState([1, 0, 0], ["m0"], [m1]);
    assert ApplyDelivery(PState([0, 0, 0], [], [m1]), m0) == afterM0;
    DrainReleasesM1(afterM0, m1);
  }

  lemma DrainReleasesM1(s: PState, m1: Message)
    requires m1 == Message("m1", 0, [2, 0, 0]) && s == PState([1, 0, 0], ["m0"], [m1])
    ensures Drained(s) == PState([2, 0, 0], ["m0", "m1"], [])
  {
    assert FirstReady(s.clock, s.pending) == 0;
    assert s.pending[..0] + s.pending[1..] == [];
    var done := PState([2, 0, 0], ["m0", "m1"], []);
    assert DrainStep(s, 0) == done;
    assert Drained(done) == done;
  }

  /**
   * Without duplicate filtering, m1 received twice before m0 sits twice in
   * the buffer.  When m0 arrives, the drain delivers one copy of m1 and keeps
   * the other, which no longer passes the test.
   */
  lemma DuplicateM1KeptAtP2(m0: Message, m1: Message)
    requires m0 == Message("m0", 0, [1, 0, 0]) && m1 == Message("m1", 0, [2, 0, 0])
    ensures Received(PState([0, 0, 0], [], [m1, m1]), m0) == PState([2, 0, 0], ["m0", "m1"], [m1])
    ensures DrainedMessages(PState([1, 0, 0], ["m0"], [m1, m1])) == [m1]
  {
    var s := PState([1, 0, 0], ["m0"], [m1, m1]);
    assert ApplyDelivery(PState([0, 0, 0], [], [m1, m1]), m0) == s;
    assert FirstReady(s.clock, s.pending) == 0;
    assert s.pending[..0] + s.pending[1..] == [m1];
    var once := PState([2, 0, 0], ["m0", "m1"], [m1]);
    assert DrainStep(s, 0) == once;
    assert FirstReady(once.clock, once.pending) == 1;
    assert Drained(once) == once;
    assert Drained(s) == once;
  }

  /**
   * The scripted opening of BSS.py driven through the simulation: P1 sends m0
   * and m1; P2 receives m1 (buffered), then m0 (delivered, and m1 with it).
   * The tag of m0 stays [1,0,0] although P1's clock moved on.
   */
  method OutOfOrderDelivery()
    returns (tag0: Vec, tag1: Vec, first: Status, second: Status, clock: Vec, delivered: seq<string>, pending: seq<Message>)
    ensures tag0 == [1, 0, 0] && tag1 == [2, 0, 0]
    ensures first == Buffered && second == Delivered
    ensures clock == [2, 0, 0] && delivered == ["m0", "m1"] && pending == []
  {
    var sim := new Simulation();
    P1SendsTwice();
    var m0 := sim.StepSend(0, "m0");
    var m1 := sim.StepSend(0, "m1");
    M1BufferedAtP2(m1);
    M0ReleasesM1AtP2(m0, m1);
    first := sim.StepReceive(1, "m1");
    second := sim.StepReceive(1, "m0");
    tag0, tag1 := sim.messages["m0"].tag, sim.messages["m1"].tag;
    clock, delivered, pending := sim.procs[1].clock, sim.procs[1].delivered, sim.procs[1].pending;
  }
}

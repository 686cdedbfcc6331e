/** The read/write epoch consensus instance as a value: what one event does to it and what it sends. */
module EpochInstance {
  import opened Common

  type Value = int

  /** The timestamp/value pair a process carries from epoch to epoch. */
  datatype State = State(ts: int, val: Option<Value>)

  datatype AbortedState = AbortedState(ts: int, state: State)

  datatype Msg =
    | ReadMsg(epoch: int)
    | StateMsg(state: State, epoch: int)
    | WriteMsg(wval: Option<Value>, epoch: int)
    | AcceptMsg(epoch: int)
    | DecidedMsg(dval: Value, epoch: int)

  datatype Dest = All | To(pid: PID)

  datatype Packet = Packet(from: PID, dest: Dest, msg: Msg)

  datatype Event =
    | Propose(v: Value)
    | ReceivedRead(from: PID, state: State)
    | ReceivedAccept(from: PID)
    | Decided(v: Value)
    | HandleRead(from: PID)
    | HandleWrite(from: PID, wval: Option<Value>)

  datatype Phase = Idle | Proposing | Reading | Writing | Deciding

  /** Running: the event loop is live. Draining: Abort has cancelled the context and applies what is queued.
      Stopped: Abort returned. Stalled: decide waits for the event loop it runs in, so nothing happens any more. */
  datatype RunStatus = Running | Draining | Stopped | Stalled

  datatype Inst = Inst(
    self: PID, n: nat, epochTs: int, leader: PID,
    current: State, tempValue: Option<Value>,
    received: map<PID, State>, accepted: nat,
    phase: Phase, queue: seq<Event>, run: RunStatus)

  /** What applying one event emits: packets, and the value put on the decided channel. */
  datatype Out = Out(packets: seq<Packet>, decided: Option<Value>)

  const Nothing := Out([], None)

  function Quorum(n: nat): nat { n / 2 + 1 }

  /** StartEpoch followed by its init event. */
  function Start(self: PID, n: nat, leader: PID, epoch: int, current: State): Inst {
    Inst(self, n, epoch, leader, current, None, map[], 0,
         if leader == self then Proposing else Idle, [], Running)
  }

  /** The leader and epoch guards in front of the event queue. */
  function Admit(i: Inst, from: PID, m: Msg): Option<Event> {
    if i.epochTs != m.epoch then None
    else match m
      case StateMsg(st, _) => if i.leader == i.self then Some(ReceivedRead(from, st)) else None
      case AcceptMsg(_) => if i.leader == i.self then Some(ReceivedAccept(from)) else None
      case ReadMsg(_) => if i.leader == from then Some(HandleRead(from)) else None
      case WriteMsg(v, _) => if i.leader == from then Some(HandleWrite(from, v)) else None
      case DecidedMsg(v, _) => if i.leader == from then Some(Decided(v)) else None
  }

  /** triggerApply: an instance whose context is cancelled takes no more events. */
  function Enqueue(i: Inst, evt: Event): Inst {
    if i.run.Running? then i.(queue := i.queue + [evt]) else i
  }

  function DeliverTo(i: Inst, from: PID, m: Msg): Inst {
    match Admit(i, from, m)
    case Some(evt) => Enqueue(i, evt)
    case None => i
  }

  /** A best-effort broadcast gives up as soon as its context is cancelled. */
  function Broadcast(i: Inst, m: Msg): seq<Packet> {
    if i.run.Running? then [Packet(i.self, All, m)] else []
  }

  /** The results highestState can return: the map is visited in any order and ties go to the last one seen. */
  predicate IsHighest(states: map<PID, State>, h: State) {
    && (forall q | q in states :: states[q].ts <= h.ts)
    && (if exists q | q in states :: 0 <= states[q].ts
        then exists q | q in states :: states[q] == h
        else h == State(0, None))
  }

  function OnPropose(i: Inst, v: Value): (Inst, Out) {
    (i.(tempValue := Some(v), phase := Reading), Out(Broadcast(i, ReadMsg(i.epochTs)), None))
  }

  function OnReceivedRead(i: Inst, from: PID, st: State, h: State): (Inst, Out) {
    var states := i.received[from := st];
    if |states| < Quorum(i.n) then
      (i.(received := states), Nothing)
    else
      var temp := if h.val.Some? then h.val else i.tempValue;
      (i.(received := map[], tempValue := temp, phase := Writing),
       Out(Broadcast(i, WriteMsg(temp, i.epochTs)), None))
  }

  function OnReceivedAccept(i: Inst): (Inst, Out)
    requires i.tempValue.Some?
  {
    var i1 := i.(accepted := i.accepted + 1);
    if i1.accepted < Quorum(i.n) then (i1, Nothing)
    else (i1.(phase := Deciding), Out(Broadcast(i, DecidedMsg(i.tempValue.value, i.epochTs)), None))
  }

  /** Outside Abort the value is published and the instance then waits for itself; inside Abort the
      nested Once blocks before anything is published. */
  function OnDecided(i: Inst, v: Value): (Inst, Out) {
    (i.(run := Stalled), Out([], if i.run.Running? then Some(v) else None))
  }

  function OnHandleRead(i: Inst, from: PID): (Inst, Out) {
    (i, Out([Packet(i.self, To(from), StateMsg(i.current, i.epochTs))], None))
  }

  function OnHandleWrite(i: Inst, from: PID, v: Option<Value>): (Inst, Out) {
    (i.(current := State(i.epochTs, v)), Out([Packet(i.self, To(from), AcceptMsg(i.epochTs))], None))
  }

  /** The state machine's transition table; h resolves the map iteration order of highestState. */
  function Apply(i: Inst, evt: Event, h: State): (Inst, Out)
    requires i.phase.Writing? ==> i.tempValue.Some?
  {
    match evt
    case HandleRead(from) => OnHandleRead(i, from)
    case HandleWrite(from, v) => OnHandleWrite(i, from, v)
    case Propose(v) => if i.phase.Proposing? then OnPropose(i, v) else (i, Nothing)
    case ReceivedRead(from, st) => if i.phase.Reading? then OnReceivedRead(i, from, st, h) else (i, Nothing)
    case ReceivedAccept(_) => if i.phase.Writing? then OnReceivedAccept(i) else (i, Nothing)
    case Decided(v) => if i.phase.Deciding? || i.phase.Idle? then OnDecided(i, v) else (i, Nothing)
  }

  /** h is a possible outcome of highestState where applying evt calls it. */
  predicate Resolves(i: Inst, evt: Event, h: State) {
    (evt.ReceivedRead? && i.phase.Reading? && |i.received[evt.from := evt.state]| >= Quorum(i.n)) ==>
      IsHighest(i.received[evt.from := evt.state], h)
  }

  /** The event loop, or drainEvents, takes the oldest queued event. */
  function Take(i: Inst, h: State): (Inst, Out)
    requires i.queue != []
    requires i.phase.Writing? ==> i.tempValue.Some?
  {
    Apply(i.(queue := i.queue[1..]), i.queue[0], h)
  }
}

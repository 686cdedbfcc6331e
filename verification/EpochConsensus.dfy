/** The read/write epoch consensus instance as the object it is: handlers that update its fields. */
module EpochConsensus {
  import opened Common
  import opened EpochInstance
  import opened Fsm

  datatype Tag = ProposeTag | ReceivedReadTag | ReceivedAcceptTag | DecidedTag | HandleReadTag | HandleWriteTag

  datatype Handler = RunPropose | RunReceivedRead | RunReceivedAccept | RunDecided | RunHandleRead | RunHandleWrite

  function TagOf(evt: Event): Tag {
    match evt
    case Propose(_) => ProposeTag
    case ReceivedRead(_, _) => ReceivedReadTag
    case ReceivedAccept(_) => ReceivedAcceptTag
    case Decided(_) => DecidedTag
    case HandleRead(_) => HandleReadTag
    case HandleWrite(_, _) => HandleWriteTag
  }

  /** The transition table of initMachine. */
  function TableEntry(phase: Phase, tag: Tag): Option<Handler> {
    if phase == Proposing && tag == ProposeTag then Some(RunPropose)
    else if phase == Reading && tag == ReceivedReadTag then Some(RunReceivedRead)
    else if phase == Writing && tag == ReceivedAcceptTag then Some(RunReceivedAccept)
    else if (phase == Deciding || phase == Idle) && tag == DecidedTag then Some(RunDecided)
    else None
  }

  function FilledTable(): map<Phase, map<Tag, Handler>> {
    var t1 := Registered(map[], Proposing, ProposeTag, RunPropose);
    var t2 := Registered(t1, Reading, ReceivedReadTag, RunReceivedRead);
    var t3 := Registered(t2, Writing, ReceivedAcceptTag, RunReceivedAccept);
    var t4 := Registered(t3, Deciding, DecidedTag, RunDecided);
    Registered(t4, Idle, DecidedTag, RunDecided)
  }

  lemma TableFilled(phase: Phase, tag: Tag)
    ensures Lookup(FilledTable(), phase, tag) == TableEntry(phase, tag)
  {
    var t1 := Registered(map[], Proposing, ProposeTag, RunPropose);
    var t2 := Registered(t1, Reading, ReceivedReadTag, RunReceivedRead);
    var t3 := Registered(t2, Writing, ReceivedAcceptTag, RunReceivedAccept);
    var t4 := Registered(t3, Deciding, DecidedTag, RunDecided);
    RegisteredAt(map[], Proposing, ProposeTag, RunPropose, phase, tag);
    RegisteredAt(t1, Reading, ReceivedReadTag, RunReceivedRead, phase, tag);
    RegisteredAt(t2, Writing, ReceivedAcceptTag, RunReceivedAccept, phase, tag);
    RegisteredAt(t3, Deciding, DecidedTag, RunDecided, phase, tag);
    RegisteredAt(t4, Idle, DecidedTag, RunDecided, phase, tag);
    hide Registered;
  }

  function GlobalEntry(tag: Tag): Option<Handler> {
    if tag == HandleReadTag then Some(RunHandleRead)
    else if tag == HandleWriteTag then Some(RunHandleWrite)
    else None
  }

  /** A leader that has started to read has something to write. */
  predicate HasTemp(i: Inst) {
    i.phase.Reading? || i.phase.Writing? || i.phase.Deciding? ==> i.tempValue.Some?
  }

  /** drainEvents: everything queued is applied, oldest first; a decision inside Abort blocks it for good. */
  function Drain(i: Inst, hs: seq<State>): (Inst, seq<Packet>)
    requires HasTemp(i) && |hs| == |i.queue|
    decreases |i.queue|
  {
    if i.queue == [] || i.run.Stalled? then (i, [])
    else
      var (j, out) := Take(i, hs[0]);
      var (k, more) := Drain(j, hs[1..]);
      (k, out.packets + more)
  }

  /** The state after the last write in the queue, or the given one if there is none. */
  function LastWrite(q: seq<Event>, epoch: int, st: State): State {
    if q == [] then st
    else LastWrite(q[1..], epoch, if q[0].HandleWrite? then State(epoch, q[0].wval) else st)
  }

  /** A completed drain carries exactly the last write that was still queued when Abort was called. */
  lemma {:induction false} DrainCarriesLastWrite(i: Inst, hs: seq<State>)
    requires HasTemp(i) && |hs| == |i.queue| && !Drain(i, hs).0.run.Stalled?
    ensures Drain(i, hs).0.queue == []
    ensures Drain(i, hs).0.current == LastWrite(i.queue, i.epochTs, i.current)
    decreases |i.queue|
  {
    if i.queue != [] && !i.run.Stalled? {
      DrainCarriesLastWrite(Take(i, hs[0]).0, hs[1..]);
    }
  }

  /** i has been reached from first by applying |hs| events, sending ps. */
  ghost predicate Drains(first: Inst, hs: seq<State>, i: Inst, ps: seq<Packet>) {
    && HasTemp(first) && HasTemp(i) && |hs| + |i.queue| == |first.queue|
    && forall rest: seq<State> | |rest| == |i.queue| ::
         Drain(first, hs + rest) == (Drain(i, rest).0, ps + Drain(i, rest).1)
  }

  function Unused(n: nat): seq<State> { seq(n, k => State(0, None)) }

  lemma DrainsNothing(first: Inst)
    requires HasTemp(first)
    ensures Drains(first, [], first, [])
  {
    forall rest: seq<State> | |rest| == |first.queue|
      ensures Drain(first, [] + rest) == (Drain(first, rest).0, [] + Drain(first, rest).1) {
      assert [] + rest == rest && [] + Drain(first, rest).1 == Drain(first, rest).1;
    }
  }

  lemma DrainsOneMore(first: Inst, hs: seq<State>, i: Inst, ps: seq<Packet>, h: State)
    requires Drains(first, hs, i, ps) && i.queue != [] && !i.run.Stalled?
    ensures Drains(first, hs + [h], Take(i, h).0, ps + Take(i, h).1.packets)
  {
    TakeKeepsTemp(i, h);
    hide Take, HasTemp;
    var (j, out) := Take(i, h);
    forall rest: seq<State> | |rest| == |j.queue|
      ensures Drain(first, hs + [h] + rest) == (Drain(j, rest).0, ps + out.packets + Drain(j, rest).1)
    {
      var longer := [h] + rest;
      assert hs + [h] + rest == hs + longer;
      DrainHead(i, h, rest);
      assert ps + (out.packets + Drain(j, rest).1) == ps + out.packets + Drain(j, rest).1;
    }
  }

  lemma DrainHead(i: Inst, h: State, rest: seq<State>)
    requires HasTemp(i) && i.queue != [] && !i.run.Stalled? && |rest| + 1 == |i.queue|
    ensures var (j, out) := Take(i, h);
            |j.queue| == |rest| && HasTemp(j)
                && Drain(i, [h] + rest) == (Drain(j, rest).0, out.packets + Drain(j, rest).1)
  {
    TakeKeepsTemp(i, h);
    hide Take;
    assert ([h] + rest)[1..] == rest;
  }

  lemma TakeKeepsTemp(i: Inst, h: State)
    requires HasTemp(i) && i.queue != []
    ensures HasTemp(Take(i, h).0) && Take(i, h).0.queue == i.queue[1..]
  {
  }

  lemma TakeStatus(i: Inst, h: State)
    requires HasTemp(i) && i.queue != []
    ensures Take(i, h).0.run == i.run || Take(i, h).0.run.Stalled?
  {
  }

  lemma DrainsAll(first: Inst, hs: seq<State>, i: Inst, ps: seq<Packet>)
    requires Drains(first, hs, i, ps) && (i.queue == [] || i.run.Stalled?)
    ensures HasTemp(first) && |hs| + |i.queue| == |first.queue|
    ensures Drain(first, hs + Unused(|i.queue|)) == (i, ps)
  {
    assert ps + [] == ps;
  }

  /** highestState: the loop over the received states, in whatever order the map yields them. */
  method HighestState(states: map<PID, State>) returns (h: State)
    ensures IsHighest(states, h)
  {
    h := State(0, None);
    var left := states.Keys;
    while left != {}
      invariant left <= states.Keys
      invariant 0 <= h.ts && forall q | q in states && q !in left :: states[q].ts <= h.ts
      invariant if exists q | q in states && q !in left :: 0 <= states[q].ts
                then exists q | q in states && q !in left :: states[q] == h
                else h == State(0, None)
      decreases left
    {
      var q := PickAny(left);
      if states[q].ts >= h.ts {
        h := states[q];
      }
      left := left - {q};
    }
  }

  class EpochConsensus {
    const self: PID
    const processesCount: nat
    var epochTs: int
    var leader: PID
    var current: State
    var tempValue: Option<Value>
    var receivedStates: map<PID, State>
    var receivedAccepted: nat
    var evts: seq<Event>
    var run: RunStatus
    const sm: StateMachine<Phase, Tag, Handler>

    function Abs(): Inst
      reads this, sm
    {
      Inst(self, processesCount, epochTs, leader, current, tempValue, receivedStates, receivedAccepted, sm.state,
           evts, run)
    }

    ghost predicate Valid()
      reads this, sm
    {
      && HasTemp(Abs())
      && (forall phase, tag :: Lookup(sm.handlers, phase, tag) == TableEntry(phase, tag))
      && (forall tag :: (if tag in sm.globalHandlers then Some(sm.globalHandlers[tag]) else None) == GlobalEntry(tag))
    }

    constructor (self: PID, processesCount: nat)
      ensures Valid() && fresh(sm) && this.self == self && this.processesCount == processesCount
      ensures receivedStates == map[] && receivedAccepted == 0 && tempValue == None && evts == []
    {
      this.self := self;
      this.processesCount := processesCount;
      epochTs, leader, current := 0, 0, State(0, None);
      tempValue, receivedStates, receivedAccepted := None, map[], 0;
      evts, run := [], Running;
      var machine := new StateMachine<Phase, Tag, Handler>(Idle);
      sm := machine;
      new;
      InitMachine();
      hide TableEntry, Lookup;
      forall phase, tag ensures Lookup(sm.handlers, phase, tag) == TableEntry(phase, tag) {
        TableFilled(phase, tag);
      }
    }

    /** initMachine: the transition table of a new state machine. */
    method InitMachine()
      requires sm.handlers == map[] && sm.globalHandlers == map[]
      modifies sm
      ensures sm.handlers == FilledTable() && sm.state == old(sm.state)
      ensures forall tag ::
                (if tag in sm.globalHandlers then Some(sm.globalHandlers[tag]) else None) == GlobalEntry(tag)
    {
      hide Registered;
      sm.AddHandler(Proposing, ProposeTag, RunPropose);
      sm.AddHandler(Reading, ReceivedReadTag, RunReceivedRead);
      sm.AddHandler(Writing, ReceivedAcceptTag, RunReceivedAccept);
      sm.AddHandler(Deciding, DecidedTag, RunDecided);
      sm.AddHandler(Idle, DecidedTag, RunDecided);
      sm.AddGlobalHandler(HandleReadTag, RunHandleRead);
      sm.AddGlobalHandler(HandleWriteTag, RunHandleWrite);
    }

    /** StartEpoch on a fresh object, with its init event applied. */
    method StartEpoch(leader: PID, epoch: int, current: State)
      requires Valid() && receivedAccepted == 0 && tempValue == None && evts == []
      modifies this, sm
      ensures Valid() && Abs() == Start(self, processesCount, leader, epoch, current)
    {
      receivedStates := map[];
      run := Running;
      sm.SetState(Idle);
      epochTs := epoch;
      this.leader := leader;
      this.current := current;
      if leader == self {
        sm.SetState(Proposing);
      }
    }

    method TriggerApply(evt: Event)
      requires Valid()
      modifies this
      ensures Valid() && Abs() == Enqueue(old(Abs()), evt)
    {
      if run == Running {
        evts := evts + [evt];
      }
    }

    method Deliver(from: PID, m: Msg)
      requires Valid()
      modifies this
      ensures Valid() && Abs() == DeliverTo(old(Abs()), from, m)
    {
      if epochTs != m.epoch {
        return;
      }
      match m {
        case StateMsg(st, _) => if leader == self { TriggerApply(ReceivedRead(from, st)); }
        case AcceptMsg(_) => if leader == self { TriggerApply(ReceivedAccept(from)); }
        case ReadMsg(_) => if leader == from { TriggerApply(HandleRead(from)); }
        case WriteMsg(v, _) => if leader == from { TriggerApply(HandleWrite(from, v)); }
        case DecidedMsg(v, _) => if leader == from { TriggerApply(Decided(v)); }
      }
    }

    function Send(m: Msg): seq<Packet>
      reads this
    {
      if run == Running then [Packet(self, All, m)] else []
    }

    /** onReceivedRead: at a quorum of states the highest one decides what is written. */
    method HandleReceivedRead(from: PID, st: State) returns (out: Out, ghost h: State)
      requires Valid() && sm.state == Reading
      modifies this`receivedStates, this`tempValue, sm
      ensures Valid()
      ensures |old(receivedStates)[from := st]| >= Quorum(processesCount) ==>
                IsHighest(old(receivedStates)[from := st], h)
      ensures (Abs(), out) == OnReceivedRead(old(Abs()), from, st, h)
    {
      hide Lookup, IsHighest;
      h := State(0, None);
      out := Nothing;
      receivedStates := receivedStates[from := st];
      if |receivedStates| >= Quorum(processesCount) {
        var highest := HighestState(receivedStates);
        h := highest;
        if highest.val.Some? {
          tempValue := highest.val;
        }
        receivedStates := map[];
        out := Out(Send(WriteMsg(tempValue, epochTs)), None);
        sm.SetState(Writing);
      }
    }

    /** sm.Apply: the handlers registered for the event, global first, then the one of the current phase. */
    method Apply(evt: Event) returns (out: Out, ghost h: State)
      requires Valid()
      modifies this, sm
      ensures Valid() && Resolves(old(Abs()), evt, h)
      ensures (Abs(), out) == EpochInstance.Apply(old(Abs()), evt, h)
    {
      hide IsHighest, OnReceivedRead, Lookup;
      h := State(0, None);
      out := Nothing;
      var global, local := sm.Dispatch(TagOf(evt));
      if global == Some(RunHandleRead) {
        out := Out([Packet(self, To(evt.from), StateMsg(current, epochTs))], None);
      } else if global == Some(RunHandleWrite) {
        current := State(epochTs, evt.wval);
        out := Out([Packet(self, To(evt.from), AcceptMsg(epochTs))], None);
      }
      match local {
        case None =>
        case Some(RunPropose) =>
          tempValue := Some(evt.v);
          out := Out(Send(ReadMsg(epochTs)), None);
          sm.SetState(Reading);
        case Some(RunReceivedRead) =>
          out, h := HandleReceivedRead(evt.from, evt.state);
        case Some(RunReceivedAccept) =>
          receivedAccepted := receivedAccepted + 1;
          if receivedAccepted >= Quorum(processesCount) {
            out := Out(Send(DecidedMsg(tempValue.value, epochTs)), None);
            sm.SetState(Deciding);
          }
        case Some(RunDecided) =>
          out := Out([], if run == Running then Some(evt.v) else None);
          run := Stalled;
        case Some(_) =>
      }
    }

    /** One turn of the event loop. */
    method ApplyNext() returns (out: Out, ghost h: State)
      requires Valid() && evts != []
      modifies this, sm
      ensures Valid() && Resolves(old(Abs()), old(evts)[0], h)
      ensures (Abs(), out) == Take(old(Abs()), h)
    {
      var evt := evts[0];
      evts := evts[1..];
      out, h := Apply(evt);
    }

    /** drainEvents: whatever is queued is applied, unless a decision blocks it. */
    method DrainEvents() returns (packets: seq<Packet>, ghost hs: seq<State>)
      requires Valid() && run == Draining
      modifies this, sm
      ensures Valid() && (run == Stalled || (run == Draining && evts == []))
      ensures |hs| == |old(evts)| && (Abs(), packets) == Drain(old(Abs()), hs)
    {
      packets, hs := [], [];
      ghost var first := Abs();
      DrainsNothing(first);
      hide Drains, Drain, Take;
      while evts != [] && run == Draining
        invariant Valid() && (run == Draining || run == Stalled)
        invariant Drains(first, hs, Abs(), packets)
        decreases |evts|
      {
        ghost var before := Abs();
        var out, h := ApplyNext();
        DrainsOneMore(first, hs, before, packets, h);
        TakeStatus(before, h);
        packets := packets + out.packets;
        hs := hs + [h];
      }
      DrainsAll(first, hs, Abs(), packets);
      hs := hs + Unused(|evts|);
    }

    /** Abort: after a completed drain the instance is over and its state handed out; otherwise it never returns. */
    method Abort() returns (aborted: Option<AbortedState>, packets: seq<Packet>, ghost hs: seq<State>)
      requires Valid() && run == Running
      modifies this, sm
      ensures Valid() && |hs| == |old(evts)|
      ensures var (i, ps) := Drain(old(Abs()).(run := Draining), hs);
              && packets == ps
              && (i.run.Stalled? ==> aborted == None && Abs() == i)
              && (!i.run.Stalled? ==> aborted == Some(AbortedState(epochTs, i.current)) && Abs() == i.(run := Stopped))
    {
      run := Draining;
      packets, hs := DrainEvents();
      aborted := None;
      if run == Draining {
        aborted := Some(AbortedState(epochTs, current));
        run := Stopped;
      }
    }
  }
}

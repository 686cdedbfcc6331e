/** The uniform consensus node as the object it is, holding its current epoch instance. */
module UniformNodeObject {
  import opened Common
  import opened EpochInstance
  import opened UniformNode
  import UniformSystem
  import EC = EpochConsensus

  class ConsensusNode {
    const self: PID
    const processesCount: nat
    var ets: int
    var leader: PID
    var newTs: int
    var newLeader: PID
    var state: Option<State>
    var val: Option<Value>
    var proposed: bool
    var decided: Option<Value>
    var inner: EC.EpochConsensus?
    var inbox: Inbox

    /** The node as a value, between two turns of its loop. */
    function Abs(): Node
      reads this
    {
      Node(self, processesCount, ets, leader, newTs, newLeader, state, val, proposed, decided,
           inner != null, false, false, inbox)
    }

    ghost function Repr(): set<object>
      reads this
    {
      if inner == null then {this} else {this, inner, inner.sm}
    }

    /** A live inner instance belongs to the current epoch. */
    ghost predicate Valid()
      reads this, Repr()
    {
      inner != null ==>
        inner.Valid() && inner.self == self && inner.processesCount == processesCount && inner.epochTs == ets
    }

    /** Init and Start: epoch 0 begins with the initial state. */
    constructor (self: PID, processesCount: nat, leader: PID)
      ensures Valid() && Abs() == NewNode(self, processesCount, leader)
      ensures inner != null && fresh(inner) && fresh(inner.sm)
      ensures inner.Abs() == EpochInstance.Start(self, processesCount, leader, 0, State(0, None))
    {
      this.self, this.processesCount := self, processesCount;
      ets, this.leader, newTs, newLeader := 0, leader, 0, 0;
      state, val, proposed, decided := None, None, false, None;
      inner, inbox := null, map[];
      new;
      var order := StartEpoch();
      NothingDelivered(inner.Abs(), EpochInstance.Start(self, processesCount, leader, 0, State(0, None)),
                       Buffered(inbox, ets), order);
    }

    /** The decided case of background. */
    method TakeDecision(d: Decision) returns (published: Option<Value>)
      requires Valid()
      modifies this`decided
      ensures Valid() && Abs() == OnDecision(old(Abs()), d)
      ensures published == if d.ts == ets && old(decided).None? then Some(d.val) else None
    {
      published := None;
      if d.ts != ets || decided.Some? {
        return;
      }
      decided := Some(d.val);
      published := Some(d.val);
    }

    /** deliverOrPrepare. */
    method Deliver(id: nat, k: Packet)
      requires Valid()
      modifies Repr()
      ensures Valid() && inner == old(inner)
      ensures inner == null ==> Abs() == old(Abs()).(inbox := Push(old(inbox), k.msg.epoch, id, k))
      ensures inner == null ==> forall e, j ::
                j in Buffered(inbox, e) <==> j in Buffered(old(inbox), e) || (e == k.msg.epoch && j == id)
      ensures inner == null ==> forall e, j | j in Buffered(inbox, e) ::
                Buffered(inbox, e)[j] == if j in Buffered(old(inbox), e) then Buffered(old(inbox), e)[j] else k
      ensures inner != null ==> Abs() == old(Abs()) && inner.Abs() == DeliverTo(old(inner.Abs()), k.from, k.msg)
    {
      if inner == null {
        var e := k.msg.epoch;
        var buffered := Buffered(inbox, e);
        if id in buffered { return; }
        inbox := inbox[e := buffered[id := k]];
      } else {
        inner.Deliver(k.from, k.msg);
      }
    }

    /** maybePropose; without an inner instance the call panics. */
    method MaybePropose() returns (panics: bool)
      requires Valid()
      modifies Repr()
      ensures Valid() && inner == old(inner)
      ensures var (n, v) := OnProposeTick(old(Abs()));
              && Abs() == n.(halted := false) && panics == n.halted
              && (inner != null ==> inner.Abs() == if v.Some? then Enqueue(old(inner.Abs()), Propose(v.value))
                  else old(inner.Abs()))
    {
      panics := false;
      if leader == self && !proposed && val.Some? {
        proposed := true;
        if inner == null {
          panics := true;
        } else {
          inner.TriggerApply(Propose(val.value));
        }
      }
    }

    /** The new epoch case of background: a decided node queues a forced abort, any other aborts its instance. */
    method TakeEpoch(e: Epoch)
      returns (forced: Option<AbortedState>, aborted: Option<AbortedState>, packets: seq<Packet>, ghost hs: seq<State>)
      requires Valid() && (inner != null ==> inner.run == Running)
      modifies Repr()
      ensures Valid()
      ensures var (n, action) := OnEpoch(old(Abs()), e);
              && Abs() == n.(aborting := false)
              && forced == (if action.Force? then Some(action.a) else None)
              && (!action.AbortInner? ==> aborted == None && packets == [] && inner == old(inner))
              && (action.AbortInner? ==>
                    && old(inner) != null && |hs| == |old(inner.evts)| && EC.HasTemp(old(inner.Abs()))
                    && var (i, ps) := EC.Drain(old(inner.Abs()).(run := Draining), hs);
                    && packets == ps
                    && aborted == if i.run.Stalled? then None else Some(AbortedState(i.epochTs, i.current)))
    {
      forced, aborted, packets, hs := None, None, [], [];
      if e.ts <= ets {
        return;
      }
      newTs, newLeader := e.ts, e.leader;
      if decided.Some? {
        forced := Some(AbortedState(ets, State(ets, decided)));
        return;
      }
      if inner != null {
        var old_inner := inner;
        inner := null;
        aborted, packets, hs := old_inner.Abort();
      }
    }

    /** The aborted case of background: the next epoch starts with the carried state and the messages buffered for
        it. */
    method TakeAborted(a: AbortedState) returns (ghost order: seq<nat>)
      requires Valid()
      modifies this
      ensures Valid() && Abs() == OnAborted(old(Abs()), a)
      ensures a.ts != old(ets) ==> inner == old(inner)
      ensures a.ts == old(ets) ==>
                && fresh(inner) && fresh(inner.sm)
                && UniformSystem.IsDelivery(Buffered(old(inbox), ets), order)
                && (forall id | id in Buffered(old(inbox), ets) :: id in order)
                && inner.Abs() == UniformSystem.DeliverAll(Start(self, processesCount, leader, ets, a.state),
                                                           Buffered(old(inbox), ets), order)
    {
      order := [];
      if a.ts != ets {
        inbox := Clear(inbox, a.ts);
        return;
      }
      state := Some(a.state);
      ets, leader := newTs, newLeader;
      proposed := false;
      order := StartEpoch();
      inbox := Clear(inbox, a.ts);
    }

    /** startEpoch: a new instance, then the buffered messages in whatever order the map yields them. */
    method StartEpoch() returns (ghost order: seq<nat>)
      modifies this`inner
      ensures inner != null && fresh(inner) && fresh(inner.sm) && Valid()
      ensures UniformSystem.IsDelivery(Buffered(inbox, ets), order)
      ensures forall id | id in Buffered(inbox, ets) :: id in order
      ensures inner.Abs() == UniformSystem.DeliverAll(Start(self, processesCount, leader, ets, Carried(Abs())),
                                                      Buffered(inbox, ets), order)
    {
      var ec := new EC.EpochConsensus(self, processesCount);
      inner := ec;
      var st := State(0, None);
      if state.Some? {
        st := state.value;
      }
      ec.StartEpoch(leader, ets, st);
      ghost var start := ec.Abs();
      var buffered := Buffered(inbox, ets);
      var left := buffered.Keys;
      order := [];
      while left != {}
        invariant inner == ec && fresh(ec) && fresh(ec.sm) && ec.Valid() && Abs() == old(Abs()).(inner := true)
        invariant left <= buffered.Keys
        invariant UniformSystem.IsDelivery(buffered, order)
        invariant forall id | id in buffered :: id in left <==> id !in order
        invariant ec.Abs() == UniformSystem.DeliverAll(start, buffered, order)
        invariant ec.epochTs == ets && ec.self == self && ec.processesCount == processesCount
        decreases left
      {
        var id := PickAny(left);
        ec.Deliver(buffered[id].from, buffered[id].msg);
        assert (order + [id])[..|order|] == order;
        order := order + [id];
        left := left - {id};
      }
    }
  }

  lemma NothingDelivered(i: Inst, start: Inst, buffered: map<nat, Packet>, order: seq<nat>)
    requires buffered == map[] && UniformSystem.IsDelivery(buffered, order)
    requires i == UniformSystem.DeliverAll(start, buffered, order)
    ensures i == start
  {
    assert forall k | 0 <= k < |order| :: order[k] in buffered;
  }
}

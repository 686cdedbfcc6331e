/** What nodes and instances owe each other in every run: answers and acknowledgements, also while an abort drains the
    queue, decisions published or lost, proposals passed on, and the way of a decided node into the next epoch. */
module UniformEffects {
  import opened Common
  import opened EpochInstance
  import opened UniformNode
  import opened UniformSystem
  import opened UniformInvariant
  import opened UniformNodeSteps

  ghost predicate AppliesNext(c: Config, s: Sys, p: PID, e: int, h: State, evt: Event) {
    Enabled(c, s, ApplyEvent(p, e, h)) && s.insts[(p, e)].queue[0] == evt
  }

  /** The step only touches this instance, takes the event off its queue and sends these packets. */
  ghost predicate OnlyThis(s: Sys, s': Sys, p: PID, e: int, out: seq<Packet>) {
    && (p, e) in s.insts && (p, e) in s'.insts && s.insts[(p, e)].queue != []
    && s' == s.(insts := s.insts[(p, e) := s'.insts[(p, e)]], sent := s'.sent, chans := s'.chans)
    && s'.insts[(p, e)].queue == s.insts[(p, e)].queue[1..] && s'.sent == s.sent + out
  }

  /** A READ is answered to the leader with the stored state, whether the instance runs or an abort drains its queue. */
  lemma ReadAnswered(c: Config, run: seq<Sys>, i: nat, p: PID, e: int, h: State, l: PID)
    requires ValidConfig(c) && IsRun(c, run) && i < |run| && AppliesNext(c, run[i], p, e, h, HandleRead(l))
    ensures l == c.leaderOf(e)
    ensures var s, s' := run[i], Do(c, run[i], ApplyEvent(p, e, h));
            && OnlyThis(s, s', p, e, [Packet(p, To(l), StateMsg(s.insts[(p, e)].current, e))])
            && s'.insts[(p, e)].current == s.insts[(p, e)].current && s'.chans == s.chans
  {
    hide IsRun, Inv;
    RunInv(c, run, i);
    UniformInvariant.At(c, run[i], (p, e));
  }

  /** A WRITE is stored and acknowledged to the leader, also while an abort drains the queue. */
  lemma WriteAcknowledged(c: Config, run: seq<Sys>, i: nat, p: PID, e: int, h: State, l: PID, v: Option<Value>)
    requires ValidConfig(c) && IsRun(c, run) && i < |run| && AppliesNext(c, run[i], p, e, h, HandleWrite(l, v))
    ensures l == c.leaderOf(e) && v.Some?
    ensures var s, s' := run[i], Do(c, run[i], ApplyEvent(p, e, h));
            && OnlyThis(s, s', p, e, [Packet(p, To(l), AcceptMsg(e))])
            && s'.insts[(p, e)].current == State(e, v) && s'.chans == s.chans
  {
    hide IsRun, Inv;
    RunInv(c, run, i);
    UniformInvariant.At(c, run[i], (p, e));
  }

  /** A DECIDED for an instance that waits for it stops the instance for good. While it runs the node is told; while an
      abort drains the queue the decision is lost and the abort never returns. */
  lemma DecisionPublished(c: Config, run: seq<Sys>, i: nat, p: PID, e: int, h: State, v: Value)
    requires ValidConfig(c) && IsRun(c, run) && i < |run| && AppliesNext(c, run[i], p, e, h, Decided(v))
    requires run[i].insts[(p, e)].phase.Deciding? || run[i].insts[(p, e)].phase.Idle?
    ensures var s, s' := run[i], Do(c, run[i], ApplyEvent(p, e, h));
            && OnlyThis(s, s', p, e, []) && s'.insts[(p, e)].run.Stalled?
            && s'.insts[(p, e)].current == s.insts[(p, e)].current
            && (s.insts[(p, e)].run.Running? ==>
                  s'.chans == s.chans[p := s.chans[p].(decisions := s.chans[p].decisions + multiset{Decision(e, v)})])
            && (s.insts[(p, e)].run.Draining? ==> s'.chans == s.chans)
  {
    assert run[i].sent + [] == run[i].sent;
  }

  /** The leader that is handed a value while it proposes keeps it and asks all for their states, unless an abort
      drains its queue. */
  lemma ProposalAsks(c: Config, run: seq<Sys>, i: nat, l: PID, e: int, h: State, v: Value)
    requires ValidConfig(c) && IsRun(c, run) && i < |run| && AppliesNext(c, run[i], l, e, h, Propose(v))
    requires run[i].insts[(l, e)].phase.Proposing?
    ensures var s, s' := run[i], Do(c, run[i], ApplyEvent(l, e, h));
            && l == c.leaderOf(e)
            && OnlyThis(s, s', l, e, if s.insts[(l, e)].run.Running? then [Packet(l, All, ReadMsg(e))] else [])
            && s'.insts[(l, e)].phase.Reading? && s'.insts[(l, e)].tempValue == Some(v)
  {
    hide IsRun, Inv;
    RunInv(c, run, i);
    UniformInvariant.At(c, run[i], (l, e));
    assert run[i].sent + [] == run[i].sent;
  }

  /** Answers, acknowledgements, proposals and decisions that come when the instance waits for something else are taken
      off the queue and have no other effect. */
  lemma OthersIgnored(c: Config, run: seq<Sys>, i: nat, p: PID, e: int, h: State, evt: Event)
    requires ValidConfig(c) && IsRun(c, run) && i < |run| && AppliesNext(c, run[i], p, e, h, evt)
    requires !evt.HandleRead? && !evt.HandleWrite?
    requires evt.Propose? ==> !run[i].insts[(p, e)].phase.Proposing?
    requires evt.ReceivedRead? ==> !run[i].insts[(p, e)].phase.Reading?
    requires evt.ReceivedAccept? ==> !run[i].insts[(p, e)].phase.Writing?
    requires evt.Decided? ==> !run[i].insts[(p, e)].phase.Deciding? && !run[i].insts[(p, e)].phase.Idle?
    ensures var s := run[i];
            Do(c, s, ApplyEvent(p, e, h))
            == s.(insts := s.insts[(p, e) := s.insts[(p, e)].(queue := s.insts[(p, e)].queue[1..])])
  {
    assert run[i].sent + [] == run[i].sent;
  }

  /** The leader that has read from a majority fixes a value, the one of a highest state if that has one, and writes it
      to all; while an abort drains the queue it fixes it but sends nothing. Below a majority it only counts. */
  lemma ReadCounted(c: Config, run: seq<Sys>, i: nat, l: PID, e: int, h: State, p: PID, st: State)
    requires ValidConfig(c) && IsRun(c, run) && i < |run| && AppliesNext(c, run[i], l, e, h, ReceivedRead(p, st))
    requires run[i].insts[(l, e)].phase.Reading?
    ensures var s, s' := run[i], Do(c, run[i], ApplyEvent(l, e, h));
            var states := s.insts[(l, e)].received[p := st];
            var v := if h.val.Some? then h.val else s.insts[(l, e)].tempValue;
            if |states| < Quorum(|c.procs|) then
              OnlyThis(s, s', l, e, []) && s'.insts[(l, e)].phase.Reading? && s'.insts[(l, e)].received == states
            else
              && IsHighest(states, h) && v.Some?
              && OnlyThis(s, s', l, e, if s.insts[(l, e)].run.Running? then [Packet(l, All, WriteMsg(v, e))] else [])
              && s'.insts[(l, e)].phase.Writing? && s'.insts[(l, e)].tempValue == v
              && s'.insts[(l, e)].received == map[]
  {
    hide IsRun, Inv, IsHighest;
    RunInv(c, run, i);
    UniformInvariant.At(c, run[i], (l, e));
    assert run[i].sent + [] == run[i].sent;
  }

  /** The leader counts every acknowledgement and announces the decision to all at the majority, unless an abort drains
      its queue. */
  lemma AcceptCounted(c: Config, run: seq<Sys>, i: nat, l: PID, e: int, h: State, p: PID)
    requires ValidConfig(c) && IsRun(c, run) && i < |run| && AppliesNext(c, run[i], l, e, h, ReceivedAccept(p))
    requires run[i].insts[(l, e)].phase.Writing?
    ensures var s, s' := run[i], Do(c, run[i], ApplyEvent(l, e, h));
            var i0, i1 := s.insts[(l, e)], s'.insts[(l, e)];
            && i0.tempValue.Some? && i1.accepted == i0.accepted + 1 && i1.tempValue == i0.tempValue
            && if i1.accepted < Quorum(|c.procs|) then OnlyThis(s, s', l, e, []) && i1.phase.Writing?
               else
                 && i1.phase.Deciding?
                 && OnlyThis(s, s', l, e,
                             if i0.run.Running? then [Packet(l, All, DecidedMsg(i0.tempValue.value, e))] else [])
  {
    hide IsRun, Inv;
    RunInv(c, run, i);
    UniformInvariant.At(c, run[i], (l, e));
    assert run[i].sent + [] == run[i].sent;
  }

  // ---- Nodes ----

  /** A leader that has a value and has proposed nothing in its epoch hands the value to its instance, decided or not;
      without an instance it stops for good. Nobody else proposes. */
  lemma ProposalPassedOn(c: Config, run: seq<Sys>, i: nat, p: PID)
    requires ValidConfig(c) && IsRun(c, run) && i < |run| && Enabled(c, run[i], ProposeTick(p))
    ensures var s, s', n := run[i], Do(c, run[i], ProposeTick(p)), run[i].nodes[p];
      if n.leader == p && !n.proposed && n.val.Some? then
        && s'.nodes[p] == n.(proposed := true, halted := !n.inner)
        && (n.inner && s.insts[(p, n.ets)].run.Running? ==>
              var i := s.insts[(p, n.ets)];
              s'.insts == s.insts[(p, n.ets) := i.(queue := i.queue + [Propose(n.val.value)])])
      else s' == s
  {
    hide IsRun, Inv;
    RunInv(c, run, i);
    SentAt(c, run[i]);
    NodeAt(c, run[i], p);
    var s, n := run[i], run[i].nodes[p];
    assert n.halted == false;
    assert s.nodes[p := s.nodes[p]] == s.nodes;
  }

  /** An epoch that is not newer than the node's own is dropped; a newer one is noted, and then a decided node makes up
      a state with its decision and the timestamp of its epoch, and any other cancels its instance. */
  lemma EpochNoted(c: Config, run: seq<Sys>, i: nat, p: PID)
    requires ValidConfig(c) && IsRun(c, run) && i < |run| && Enabled(c, run[i], TakeEpoch(p))
    ensures var s, s', n := run[i], Do(c, run[i], TakeEpoch(p)), run[i].nodes[p];
      var e := s.chans[p].epochs[0];
      && s'.chans[p].epochs == s.chans[p].epochs[1..] && s'.sent == s.sent
      && if e.ts <= n.ets then s'.nodes == s.nodes && s'.insts == s.insts && s'.chans[p].aborts == s.chans[p].aborts
         else
           && s'.nodes[p].newTs == e.ts && s'.nodes[p].newLeader == e.leader && s'.nodes[p].ets == n.ets
           && (n.decided.Some? ==>
                 && s'.chans[p].aborts == s.chans[p].aborts + multiset{AbortedState(n.ets, State(n.ets, n.decided))}
                 && s'.insts == s.insts && s'.nodes[p].inner == n.inner)
           && (n.decided.None? && n.inner ==>
                 && !s'.nodes[p].inner && s'.nodes[p].aborting && s'.chans[p].aborts == s.chans[p].aborts
                 && s'.insts == s.insts[(p, n.ets) := CancelInner(s.insts[(p, n.ets)])])
           && (n.decided.None? && !n.inner ==> s'.chans[p].aborts == s.chans[p].aborts && s'.insts == s.insts)
  {
    var s := run[i];
    assert s.nodes[p := s.nodes[p]] == s.nodes;
  }

  /** A decided node that is told of a newer epoch can always enter it, whatever its instance is doing: with its
      decision, under the timestamp of the epoch it decided in, and not proposing yet. */
  lemma DecidedMovesOn(c: Config, run: seq<Sys>, i: nat, p: PID) returns (s1: Sys, s2: Sys)
    requires ValidConfig(c) && IsRun(c, run) && i < |run| && Enabled(c, run[i], TakeEpoch(p))
    requires run[i].nodes[p].decided.Some? && run[i].chans[p].epochs[0].ts > run[i].nodes[p].ets
    ensures Next(c, run[i], s1) && Next(c, s1, s2) && p in s2.nodes
    ensures var n, e, n2 := run[i].nodes[p], run[i].chans[p].epochs[0], s2.nodes[p];
      && n2.ets == e.ts && n2.leader == e.leader && n2.decided == n.decided && n2.inner && !n2.proposed
      && (p, e.ts) in s2.insts && s2.insts[(p, e.ts)] == Start(p, n.n, e.leader, e.ts, State(n.ets, n.decided))
  {
    hide IsRun, Inv;
    RunInv(c, run, i);
    SentAt(c, run[i]);
    NodeAt(c, run[i], p);
    var s, n := run[i], run[i].nodes[p];
    var a := AbortedState(n.ets, State(n.ets, n.decided));
    EpochNoted(c, run, i, p);
    s1 := Do(c, s, TakeEpoch(p));
    var t := TakeAborted(p, a, []);
    assert a in s1.chans[p].aborts;
    assert Enabled(c, s1, t);
    s2 := Do(c, s1, t);
    assert Next(c, s, s1) && Next(c, s1, s2);
  }
}

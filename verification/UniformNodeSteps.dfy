/** The steps of the nodes' loops and of the links keep the invariant; with UniformSteps this covers every step. */
module UniformNodeSteps {
  import opened Common
  import opened EpochInstance
  import opened UniformNode
  import opened UniformSystem
  import opened UniformInvariant
  import opened UniformSteps

  // ---- Steps that touch no instance ----

  lemma Assembled(c: Config, s: Sys, s': Sys, p: PID)
    requires Inv(c, s) && p in c.procs
    requires s' == s.(nodes := s'.nodes, chans := s'.chans, delivered := s'.delivered, proposed := s'.proposed,
                      taken := s'.taken, held := s'.held)
    requires s.delivered <= s'.delivered && s.proposed <= s'.proposed && s.taken <= s'.taken
    requires forall d | d in s'.delivered :: d.1 < |s.sent|
    requires s'.nodes.Keys == c.procs && s'.chans.Keys == c.procs
    requires forall q | q in c.procs && q != p ::
               q in s.nodes && q in s.chans && s'.nodes[q] == s.nodes[q] && s'.chans[q] == s.chans[q]
    requires InvNode(c, s', p) && InvChans(c, s', p)
    ensures Inv(c, s') && Grows(c, s, s')
  {
    hide Inv, InvInst, InvQueue, InvNode, InvChans, InvUnique, InvPacket;
    SameInsts(c, s, s');
    var k := (p, s.nodes[p].ets) by { NodeAt(c, s, p); }
    OwnInst(c, s, p);
    SentAt(c, s);
    UniqueSame(s, s');
    At(c, s, k);
    InstKept(c, s, s', k);
    QueueKept(c, s, s', k, k);
    assert s'.insts.Keys == s.insts.Keys + {k};
    hide Grows;
    Assemble(c, s, s', k);
  }

  lemma OwnInst(c: Config, s: Sys, p: PID)
    requires Inv(c, s) && p in c.procs
    ensures p in s.nodes && (p, s.nodes[p].ets) in s.insts
  {
    hide Inv;
    NodeAt(c, s, p);
  }

  lemma SameInsts(c: Config, s: Sys, s': Sys)
    requires s'.insts == s.insts && s'.sent == s.sent && s.delivered <= s'.delivered && s.proposed <= s'.proposed
    requires s.taken <= s'.taken
    ensures Grows(c, s, s')
  {
  }

  lemma ClientStep(c: Config, s: Sys, p: PID, v: Value)
    requires Inv(c, s) && p in c.procs && p in s.nodes
    ensures var s' := s.(nodes := s.nodes[p := s.nodes[p].(val := Some(v))], proposed := s.proposed + {v});
            Inv(c, s') && Grows(c, s, s')
  {
    hide Inv;
    var s' := s.(nodes := s.nodes[p := s.nodes[p].(val := Some(v))], proposed := s.proposed + {v});
    SameInsts(c, s, s');
    NodeAt(c, s, p);
    SentAt(c, s);
    hide Grows;
    assert InvNode(c, s', p) by { NodeDecidedKept(c, s, s', p); }
    ChansKept(c, s, s', p);
    Assembled(c, s, s', p);
  }

  lemma NodeDecidedKept(c: Config, s: Sys, s': Sys, p: PID)
    requires Inv(c, s) && Grows(c, s, s') && p in c.procs
    ensures p in s.nodes && (s.nodes[p].decided.Some? ==> DecidedBy(s', s.nodes[p].ets, s.nodes[p].decided.value))
    ensures InvInbox(s', p, s.nodes[p].inbox)
  {
    hide Inv;
    NodeAt(c, s, p);
    GrowsOnly(c, s, s');
    hide Grows;
    if s.nodes[p].decided.Some? { DecidedByGrows(s, s', s.nodes[p].ets, s.nodes[p].decided.value); }
    InboxKept(s, s', p, s.nodes[p].inbox);
  }

  lemma DecisionStep(c: Config, s: Sys, p: PID, d: Decision)
    requires Inv(c, s) && p in c.procs && p in s.nodes && p in s.chans && d in s.chans[p].decisions
    ensures var s' := s.(nodes := s.nodes[p := OnDecision(s.nodes[p], d)],
                         chans := s.chans[p := s.chans[p].(decisions := s.chans[p].decisions - multiset{d})],
                         taken := s.taken + TakenBy(s.nodes[p], d));
            Inv(c, s') && Grows(c, s, s')
  {
    hide Inv;
    var s' := s.(nodes := s.nodes[p := OnDecision(s.nodes[p], d)],
                 chans := s.chans[p := s.chans[p].(decisions := s.chans[p].decisions - multiset{d})],
                 taken := s.taken + TakenBy(s.nodes[p], d));
    SameInsts(c, s, s');
    NodeAt(c, s, p);
    SentAt(c, s);
    hide Grows, DecideSent;
    NodeDecidedKept(c, s, s', p);
    assert DecideSent(s', d.ts, d.val) by { DecideSentGrows(s, s', d.ts, d.val); }
    assert InvNode(c, s', p);
    FewerChans(c, s, s', p);
    Assembled(c, s, s', p);
  }

  /** Taking something out of the channels leaves a good remainder. */
  lemma FewerChans(c: Config, s: Sys, s': Sys, p: PID)
    requires Inv(c, s) && Grows(c, s, s') && p in c.procs && p in s.nodes && p in s.chans && p in s'.nodes
    requires p in s'.chans
    requires s'.nodes[p].ets == s.nodes[p].ets && s'.nodes[p].newTs == s.nodes[p].newTs
    requires s'.nodes[p].newLeader == s.nodes[p].newLeader
    requires s'.chans[p].epochs == s.chans[p].epochs
    requires s'.chans[p].aborts <= s.chans[p].aborts && s'.chans[p].decisions <= s.chans[p].decisions
    ensures InvChans(c, s', p)
  {
    hide Inv, Carriable, DecideSent;
    NodeAt(c, s, p);
    GrowsOnly(c, s, s');
    hide Grows;
    forall a | a in s'.chans[p].aborts && a.ts == s.nodes[p].ets ensures Carriable(c, s', p, s.nodes[p].ets, a.state) {
      CarriableGrows(c, s, s', p, s.nodes[p].ets, a.state);
    }
    forall d | d in s'.chans[p].decisions ensures d.val in s.proposed && DecideSent(s', d.ts, d.val) {
      DecideSentGrows(s, s', d.ts, d.val);
    }
  }

  lemma ArrivalStep(c: Config, s: Sys, p: PID, epoch: Epoch)
    requires Inv(c, s) && p in c.procs && p in s.chans && 0 < epoch.ts && epoch.leader == c.leaderOf(epoch.ts)
    ensures var s' := s.(chans := s.chans[p := s.chans[p].(epochs := s.chans[p].epochs + [epoch])]);
            Inv(c, s') && Grows(c, s, s')
  {
    hide Inv;
    var s' := s.(chans := s.chans[p := s.chans[p].(epochs := s.chans[p].epochs + [epoch])]);
    var mid := s;
    SameInsts(c, s, s');
    NodeAt(c, s, p);
    SentAt(c, s);
    NodeKept(c, s, s', p);
    hide Grows;
    FewerChans(c, s, s, p) by { SameInsts(c, s, s); }
    forall a | a in s'.chans[p].aborts && a.ts == s.nodes[p].ets ensures Carriable(c, s', p, s.nodes[p].ets, a.state) {
      CarriableGrows(c, s, s', p, s.nodes[p].ets, a.state);
    }
    assert InvChans(c, s', p);
    Assembled(c, s, s', p);
  }

  // ---- One more event in an instance's queue ----

  lemma CountAppend(q: seq<Event>, evt: Event)
    ensures CountAccepts(q + [evt]) == CountAccepts(q) + if evt.ReceivedAccept? then 1 else 0
  {
    assert (q + [evt])[..|q|] == q;
  }

  ghost predicate Appended(s: Sys, s': Sys, k: Key, evt: Event) {
    && k in s.insts && k.0 in s.nodes && k.0 in s'.nodes
    && s' == s.(insts := s.insts[k := s.insts[k].(queue := s.insts[k].queue + [evt])],
                nodes := s'.nodes, delivered := s'.delivered)
    && s'.nodes == s.nodes[k.0 := s'.nodes[k.0]]
    && s'.nodes[k.0] == s.nodes[k.0].(proposed := s'.nodes[k.0].proposed, halted := s'.nodes[k.0].halted)
    && s.delivered <= s'.delivered
  }

  lemma AppendedGrows(c: Config, s: Sys, s': Sys, k: Key, evt: Event)
    requires Appended(s, s', k, evt)
    ensures Grows(c, s, s')
  {
  }

  lemma AppendStep(c: Config, s: Sys, s': Sys, k: Key, evt: Event)
    requires Inv(c, s) && Appended(s, s', k, evt)
    requires InvEvent(c, s', k, evt)
    requires evt.HandleWrite? ==> forall j | 0 <= j < |s.insts[k].queue| :: !s.insts[k].queue[j].HandleWrite?
    requires evt.ReceivedAccept? ==> |AcceptsSeen(c, s', k.1)| > |AcceptsSeen(c, s, k.1)|
    requires forall d | d in s'.delivered :: d.1 < |s.sent|
    ensures Inv(c, s') && Grows(c, s, s')
  {
    hide Inv, InvEvent, Grows;
    AppendedGrows(c, s, s', k, evt);
    AppendInst(c, s, s', k, evt);
    AppendQueue(c, s, s', k, evt);
    NodeFlags(c, s, s', k.0);
    ChansKept(c, s, s', k.0) by { At(c, s, k); }
    At(c, s, k);
    SentAt(c, s);
    UniqueSame(s, s');
    assert s'.insts.Keys == s.insts.Keys + {k};
    hide InvInst, InvQueue, InvNode, InvChans, InvUnique;
    Assemble(c, s, s', k);
  }

  lemma NodeFlags(c: Config, s: Sys, s': Sys, p: PID)
    requires Inv(c, s) && Grows(c, s, s') && p in c.procs && p in s.nodes && p in s'.nodes
    requires s'.nodes[p] == s.nodes[p].(proposed := s'.nodes[p].proposed, halted := s'.nodes[p].halted)
    requires s'.insts.Keys == s.insts.Keys
    ensures InvNode(c, s', p)
  {
    hide Inv;
    NodeAt(c, s, p);
    NodeDecidedKept(c, s, s', p);
    GrowsOnly(c, s, s');
    hide Grows;
  }

  lemma AppendInst(c: Config, s: Sys, s': Sys, k: Key, evt: Event)
    requires Inv(c, s) && Appended(s, s', k, evt) && Grows(c, s, s')
    requires evt.ReceivedAccept? ==> |AcceptsSeen(c, s', k.1)| > |AcceptsSeen(c, s, k.1)|
    ensures InvInst(c, s', k)
  {
    hide Inv, InvEvent, InvQueue, CurrentOk, PhaseOk, Grows;
    At(c, s, k);
    CurrentKept(c, s, s', k, s.insts[k].current);
    PhaseKept(c, s, s', k, s.insts[k]);
    SamePhase(c, s', k, s.insts[k], s'.insts[k]);
    CountAppend(s.insts[k].queue, evt);
    AcceptsSeenGrows(c, s, s', k.1);
  }

  lemma AppendQueue(c: Config, s: Sys, s': Sys, k: Key, evt: Event)
    requires Inv(c, s) && Appended(s, s', k, evt) && Grows(c, s, s')
    requires InvEvent(c, s', k, evt)
    requires evt.HandleWrite? ==> forall j | 0 <= j < |s.insts[k].queue| :: !s.insts[k].queue[j].HandleWrite?
    ensures InvQueue(c, s', k)
  {
    hide Inv, InvEvent, Grows, ShapeOk, CurrentOk, PhaseOk, CounterOk;
    var q := s.insts[k].queue;
    At(c, s, k);
    forall j | 0 <= j < |q| ensures InvEvent(c, s', k, q[j]) {
      EventKept(c, s, s', k, q[j]);
    }
  }

  lemma TickStep(c: Config, s: Sys, p: PID)
    requires Inv(c, s) && p in c.procs && p in s.nodes
    requires s.nodes[p].inner ==> (p, s.nodes[p].ets) in s.insts
    ensures Inv(c, DoTick(s, p)) && Grows(c, s, DoTick(s, p))
  {
    hide Inv, Grows, InvQueue;
    var s' := DoTick(s, p);
    var n := s.nodes[p];
    NodeAt(c, s, p);
    SentAt(c, s);
    if n.leader == n.self && !n.proposed && n.val.Some? && n.inner && s.insts[(p, n.ets)].run.Running? {
      AppendStep(c, s, s', (p, n.ets), Propose(n.val.value));
    } else {
      assert s'.insts == s.insts;
      SameInsts(c, s, s');
      NodeFlags(c, s, s', p);
      ChansKept(c, s, s', p);
      hide InvNode, InvChans;
      Assembled(c, s, s', p);
    }
  }

  // ---- Receiving a packet ----

  /** There is one write packet an epoch, and links hand it to a process once. */
  lemma WriteUnseen(c: Config, s: Sys, p: PID, id: nat)
    requires Inv(c, s) && id < |s.sent| && s.sent[id].msg.WriteMsg? && (p, id) !in s.delivered
    ensures !WriteSeen(s, p, s.sent[id].msg.epoch)
    ensures !AcceptSent(s, p, s.sent[id].msg.epoch)
  {
    hide Inv;
    var e := s.sent[id].msg.epoch;
    SentAt(c, s);
    forall j | 0 <= j < |s.sent| && IsWrite(s.sent[j], e) ensures j == id {
      assert SamePurpose(s.sent[j], s.sent[id]) && SamePurpose(s.sent[id], s.sent[j]);
    }
    assert !WriteSeen(s, p, e);
    forall j | 0 <= j < |s.sent| ensures !(s.sent[j].from == p && s.sent[j].msg == AcceptMsg(e)) {
      hide WriteSeen;
      PacketAt(c, s, j);
    }
  }

  lemma AcceptCounted(c: Config, s: Sys, s': Sys, id: nat)
    requires Inv(c, s) && id < |s.sent| && s.sent[id].msg.AcceptMsg?
    requires (c.leaderOf(s.sent[id].msg.epoch), id) !in s.delivered
    requires s'.sent == s.sent && s'.delivered == s.delivered + {(c.leaderOf(s.sent[id].msg.epoch), id)}
    ensures |AcceptsSeen(c, s', s.sent[id].msg.epoch)| > |AcceptsSeen(c, s, s.sent[id].msg.epoch)|
  {
    hide Inv;
    var e := s.sent[id].msg.epoch;
    var from := s.sent[id].from;
    SentAt(c, s);
    assert from in c.procs by { PacketAt(c, s, id); }
    forall j | 0 <= j < |s.sent| && s.sent[j].from == from && s.sent[j].msg == AcceptMsg(e) ensures j == id {
      assert SamePurpose(s.sent[j], s.sent[id]) && SamePurpose(s.sent[id], s.sent[j]);
    }
    assert !AcceptSeen(s, c.leaderOf(e), from, e);
    AcceptsSeenGrows(c, s, s', e);
    assert s'.sent[id].from == from && (c.leaderOf(e), id) in s'.delivered;
    assert AcceptSeen(s', c.leaderOf(e), from, e);
    SubsetCard(AcceptsSeen(c, s, e) + {from}, AcceptsSeen(c, s', e));
  }

  lemma ReceiveInner(c: Config, s: Sys, s': Sys, p: PID, id: nat, evt: Event)
    requires Inv(c, s) && p in c.procs && p in s.nodes && id < |s.sent| && (p, id) !in s.delivered
    requires s.sent[id].dest == All || s.sent[id].dest == To(p)
    requires (p, s.nodes[p].ets) in s.insts && s.insts[(p, s.nodes[p].ets)].run.Running?
    requires Admit(s.insts[(p, s.nodes[p].ets)], s.sent[id].from, s.sent[id].msg) == Some(evt)
    requires var k := (p, s.nodes[p].ets);
             s' == s.(insts := s.insts[k := s.insts[k].(queue := s.insts[k].queue + [evt])],
                      delivered := s.delivered + {(p, id)})
    ensures Inv(c, s') && Grows(c, s, s')
  {
    hide Inv, Report;
    var k := (p, s.nodes[p].ets);
    At(c, s, k);
    PacketAt(c, s, id);
    SentAt(c, s);
    assert s'.nodes == s.nodes[p := s'.nodes[p]];
    AppendedGrows(c, s, s', k, evt);
    hide Grows, CurrentOk, PhaseOk, CounterOk;
    match s.sent[id].msg {
      case StateMsg(st, e) => ReportKept(c, s, s', s.sent[id].from, e, st);
      case WriteMsg(v, e) =>
        WriteUnseen(c, s, p, id);
        assert WriteSeen(s', p, e);
      case AcceptMsg(e) =>
        assert k.0 == c.leaderOf(e);
        AcceptCounted(c, s, s', id);
      case ReadMsg(_) =>
      case DecidedMsg(v, e) => assert DecideSent(s', e, v);
    }
    hide InvInst, ShapeOk, Chosen, Written, InvPacket;
    AppendStep(c, s, s', k, evt);
  }

  lemma ReceiveStep(c: Config, s: Sys, p: PID, id: nat)
    requires Inv(c, s) && p in c.procs && p in s.nodes && id < |s.sent| && (p, id) !in s.delivered
    requires s.sent[id].dest == All || s.sent[id].dest == To(p)
    requires s.nodes[p].inner ==> (p, s.nodes[p].ets) in s.insts
    ensures Inv(c, DoReceive(s, p, id)) && Grows(c, s, DoReceive(s, p, id))
  {
    hide Inv, Grows;
    var s' := DoReceive(s, p, id);
    var n := s.nodes[p];
    var k := (p, n.ets);
    if n.inner && s.insts[k].run.Running? && Admit(s.insts[k], s.sent[id].from, s.sent[id].msg).Some? {
      ReceiveInner(c, s, s', p, id, Admit(s.insts[k], s.sent[id].from, s.sent[id].msg).value);
    } else {
      NodeAt(c, s, p);
      SentAt(c, s);
      assert s'.insts == s.insts;
      SameInsts(c, s, s');
      NodeDecidedKept(c, s, s', p);
      if !n.inner {
        assert InvInbox(s', p, s'.nodes[p].inbox);
      }
      ChansKept(c, s, s', p);
      assert InvNode(c, s', p);
      hide InvNode, InvChans;
      Assembled(c, s, s', p);
    }
  }

  // ---- New epochs and aborts ----

  /** What an abort by a new epoch may carry on: the state of a decided node's forced abort. */
  lemma ForcedCarriable(c: Config, s: Sys, p: PID)
    requires Inv(c, s) && p in c.procs && p in s.nodes && s.nodes[p].decided.Some?
    ensures Carriable(c, s, p, s.nodes[p].ets, State(s.nodes[p].ets, s.nodes[p].decided))
  {
    hide Inv;
    NodeAt(c, s, p);
    hide InvChans;
    var st := State(s.nodes[p].ets, s.nodes[p].decided);
    forall e' | (p, e') in s.insts && e' < s.nodes[p].ets + 1 ensures Sealed(s.insts[(p, e')], st) {
      At(c, s, (p, e'));
    }
  }

  lemma EpochChans(c: Config, s: Sys, s': Sys, p: PID, epoch: Epoch)
    requires Inv(c, s) && Grows(c, s, s') && p in c.procs && p in s.nodes && p in s.chans && p in s'.nodes
    requires p in s'.chans
    requires s.nodes[p].ets < epoch.ts && epoch.leader == c.leaderOf(epoch.ts)
    requires s'.nodes[p].ets == s.nodes[p].ets && s'.nodes[p].newTs == epoch.ts && s'.nodes[p].newLeader == epoch.leader
    requires s.chans[p].epochs != [] && s'.chans[p].epochs == s.chans[p].epochs[1..]
    requires s'.chans[p].decisions == s.chans[p].decisions
    requires forall a | a in s'.chans[p].aborts ::
               a in s.chans[p].aborts || (a.ts == s.nodes[p].ets && Carriable(c, s, p, a.ts, a.state))
    ensures InvChans(c, s', p)
  {
    hide Inv, Carriable, DecideSent;
    NodeAt(c, s, p);
    GrowsOnly(c, s, s');
    hide Grows, InvNode;
    forall a | a in s'.chans[p].aborts && a.ts == s.nodes[p].ets ensures Carriable(c, s', p, s.nodes[p].ets, a.state) {
      CarriableGrows(c, s, s', p, s.nodes[p].ets, a.state);
    }
    forall d | d in s'.chans[p].decisions ensures d.val in s.proposed && DecideSent(s', d.ts, d.val) {
      DecideSentGrows(s, s', d.ts, d.val);
    }
  }

  /** Only the run status of k changes, and not away from Stopped. */
  ghost predicate Rerun(s: Sys, s': Sys, k: Key) {
    && k in s.insts && k in s'.insts
    && s' == s.(insts := s.insts[k := s.insts[k].(run := s'.insts[k].run)], nodes := s'.nodes, chans := s'.chans)
    && (s.insts[k].run.Stopped? ==> s'.insts[k].run.Stopped?)
  }

  lemma RerunStep(c: Config, s: Sys, s': Sys, k: Key)
    requires Inv(c, s) && Rerun(s, s', k) && Grows(c, s, s')
    requires s'.nodes.Keys == c.procs && s'.chans.Keys == c.procs
    requires forall q | q in c.procs && q != k.0 ::
               q in s.nodes && q in s.chans && s'.nodes[q] == s.nodes[q] && s'.chans[q] == s.chans[q]
    requires InvNode(c, s', k.0) && InvChans(c, s', k.0)
    ensures Inv(c, s')
  {
    hide Inv, Grows, InvEvent, CurrentOk, PhaseOk, InvNode, InvChans, InvUnique, InvPacket;
    At(c, s, k);
    SentAt(c, s);
    UniqueSame(s, s');
    CurrentKept(c, s, s', k, s.insts[k].current);
    PhaseKept(c, s, s', k, s.insts[k]);
    SamePhase(c, s', k, s.insts[k], s'.insts[k]);
    assert InvInst(c, s', k) by { AcceptsSeenGrows(c, s, s', k.1); }
    QueueKept(c, s, s', k, k);
    hide InvInst, InvQueue;
    assert s'.insts.Keys == s.insts.Keys + {k};
    Assemble(c, s, s', k);
  }

  lemma RerunGrows(c: Config, s: Sys, s': Sys, k: Key)
    requires Rerun(s, s', k)
    ensures Grows(c, s, s')
  {
  }

  lemma EpochStep(c: Config, s: Sys, p: PID)
    requires Inv(c, s) && p in c.procs && p in s.nodes && p in s.chans && s.chans[p].epochs != []
    requires s.nodes[p].inner ==> (p, s.nodes[p].ets) in s.insts
    ensures Inv(c, DoTakeEpoch(s, p)) && Grows(c, s, DoTakeEpoch(s, p))
  {
    hide Inv, Grows, Carriable, InvInbox, DecidedBy;
    var s' := DoTakeEpoch(s, p);
    var n := s.nodes[p];
    var epoch := s.chans[p].epochs[0];
    NodeAt(c, s, p);
    SentAt(c, s);
    if epoch.ts <= n.ets {
      SameInsts(c, s, s');
      NodeKept(c, s, s', p);
      SkipChans(c, s, s', p);
      hide InvNode, InvChans;
      Assembled(c, s, s', p);
    } else {
      EpochAnnounced(c, s, p);
    }
  }

  /** The announced epoch is a new one: a decided node forces a state, another one aborts its instance. */
  lemma EpochAnnounced(c: Config, s: Sys, p: PID)
    requires Inv(c, s) && p in c.procs && p in s.nodes && p in s.chans && s.chans[p].epochs != []
    requires s.nodes[p].inner ==> (p, s.nodes[p].ets) in s.insts
    requires s.chans[p].epochs[0].ts > s.nodes[p].ets
    ensures Inv(c, DoTakeEpoch(s, p)) && Grows(c, s, DoTakeEpoch(s, p))
  {
    hide Inv, Grows, Carriable, InvInbox, DecidedBy;
    var s' := DoTakeEpoch(s, p);
    var n := s.nodes[p];
    var epoch := s.chans[p].epochs[0];
    NodeAt(c, s, p);
    SentAt(c, s);
    if n.decided.Some? || !n.inner {
      SameInsts(c, s, s');
      NodeDecidedKept(c, s, s', p);
      assert InvNode(c, s', p);
      if n.decided.Some? { ForcedCarriable(c, s, p); }
      EpochChans(c, s, s', p, epoch);
      hide InvNode, InvChans;
      Assembled(c, s, s', p);
    } else {
      assert Rerun(s, s', (p, n.ets));
      RerunGrows(c, s, s', (p, n.ets));
      NodeDecidedKept(c, s, s', p);
      assert InvNode(c, s', p);
      EpochChans(c, s, s', p, epoch);
      hide InvNode, InvChans;
      RerunStep(c, s, s', (p, n.ets));
    }
  }

  lemma SkipChans(c: Config, s: Sys, s': Sys, p: PID)
    requires Inv(c, s) && Grows(c, s, s') && p in c.procs && p in s.nodes && p in s.chans && p in s'.nodes
    requires p in s'.chans
    requires s'.nodes[p] == s.nodes[p] && s.chans[p].epochs != []
    requires s'.chans[p] == s.chans[p].(epochs := s.chans[p].epochs[1..])
    ensures InvChans(c, s', p)
  {
    hide Inv, Grows, InvNode;
    var s1 := s'.(chans := s'.chans[p := s.chans[p]]);
    NodeAt(c, s, p);
    assert Grows(c, s, s1) by { GrowsChans(c, s, s', s1); }
    FewerChans(c, s, s1, p);
    assert InvChans(c, s1, p);
    forall a | a in s'.chans[p].aborts && a.ts == s.nodes[p].ets ensures Carriable(c, s', p, s.nodes[p].ets, a.state) {
      CarriableGrows(c, s, s', p, s.nodes[p].ets, a.state);
    }
    forall d | d in s'.chans[p].decisions ensures DecideSent(s', d.ts, d.val) {
      assert DecideSent(s1, d.ts, d.val);
    }
  }

  lemma GrowsChans(c: Config, s: Sys, s': Sys, s1: Sys)
    requires Grows(c, s, s') && s1 == s'.(chans := s1.chans)
    ensures Grows(c, s, s1)
  {
  }

  lemma FinishStep(c: Config, s: Sys, p: PID)
    requires Inv(c, s) && p in c.procs && p in s.nodes && p in s.chans
    requires s.nodes[p].aborting && (p, s.nodes[p].ets) in s.insts && s.insts[(p, s.nodes[p].ets)].run.Draining?
    ensures Inv(c, DoFinish(s, p)) && Grows(c, s, DoFinish(s, p))
  {
    hide Inv, Grows, Carriable, InvInbox, DecidedBy;
    var s' := DoFinish(s, p);
    var n := s.nodes[p];
    var k := (p, n.ets);
    NodeAt(c, s, p);
    SentAt(c, s);
    assert Rerun(s, s', k);
    RerunGrows(c, s, s', k);
    NodeDecidedKept(c, s, s', p);
    assert InvNode(c, s', p);
    StoppedCarriable(c, s, s', p);
    assert InvChans(c, s', p) by {
      GrowsOnly(c, s, s');
      forall a | a in s'.chans[p].aborts && a.ts == n.ets ensures Carriable(c, s', p, n.ets, a.state) {
        if a in s.chans[p].aborts { CarriableGrows(c, s, s', p, n.ets, a.state); }
      }
      forall d | d in s'.chans[p].decisions ensures DecideSent(s', d.ts, d.val) {
        DecideSentGrows(s, s', d.ts, d.val);
      }
    }
    hide InvNode, InvChans;
    RerunStep(c, s, s', k);
  }

  lemma StoppedCarriable(c: Config, s: Sys, s': Sys, p: PID)
    requires Inv(c, s) && Grows(c, s, s') && p in c.procs && p in s.nodes
    requires (p, s.nodes[p].ets) in s.insts
    requires s'.insts == s.insts[(p, s.nodes[p].ets) := s.insts[(p, s.nodes[p].ets)].(run := Stopped)]
    ensures Carriable(c, s', p, s.nodes[p].ets, s.insts[(p, s.nodes[p].ets)].current)
  {
    hide Inv, Justified, InvQueue, PhaseOk, CounterOk;
    var k := (p, s.nodes[p].ets);
    var st := s.insts[k].current;
    At(c, s, k);
    ReportKept(c, s, s', p, k.1, st);
    forall e' | (p, e') in s'.insts && e' < k.1 + 1 ensures Sealed(s'.insts[(p, e')], st) {
    }
  }

  // ---- Starting the next epoch ----

  ghost predicate GoodStart(c: Config, s: Sys, k: Key, i: Inst, j: Inst, order: seq<nat>) {
    && j == i.(queue := j.queue)
    && CountAccepts(j.queue) == 0
    && (forall l | 0 <= l < |j.queue| :: InvEvent(c, s, k, j.queue[l]))
    && (forall l, m | 0 <= l < m < |j.queue| :: !(j.queue[l].HandleWrite? && j.queue[m].HandleWrite?))
    && (forall l | 0 <= l < |j.queue| && j.queue[l].HandleWrite? ::
          exists m | 0 <= m < |order| :: order[m] < |s.sent| && IsWrite(s.sent[order[m]], k.1))
  }

  /** The new instance's queue: everything buffered for its epoch is justified and holds at most one write and no
      accept. */
  lemma BufferedEvents(c: Config, s: Sys, k: Key, i: Inst, buffered: map<nat, Packet>, order: seq<nat>)
    requires Inv(c, s) && k.0 in c.procs && k !in s.insts && IsDelivery(buffered, order)
    requires ShapeOk(c, k, i) && i.queue == [] && i.run.Running?
    requires forall id | id in buffered :: id < |s.sent| && (k.0, id) in s.delivered && buffered[id] == s.sent[id]
    ensures GoodStart(c, s, k, i, DeliverAll(i, buffered, order), order)
  {
    hide Inv, InvEvent, GoodStart, ShapeOk;
    if order == [] {
      EmptyStart(c, s, k, i);
    } else {
      var last := |order| - 1;
      BufferedEvents(c, s, k, i, buffered, order[..last]);
      OneMore(c, s, k, i, DeliverAll(i, buffered, order[..last]), order);
    }
  }

  lemma EmptyStart(c: Config, s: Sys, k: Key, i: Inst)
    requires i.queue == []
    ensures GoodStart(c, s, k, i, i, [])
  {
  }

  lemma OneMore(c: Config, s: Sys, k: Key, i: Inst, j0: Inst, order: seq<nat>)
    requires Inv(c, s) && k.0 in c.procs && k !in s.insts && order != []
    requires ShapeOk(c, k, i) && i.run.Running? && GoodStart(c, s, k, i, j0, order[..|order| - 1])
    requires forall l | 0 <= l < |order| :: order[l] < |s.sent| && (k.0, order[l]) in s.delivered
    requires forall l, m | 0 <= l < m < |order| :: order[l] != order[m]
    ensures var p := s.sent[order[|order| - 1]];
            GoodStart(c, s, k, i, DeliverTo(j0, p.from, p.msg), order)
  {
    hide Inv, InvEvent;
    var init := order[..|order| - 1];
    var id := order[|order| - 1];
    assert forall l | 0 <= l < |init| :: order[l] == init[l];
    BufferedEvent(c, s, k, j0, id);
    var j := DeliverTo(j0, s.sent[id].from, s.sent[id].msg);
    if j != j0 {
      var evt := Admit(j0, s.sent[id].from, s.sent[id].msg).value;
      CountAppend(j0.queue, evt);
      if evt.HandleWrite? {
        OnlyWrite(c, s, k, j0, order);
      }
    }
  }

  /** The last buffered message is a write of epoch k.1, so none of the earlier ones was. */
  lemma OnlyWrite(c: Config, s: Sys, k: Key, j0: Inst, order: seq<nat>)
    requires Inv(c, s) && order != [] && forall l | 0 <= l < |order| :: order[l] < |s.sent|
    requires forall l, m | 0 <= l < m < |order| :: order[l] != order[m]
    requires IsWrite(s.sent[order[|order| - 1]], k.1)
    ensures forall m | 0 <= m < |order| - 1 :: !IsWrite(s.sent[order[m]], k.1)
  {
    hide Inv;
    SentAt(c, s);
    var id := order[|order| - 1];
    forall m | 0 <= m < |order| - 1 ensures !IsWrite(s.sent[order[m]], k.1) {
      assert SamePurpose(s.sent[order[m]], s.sent[id]) == SamePurpose(s.sent[id], s.sent[order[m]]);
    }
  }

  lemma BufferedEvent(c: Config, s: Sys, k: Key, i: Inst, id: nat)
    requires Inv(c, s) && k !in s.insts && ShapeOk(c, k, i) && id < |s.sent| && (k.0, id) in s.delivered
    ensures match Admit(i, s.sent[id].from, s.sent[id].msg)
            case None => true
            case Some(evt) =>
              InvEvent(c, s, k, evt) && !evt.ReceivedAccept? && (evt.HandleWrite? ==> IsWrite(s.sent[id], k.1))
  {
    hide Inv, Report, Chosen;
    PacketAt(c, s, id);
    var e := s.sent[id].msg.epoch;
    forall j | 0 <= j < |s.sent| ensures !(s.sent[j].from == k.0 && s.sent[j].msg == AcceptMsg(k.1)) {
      PacketAt(c, s, j);
    }
    if c.leaderOf(e) == k.0 && e == k.1 {
      forall j | 0 <= j < |s.sent| ensures !IsWrite(s.sent[j], e) {
        PacketAt(c, s, j);
      }
    }
  }

  lemma AbortedStep(c: Config, s: Sys, p: PID, a: AbortedState, order: seq<nat>)
    requires Inv(c, s) && p in c.procs && p in s.nodes && p in s.chans && Live(s.nodes[p]) && a in s.chans[p].aborts
    requires IsDelivery(Buffered(s.nodes[p].inbox, s.nodes[p].newTs), order)
    ensures Inv(c, DoTakeAborted(s, p, a, order)) && Grows(c, s, DoTakeAborted(s, p, a, order))
  {
    hide Inv, Grows, InvInst, Carriable;
    var s' := DoTakeAborted(s, p, a, order);
    var n := s.nodes[p];
    NodeAt(c, s, p);
    SentAt(c, s);
    if a.ts != n.ets {
      SameInsts(c, s, s');
      NodeDecidedKept(c, s, s', p);
      ClearKept(s', p, n.inbox, a.ts);
      hide InvInbox, DecidedBy;
      assert InvNode(c, s', p);
      FewerChans(c, s, s', p);
      hide InvNode, InvChans;
      Assembled(c, s, s', p);
    } else {
      RestartStep(c, s, p, a, order);
    }
  }

  lemma ClearKept(s: Sys, p: PID, b: Inbox, e: int)
    requires InvInbox(s, p, b)
    ensures InvInbox(s, p, Clear(b, e))
  {
  }

  /** What a restart does to the state, given the new instance j. */
  ghost predicate Restarted(s: Sys, s': Sys, p: PID, a: AbortedState, j: Inst) {
    && p in s.nodes && p in s.chans
    && s' == s.(nodes := s.nodes[p := OnAborted(s.nodes[p], a)],
                chans := s.chans[p := s.chans[p].(aborts := s.chans[p].aborts - multiset{a})],
                insts := s.insts[(p, s.nodes[p].newTs) := j], held := s'.held)
  }

  lemma RestartStep(c: Config, s: Sys, p: PID, a: AbortedState, order: seq<nat>)
    requires Inv(c, s) && p in c.procs && p in s.nodes && p in s.chans && Live(s.nodes[p]) && a in s.chans[p].aborts
    requires IsDelivery(Buffered(s.nodes[p].inbox, s.nodes[p].newTs), order)
    requires a.ts == s.nodes[p].ets
    ensures Inv(c, DoTakeAborted(s, p, a, order)) && Grows(c, s, DoTakeAborted(s, p, a, order))
  {
    hide Inv, Grows, InvEvent, Carriable, InvInbox, DeliverAll, GoodStart;
    var n := s.nodes[p];
    var k := (p, n.newTs);
    RestartFacts(c, s, p, a);
    var i := Start(p, n.n, n.newLeader, n.newTs, a.state);
    InboxFacts(s, p, n.inbox, n.newTs);
    BufferedEvents(c, s, k, i, Buffered(n.inbox, n.newTs), order);
    RestartWith(c, s, DoTakeAborted(s, p, a, order), p, a, i, DeliverAll(i, Buffered(n.inbox, n.newTs), order), order);
  }

  lemma RestartWith(c: Config, s: Sys, s': Sys, p: PID, a: AbortedState, i: Inst, j: Inst, order: seq<nat>)
    requires Inv(c, s) && p in c.procs && Restarted(s, s', p, a, j) && Live(s.nodes[p])
    requires a in s.chans[p].aborts && a.ts == s.nodes[p].ets
    requires i == Start(p, |c.procs|, c.leaderOf(s.nodes[p].newTs), s.nodes[p].newTs, a.state)
    requires GoodStart(c, s, (p, s.nodes[p].newTs), i, j, order)
    ensures Inv(c, s') && Grows(c, s, s')
  {
    var k := (p, s.nodes[p].newTs);
    hide Inv, Grows, GoodStart, InvInst, InvQueue, InvNode, InvChans, Local, OnAborted;
    RestartParts(c, s, s', p, a, i, j, order);
    RestartLocal(c, s, s', k, a, j);
    Assemble(c, s, s', k);
  }

  lemma RestartLocal(c: Config, s: Sys, s': Sys, k: Key, a: AbortedState, j: Inst)
    requires Inv(c, s) && k.0 in c.procs && Restarted(s, s', k.0, a, j) && k.1 == s.nodes[k.0].newTs
    requires k in s'.insts && InvInst(c, s', k) && InvQueue(c, s', k)
    requires k.0 in s'.nodes && k.0 in s'.chans && InvNode(c, s', k.0) && InvChans(c, s', k.0)
    ensures Local(c, s, s', k)
  {
    hide Inv, InvInst, InvQueue, InvNode, InvChans, OnAborted;
    SentAt(c, s);
    UniqueSame(s, s');
    hide InvUnique;
  }

  lemma RestartParts(c: Config, s: Sys, s': Sys, p: PID, a: AbortedState, i: Inst, j: Inst, order: seq<nat>)
    requires Inv(c, s) && p in c.procs && Restarted(s, s', p, a, j) && Live(s.nodes[p])
    requires a in s.chans[p].aborts && a.ts == s.nodes[p].ets
    requires i == Start(p, |c.procs|, c.leaderOf(s.nodes[p].newTs), s.nodes[p].newTs, a.state)
    requires GoodStart(c, s, (p, s.nodes[p].newTs), i, j, order)
    ensures Grows(c, s, s') && (p, s.nodes[p].newTs) in s'.insts && InvInst(c, s', (p, s.nodes[p].newTs))
    ensures InvQueue(c, s', (p, s.nodes[p].newTs))
    ensures p in s'.nodes && p in s'.chans && InvNode(c, s', p) && InvChans(c, s', p)
  {
    var k := (p, s.nodes[p].newTs);
    hide Inv, Grows, InvEvent, Carriable, InvInbox, GoodStart, InvInst, InvQueue, InvNode, InvChans;
    RestartFacts(c, s, p, a);
    StartShape(c, s, k, i, j, order);
    RestartGrows(c, s, s', k, j);
    RestartInst(c, s, s', k, a.state, j);
    RestartQueue(c, s, s', k, i, j, order);
    RestartNode(c, s, s', p, a);
  }

  lemma StartShape(c: Config, s: Sys, k: Key, i: Inst, j: Inst, order: seq<nat>)
    requires GoodStart(c, s, k, i, j, order)
    ensures j == i.(queue := j.queue) && CountAccepts(j.queue) == 0
  {
    hide InvEvent;
  }

  lemma RestartFacts(c: Config, s: Sys, p: PID, a: AbortedState)
    requires Inv(c, s) && p in c.procs && p in s.nodes && p in s.chans && a in s.chans[p].aborts
    requires a.ts == s.nodes[p].ets
    ensures var n := s.nodes[p];
            && n.self == p && n.n == |c.procs| && 0 <= n.ets < n.newTs && n.newLeader == c.leaderOf(n.newTs)
            && (p, n.newTs) !in s.insts && Carriable(c, s, p, n.ets, a.state)
            && InvInbox(s, p, n.inbox)
  {
    hide Inv, Carriable, InvInbox, DecidedBy;
    NodeAt(c, s, p);
  }

  lemma InboxFacts(s: Sys, p: PID, b: Inbox, e: int)
    requires InvInbox(s, p, b)
    ensures forall id | id in Buffered(b, e) ::
              id < |s.sent| && (p, id) in s.delivered && Buffered(b, e)[id] == s.sent[id]
  {
  }

  lemma RestartGrows(c: Config, s: Sys, s': Sys, k: Key, j: Inst)
    requires k !in s.insts && k.0 in s.nodes && s.nodes[k.0].ets < k.1
    requires s' == s.(insts := s.insts[k := j], nodes := s'.nodes, chans := s'.chans, held := s'.held)
    ensures Grows(c, s, s')
  {
  }

  lemma RestartNode(c: Config, s: Sys, s': Sys, p: PID, a: AbortedState)
    requires Inv(c, s) && Grows(c, s, s') && p in c.procs && p in s.nodes && p in s.chans && p in s'.nodes
    requires p in s'.chans
    requires a in s.chans[p].aborts && a.ts == s.nodes[p].ets && Live(s.nodes[p])
    requires s'.nodes[p] == OnAborted(s.nodes[p], a)
    requires s'.chans[p] == s.chans[p].(aborts := s.chans[p].aborts - multiset{a})
    requires s'.insts.Keys == s.insts.Keys + {(p, s.nodes[p].newTs)}
    ensures InvNode(c, s', p) && InvChans(c, s', p)
  {
    hide Inv, Carriable, DecideSent;
    var n := s.nodes[p];
    NodeAt(c, s, p);
    NodeDecidedKept(c, s, s', p);
    ClearKept(s', p, n.inbox, a.ts);
    GrowsOnly(c, s, s');
    hide Grows, InvInbox;
    assert n.decided.Some? ==> DecidedBy(s', n.newTs, n.decided.value);
    forall d | d in s'.chans[p].decisions ensures d.val in s.proposed && DecideSent(s', d.ts, d.val) {
      DecideSentGrows(s, s', d.ts, d.val);
    }
  }

  lemma RestartInst(c: Config, s: Sys, s': Sys, k: Key, st: State, j: Inst)
    requires Inv(c, s) && Grows(c, s, s') && k.0 in c.procs && k.0 in s.nodes && k !in s.insts
    requires s'.insts == s.insts[k := j]
    requires 0 <= s.nodes[k.0].ets < k.1 && Carriable(c, s, k.0, s.nodes[k.0].ets, st)
    requires ShapeOk(c, k, j) && j == Start(k.0, |c.procs|, c.leaderOf(k.1), k.1, st).(queue := j.queue)
    requires CountAccepts(j.queue) == 0
    ensures InvInst(c, s', k)
  {
    hide Inv, Justified;
    CarriableGrows(c, s, s', k.0, s.nodes[k.0].ets, st);
    NodeAt(c, s, k.0);
    hide Grows, InvChans;
    forall e' | (k.0, e') in s'.insts && e' < k.1 ensures Sealed(s'.insts[(k.0, e')], st) {
      assert (k.0, e') in s.insts;
      assert e' < s.nodes[k.0].ets + 1;
    }
    assert 0 <= st.ts by { JustifiedTs(c, s', st); }
  }

  lemma JustifiedTs(c: Config, s: Sys, st: State)
    requires Justified(c, s, st)
    ensures 0 <= st.ts
  {
  }

  lemma RestartQueue(c: Config, s: Sys, s': Sys, k: Key, i: Inst, j: Inst, order: seq<nat>)
    requires Inv(c, s) && Grows(c, s, s') && s'.insts == s.insts[k := j] && s'.sent == s.sent
    requires GoodStart(c, s, k, i, j, order)
    ensures InvQueue(c, s', k)
  {
    hide Inv, Grows, InvEvent;
    forall l | 0 <= l < |j.queue| ensures InvEvent(c, s', k, j.queue[l]) {
      EventKept(c, s, s', k, j.queue[l]);
    }
  }

  // ---- All steps and all runs ----

  lemma InitInst(c: Config, k: Key)
    requires ValidConfig(c) && k in Init(c).insts
    ensures InvInst(c, Init(c), k) && InvQueue(c, Init(c), k)
  {
    var s := Init(c);
    assert k.0 in c.procs && k.1 == 0;
    assert s.insts[k] == Start(k.0, |c.procs|, c.leaderOf(0), 0, State(0, None));
    hide Init, ValidConfig;
    assert Promised(s, k.0, 0, State(0, None)) by {
      forall e' | (k.0, e') in s.insts && e' < 0 ensures false { InitEpochs(c, (k.0, e')); }
    }
  }

  lemma InitEpochs(c: Config, k: Key)
    requires k in Init(c).insts
    ensures k.1 == 0
  {
  }

  lemma InitInv(c: Config)
    requires ValidConfig(c)
    ensures Inv(c, Init(c))
  {
    hide InvInst, InvQueue, InvNode, InvChans, InvPacket, ValidConfig;
    var s := Init(c);
    assert s.sent == [] && s.delivered == {} && s.nodes.Keys == c.procs && s.chans.Keys == c.procs;
    hide Init;
    forall k | k in s.insts ensures InvInst(c, s, k) && InvQueue(c, s, k) {
      InitInst(c, k);
    }
    forall p | p in c.procs ensures InvNode(c, s, p) && InvChans(c, s, p) {
      InitNode(c, p);
    }
  }

  lemma InitNode(c: Config, p: PID)
    requires ValidConfig(c) && p in c.procs
    ensures InvNode(c, Init(c), p) && InvChans(c, Init(c), p)
  {
    assert (p, 0) in Init(c).insts;
    forall e | (p, e) in Init(c).insts ensures e <= 0 { InitEpochs(c, (p, e)); }
  }

  lemma StepInv(c: Config, s: Sys, t: Step)
    requires Inv(c, s) && Enabled(c, s, t)
    ensures Inv(c, Do(c, s, t)) && Grows(c, s, Do(c, s, t))
  {
    hide Inv, Grows, DoTick, DoReceive, DoApply, DoTakeEpoch, DoFinish, DoTakeAborted, OnDecision;
    match t {
      case ClientPropose(p, v) => ClientStep(c, s, p, v);
      case ProposeTick(p) => TickStep(c, s, p);
      case Receive(p, id) => ReceiveStep(c, s, p, id);
      case ApplyEvent(p, e, h) => ApplyStep(c, s, t);
      case TakeDecision(p, d) => DecisionStep(c, s, p, d);
      case EpochArrives(p, epoch) => ArrivalStep(c, s, p, epoch);
      case TakeEpoch(p) => EpochStep(c, s, p);
      case FinishAbort(p) => FinishStep(c, s, p);
      case TakeAborted(p, a, order) => AbortedStep(c, s, p, a, order);
    }
  }

  /** The invariant holds all along every run. */
  lemma {:induction false} RunInv(c: Config, run: seq<Sys>, k: nat)
    requires ValidConfig(c) && IsRun(c, run) && k < |run|
    ensures Inv(c, run[k])
  {
    hide Inv, Grows, Do, Enabled;
    if k == 0 {
      InitInv(c);
    } else {
      RunInv(c, run, k - 1);
      assert Next(c, run[k - 1], run[k - 1 + 1]);
      var t :| Enabled(c, run[k - 1], t) && run[k] == Do(c, run[k - 1], t);
      StepInv(c, run[k - 1], t);
    }
  }
}

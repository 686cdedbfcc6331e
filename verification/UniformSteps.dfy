/** Every step of uniform consensus keeps the invariant and only grows the state. */
module UniformSteps {
  import opened Common
  import opened EpochInstance
  import opened UniformNode
  import opened UniformSystem
  import opened UniformInvariant

  /** What a step at process k.0 that touches at most the instance k still has to establish. */
  ghost predicate Local(c: Config, s: Sys, s': Sys, k: Key) {
    && s'.nodes.Keys == c.procs && s'.chans.Keys == c.procs && k.0 in c.procs
    && k in s'.insts && (k in s.insts || s'.sent == s.sent)
    && s'.insts.Keys == s.insts.Keys + {k}
    && (forall j | j in s.insts && j != k :: s'.insts[j] == s.insts[j])
    && (forall q | q in c.procs && q != k.0 ::
        q in s.nodes && q in s.chans && s'.nodes[q] == s.nodes[q] && s'.chans[q] == s.chans[q])
    && InvInst(c, s', k) && InvQueue(c, s', k)
    && InvNode(c, s', k.0) && InvChans(c, s', k.0)
    && (forall id: nat | |s.sent| <= id < |s'.sent| :: InvPacket(c, s', id))
    && InvUnique(s')
    && (forall d | d in s'.delivered :: d.1 < |s'.sent|)
  }

  lemma Assemble(c: Config, s: Sys, s': Sys, k: Key)
    requires Inv(c, s) && Grows(c, s, s') && SentBy(s, s', k)
    requires Local(c, s, s', k)
    ensures Inv(c, s')
  {
    hide InvInst, InvQueue, InvNode, InvChans, InvPacket, InvUnique, InstGrows;
    forall j | j in s'.insts ensures InvInst(c, s', j) && InvQueue(c, s', j) {
      if j != k {
        InstKept(c, s, s', j);
        QueueKept(c, s, s', j, k);
      }
    }
    forall q | q in c.procs ensures InvNode(c, s', q) && InvChans(c, s', q) {
      if q != k.0 {
        NodeKept(c, s, s', q);
        ChansKept(c, s, s', q);
      }
    }
    forall id: nat | id < |s'.sent| ensures InvPacket(c, s', id) {
      if id < |s.sent| { PacketKept(c, s, s', id); }
    }
  }

  // ---- Applying one event ----

  lemma CountTail(q: seq<Event>)
    requires q != []
    ensures CountAccepts(q) == CountAccepts(q[1..]) + if q[0].ReceivedAccept? then 1 else 0
  {
    if |q| > 1 {
      CountTail(q[..|q| - 1]);
      assert q[..|q| - 1][1..] == q[1..][..|q[1..]| - 1];
    }
  }

  lemma TailKept(c: Config, s: Sys, s': Sys, k: Key)
    requires Inv(c, s) && Grows(c, s, s') && k in s.insts && s.insts[k].queue != []
    requires s'.insts[k].queue == s.insts[k].queue[1..]
    requires s.insts[k].queue[0].HandleWrite? || (AcceptSent(s', k.0, k.1) ==> AcceptSent(s, k.0, k.1))
    ensures InvQueue(c, s', k)
  {
    var q := s.insts[k].queue;
    assert InvQueue(c, s, k) && k in s'.insts;
    hide InvEvent, Inv, Grows, AcceptSent;
    forall j | 0 <= j < |q| - 1 ensures InvEvent(c, s', k, q[1..][j]) {
      assert q[1..][j] == q[j + 1] && InvEvent(c, s, k, q[j + 1]);
      EventKept(c, s, s', k, q[j + 1]);
    }
  }

  /** Facts every event application shares: the state grows and the node and its channels are fine. */
  ghost predicate Applied(c: Config, s: Sys, s': Sys, k: Key) {
    && k in s.insts && s.insts[k].queue != []
    && k in s'.insts && s' == s.(insts := s.insts[k := s'.insts[k]], sent := s'.sent, chans := s'.chans)
    && s.sent <= s'.sent && InstGrows(s.insts[k], s'.insts[k])
    && s'.insts[k].queue == s.insts[k].queue[1..]
    && (s'.chans == s.chans || (k.0 in s.chans && exists d: Decision ::
          DecideSent(s, d.ts, d.val) && d.val in s.proposed &&
          s'.chans == s.chans[k.0 := s.chans[k.0].(decisions := s.chans[k.0].decisions + multiset{d})]))
  }

  lemma Grown(c: Config, s: Sys, s': Sys, k: Key)
    requires Inv(c, s) && Applied(c, s, s', k)
    ensures Grows(c, s, s') && k.0 in c.procs
  {
    hide InvQueue, InvNode, InvChans, InvSent, InstGrows;
    assert InvInst(c, s, k);
    forall j | j in s.insts ensures InstGrows(s.insts[j], s'.insts[j]) {
      if j != k { SameGrows(s.insts[j]); }
    }
  }

  lemma GrowsOnly(c: Config, s: Sys, s': Sys)
    requires Grows(c, s, s')
    ensures s.sent <= s'.sent && s.delivered <= s'.delivered && s.proposed <= s'.proposed
  {
  }

  lemma SameGrows(i: Inst)
    ensures InstGrows(i, i)
  {
  }

  lemma AppliedNode(c: Config, s: Sys, s': Sys, k: Key)
    requires Inv(c, s) && Applied(c, s, s', k)
    ensures InvNode(c, s', k.0) && InvChans(c, s', k.0)
  {
    Grown(c, s, s', k);
    hide InvInst, InvQueue, InvNode, InvChans, InvSent, Grows, InstGrows;
    NodeKept(c, s, s', k.0);
    if s'.chans == s.chans {
      ChansKept(c, s, s', k.0);
    } else {
      DecisionAdded(c, s, s', k.0);
    }
  }

  lemma DecisionAdded(c: Config, s: Sys, s': Sys, p: PID)
    requires Inv(c, s) && Grows(c, s, s') && p in c.procs
    requires s'.nodes == s.nodes && s'.proposed == s.proposed && p in s'.chans
    requires exists d: Decision :: DecideSent(s, d.ts, d.val) && d.val in s.proposed
               && s'.chans[p] == s.chans[p].(decisions := s.chans[p].decisions + multiset{d})
    ensures InvChans(c, s', p)
  {
    hide InvInst, InvQueue, InvNode, InvSent, Grows, DecideSent;
    GrowsOnly(c, s, s');
    assert InvChans(c, s, p);
    forall a | a in s'.chans[p].aborts && a.ts == s.nodes[p].ets
      ensures Carriable(c, s', p, s.nodes[p].ets, a.state)
    {
      CarriableGrows(c, s, s', p, s.nodes[p].ets, a.state);
    }
    forall d | d in s'.chans[p].decisions ensures d.val in s.proposed && DecideSent(s', d.ts, d.val) {
      DecideSentGrows(s, s', d.ts, d.val);
    }
  }

  lemma CounterKept(c: Config, s: Sys, s': Sys, k: Key)
    requires Inv(c, s) && Applied(c, s, s', k)
    requires s'.insts[k].leader == s.insts[k].leader
    requires s'.insts[k].accepted <= s.insts[k].accepted + if s.insts[k].queue[0].ReceivedAccept? then 1 else 0
    ensures CounterOk(c, s', k, s'.insts[k])
  {
    At(c, s, k);
    hide Inv, ShapeOk, CurrentOk, PhaseOk, InvQueue, InvEvent;
    CountTail(s.insts[k].queue);
    AcceptsSeenGrows(c, s, s', k.1);
  }

  lemma UniqueAppend(s: Sys, s': Sys, k: Packet)
    requires InvUnique(s) && s'.sent == s.sent + [k]
    requires forall j | 0 <= j < |s.sent| :: !SamePurpose(s.sent[j], k)
    ensures InvUnique(s')
  {
    forall j, l | 0 <= j < l < |s'.sent| ensures !SamePurpose(s'.sent[j], s'.sent[l]) {
      if l < |s.sent| { assert s'.sent[j] == s.sent[j] && s'.sent[l] == s.sent[l]; }
    }
  }

  /** One event application: at most one packet leaves, and it is fine. */
  lemma AssembleApplied(c: Config, s: Sys, s': Sys, k: Key)
    requires Inv(c, s) && Applied(c, s, s', k)
    requires InvInst(c, s', k) && InvQueue(c, s', k)
    requires s'.sent == s.sent || (|s'.sent| == |s.sent| + 1 && InvPacket(c, s', |s.sent|)
               && s'.sent[|s.sent|].from == k.0 && s'.sent[|s.sent|].msg.epoch == k.1
               && forall j | 0 <= j < |s.sent| :: !SamePurpose(s.sent[j], s'.sent[|s.sent|]))
    ensures Inv(c, s') && Grows(c, s, s')
  {
    hide InvInst, InvQueue, InvNode, InvChans, InvPacket, InvUnique, Inv, Applied, Grows, DecideSent, SamePurpose;
    Grown(c, s, s', k);
    AppliedNode(c, s, s', k);
    SentAt(c, s);
    AppliedLocal(c, s, s', k);
    if s'.sent == s.sent {
      UniqueSame(s, s');
    } else {
      assert s'.sent == s.sent + [s'.sent[|s.sent|]];
      UniqueAppend(s, s', s'.sent[|s.sent|]);
    }
    Assemble(c, s, s', k);
  }

  lemma AppliedLocal(c: Config, s: Sys, s': Sys, k: Key)
    requires Inv(c, s) && Applied(c, s, s', k)
    ensures s'.nodes == s.nodes && s'.delivered == s.delivered && s.sent <= s'.sent && s'.insts.Keys == s.insts.Keys
    ensures s'.nodes.Keys == c.procs && s'.chans.Keys == c.procs == s.chans.Keys && k in s.insts && k in s'.insts
    ensures k.0 in c.procs
    ensures forall j | j in s.insts && j != k :: s'.insts[j] == s.insts[j]
    ensures forall q | q in c.procs && q != k.0 :: s'.chans[q] == s.chans[q]
  {
    At(c, s, k);
    hide InvInst, InvQueue, InvNode, InvChans, InvSent, DecideSent, InstGrows, InvEvent;
  }

  lemma UniqueSame(s: Sys, s': Sys)
    requires InvUnique(s) && s'.sent == s.sent
    ensures InvUnique(s')
  {
  }

  /** Events that leave current alone and keep the phase (HandleRead, Decided, ignored events). */
  lemma QuietEvent(c: Config, s: Sys, s': Sys, k: Key)
    requires Inv(c, s) && Applied(c, s, s', k)
    requires s'.insts[k] == s.insts[k].(queue := s.insts[k].queue[1..], run := s'.insts[k].run)
    requires s'.sent == s.sent
      || s'.sent == s.sent + [Packet(k.0, To(c.leaderOf(k.1)), StateMsg(s.insts[k].current, k.1))]
    ensures Inv(c, s') && Grows(c, s, s')
  {
    hide Inv, InvInst, InvQueue, Applied, Grows, Report, SamePurpose, InvPacket;
    Grown(c, s, s', k);
    TailAfterQuiet(c, s, s', k);
    QuietInst(c, s, s', k);
    if s'.sent != s.sent { StatePacket(c, s, s', k); }
    AssembleApplied(c, s, s', k);
  }

  /** The state a process reports is one it can report. */
  lemma StatePacket(c: Config, s: Sys, s': Sys, k: Key)
    requires Inv(c, s) && Applied(c, s, s', k) && Grows(c, s, s')
    requires s'.sent == s.sent + [Packet(k.0, To(c.leaderOf(k.1)), StateMsg(s.insts[k].current, k.1))]
    ensures InvPacket(c, s', |s.sent|)
    ensures forall j | 0 <= j < |s.sent| :: !SamePurpose(s.sent[j], s'.sent[|s.sent|])
  {
    hide Inv, Grows, Report, InvPacket, SamePurpose;
    StateReport(c, s, s', k);
    hide Applied;
    assert s'.sent[|s.sent|] == Packet(k.0, To(c.leaderOf(k.1)), StateMsg(s.insts[k].current, k.1));
    ReportPacket(c, s', |s.sent|);
    NoPurpose(s, s'.sent[|s.sent|]);
  }

  lemma ReportPacket(c: Config, s: Sys, id: nat)
    requires id < |s.sent| && s.sent[id].msg.StateMsg? && s.sent[id].from in c.procs
    requires s.sent[id].dest == To(c.leaderOf(s.sent[id].msg.epoch))
    requires Report(c, s, s.sent[id].from, s.sent[id].msg.epoch, s.sent[id].msg.state)
    ensures InvPacket(c, s, id)
  {
    hide Report, Written, WriteSeen, Chosen;
  }

  lemma StateReport(c: Config, s: Sys, s': Sys, k: Key)
    requires Inv(c, s) && Applied(c, s, s', k) && Grows(c, s, s')
    ensures k in s.insts && k.0 in c.procs && Report(c, s', k.0, k.1, s.insts[k].current)
  {
    assert k in s.insts;
    hide Applied, Inv, Grows, Report;
    At(c, s, k);
    CurrentKept(c, s, s', k, s.insts[k].current);
  }

  /** The step changes only the queue, and may answer a read. */
  lemma IgnoredEvent(c: Config, s: Sys, s': Sys, k: Key)
    requires Inv(c, s) && k in s.insts && s.insts[k].queue != []
    requires s' == s.(insts := s.insts[k := s.insts[k].(queue := s.insts[k].queue[1..])], sent := s'.sent)
    requires s'.sent == s.sent
      || s'.sent == s.sent + [Packet(k.0, To(c.leaderOf(k.1)), StateMsg(s.insts[k].current, k.1))]
    ensures Inv(c, s') && Grows(c, s, s')
  {
    hide Inv, Grows;
    QuietEvent(c, s, s', k);
  }

  lemma QuietInst(c: Config, s: Sys, s': Sys, k: Key)
    requires Inv(c, s) && Applied(c, s, s', k) && Grows(c, s, s')
    requires s'.insts[k] == s.insts[k].(queue := s.insts[k].queue[1..], run := s'.insts[k].run)
    ensures InvInst(c, s', k)
  {
    At(c, s, k);
    CurrentKept(c, s, s', k, s.insts[k].current);
    CounterKept(c, s, s', k);
    PhaseKept(c, s, s', k, s.insts[k]);
    SamePhase(c, s', k, s.insts[k], s'.insts[k]);
    hide Inv, Applied, Grows, CurrentOk, CounterOk, PhaseOk, InvEvent, InvQueue;
  }

  lemma SamePhase(c: Config, s: Sys, k: Key, i: Inst, j: Inst)
    requires PhaseOk(c, s, k, i)
    requires j.phase == i.phase && j.tempValue == i.tempValue && j.received == i.received
    ensures PhaseOk(c, s, k, j)
  {
    hide Report, WriteBacked, Chosen;
  }

  lemma TailAfterQuiet(c: Config, s: Sys, s': Sys, k: Key)
    requires Inv(c, s) && Grows(c, s, s') && Applied(c, s, s', k)
    requires forall id | |s.sent| <= id < |s'.sent| :: !s'.sent[id].msg.AcceptMsg?
    ensures InvQueue(c, s', k)
  {
    hide Inv;
    if AcceptSent(s', k.0, k.1) {
      var id :| 0 <= id < |s'.sent| && s'.sent[id].from == k.0 && s'.sent[id].msg == AcceptMsg(k.1);
      assert id < |s.sent| && s.sent[id] == s'.sent[id];
      assert AcceptSent(s, k.0, k.1);
    }
    TailKept(c, s, s', k);
  }

  /** A stored write: nothing was stored here before, and the new state is sealed by its own epoch. */
  lemma WriteEvent(c: Config, s: Sys, s': Sys, k: Key, v: Option<Value>)
    requires Inv(c, s) && k in s.insts && s.insts[k].queue != [] && !s.insts[k].run.Stopped?
    requires s.insts[k].queue[0] == HandleWrite(c.leaderOf(k.1), v)
    requires s' == s.(insts := s.insts[k := s.insts[k].(queue := s.insts[k].queue[1..], current := State(k.1, v))],
                      sent := s.sent + [Packet(k.0, To(c.leaderOf(k.1)), AcceptMsg(k.1))])
    ensures Inv(c, s') && Grows(c, s, s')
  {
    WriteFacts(c, s, k, v);
    hide Inv, AcceptSent, WriteSeen, Written;
    Grown(c, s, s', k);
    WriteInst(c, s, s', k, v);
    TailKept(c, s, s', k);
    WritePacket(c, s, s', k, v);
    hide InvInst, InvQueue, Applied, Grows;
    AssembleApplied(c, s, s', k);
  }

  lemma WriteFacts(c: Config, s: Sys, k: Key, v: Option<Value>)
    requires Inv(c, s) && k in s.insts && s.insts[k].queue != []
    requires s.insts[k].queue[0] == HandleWrite(c.leaderOf(k.1), v)
    ensures v.Some? && v.value in s.proposed && Written(c, s, k.1, v.value)
    ensures !AcceptSent(s, k.0, k.1) && WriteSeen(s, k.0, k.1)
    ensures k.0 in c.procs && 0 <= k.1 && s.insts[k].self == k.0 && s.insts[k].epochTs == k.1
    ensures s.insts[k].current.ts == k.1 && s.insts[k].current.val.Some? ==> s.insts[k].current.val == v
  {
    At(c, s, k);
    At(c, s, (c.leaderOf(k.1), k.1));
  }

  lemma WriteInst(c: Config, s: Sys, s': Sys, k: Key, v: Option<Value>)
    requires Inv(c, s) && Applied(c, s, s', k) && Grows(c, s, s')
    requires s.insts[k].queue[0] == HandleWrite(c.leaderOf(k.1), v)
    requires s'.insts[k] == s.insts[k].(queue := s.insts[k].queue[1..], current := State(k.1, v))
    ensures InvInst(c, s', k)
  {
    At(c, s, k);
    WriteCurrent(c, s, s', k, v);
    CounterKept(c, s, s', k);
    PhaseKept(c, s, s', k, s.insts[k]);
    SamePhase(c, s', k, s.insts[k], s'.insts[k]);
    hide Inv, Applied, Grows, CurrentOk, CounterOk, PhaseOk, InvEvent, InvQueue;
  }

  lemma WriteCurrent(c: Config, s: Sys, s': Sys, k: Key, v: Option<Value>)
    requires Inv(c, s) && Applied(c, s, s', k) && Grows(c, s, s')
    requires s.insts[k].queue[0] == HandleWrite(c.leaderOf(k.1), v)
    ensures CurrentOk(c, s', k, State(k.1, v))
  {
    hide Inv, AcceptSent, WriteSeen;
    WriteFacts(c, s, k, v);
    forall e' | (k.0, e') in s'.insts && e' < k.1 ensures Sealed(s'.insts[(k.0, e')], State(k.1, v)) {
      hide InvQueue, CurrentOk, PhaseOk, CounterOk, Written;
      assert (k.0, e') in s.insts;
      At(c, s, (k.0, e'));
    }
    hide Applied, Sealed;
    assert Promised(s', k.0, k.1, State(k.1, v));
  }

  lemma WritePacket(c: Config, s: Sys, s': Sys, k: Key, v: Option<Value>)
    requires Inv(c, s) && Applied(c, s, s', k) && Grows(c, s, s')
    requires s.insts[k].queue[0] == HandleWrite(c.leaderOf(k.1), v)
    requires s'.insts[k].current == State(k.1, v)
    requires s'.sent == s.sent + [Packet(k.0, To(c.leaderOf(k.1)), AcceptMsg(k.1))]
    ensures InvPacket(c, s', |s.sent|)
    ensures forall j | 0 <= j < |s.sent| :: !SamePurpose(s.sent[j], s'.sent[|s.sent|])
  {
    WriteFacts(c, s, k, v);
    WriteSeenGrows(s, s', k.0, k.1);
    assert k in s'.insts;
    hide Inv, Applied, Grows, InvPacket, SamePurpose, AcceptSent;
    AcceptPacket(c, s', |s.sent|);
    FirstAccept(s, s'.sent[|s.sent|]);
  }

  lemma AcceptPacket(c: Config, s: Sys, id: nat)
    requires id < |s.sent| && s.sent[id].msg.AcceptMsg? && s.sent[id].from in c.procs
    requires var e := s.sent[id].msg.epoch;
      && s.sent[id].dest == To(c.leaderOf(e)) && (s.sent[id].from, e) in s.insts
      && s.insts[(s.sent[id].from, e)].current.ts == e && s.insts[(s.sent[id].from, e)].current.val.Some?
      && WriteSeen(s, s.sent[id].from, e)
    ensures InvPacket(c, s, id)
  {
    hide Report, Written, WriteSeen, Chosen;
  }

  lemma FirstAccept(s: Sys, k: Packet)
    requires k.msg.AcceptMsg? && !AcceptSent(s, k.from, k.msg.epoch)
    ensures forall j | 0 <= j < |s.sent| :: !SamePurpose(s.sent[j], k)
  {
  }

  /** Events at the leader that touch neither current nor any packet with a purpose: only PhaseOk is new. */
  lemma LeaderEvent(c: Config, s: Sys, s': Sys, k: Key)
    requires Inv(c, s) && Applied(c, s, s', k)
    requires s'.insts[k] == s.insts[k].(queue := s.insts[k].queue[1..], phase := s'.insts[k].phase,
                                        accepted := s'.insts[k].accepted,
                                       received := s'.insts[k].received, tempValue := s'.insts[k].tempValue)
    requires s'.insts[k].accepted <= s.insts[k].accepted + if s.insts[k].queue[0].ReceivedAccept? then 1 else 0
    requires s'.insts[k].phase.Idle? == s.insts[k].phase.Idle?
    requires PhaseOk(c, s', k, s'.insts[k])
    requires s'.sent == s.sent || (|s'.sent| == |s.sent| + 1 && InvPacket(c, s', |s.sent|)
               && s'.sent[|s.sent|].from == k.0 && s'.sent[|s.sent|].msg.epoch == k.1
                   && !s'.sent[|s.sent|].msg.AcceptMsg?
               && forall j | 0 <= j < |s.sent| :: !SamePurpose(s.sent[j], s'.sent[|s.sent|]))
    ensures Inv(c, s') && Grows(c, s, s')
  {
    hide Inv, PhaseOk, InvEvent, InvQueue, InvPacket, SamePurpose, CurrentOk, CounterOk, Grows, InstGrows, DecideSent;
    Grown(c, s, s', k);
    At(c, s, k);
    CurrentKept(c, s, s', k, s.insts[k].current);
    CounterKept(c, s, s', k);
    assert InvInst(c, s', k);
    TailAfterQuiet(c, s, s', k);
    hide InvInst, ShapeOk, Applied;
    AssembleApplied(c, s, s', k);
  }

  /** Writes and accepts apart, a new packet has no purpose in common with any other. */
  lemma NoPurpose(s: Sys, k: Packet)
    requires !k.msg.WriteMsg? && !k.msg.AcceptMsg?
    ensures forall j | 0 <= j < |s.sent| :: !SamePurpose(s.sent[j], k)
  {
  }

  lemma ReadPacket(c: Config, s: Sys, id: nat)
    requires id < |s.sent| && s.sent[id].msg.ReadMsg? && s.sent[id].from in c.procs
    requires s.sent[id].from == c.leaderOf(s.sent[id].msg.epoch)
    ensures InvPacket(c, s, id)
  {
    hide Written, Report, WriteSeen, Chosen;
  }

  lemma ProposePhase(c: Config, s: Sys, s': Sys, k: Key, v: Value)
    requires Inv(c, s) && k in s.insts && s.insts[k].queue != []
    requires s.insts[k].queue[0] == Propose(v) && s.insts[k].phase.Proposing?
    requires s' == s.(insts := s.insts[k := s.insts[k].(queue := s.insts[k].queue[1..], tempValue := Some(v),
                                                        phase := Reading)], sent := s'.sent)
    ensures PhaseOk(c, s', k, s'.insts[k]) && k.0 in c.procs && k.0 == c.leaderOf(k.1)
  {
    At(c, s, k);
    assert v in s.proposed by { assert InvEvent(c, s, k, s.insts[k].queue[0]); }
    hide Inv, Report, InvQueue, InvEvent, CurrentOk, CounterOk, WriteBacked, Chosen;
  }

  /** onPropose: the leader starts reading. */
  lemma ProposeEvent(c: Config, s: Sys, s': Sys, k: Key, v: Value)
    requires Inv(c, s) && k in s.insts && s.insts[k].queue != []
    requires s.insts[k].queue[0] == Propose(v) && s.insts[k].phase.Proposing?
    requires s' == s.(insts := s.insts[k := s.insts[k].(queue := s.insts[k].queue[1..], tempValue := Some(v),
                                                        phase := Reading)], sent := s'.sent)
    requires s'.sent == s.sent || s'.sent == s.sent + [Packet(k.0, All, ReadMsg(k.1))]
    ensures Inv(c, s') && Grows(c, s, s')
  {
    hide Inv, PhaseOk, InvPacket, SamePurpose, Grows;
    ProposePhase(c, s, s', k, v);
    if s'.sent != s.sent {
      ReadPacket(c, s', |s.sent|);
      NoPurpose(s, s'.sent[|s.sent|]);
    }
    LeaderEvent(c, s, s', k);
  }

  /** onReceivedRead below the quorum. */
  lemma CollectEvent(c: Config, s: Sys, s': Sys, k: Key, from: PID, st: State)
    requires Inv(c, s) && k in s.insts && s.insts[k].queue != []
    requires s.insts[k].queue[0] == ReceivedRead(from, st) && s.insts[k].phase.Reading?
    requires s' == s.(insts := s.insts[k := s.insts[k].(queue := s.insts[k].queue[1..],
                                                        received := s.insts[k].received[from := st])])
    ensures Inv(c, s') && Grows(c, s, s')
  {
    hide Inv, Report, InvQueue, CurrentOk, CounterOk, WriteBacked, Chosen, Grows;
    At(c, s, k);
    assert PhaseOk(c, s, k, s'.insts[k]);
    Grown(c, s, s', k);
    PhaseKept(c, s, s', k, s'.insts[k]);
    hide PhaseOk;
    LeaderEvent(c, s, s', k);
  }

  /** onReceivedRead at the quorum: the leader fixes its value. */
  lemma FixEvent(c: Config, s: Sys, s': Sys, k: Key, from: PID, st: State, h: State, temp: Value)
    requires Inv(c, s) && k in s.insts && s.insts[k].queue != []
    requires s.insts[k].queue[0] == ReceivedRead(from, st) && s.insts[k].phase.Reading?
    requires |s.insts[k].received[from := st]| >= Quorum(|c.procs|) && IsHighest(s.insts[k].received[from := st], h)
    requires Some(temp) == if h.val.Some? then h.val else s.insts[k].tempValue
    requires s' == s.(insts := s.insts[k := s.insts[k].(queue := s.insts[k].queue[1..], received := map[],
                                                        tempValue := Some(temp), phase := Writing)],
                      sent := s'.sent)
    requires s'.sent == s.sent || s'.sent == s.sent + [Packet(k.0, All, WriteMsg(Some(temp), k.1))]
    ensures Inv(c, s') && Grows(c, s, s')
  {
    hide Inv, WriteBacked, IsHighest, Grows, InvPacket, SamePurpose, Report;
    FixBacked(c, s, k, from, st, h, temp);
    Grown(c, s, s', k);
    BackedKept(c, s, s', k.1, temp);
    assert PhaseOk(c, s', k, s'.insts[k]);
    FixPacket(c, s, s', k, temp);
    hide PhaseOk;
    LeaderEvent(c, s, s', k);
  }

  lemma FixBacked(c: Config, s: Sys, k: Key, from: PID, st: State, h: State, temp: Value)
    requires Inv(c, s) && k in s.insts && s.insts[k].queue != []
    requires s.insts[k].queue[0] == ReceivedRead(from, st) && s.insts[k].phase.Reading?
    requires |s.insts[k].received[from := st]| >= Quorum(|c.procs|) && IsHighest(s.insts[k].received[from := st], h)
    requires Some(temp) == if h.val.Some? then h.val else s.insts[k].tempValue
    ensures WriteBacked(c, s, k.1, temp) && temp in s.proposed
    ensures s.insts[k].leader == s.insts[k].self == k.0 == c.leaderOf(k.1) && s.insts[k].epochTs == k.1
    ensures k.0 in c.procs
  {
    var r := s.insts[k].received[from := st];
    hide Inv, InvQueue, CurrentOk, CounterOk, Report, WriteBacked, Chosen, IsHighest, Backs;
    At(c, s, k);
    ReadingTemp(c, s, k);
    forall q | q in r ensures Report(c, s, q, k.1, r[q]) && ReadableBy(c, s, k, r[q], q) {
      assert Report(c, s, q, k.1, r[q]);
      hide PhaseOk;
      ReportReadable(c, s, k, q, r[q]);
    }
    assert from in r;
    hide PhaseOk;
    HighestProposed(c, s, k, r, h);
    ReadsBack(c, s, k, temp, r, h);
  }

  lemma ReadsBack(c: Config, s: Sys, k: Key, temp: Value, r: map<PID, State>, h: State)
    requires forall q | q in r :: Report(c, s, q, k.1, r[q]) && ReadableBy(c, s, k, r[q], q)
    requires |r| >= Quorum(|c.procs|) && IsHighest(r, h) && (h.val.Some? ==> h.val == Some(temp))
    ensures WriteBacked(c, s, k.1, temp)
  {
    hide Report, IsHighest;
    assert Backs(c, s, k.1, temp, r, h);
    BackedBy(c, s, k.1, temp, r, h);
  }

  lemma BackedBy(c: Config, s: Sys, e: int, v: Value, r: map<PID, State>, h: State)
    requires Backs(c, s, e, v, r, h)
    ensures WriteBacked(c, s, e, v)
  {
    hide Backs;
  }

  lemma ReadingTemp(c: Config, s: Sys, k: Key)
    requires k in s.insts && PhaseOk(c, s, k, s.insts[k]) && s.insts[k].phase.Reading?
    ensures s.insts[k].tempValue.Some? && s.insts[k].tempValue.value in s.proposed
  {
    hide Report;
  }

  ghost predicate ReadableBy(c: Config, s: Sys, k: Key, st: State, q: PID) {
    q in c.procs && 0 <= st.ts && (st.ts < k.1 || k.1 == 0) && (st.val.Some? ==> st.val.value in s.proposed)
  }

  /** A leader that still reads has written nothing, so no report can carry its own epoch. */
  lemma ReportReadable(c: Config, s: Sys, k: Key, q: PID, st: State)
    requires k in s.insts && s.insts[k].phase.Reading? && k.0 == c.leaderOf(k.1) && 0 <= k.1
    requires Report(c, s, q, k.1, st)
    ensures ReadableBy(c, s, k, st, q)
  {
    hide Promised, Written, DecidedBy;
  }

  lemma HighestProposed(c: Config, s: Sys, k: Key, r: map<PID, State>, h: State)
    requires r != map[] && forall q | q in r :: ReadableBy(c, s, k, r[q], q)
    requires IsHighest(r, h)
    ensures h.val.Some? ==> h.val.value in s.proposed
  {
    var q :| q in r;
    assert 0 <= r[q].ts;
  }

  lemma FixPacket(c: Config, s: Sys, s': Sys, k: Key, temp: Value)
    requires Inv(c, s) && k in s.insts && s.insts[k].phase.Reading? && k.0 == c.leaderOf(k.1) && k.0 in c.procs
    requires k in s'.insts && s'.insts[k].phase.Writing? && s'.insts[k].tempValue == Some(temp)
    requires s'.sent == s.sent || s'.sent == s.sent + [Packet(k.0, All, WriteMsg(Some(temp), k.1))]
    ensures s'.sent != s.sent ==>
      InvPacket(c, s', |s.sent|) && forall j | 0 <= j < |s.sent| :: !SamePurpose(s.sent[j], s'.sent[|s.sent|])
  {
    hide Inv;
    forall j | 0 <= j < |s.sent| ensures !IsWrite(s.sent[j], k.1) {
      PacketAt(c, s, j);
    }
  }

  /** onReceivedAccept: the counter, and at the quorum the proof that a majority stored the value. */
  lemma AcceptEvent(c: Config, s: Sys, s': Sys, k: Key, from: PID)
    requires Inv(c, s) && k in s.insts && s.insts[k].queue != []
    requires s.insts[k].queue[0] == ReceivedAccept(from) && s.insts[k].phase.Writing? && s.insts[k].tempValue.Some?
    requires s'.insts.Keys == s.insts.Keys
    requires s'.insts[k] == s.insts[k].(queue := s.insts[k].queue[1..], accepted := s.insts[k].accepted + 1,
                                        phase := s'.insts[k].phase)
    requires s'.insts[k].phase.Writing? || (s'.insts[k].phase.Deciding? && s'.insts[k].accepted >= Quorum(|c.procs|))
    requires s' == s.(insts := s.insts[k := s'.insts[k]], sent := s'.sent)
    requires s'.sent == s.sent
      || (s'.insts[k].phase.Deciding?
          && s'.sent == s.sent + [Packet(k.0, All, DecidedMsg(s.insts[k].tempValue.value, k.1))])
    ensures Inv(c, s') && Grows(c, s, s')
  {
    hide Inv, PhaseOk, InvPacket, SamePurpose, Grows, Chosen;
    AcceptPhase(c, s, s', k, from);
    if s'.sent != s.sent {
      DecidedPacket(c, s', |s.sent|);
      NoPurpose(s, s'.sent[|s.sent|]);
    }
    LeaderEvent(c, s, s', k);
  }

  lemma DecidedPacket(c: Config, s: Sys, id: nat)
    requires id < |s.sent| && s.sent[id].msg.DecidedMsg? && s.sent[id].from in c.procs
    requires s.sent[id].from == c.leaderOf(s.sent[id].msg.epoch)
    requires Chosen(c, s, s.sent[id].msg.epoch, s.sent[id].msg.dval) && s.sent[id].msg.dval in s.proposed
    ensures InvPacket(c, s, id)
  {
    hide Written, Report, WriteSeen, Chosen;
  }

  lemma AcceptPhase(c: Config, s: Sys, s': Sys, k: Key, from: PID)
    requires Inv(c, s) && k in s.insts && s.insts[k].queue != []
    requires s.insts[k].queue[0] == ReceivedAccept(from) && s.insts[k].phase.Writing? && s.insts[k].tempValue.Some?
    requires s'.insts.Keys == s.insts.Keys
    requires s'.insts[k] == s.insts[k].(queue := s.insts[k].queue[1..], accepted := s.insts[k].accepted + 1,
                                        phase := s'.insts[k].phase)
    requires s'.insts[k].phase.Writing? || (s'.insts[k].phase.Deciding? && s'.insts[k].accepted >= Quorum(|c.procs|))
    requires s' == s.(insts := s.insts[k := s'.insts[k]], sent := s'.sent)
    requires s'.sent == s.sent
      || (s'.insts[k].phase.Deciding?
          && s'.sent == s.sent + [Packet(k.0, All, DecidedMsg(s.insts[k].tempValue.value, k.1))])
    ensures PhaseOk(c, s', k, s'.insts[k]) && k.0 in c.procs && k.0 == c.leaderOf(k.1)
    ensures s.insts[k].tempValue.value in s'.proposed
    ensures s'.insts[k].phase.Deciding? ==> Chosen(c, s', k.1, s.insts[k].tempValue.value)
  {
    var v := s.insts[k].tempValue.value;
    At(c, s, k);
    hide Inv, InvQueue, CurrentOk, WriteBacked, Report, Chosen;
    Grown(c, s, s', k);
    CounterKept(c, s, s', k);
    PhaseKept(c, s, s', k, s.insts[k]);
    if s'.insts[k].phase.Deciding? { CountedMeansChosen(c, s, s', k, v); }
    hide Grows, CounterOk;
  }

  lemma CounterBound(c: Config, s: Sys, k: Key)
    requires k in s.insts && s.insts[k].leader == s.insts[k].self && CounterOk(c, s, k, s.insts[k])
    ensures s.insts[k].accepted <= |AcceptsSeen(c, s, k.1)|
  {
  }

  /** Every counted accept comes from a different process that stored the leader's value. */
  lemma CountedMeansChosen(c: Config, s: Sys, s': Sys, k: Key, v: Value)
    requires Inv(c, s) && Grows(c, s, s') && k in s.insts && k in s'.insts && k.0 == c.leaderOf(k.1)
    requires s.insts[k].tempValue == Some(v) && s.insts[k].phase.Writing?
    requires s'.sent <= s.sent + [Packet(k.0, All, DecidedMsg(v, k.1))] && s'.delivered == s.delivered
    requires s'.insts[k].leader == s'.insts[k].self && CounterOk(c, s', k, s'.insts[k])
    requires s'.insts[k].accepted >= Quorum(|c.procs|)
    ensures Chosen(c, s', k.1, v)
  {
    hide Inv, Grows, CounterOk, PhaseOk, Report;
    assert |AcceptsSeen(c, s', k.1)| >= Quorum(|c.procs|) by { CounterBound(c, s', k); }
    assert AcceptsSeen(c, s', k.1) <= Acceptors(c, s, k.1, v) by {
      forall p | p in AcceptsSeen(c, s', k.1) ensures p in Acceptors(c, s, k.1, v) {
        var id :| 0 <= id < |s'.sent| && (k.0, id) in s'.delivered && s'.sent[id].from == p
            && s'.sent[id].msg == AcceptMsg(k.1);
        assert id < |s.sent| && s.sent[id] == s'.sent[id];
        PacketAt(c, s, id);
        At(c, s, (p, k.1));
      }
    }
    SubsetCard(AcceptsSeen(c, s', k.1), Acceptors(c, s, k.1, v));
    ChosenKept(c, s, s', k.1, v);
  }

  /** onDecided: the decision is published, or lost inside Abort, and the instance stalls. */
  lemma DecidedEvent(c: Config, s: Sys, s': Sys, k: Key, v: Value)
    requires Inv(c, s) && k in s.insts && s.insts[k].queue != [] && !s.insts[k].run.Stopped?
    requires s.insts[k].queue[0] == Decided(v) && k.0 in s.chans
    requires s' == s.(insts := s.insts[k := s.insts[k].(queue := s.insts[k].queue[1..], run := Stalled)],
                      chans := s'.chans)
    requires s'.chans == s.chans
      || s'.chans == s.chans[k.0 := s.chans[k.0].(decisions := s.chans[k.0].decisions + multiset{Decision(k.1, v)})]
    ensures Inv(c, s') && Grows(c, s, s')
  {
    hide Inv, InvInst, InvQueue, CurrentOk, PhaseOk, CounterOk;
    At(c, s, k);
    var id :| 0 <= id < |s.sent| && s.sent[id].msg == DecidedMsg(v, k.1);
    PacketAt(c, s, id);
    hide Chosen;
    assert Decision(k.1, v).ts == k.1;
    QuietEvent(c, s, s', k);
  }

  lemma ApplyRead(c: Config, s: Sys, k: Key, h: State)
    requires Inv(c, s) && k in s.insts && s.insts[k].queue != [] && !s.insts[k].run.Stopped? && k.0 in s.chans
    requires s.insts[k].phase.Writing? ==> s.insts[k].tempValue.Some?
    requires s.insts[k].queue[0].HandleRead?
    ensures Inv(c, DoApply(s, k.0, k.1, h)) && Grows(c, s, DoApply(s, k.0, k.1, h))
  {
    hide Inv, Grows;
    var i := s.insts[k];
    var evt := i.queue[0];
    var s' := DoApply(s, k.0, k.1, h);
    ApplyFacts(c, s, k);
    assert s.sent + [] == s.sent;
    IgnoredEvent(c, s, s', k);
  }

  lemma ApplyWrite(c: Config, s: Sys, k: Key, h: State)
    requires Inv(c, s) && k in s.insts && s.insts[k].queue != [] && !s.insts[k].run.Stopped? && k.0 in s.chans
    requires s.insts[k].phase.Writing? ==> s.insts[k].tempValue.Some?
    requires s.insts[k].queue[0].HandleWrite?
    ensures Inv(c, DoApply(s, k.0, k.1, h)) && Grows(c, s, DoApply(s, k.0, k.1, h))
  {
    hide Inv, Grows;
    var i := s.insts[k];
    var evt := i.queue[0];
    var s' := DoApply(s, k.0, k.1, h);
    ApplyFacts(c, s, k);
    assert s.sent + [] == s.sent;
    WriteEvent(c, s, s', k, evt.wval);
  }

  lemma ApplyDecided(c: Config, s: Sys, k: Key, h: State)
    requires Inv(c, s) && k in s.insts && s.insts[k].queue != [] && !s.insts[k].run.Stopped? && k.0 in s.chans
    requires s.insts[k].phase.Writing? ==> s.insts[k].tempValue.Some?
    requires s.insts[k].queue[0].Decided?
    ensures Inv(c, DoApply(s, k.0, k.1, h)) && Grows(c, s, DoApply(s, k.0, k.1, h))
  {
    hide Inv, Grows;
    var i := s.insts[k];
    var evt := i.queue[0];
    var s' := DoApply(s, k.0, k.1, h);
    ApplyFacts(c, s, k);
    assert s.sent + [] == s.sent;
    if i.phase.Deciding? || i.phase.Idle? { DecidedEvent(c, s, s', k, evt.v); } else { IgnoredEvent(c, s, s', k); }
  }

  lemma ApplyPropose(c: Config, s: Sys, k: Key, h: State)
    requires Inv(c, s) && k in s.insts && s.insts[k].queue != [] && !s.insts[k].run.Stopped? && k.0 in s.chans
    requires s.insts[k].phase.Writing? ==> s.insts[k].tempValue.Some?
    requires s.insts[k].queue[0].Propose?
    ensures Inv(c, DoApply(s, k.0, k.1, h)) && Grows(c, s, DoApply(s, k.0, k.1, h))
  {
    hide Inv, Grows;
    var i := s.insts[k];
    var evt := i.queue[0];
    var s' := DoApply(s, k.0, k.1, h);
    ApplyFacts(c, s, k);
    assert s.sent + [] == s.sent;
    if i.phase.Proposing? { ProposeEvent(c, s, s', k, evt.v); } else { IgnoredEvent(c, s, s', k); }
  }

  lemma ApplyState(c: Config, s: Sys, k: Key, h: State)
    requires Inv(c, s) && k in s.insts && s.insts[k].queue != [] && !s.insts[k].run.Stopped? && k.0 in s.chans
    requires s.insts[k].phase.Writing? ==> s.insts[k].tempValue.Some?
    requires s.insts[k].queue[0].ReceivedRead?
    requires Resolves(s.insts[k], s.insts[k].queue[0], h)
    ensures Inv(c, DoApply(s, k.0, k.1, h)) && Grows(c, s, DoApply(s, k.0, k.1, h))
  {
    hide Inv, Grows, IsHighest;
    var i := s.insts[k];
    var evt := i.queue[0];
    var s' := DoApply(s, k.0, k.1, h);
    ApplyFacts(c, s, k);
    assert s.sent + [] == s.sent;
    if !i.phase.Reading? {
      IgnoredEvent(c, s, s', k);
    } else if |i.received[evt.from := evt.state]| < Quorum(i.n) {
      CollectEvent(c, s, s', k, evt.from, evt.state);
    } else {
      FixEvent(c, s, s', k, evt.from, evt.state, h, (if h.val.Some? then h.val else i.tempValue).value);
    }
  }

  lemma ApplyAccept(c: Config, s: Sys, k: Key, h: State)
    requires Inv(c, s) && k in s.insts && s.insts[k].queue != [] && !s.insts[k].run.Stopped? && k.0 in s.chans
    requires s.insts[k].phase.Writing? ==> s.insts[k].tempValue.Some?
    requires s.insts[k].queue[0].ReceivedAccept?
    ensures Inv(c, DoApply(s, k.0, k.1, h)) && Grows(c, s, DoApply(s, k.0, k.1, h))
  {
    hide Inv, Grows;
    var i := s.insts[k];
    var evt := i.queue[0];
    var s' := DoApply(s, k.0, k.1, h);
    ApplyFacts(c, s, k);
    assert s.sent + [] == s.sent;
    if i.phase.Writing? { AcceptEvent(c, s, s', k, evt.from); } else { IgnoredEvent(c, s, s', k); }
  }

  lemma ApplyStep(c: Config, s: Sys, t: Step)
    requires Inv(c, s) && t.ApplyEvent? && Enabled(c, s, t)
    ensures Inv(c, Do(c, s, t)) && Grows(c, s, Do(c, s, t))
  {
    var k := (t.p, t.e);
    hide Inv, Grows, IsHighest, DoApply;
    match s.insts[k].queue[0] {
      case HandleRead(_) => ApplyRead(c, s, k, t.h);
      case HandleWrite(_, _) => ApplyWrite(c, s, k, t.h);
      case Decided(_) => ApplyDecided(c, s, k, t.h);
      case Propose(_) => ApplyPropose(c, s, k, t.h);
      case ReceivedRead(_, _) => ApplyState(c, s, k, t.h);
      case ReceivedAccept(_) => ApplyAccept(c, s, k, t.h);
    }
  }

  lemma ApplyFacts(c: Config, s: Sys, k: Key)
    requires Inv(c, s) && k in s.insts && s.insts[k].queue != []
    ensures s.insts[k].self == k.0 && s.insts[k].epochTs == k.1 && s.insts[k].n == |c.procs|
    ensures s.insts[k].leader == c.leaderOf(k.1) && k.0 in c.procs && k.0 in s.chans
    ensures s.insts[k].phase.Reading? || WritePhase(s.insts[k]) ==> s.insts[k].tempValue.Some?
    ensures s.insts[k].queue[0].HandleRead? ==> s.insts[k].queue[0].from == c.leaderOf(k.1)
    ensures s.insts[k].queue[0].HandleWrite? ==> s.insts[k].queue[0].from == c.leaderOf(k.1)
  {
    hide Inv;
    At(c, s, k);
  }
}

/** Lock-in across epochs and what it gives over whole runs: agreement, validity, integrity. */
module UniformAgreement {
  import opened Common
  import opened EpochInstance
  import opened UniformNode
  import opened UniformSystem
  import opened UniformInvariant
  import opened UniformSteps
  import opened UniformNodeSteps

  /** No node took a decision in epoch 0, or two majorities always coincide. */
  predicate Unambiguous(c: Config, s: Sys) {
    |c.procs| <= 2 || 0 !in s.taken
  }

  lemma ChosenWritten(c: Config, s: Sys, e: int, v: Value)
    requires Inv(c, s) && Chosen(c, s, e, v)
    ensures 0 <= e && Written(c, s, e, v)
  {
    hide Inv;
    assert Acceptors(c, s, e, v) != {};
    var q :| q in Acceptors(c, s, e, v);
    At(c, s, (q, e));
  }

  lemma DecideChosen(c: Config, s: Sys, e: int, v: Value)
    requires Inv(c, s) && DecideSent(s, e, v)
    ensures Chosen(c, s, e, v) && 0 <= e
  {
    hide Inv, Chosen;
    var id :| 0 <= id < |s.sent| && s.sent[id].msg == DecidedMsg(v, e);
    PacketAt(c, s, id);
    ChosenWritten(c, s, e, v);
  }

  /** A process that stored v0 in epoch e0 reports, in any later epoch, at least that timestamp and, at that timestamp,
      a value. */
  lemma ReportCovers(c: Config, s: Sys, q: PID, e0: int, v0: Value, e: int, st: State)
    requires Report(c, s, q, e, st) && AcceptedIn(s, q, e0, v0) && e0 < e
    requires s.insts[(q, e0)].epochTs == e0
    ensures e0 <= st.ts && (st.ts == e0 ==> st.val.Some?)
  {
    hide Justified;
    assert Sealed(s.insts[(q, e0)], st);
  }

  /** The read quorum of a later epoch contains a process that stored the chosen value. */
  lemma QuorumCovers(c: Config, s: Sys, e0: int, v0: Value, e: int, v: Value, r: map<PID, State>, h: State)
    requires Inv(c, s) && Chosen(c, s, e0, v0) && e0 < e && Backs(c, s, e, v, r, h)
    requires 0 < e0 || |c.procs| <= 2
    ensures e0 <= h.ts && h.val == Some(v) && h.ts < e && Justified(c, s, h)
  {
    hide Inv, Justified, Promised;
    var a := Acceptors(c, s, e0, v0);
    ChosenWritten(c, s, e0, v0);
    var q := QuorumsMeet(a, r.Keys, c.procs, {});
    At(c, s, (q, e0));
    ReportCovers(c, s, q, e0, v0, e, r[q]);
    JustifiedTs(c, s, r[q]);
    assert r[q].ts <= h.ts;
    var q2 :| q2 in r && r[q2] == h;
    if h.ts == 0 {
      AllAcceptors(c, s, e0, v0, q2);
      At(c, s, (q2, e0));
      ReportCovers(c, s, q2, e0, v0, e, h);
    } else {
      ValuedState(c, s, h);
    }
  }

  lemma ValuedState(c: Config, s: Sys, st: State)
    requires Justified(c, s, st) && st.ts != 0
    ensures st.val.Some?
  {
  }

  /** With at most two processes every majority is everybody. */
  lemma AllAcceptors(c: Config, s: Sys, e: int, v: Value, q: PID)
    requires |c.procs| <= 2 && Chosen(c, s, e, v) && q in c.procs
    ensures AcceptedIn(s, q, e, v)
  {
    var a := Acceptors(c, s, e, v);
    if q !in a {
      SubsetCard(a + {q}, c.procs);
    }
  }

  /** Once a majority stored v0 in epoch e0, the leader of every later epoch writes v0. */
  lemma {:induction false} LockIn(c: Config, s: Sys, e0: int, v0: Value, e: int, v: Value)
    requires Inv(c, s) && Unambiguous(c, s)
    requires Chosen(c, s, e0, v0) && (0 < e0 || |c.procs| <= 2)
    requires Written(c, s, e, v) && e0 <= e
    ensures v == v0
    decreases e
  {
    hide Inv, Chosen, Backs, DecideSent, WriteBacked;
    ChosenWritten(c, s, e0, v0);
    if e0 < e {
      At(c, s, (c.leaderOf(e), e));
      var r, h := Backing(c, s, e, v);
      QuorumCovers(c, s, e0, v0, e, v, r, h);
      assert 0 <= e;
      if Written(c, s, h.ts, v) {
        LockIn(c, s, e0, v0, h.ts, v);
      } else {
        var e1 :| e1 <= h.ts && e1 in s.taken && DecideSent(s, e1, v);
        DecideChosen(c, s, e1, v);
        ChosenWritten(c, s, e1, v);
        if e0 <= e1 {
          LockIn(c, s, e0, v0, e1, v);
        } else {
          LockIn(c, s, e1, v, e0, v0);
        }
      }
    }
  }

  lemma Backing(c: Config, s: Sys, e: int, v: Value) returns (r: map<PID, State>, h: State)
    requires WriteBacked(c, s, e, v)
    ensures Backs(c, s, e, v, r, h)
  {
    hide Backs;
    r, h :| Backs(c, s, e, v, r, h);
  }

  /** ... and every state carried, reported or made up with a timestamp from e0 on holds v0. */
  lemma LockedState(c: Config, s: Sys, e0: int, v0: Value, st: State)
    requires Inv(c, s) && Unambiguous(c, s)
    requires Chosen(c, s, e0, v0) && 0 < e0 <= st.ts && Justified(c, s, st)
    ensures st.val == Some(v0)
  {
    hide Inv, Chosen, Written, DecideSent;
    var v := st.val.value;
    if Written(c, s, st.ts, v) {
      LockIn(c, s, e0, v0, st.ts, v);
    } else {
      var e1 :| e1 <= st.ts && e1 in s.taken && DecideSent(s, e1, v);
      DecideChosen(c, s, e1, v);
      TwoChosen(c, s, e0, v0, e1, v);
    }
  }

  lemma TwoChosen(c: Config, s: Sys, e0: int, v0: Value, e1: int, v1: Value)
    requires Inv(c, s) && Unambiguous(c, s)
    requires Chosen(c, s, e0, v0) && (0 < e0 || |c.procs| <= 2)
    requires Chosen(c, s, e1, v1) && (0 < e1 || |c.procs| <= 2)
    ensures v0 == v1
  {
    hide Inv, Chosen, Unambiguous, Written;
    ChosenWritten(c, s, e0, v0);
    ChosenWritten(c, s, e1, v1);
    if e0 <= e1 { LockIn(c, s, e0, v0, e1, v1); } else { LockIn(c, s, e1, v1, e0, v0); }
  }

  lemma {:induction false} RunGrows(c: Config, run: seq<Sys>, i: nat, j: nat)
    requires ValidConfig(c) && IsRun(c, run) && i <= j < |run|
    ensures run[i].sent <= run[j].sent && run[i].proposed <= run[j].proposed && run[i].taken <= run[j].taken
    decreases j - i
  {
    hide Inv, Do, Enabled, ValidConfig;
    if i < j {
      RunGrows(c, run, i, j - 1);
      RunInv(c, run, j - 1);
      assert Next(c, run[j - 1], run[j - 1 + 1]);
      var t :| Enabled(c, run[j - 1], t) && run[j] == Do(c, run[j - 1], t);
      StepInv(c, run[j - 1], t);
      GrowsOnly(c, run[j - 1], run[j]);
    }
  }

  /** Uniform agreement: no two nodes ever decide differently, at whatever points of the run, with whatever crashes
      and delays, provided no node took a decision in epoch 0 or there are at most two processes. */
  lemma Agreement(c: Config, run: seq<Sys>, i: nat, j: nat, p: PID, q: PID)
    requires ValidConfig(c) && IsRun(c, run) && i < |run| && j < |run| && p in c.procs && q in c.procs
    requires Unambiguous(c, run[|run| - 1])
    requires p in run[i].nodes && run[i].nodes[p].decided.Some?
    requires q in run[j].nodes && run[j].nodes[q].decided.Some?
    ensures run[i].nodes[p].decided == run[j].nodes[q].decided
  {
    hide Inv, IsRun, Chosen, DecideSent;
    var last := |run| - 1;
    var s := run[last];
    RunInv(c, run, last);
    var e0 := DecidedEarlier(c, run, i, p);
    var e1 := DecidedEarlier(c, run, j, q);
    DecideChosen(c, s, e0, run[i].nodes[p].decided.value);
    DecideChosen(c, s, e1, run[j].nodes[q].decided.value);
    TwoChosen(c, s, e0, run[i].nodes[p].decided.value, e1, run[j].nodes[q].decided.value);
  }

  lemma RunProcesses(c: Config, run: seq<Sys>, k: nat)
    requires ValidConfig(c) && IsRun(c, run) && k < |run|
    ensures run[k].nodes.Keys == c.procs
  {
    hide Inv;
    RunInv(c, run, k);
    SentAt(c, run[k]);
  }

  lemma DecidedEarlier(c: Config, run: seq<Sys>, i: nat, p: PID) returns (e: int)
    requires ValidConfig(c) && IsRun(c, run) && i < |run| && p in c.procs
    requires p in run[i].nodes && run[i].nodes[p].decided.Some?
    ensures e in run[|run| - 1].taken && DecideSent(run[|run| - 1], e, run[i].nodes[p].decided.value)
  {
    hide Inv, IsRun, DecideSent;
    RunInv(c, run, i);
    NodeAt(c, run[i], p);
    var v := run[i].nodes[p].decided.value;
    e :| e <= run[i].nodes[p].ets && e in run[i].taken && DecideSent(run[i], e, v);
    RunGrows(c, run, i, |run| - 1);
    DecideSentGrows(run[i], run[|run| - 1], e, v);
  }

  /** Validity: every value written, stored, carried or decided anywhere was handed to some node's Propose. */
  lemma Validity(c: Config, run: seq<Sys>, k: nat)
    requires ValidConfig(c) && IsRun(c, run) && k < |run|
    ensures forall id | 0 <= id < |run[k].sent| && run[k].sent[id].msg.WriteMsg? ::
              run[k].sent[id].msg.wval.Some? && run[k].sent[id].msg.wval.value in run[k].proposed
    ensures forall j | j in run[k].insts && run[k].insts[j].current.val.Some? ::
              run[k].insts[j].current.val.value in run[k].proposed
    ensures forall p | p in c.procs && p in run[k].nodes && run[k].nodes[p].decided.Some? ::
              run[k].nodes[p].decided.value in run[k].proposed
  {
    hide Inv, IsRun;
    var s := run[k];
    RunInv(c, run, k);
    forall id | 0 <= id < |s.sent| && s.sent[id].msg.WriteMsg?
      ensures s.sent[id].msg.wval.Some? && s.sent[id].msg.wval.value in s.proposed
    {
      PacketAt(c, s, id);
      At(c, s, (c.leaderOf(s.sent[id].msg.epoch), s.sent[id].msg.epoch));
    }
    forall j | j in s.insts && s.insts[j].current.val.Some? ensures s.insts[j].current.val.value in s.proposed {
      At(c, s, j);
    }
    forall p | p in c.procs && p in s.nodes && s.nodes[p].decided.Some? ensures s.nodes[p].decided.value in s.proposed {
      NodeAt(c, s, p);
    }
  }

  /** Each epoch has at most one write packet, hence at most one written value, in the whole run. */
  lemma OneWritePerEpoch(c: Config, run: seq<Sys>, k: nat, id: nat, id': nat)
    requires ValidConfig(c) && IsRun(c, run) && k < |run| && id < |run[k].sent| && id' < |run[k].sent|
    requires run[k].sent[id].msg.WriteMsg? && run[k].sent[id'].msg.WriteMsg?
    requires run[k].sent[id].msg.epoch == run[k].sent[id'].msg.epoch
    ensures id == id'
  {
    hide Inv, IsRun;
    RunInv(c, run, k);
    SentAt(c, run[k]);
    assert SamePurpose(run[k].sent[id], run[k].sent[id']) && SamePurpose(run[k].sent[id'], run[k].sent[id]);
  }

  /** A write acknowledged before or while an abort drains its queue is the state the abort carries on. */
  lemma DrainedWriteCarried(c: Config, run: seq<Sys>, k: nat, p: PID)
    requires ValidConfig(c) && IsRun(c, run) && k < |run| && Enabled(c, run[k], FinishAbort(p))
    requires AcceptSent(run[k], p, run[k].nodes[p].ets)
    ensures var s := run[k]; var ets := s.nodes[p].ets; var a := s.insts[(p, ets)].current;
            && AbortedState(ets, a) in Do(c, s, FinishAbort(p)).chans[p].aborts
            && a.ts == ets && a.val.Some? && Written(c, s, ets, a.val.value)
  {
    hide Inv, IsRun;
    var s := run[k];
    RunInv(c, run, k);
    var id :| 0 <= id < |s.sent| && s.sent[id].from == p && s.sent[id].msg == AcceptMsg(s.nodes[p].ets);
    PacketAt(c, s, id);
    At(c, s, (p, s.nodes[p].ets));
  }

  ghost predicate NodeAdvances(n: Node, n': Node) {
    && n.ets <= n'.ets
    && (n.decided.Some? ==> n'.decided == n.decided)
  }

  lemma StepAdvances(c: Config, s: Sys, t: Step, p: PID)
    requires Inv(c, s) && Enabled(c, s, t) && p in s.nodes
    ensures p in Do(c, s, t).nodes && NodeAdvances(s.nodes[p], Do(c, s, t).nodes[p])
    ensures forall k | k in Do(c, s, t).insts && k !in s.insts :: s.nodes[t.p].ets < k.1 == Do(c, s, t).nodes[t.p].ets
  {
    hide Inv, DeliverAll, DeliverTo, Take, IsDelivery;
    assert p in c.procs && t.p in c.procs by { SentAt(c, s); }
    if t.TakeAborted? {
      NodeAt(c, s, t.p);
    }
  }

  /** Along a run a node's epoch never falls, and a decision once made stays. */
  lemma {:induction false} Integrity(c: Config, run: seq<Sys>, i: nat, j: nat, p: PID)
    requires ValidConfig(c) && IsRun(c, run) && i <= j < |run| && p in c.procs
    ensures p in run[i].nodes && p in run[j].nodes && NodeAdvances(run[i].nodes[p], run[j].nodes[p])
    decreases j - i
  {
    hide Inv, Do, Enabled, ValidConfig;
    RunInv(c, run, i);
    SentAt(c, run[i]);
    if i < j {
      Integrity(c, run, i, j - 1, p);
      RunInv(c, run, j - 1);
      assert Next(c, run[j - 1], run[j - 1 + 1]);
      var t :| Enabled(c, run[j - 1], t) && run[j] == Do(c, run[j - 1], t);
      StepAdvances(c, run[j - 1], t, p);
    }
  }
}

/** What holds in every reachable state of uniform consensus, and which parts of it survive growth of the state. */
module UniformInvariant {
  import opened Common
  import opened EpochInstance
  import opened UniformNode
  import opened UniformSystem

  type Key = (PID, int)

  // ---- Facts about values ----

  predicate WritePhase(i: Inst) { i.phase.Writing? || i.phase.Deciding? }

  /** The leader of epoch e has fixed v as the value it writes. */
  ghost predicate Written(c: Config, s: Sys, e: int, v: Value) {
    var k := (c.leaderOf(e), e);
    k in s.insts && WritePhase(s.insts[k]) && s.insts[k].tempValue == Some(v)
  }

  ghost predicate AcceptedIn(s: Sys, p: PID, e: int, v: Value) {
    (p, e) in s.insts && s.insts[(p, e)].current == State(e, Some(v))
  }

  ghost function Acceptors(c: Config, s: Sys, e: int, v: Value): set<PID> {
    set p | p in c.procs && AcceptedIn(s, p, e, v)
  }

  /** A majority has stored v in epoch e. */
  ghost predicate Chosen(c: Config, s: Sys, e: int, v: Value) {
    |Acceptors(c, s, e, v)| >= Quorum(|c.procs|)
  }

  ghost predicate DecideSent(s: Sys, e: int, v: Value) {
    exists id | 0 <= id < |s.sent| :: s.sent[id].msg == DecidedMsg(v, e)
  }

  /** Where the value of a carried state can come from. */
  ghost predicate Justified(c: Config, s: Sys, st: State) {
    && 0 <= st.ts
    && (st.val.None? ==> st.ts == 0)
    && (st.val.Some? ==>
      && st.val.value in s.proposed
      && (Written(c, s, st.ts, st.val.value) || DecidedBy(s, st.ts, st.val.value)))
  }

  ghost predicate DecidedBy(s: Sys, e: int, v: Value) {
    exists e0 :: e0 <= e && e0 in s.taken && DecideSent(s, e0, v)
  }

  /** An earlier instance either is over, with everything it stored reflected in st, or is covered by st's timestamp. */
  predicate Sealed(i: Inst, st: State) {
    || (i.run.Stopped? && (i.current.ts < st.ts || i.current == st))
    || (i.epochTs <= st.ts && st.val.Some?)
  }

  ghost predicate Promised(s: Sys, q: PID, e: int, st: State) {
    forall e' | (q, e') in s.insts && e' < e :: Sealed(s.insts[(q, e')], st)
  }

  ghost predicate LeaderWrote(c: Config, s: Sys, e: int) {
    var k := (c.leaderOf(e), e);
    k in s.insts && WritePhase(s.insts[k])
  }

  /** st is a state q can report to the leader of epoch e. */
  ghost predicate Report(c: Config, s: Sys, q: PID, e: int, st: State) {
    && q in c.procs && (q, e) in s.insts
    && Justified(c, s, st) && st.ts <= e
    && Promised(s, q, e, st)
    && (0 < st.ts == e ==> LeaderWrote(c, s, e))
  }

  /** v is what the leader of epoch e had to write after reading the states r. */
  ghost predicate Backs(c: Config, s: Sys, e: int, v: Value, r: map<PID, State>, h: State) {
    && r.Keys <= c.procs && |r| >= Quorum(|c.procs|)
    && IsHighest(r, h) && (h.val.Some? ==> h.val == Some(v))
    && forall q | q in r :: Report(c, s, q, e, r[q]) && (r[q].ts < e || e == 0)
  }

  ghost predicate WriteBacked(c: Config, s: Sys, e: int, v: Value) {
    exists r, h :: Backs(c, s, e, v, r, h)
  }

  // ---- Packets on the wire ----

  ghost predicate AcceptSent(s: Sys, p: PID, e: int) {
    exists id | 0 <= id < |s.sent| :: s.sent[id].from == p && s.sent[id].msg == AcceptMsg(e)
  }

  predicate IsWrite(k: Packet, e: int) { k.msg.WriteMsg? && k.msg.epoch == e }

  ghost predicate WriteSeen(s: Sys, p: PID, e: int) {
    exists id | 0 <= id < |s.sent| :: (p, id) in s.delivered && IsWrite(s.sent[id], e)
  }

  ghost predicate AcceptSeen(s: Sys, leader: PID, p: PID, e: int) {
    exists id | 0 <= id < |s.sent| ::
        (leader, id) in s.delivered && s.sent[id].from == p && s.sent[id].msg == AcceptMsg(e)
  }

  /** The processes whose accept of epoch e has been handed to its leader. */
  ghost function AcceptsSeen(c: Config, s: Sys, e: int): set<PID> {
    set p | p in c.procs && AcceptSeen(s, c.leaderOf(e), p, e)
  }

  function CountAccepts(q: seq<Event>): nat {
    if q == [] then 0 else CountAccepts(q[..|q| - 1]) + if q[|q| - 1].ReceivedAccept? then 1 else 0
  }

  // ---- The invariant, element by element ----

  /** The instance is the one of its process and epoch. */
  ghost predicate ShapeOk(c: Config, k: Key, i: Inst) {
    && k.0 in c.procs && 0 <= k.1
    && i.self == k.0 && i.epochTs == k.1 && i.n == |c.procs| && i.leader == c.leaderOf(k.1)
    && (i.phase.Idle? <==> i.leader != i.self)
  }

  /** Its stored state is reportable, and a value stored in this epoch is the leader's. */
  ghost predicate CurrentOk(c: Config, s: Sys, k: Key, st: State) {
    && Report(c, s, k.0, k.1, st)
    && (st.ts == k.1 && st.val.Some? ==> Written(c, s, k.1, st.val.value))
  }

  /** The evidence behind the leader's phase. */
  ghost predicate PhaseOk(c: Config, s: Sys, k: Key, i: Inst) {
    && (i.phase.Reading? || WritePhase(i) ==> i.tempValue.Some? && i.tempValue.value in s.proposed)
    && (!i.phase.Reading? ==> i.received == map[])
    && (forall q | q in i.received :: Report(c, s, q, k.1, i.received[q]))
    && (WritePhase(i) ==> WriteBacked(c, s, k.1, i.tempValue.value))
    && (i.phase.Deciding? ==> Chosen(c, s, k.1, i.tempValue.value))
  }

  /** Counted and queued accepts never outnumber the processes whose accept has arrived. */
  ghost predicate CounterOk(c: Config, s: Sys, k: Key, i: Inst) {
    i.leader == i.self ==> i.accepted + CountAccepts(i.queue) <= |AcceptsSeen(c, s, k.1)|
  }

  ghost predicate InvInst(c: Config, s: Sys, k: Key)
    requires k in s.insts
  {
    && ShapeOk(c, k, s.insts[k])
    && CurrentOk(c, s, k, s.insts[k].current)
    && PhaseOk(c, s, k, s.insts[k])
    && CounterOk(c, s, k, s.insts[k])
  }

  ghost predicate InvEvent(c: Config, s: Sys, k: Key, evt: Event) {
    match evt
    case Propose(v) => v in s.proposed
    case ReceivedRead(from, st) => Report(c, s, from, k.1, st)
    case ReceivedAccept(_) => true
    case Decided(v) => DecideSent(s, k.1, v)
    case HandleRead(from) => from == c.leaderOf(k.1)
    case HandleWrite(from, v) =>
      && from == c.leaderOf(k.1) && v.Some? && Written(c, s, k.1, v.value)
      && !AcceptSent(s, k.0, k.1) && WriteSeen(s, k.0, k.1)
  }

  ghost predicate InvQueue(c: Config, s: Sys, k: Key)
    requires k in s.insts
  {
    var q := s.insts[k].queue;
    && (forall j | 0 <= j < |q| :: InvEvent(c, s, k, q[j]))
    && (forall j, l | 0 <= j < l < |q| :: !(q[j].HandleWrite? && q[l].HandleWrite?))
  }

  ghost predicate InvPacket(c: Config, s: Sys, id: nat)
    requires id < |s.sent|
  {
    var k := s.sent[id];
    var e := k.msg.epoch;
    && k.from in c.procs
    && match k.msg
       case ReadMsg(_) => k.from == c.leaderOf(e)
       case WriteMsg(v, _) => k.from == c.leaderOf(e) && v.Some? && Written(c, s, e, v.value)
       case StateMsg(st, _) => k.dest == To(c.leaderOf(e)) && Report(c, s, k.from, e, st)
       case AcceptMsg(_) =>
         && k.dest == To(c.leaderOf(e)) && (k.from, e) in s.insts
         && s.insts[(k.from, e)].current.ts == e && s.insts[(k.from, e)].current.val.Some?
         && WriteSeen(s, k.from, e)
       case DecidedMsg(v, _) => k.from == c.leaderOf(e) && Chosen(c, s, e, v) && v in s.proposed
  }

  ghost predicate SamePurpose(j: Packet, k: Packet) {
    || (j.msg.WriteMsg? && k.msg.WriteMsg? && j.msg.epoch == k.msg.epoch)
    || (j.msg.AcceptMsg? && k.msg.AcceptMsg? && j.msg.epoch == k.msg.epoch && j.from == k.from)
  }

  ghost predicate InvUnique(s: Sys) {
    forall j, l | 0 <= j < l < |s.sent| :: !SamePurpose(s.sent[j], s.sent[l])
  }

  ghost predicate InvBuffered(s: Sys, p: PID, e: int, m: map<nat, Packet>) {
    forall id | id in m ::
      id < |s.sent| && (p, id) in s.delivered && m[id] == s.sent[id] && s.sent[id].msg.epoch == e
      && (s.sent[id].dest == All || s.sent[id].dest == To(p))
  }

  ghost predicate InvInbox(s: Sys, p: PID, b: Inbox) {
    forall e | e in b :: InvBuffered(s, p, e, b[e])
  }

  ghost predicate InvNode(c: Config, s: Sys, p: PID)
    requires p in s.nodes
  {
    var n := s.nodes[p];
    && n.self == p && n.n == |c.procs| && 0 <= n.ets && n.leader == c.leaderOf(n.ets)
    && (p, n.ets) in s.insts
    && (forall e | (p, e) in s.insts :: e <= n.ets)
    && (n.val.Some? ==> n.val.value in s.proposed)
    && (n.decided.Some? ==> n.decided.value in s.proposed && DecidedBy(s, n.ets, n.decided.value))
    && (n.aborting ==> n.ets < n.newTs && n.newLeader == c.leaderOf(n.newTs))
    && InvInbox(s, p, n.inbox)
  }

  /** The state with which a node can enter the next epoch. */
  ghost predicate Carriable(c: Config, s: Sys, p: PID, ets: int, st: State) {
    Justified(c, s, st) && st.ts <= ets && Promised(s, p, ets + 1, st)
  }

  ghost predicate InvChans(c: Config, s: Sys, p: PID)
    requires p in s.chans && p in s.nodes
  {
    var n := s.nodes[p];
    && (forall j | 0 <= j < |s.chans[p].epochs| ::
          0 < s.chans[p].epochs[j].ts && s.chans[p].epochs[j].leader == c.leaderOf(s.chans[p].epochs[j].ts))
    && (forall a | a in s.chans[p].aborts ::
          a.ts <= n.ets && (a.ts == n.ets ==>
            n.ets < n.newTs && n.newLeader == c.leaderOf(n.newTs) && Carriable(c, s, p, n.ets, a.state)))
    && (forall d | d in s.chans[p].decisions :: d.val in s.proposed && DecideSent(s, d.ts, d.val))
  }

  ghost predicate InvSent(c: Config, s: Sys) {
    && (forall id: nat | id < |s.sent| :: InvPacket(c, s, id))
    && InvUnique(s)
    && (forall d | d in s.delivered :: d.1 < |s.sent|)
  }

  ghost predicate Inv(c: Config, s: Sys) {
    && s.nodes.Keys == c.procs && s.chans.Keys == c.procs
    && (forall k | k in s.insts :: InvInst(c, s, k) && InvQueue(c, s, k))
    && (forall p | p in c.procs :: InvNode(c, s, p) && InvChans(c, s, p))
    && InvSent(c, s)
  }

  // ---- Growth ----

  ghost predicate InstGrows(i: Inst, j: Inst) {
    && i.self == j.self && i.epochTs == j.epochTs
    && (WritePhase(i) ==> WritePhase(j) && j.tempValue == i.tempValue)
    && (i.run.Stopped? ==> j.run.Stopped? && j.current == i.current)
    && (i.current.ts == i.epochTs && i.current.val.Some? ==> j.current == i.current)
  }

  ghost predicate Grows(c: Config, s: Sys, s': Sys) {
    && s.sent <= s'.sent && s.delivered <= s'.delivered && s.proposed <= s'.proposed && s.taken <= s'.taken
    && (forall k | k in s.insts :: k in s'.insts && InstGrows(s.insts[k], s'.insts[k]))
    && (forall k | k in s'.insts && k !in s.insts :: k.0 in s.nodes && s.nodes[k.0].ets < k.1)
  }

  lemma DecideSentGrows(s: Sys, s': Sys, e: int, v: Value)
    requires s.sent <= s'.sent && DecideSent(s, e, v)
    ensures DecideSent(s', e, v)
  {
    var id :| 0 <= id < |s.sent| && s.sent[id].msg == DecidedMsg(v, e);
    assert s'.sent[id] == s.sent[id];
  }

  lemma DecidedByGrows(s: Sys, s': Sys, e: int, v: Value)
    requires s.sent <= s'.sent && s.taken <= s'.taken && DecidedBy(s, e, v)
    ensures DecidedBy(s', e, v)
  {
    var e0 :| e0 <= e && e0 in s.taken && DecideSent(s, e0, v);
    DecideSentGrows(s, s', e0, v);
  }

  lemma JustifiedGrows(c: Config, s: Sys, s': Sys, st: State)
    requires Grows(c, s, s') && Justified(c, s, st)
    ensures Justified(c, s', st)
  {
    if st.val.Some? && !Written(c, s, st.ts, st.val.value) {
      DecidedByGrows(s, s', st.ts, st.val.value);
    }
  }

  lemma PromisedGrows(c: Config, s: Sys, s': Sys, q: PID, e: int, st: State)
    requires Grows(c, s, s') && Promised(s, q, e, st)
    requires q in s.nodes && e <= s.nodes[q].ets + 1
    ensures Promised(s', q, e, st)
  {
    forall e' | (q, e') in s'.insts && e' < e ensures Sealed(s'.insts[(q, e')], st) {
      assert (q, e') in s.insts;
    }
  }

  lemma ReportGrows(c: Config, s: Sys, s': Sys, q: PID, e: int, st: State)
    requires Grows(c, s, s') && Report(c, s, q, e, st)
    requires q in s.nodes && e <= s.nodes[q].ets
    ensures Report(c, s', q, e, st)
  {
    JustifiedGrows(c, s, s', st);
    PromisedGrows(c, s, s', q, e, st);
  }

  lemma ChosenGrows(c: Config, s: Sys, s': Sys, e: int, v: Value)
    requires Grows(c, s, s') && Chosen(c, s, e, v)
    requires forall k | k in s.insts :: s.insts[k].epochTs == k.1
    ensures Chosen(c, s', e, v)
  {
    SubsetCard(Acceptors(c, s, e, v), Acceptors(c, s', e, v));
  }

  lemma WriteBackedGrows(c: Config, s: Sys, s': Sys, e: int, v: Value)
    requires Grows(c, s, s') && WriteBacked(c, s, e, v)
    requires forall k | k in s.insts :: k.0 in s.nodes && k.1 <= s.nodes[k.0].ets
    ensures WriteBacked(c, s', e, v)
  {
    var r, h :| Backs(c, s, e, v, r, h);
    forall q | q in r ensures Report(c, s', q, e, r[q]) {
      ReportGrows(c, s, s', q, e, r[q]);
    }
    assert Backs(c, s', e, v, r, h);
  }

  lemma ReportKept(c: Config, s: Sys, s': Sys, q: PID, e: int, st: State)
    requires Inv(c, s) && Grows(c, s, s') && Report(c, s, q, e, st)
    ensures Report(c, s', q, e, st)
  {
    assert InvNode(c, s, q);
    ReportGrows(c, s, s', q, e, st);
  }

  lemma ChosenKept(c: Config, s: Sys, s': Sys, e: int, v: Value)
    requires Inv(c, s) && Grows(c, s, s') && Chosen(c, s, e, v)
    ensures Chosen(c, s', e, v)
  {
    forall k | k in s.insts ensures s.insts[k].epochTs == k.1 { assert InvInst(c, s, k); }
    ChosenGrows(c, s, s', e, v);
  }

  lemma BackedKept(c: Config, s: Sys, s': Sys, e: int, v: Value)
    requires Inv(c, s) && Grows(c, s, s') && WriteBacked(c, s, e, v)
    ensures WriteBacked(c, s', e, v)
  {
    forall k | k in s.insts ensures k.0 in s.nodes && k.1 <= s.nodes[k.0].ets {
      assert InvInst(c, s, k);
      assert InvNode(c, s, k.0);
    }
    WriteBackedGrows(c, s, s', e, v);
  }

  lemma WriteSeenGrows(s: Sys, s': Sys, p: PID, e: int)
    requires s.sent <= s'.sent && s.delivered <= s'.delivered && WriteSeen(s, p, e)
    ensures WriteSeen(s', p, e)
  {
    var id :| 0 <= id < |s.sent| && (p, id) in s.delivered && IsWrite(s.sent[id], e);
    assert s'.sent[id] == s.sent[id];
  }

  lemma AcceptsSeenGrows(c: Config, s: Sys, s': Sys, e: int)
    requires s.sent <= s'.sent && s.delivered <= s'.delivered
    ensures AcceptsSeen(c, s, e) <= AcceptsSeen(c, s', e)
    ensures |AcceptsSeen(c, s, e)| <= |AcceptsSeen(c, s', e)|
  {
    forall p | p in AcceptsSeen(c, s, e) ensures p in AcceptsSeen(c, s', e) {
      var id :| 0 <= id < |s.sent| && (c.leaderOf(e), id) in s.delivered && s.sent[id].from == p
          && s.sent[id].msg == AcceptMsg(e);
      assert s'.sent[id] == s.sent[id];
    }
    SubsetCard(AcceptsSeen(c, s, e), AcceptsSeen(c, s', e));
  }

  // ---- Unchanged elements keep their part of the invariant ----

  /** The only new packets come from the instance k. */
  ghost predicate SentBy(s: Sys, s': Sys, k: Key) {
    forall id | |s.sent| <= id < |s'.sent| :: s'.sent[id].from == k.0 && s'.sent[id].msg.epoch == k.1
  }

  lemma PhaseKept(c: Config, s: Sys, s': Sys, k: Key, i: Inst)
    requires Inv(c, s) && Grows(c, s, s') && PhaseOk(c, s, k, i)
    ensures PhaseOk(c, s', k, i)
  {
    hide Inv, Report, Chosen, WriteBacked;
    forall q | q in i.received ensures Report(c, s', q, k.1, i.received[q]) {
      ReportKept(c, s, s', q, k.1, i.received[q]);
    }
    if WritePhase(i) { BackedKept(c, s, s', k.1, i.tempValue.value); }
    if i.phase.Deciding? { ChosenKept(c, s, s', k.1, i.tempValue.value); }
  }

  lemma CurrentKept(c: Config, s: Sys, s': Sys, k: Key, st: State)
    requires Inv(c, s) && Grows(c, s, s') && CurrentOk(c, s, k, st)
    ensures CurrentOk(c, s', k, st)
  {
    hide Inv, Report;
    ReportKept(c, s, s', k.0, k.1, st);
  }

  /** What the invariant says about one instance and the event it takes next. */
  lemma At(c: Config, s: Sys, k: Key)
    requires Inv(c, s) && k in s.insts
    ensures InvInst(c, s, k) && InvQueue(c, s, k)
    ensures s.insts[k].queue != [] ==> InvEvent(c, s, k, s.insts[k].queue[0])
    ensures ShapeOk(c, k, s.insts[k]) && CurrentOk(c, s, k, s.insts[k].current)
    ensures PhaseOk(c, s, k, s.insts[k]) && CounterOk(c, s, k, s.insts[k])
    ensures k.0 in c.procs && k.0 in s.nodes && k.0 in s.chans && k.1 <= s.nodes[k.0].ets
  {
    hide InvEvent, ShapeOk, CurrentOk, PhaseOk, CounterOk;
    assert ShapeOk(c, k, s.insts[k]);
    KeyOk(c, k, s.insts[k]);
    assert InvNode(c, s, k.0);
  }

  lemma PacketAt(c: Config, s: Sys, id: nat)
    requires Inv(c, s) && id < |s.sent|
    ensures InvPacket(c, s, id)
  {
    hide InvPacket, InvInst, InvQueue, InvNode, InvChans;
  }

  lemma NodeAt(c: Config, s: Sys, p: PID)
    requires Inv(c, s) && p in c.procs
    ensures p in s.nodes && p in s.chans && InvNode(c, s, p) && InvChans(c, s, p)
  {
    hide InvPacket, InvInst, InvQueue, InvNode, InvChans;
  }

  lemma SentAt(c: Config, s: Sys)
    requires Inv(c, s)
    ensures InvUnique(s) && (forall d | d in s.delivered :: d.1 < |s.sent|)
    ensures s.nodes.Keys == c.procs && s.chans.Keys == c.procs
  {
    hide InvPacket, InvInst, InvQueue, InvNode, InvChans;
  }

  lemma KeyOk(c: Config, k: Key, i: Inst)
    requires ShapeOk(c, k, i)
    ensures k.0 in c.procs
  {
  }

  lemma InstKept(c: Config, s: Sys, s': Sys, k: Key)
    requires Inv(c, s) && Grows(c, s, s')
    requires k in s.insts && k in s'.insts && s'.insts[k] == s.insts[k]
    ensures InvInst(c, s', k)
  {
    At(c, s, k);
    PhaseKept(c, s, s', k, s.insts[k]);
    CurrentKept(c, s, s', k, s.insts[k].current);
    AcceptsSeenGrows(c, s, s', k.1);
    hide Inv, ShapeOk, CurrentOk, PhaseOk, Grows;
  }

  lemma EventKept(c: Config, s: Sys, s': Sys, k: Key, evt: Event)
    requires Inv(c, s) && Grows(c, s, s') && InvEvent(c, s, k, evt)
    requires evt.HandleWrite? && AcceptSent(s', k.0, k.1) ==> AcceptSent(s, k.0, k.1)
    ensures InvEvent(c, s', k, evt)
  {
    match evt {
      case Propose(v) =>
      case ReceivedRead(from, st) => ReportGrows(c, s, s', from, k.1, st);
      case ReceivedAccept(_) =>
      case Decided(v) => DecideSentGrows(s, s', k.1, v);
      case HandleRead(_) =>
      case HandleWrite(from, v) => WriteSeenGrows(s, s', k.0, k.1);
    }
  }

  lemma QueueKept(c: Config, s: Sys, s': Sys, k: Key, touched: Key)
    requires Inv(c, s) && Grows(c, s, s') && SentBy(s, s', touched)
    requires k in s.insts && s'.insts[k].queue == s.insts[k].queue
    requires k != touched || s'.sent == s.sent
    ensures k in s'.insts && InvQueue(c, s', k)
  {
    var q := s.insts[k].queue;
    assert InvQueue(c, s, k);
    if AcceptSent(s', k.0, k.1) {
      var id :| 0 <= id < |s'.sent| && s'.sent[id].from == k.0 && s'.sent[id].msg == AcceptMsg(k.1);
      assert id < |s.sent| && s.sent[id] == s'.sent[id];
      assert AcceptSent(s, k.0, k.1);
    }
    forall j | 0 <= j < |q| ensures InvEvent(c, s', k, q[j]) {
      assert InvEvent(c, s, k, q[j]);
      EventKept(c, s, s', k, q[j]);
    }
  }

  lemma PacketKept(c: Config, s: Sys, s': Sys, id: nat)
    requires Inv(c, s) && Grows(c, s, s')
    requires id < |s.sent|
    ensures id < |s'.sent| && InvPacket(c, s', id)
  {
    var k := s.sent[id];
    assert s'.sent[id] == k;
    assert InvPacket(c, s, id);
    match k.msg {
      case ReadMsg(_) =>
      case WriteMsg(v, _) =>
      case StateMsg(st, e) => ReportGrows(c, s, s', k.from, e, st);
      case AcceptMsg(e) =>
        WriteSeenGrows(s, s', k.from, e);
        assert InvInst(c, s, (k.from, e));
      case DecidedMsg(v, e) => ChosenGrows(c, s, s', e, v);
    }
  }

  lemma InboxKept(s: Sys, s': Sys, p: PID, b: Inbox)
    requires s.sent <= s'.sent && s.delivered <= s'.delivered && InvInbox(s, p, b)
    ensures InvInbox(s', p, b)
  {
    forall e | e in b ensures InvBuffered(s', p, e, b[e]) {
      forall id | id in b[e] ensures id < |s'.sent| && b[e][id] == s'.sent[id] {
        assert s'.sent[id] == s.sent[id];
      }
    }
  }

  /** The node's part when only fields that it does not constrain have changed. */
  lemma NodeKept(c: Config, s: Sys, s': Sys, p: PID)
    requires Inv(c, s) && Grows(c, s, s') && p in c.procs
    requires p in s'.nodes && s'.nodes[p] == s.nodes[p]
    requires forall e | (p, e) in s'.insts :: (p, e) in s.insts
    ensures InvNode(c, s', p)
  {
    var n := s.nodes[p];
    assert InvNode(c, s, p);
    if n.decided.Some? { DecidedByGrows(s, s', n.ets, n.decided.value); }
    InboxKept(s, s', p, n.inbox);
  }

  lemma CarriableGrows(c: Config, s: Sys, s': Sys, p: PID, ets: int, st: State)
    requires Grows(c, s, s') && Carriable(c, s, p, ets, st)
    requires p in s.nodes && s.nodes[p].ets == ets
    ensures Carriable(c, s', p, ets, st)
  {
    JustifiedGrows(c, s, s', st);
    PromisedGrows(c, s, s', p, ets + 1, st);
  }

  lemma ChansKept(c: Config, s: Sys, s': Sys, p: PID)
    requires Inv(c, s) && Grows(c, s, s') && p in c.procs
    requires p in s'.chans && s'.chans[p] == s.chans[p]
    requires p in s'.nodes && s'.nodes[p].ets == s.nodes[p].ets
    requires s'.nodes[p].newTs == s.nodes[p].newTs && s'.nodes[p].newLeader == s.nodes[p].newLeader
    ensures InvChans(c, s', p)
  {
    var ch := s.chans[p];
    assert InvChans(c, s, p);
    forall a | a in ch.aborts && a.ts == s.nodes[p].ets
      ensures Carriable(c, s', p, s.nodes[p].ets, a.state)
    {
      CarriableGrows(c, s, s', p, s.nodes[p].ets, a.state);
    }
    forall d | d in ch.decisions ensures DecideSent(s', d.ts, d.val) {
      DecideSentGrows(s, s', d.ts, d.val);
    }
  }
}

/** Epoch 0 shares its timestamp with the initial state, so what it decides can be forgotten. The code agrees in all
    runs if and only if there are at most two processes; for three or more a disagreeing run is built here. */
module UniformEpochZero {
  import opened Common
  import opened EpochInstance
  import opened UniformNode
  import opened UniformSystem
  import opened UniformInvariant
  import opened UniformNodeSteps
  import opened UniformAgreement

  /** A step of the consensus system itself: no epoch comes in from outside. */
  ghost predicate Move(c: Config, s: Sys, s': Sys) {
    exists t: Step :: !t.EpochArrives? && Enabled(c, s, t) && s' == Do(c, s, t)
  }

  ghost predicate IsMoves(c: Config, b: Sys, run: seq<Sys>) {
    && run != [] && run[0] == b
    && forall k | 0 <= k < |run| - 1 :: Move(c, run[k], run[k + 1])
  }

  ghost predicate Comes(c: Config, b: Sys, pre: seq<Sys>, run: seq<Sys>) {
    IsRun(c, pre) && pre[|pre| - 1] == b && IsMoves(c, b, run)
  }

  /** A run comes to b, and from there to s without another epoch coming in. */
  ghost predicate Reach(c: Config, b: Sys, s: Sys) {
    exists pre, run :: Comes(c, b, pre, run) && run[|run| - 1] == s
  }

  lemma RunTo(c: Config, b: Sys, s: Sys) returns (pre: seq<Sys>, run: seq<Sys>)
    requires Reach(c, b, s)
    ensures IsRun(c, pre) && pre[|pre| - 1] == b && IsMoves(c, b, run) && run[|run| - 1] == s
  {
    pre, run :| Comes(c, b, pre, run) && run[|run| - 1] == s;
  }

  lemma Go(c: Config, b: Sys, s: Sys, t: Step)
    requires Reach(c, b, s) && !t.EpochArrives? && Enabled(c, s, t)
    ensures Reach(c, b, Do(c, s, t))
  {
    hide Do, Enabled, IsRun;
    var pre, run := RunTo(c, b, s);
    assert Move(c, s, Do(c, s, t));
    hide Move;
    assert Comes(c, b, pre, run + [Do(c, s, t)]);
  }

  lemma {:induction false} MovesInv(c: Config, b: Sys, run: seq<Sys>, k: nat)
    requires Inv(c, b) && IsMoves(c, b, run) && k < |run|
    ensures Inv(c, run[k])
  {
    hide Inv, Do, Enabled, Grows;
    if k > 0 {
      MovesInv(c, b, run, k - 1);
      assert Move(c, run[k - 1], run[k - 1 + 1]);
      var t: Step :| !t.EpochArrives? && Enabled(c, run[k - 1], t) && run[k] == Do(c, run[k - 1], t);
      StepInv(c, run[k - 1], t);
    }
  }

  lemma ReachInv(c: Config, b: Sys, s: Sys)
    requires ValidConfig(c) && Reach(c, b, s)
    ensures Inv(c, s)
  {
    hide Inv, Reach;
    var pre, run := RunTo(c, b, s);
    hide IsRun;
    RunInv(c, pre, |pre| - 1);
    MovesInv(c, b, run, |run| - 1);
  }

  /** p is in epoch e, undecided, with a live instance that has nothing queued. */
  ghost predicate Steady(s: Sys, p: PID, e: int) {
    && p in s.nodes && p in s.chans && (p, e) in s.insts
    && Live(s.nodes[p]) && s.nodes[p].inner && s.nodes[p].ets == e && s.nodes[p].decided.None?
    && s.insts[(p, e)].run.Running? && s.insts[(p, e)].queue == []
  }

  lemma InstFacts(c: Config, b: Sys, s: Sys, k: Key)
    requires ValidConfig(c) && Reach(c, b, s) && k in s.insts
    ensures k.0 in c.procs && s.insts[k].self == k.0 && s.insts[k].epochTs == k.1 && s.insts[k].n == |c.procs|
    ensures s.insts[k].leader == c.leaderOf(k.1) && (s.insts[k].phase.Writing? ==> s.insts[k].tempValue.Some?)
    ensures s.insts[k].phase.Idle? <==> k.0 != c.leaderOf(k.1)
    ensures s.nodes.Keys == c.procs && s.chans.Keys == c.procs
    ensures forall d | d in s.delivered :: d.1 < |s.sent|
  {
    hide Inv;
    ReachInv(c, b, s);
    At(c, s, k);
    SentAt(c, s);
  }

  /** s' is s after p has received packet id and its instance has applied it. */
  ghost predicate Handled(s: Sys, s': Sys, p: PID, e: int, id: nat, i: Inst, out: seq<Packet>) {
    s' == s.(insts := s.insts[(p, e) := i], sent := s.sent + out, delivered := s.delivered + {(p, id)})
  }

  lemma Handle(c: Config, b: Sys, s: Sys, p: PID, e: int, id: nat, evt: Event, h: State) returns (s': Sys)
    requires ValidConfig(c) && Reach(c, b, s) && p in c.procs && Steady(s, p, e)
    requires id < |s.sent| && (p, id) !in s.delivered && (s.sent[id].dest == All || s.sent[id].dest == To(p))
    requires Admit(s.insts[(p, e)], s.sent[id].from, s.sent[id].msg) == Some(evt) && !evt.Decided?
    requires s.insts[(p, e)].phase.Writing? ==> s.insts[(p, e)].tempValue.Some?
    requires Resolves(s.insts[(p, e)], evt, h)
    ensures Reach(c, b, s')
    ensures var (i, out) := Apply(s.insts[(p, e)], evt, h);
            Handled(s, s', p, e, id, i, out.packets)
  {
    hide Reach, IsHighest, ValidConfig;
    var i := s.insts[(p, e)];
    var s1 := DoReceive(s, p, id);
    Go(c, b, s, Receive(p, id));
    assert i.queue + [evt] == [evt] && [evt][1..] == i.queue;
    assert s1.insts[(p, e)] == i.(queue := [evt]);
    s' := DoApply(s1, p, e, h);
    assert Enabled(c, s1, ApplyEvent(p, e, h)) by { hide DoApply; }
    Go(c, b, s1, ApplyEvent(p, e, h));
  }

  /** A process of epoch e and the leader of that epoch. */
  ghost predicate AtWork(s: Sys, l: PID, p: PID, e: int) {
    && (l, e) in s.insts && (p, e) in s.insts
    && s.insts[(p, e)].epochTs == e && s.insts[(p, e)].leader == l && s.insts[(p, e)].self == p
    && s.insts[(l, e)].epochTs == e && s.insts[(l, e)].leader == l && s.insts[(l, e)].self == l
    && (s.insts[(p, e)].phase.Writing? ==> s.insts[(p, e)].tempValue.Some?)
    && (l, |s.sent|) !in s.delivered
  }

  lemma BothAtWork(c: Config, b: Sys, s: Sys, l: PID, p: PID, e: int)
    requires ValidConfig(c) && Reach(c, b, s) && Steady(s, l, e) && Steady(s, p, e) && c.leaderOf(e) == l
    ensures AtWork(s, l, p, e)
  {
    hide Reach, ValidConfig;
    InstFacts(c, b, s, (p, e));
    InstFacts(c, b, s, (l, e));
  }

  // ---- Reading ----

  lemma AnswerRead(c: Config, b: Sys, s: Sys, l: PID, p: PID, e: int, rid: nat) returns (s': Sys)
    requires ValidConfig(c) && Reach(c, b, s) && p in c.procs && Steady(s, p, e) && AtWork(s, l, p, e)
    requires rid < |s.sent| && s.sent[rid] == Packet(l, All, ReadMsg(e)) && (p, rid) !in s.delivered
    ensures Reach(c, b, s')
    ensures s' == s.(sent := s.sent + [Packet(p, To(l), StateMsg(s.insts[(p, e)].current, e))],
                     delivered := s.delivered + {(p, rid)})
  {
    hide Reach, ValidConfig;
    s' := Handle(c, b, s, p, e, rid, HandleRead(l), State(0, None));
    assert s'.insts == s.insts;
  }

  lemma TakeRead(c: Config, b: Sys, s: Sys, l: PID, p: PID, e: int, id: nat, st: State, h: State) returns (s': Sys)
    requires ValidConfig(c) && Reach(c, b, s) && l in c.procs && Steady(s, l, e) && s.insts[(l, e)].phase.Reading?
    requires s.insts[(l, e)].epochTs == e && s.insts[(l, e)].leader == l && s.insts[(l, e)].self == l
    requires id < |s.sent| && s.sent[id] == Packet(p, To(l), StateMsg(st, e)) && (l, id) !in s.delivered
    requires Resolves(s.insts[(l, e)], ReceivedRead(p, st), h)
    ensures Reach(c, b, s')
    ensures var (i, out) := OnReceivedRead(s.insts[(l, e)], p, st, h); Handled(s, s', l, e, id, i, out.packets)
  {
    hide Reach, ValidConfig, IsHighest;
    s' := Handle(c, b, s, l, e, id, ReceivedRead(p, st), h);
  }

  /** One process answers the leader's read, and the leader takes the answer in. */
  lemma ReadExchange(c: Config, b: Sys, s: Sys, l: PID, p: PID, e: int, rid: nat, h: State) returns (s': Sys)
    requires ValidConfig(c) && Reach(c, b, s) && l in c.procs && p in c.procs && c.leaderOf(e) == l
    requires Steady(s, l, e) && Steady(s, p, e) && s.insts[(l, e)].phase.Reading?
    requires rid < |s.sent| && s.sent[rid] == Packet(l, All, ReadMsg(e)) && (p, rid) !in s.delivered
    requires Resolves(s.insts[(l, e)], ReceivedRead(p, s.insts[(p, e)].current), h)
    ensures Reach(c, b, s')
    ensures var (i, out) := OnReceivedRead(s.insts[(l, e)], p, s.insts[(p, e)].current, h);
            && s' == s.(insts := s.insts[(l, e) := i], sent := s'.sent,
                        delivered := s.delivered + {(p, rid), (l, |s.sent|)})
            && s'.sent == s.sent + [Packet(p, To(l), StateMsg(s.insts[(p, e)].current, e))] + out.packets
  {
    hide Reach, Resolves, ValidConfig, Handled, OnReceivedRead;
    BothAtWork(c, b, s, l, p, e);
    var s1 := AnswerRead(c, b, s, l, p, e, rid);
    s' := TakeRead(c, b, s1, l, p, e, |s.sent|, s.insts[(p, e)].current, h);
    ReadHandled(s, s1, s', l, p, e, rid, h);
  }

  lemma ReadHandled(s: Sys, s1: Sys, s': Sys, l: PID, p: PID, e: int, rid: nat, h: State)
    requires (l, e) in s.insts && (p, e) in s.insts
    requires s1 == s.(sent := s.sent + [Packet(p, To(l), StateMsg(s.insts[(p, e)].current, e))],
                      delivered := s.delivered + {(p, rid)})
    requires var (i, out) := OnReceivedRead(s.insts[(l, e)], p, s.insts[(p, e)].current, h);
             Handled(s1, s', l, e, |s.sent|, i, out.packets)
    ensures var (i, out) := OnReceivedRead(s.insts[(l, e)], p, s.insts[(p, e)].current, h);
            && s' == s.(insts := s.insts[(l, e) := i], sent := s'.sent,
                        delivered := s.delivered + {(p, rid), (l, |s.sent|)})
            && s'.sent == s.sent + [Packet(p, To(l), StateMsg(s.insts[(p, e)].current, e))] + out.packets
  {
    hide OnReceivedRead;
  }

  /** The leader reads from a quorum one of whose members, m, reports the initial state: no value is imposed on it. */
  lemma Collect(c: Config, b: Sys, s: Sys, l: PID, e: int, rid: nat, todo: set<PID>, m: PID) returns (s': Sys)
    requires ValidConfig(c) && Reach(c, b, s) && l in c.procs && todo <= c.procs && c.leaderOf(e) == l
    requires Steady(s, l, e) && s.insts[(l, e)].phase.Reading? && s.insts[(l, e)].tempValue.Some?
    requires rid < |s.sent| && s.sent[rid] == Packet(l, All, ReadMsg(e))
    requires forall p | p in todo :: Steady(s, p, e) && (p, rid) !in s.delivered && s.insts[(p, e)].current.ts == 0
    requires todo != {} && todo !! s.insts[(l, e)].received.Keys
    requires |s.insts[(l, e)].received| + |todo| == Quorum(|c.procs|)
    requires forall q | q in s.insts[(l, e)].received :: s.insts[(l, e)].received[q].ts == 0
    requires (m in todo && (m, e) in s.insts && s.insts[(m, e)].current == State(0, None))
      || (m in s.insts[(l, e)].received && s.insts[(l, e)].received[m] == State(0, None))
    ensures Reach(c, b, s')
    ensures s' == s.(insts := s.insts[(l, e) := s.insts[(l, e)].(received := map[], phase := Writing)],
                     sent := s'.sent, delivered := s'.delivered)
    ensures Announced(s', Packet(l, All, WriteMsg(s.insts[(l, e)].tempValue, e)))
    decreases |todo|
  {
    hide Reach, ValidConfig, IsHighest;
    var i := s.insts[(l, e)];
    var p := OneOutside(todo, {});
    var st := s.insts[(p, e)].current;
    var states := i.received[p := st];
    var h := State(0, None);
    assert |states| == |i.received| + 1 by { assert states.Keys == i.received.Keys + {p}; }
    InstFacts(c, b, s, (l, e));
    assert |todo - {p}| == |todo| - 1;
    if |todo| == 1 {
      assert todo == {p} by { SubsetCard({p}, todo); }
      InitialIsHighest(states, m);
      s' := ReadExchange(c, b, s, l, p, e, rid, h);
    } else {
      var s1 := ReadExchange(c, b, s, l, p, e, rid, h);
      assert s1.insts[(l, e)] == i.(received := states);
      s' := Collect(c, b, s1, l, e, rid, todo - {p}, m);
    }
  }

  /** k is the newest packet and nobody has it yet. */
  ghost predicate Announced(s: Sys, k: Packet) {
    && s.sent != [] && s.sent[|s.sent| - 1] == k
    && forall d | d in s.delivered :: d.1 < |s.sent| - 1
  }

  lemma InitialIsHighest(states: map<PID, State>, m: PID)
    requires m in states && states[m] == State(0, None) && forall q | q in states :: states[q].ts == 0
    ensures IsHighest(states, State(0, None))
  {
    assert 0 <= states[m].ts;
  }

  // ---- Writing ----

  lemma AnswerWrite(c: Config, b: Sys, s: Sys, l: PID, p: PID, e: int, wid: nat, v: Value) returns (s': Sys)
    requires ValidConfig(c) && Reach(c, b, s) && p in c.procs && Steady(s, p, e) && AtWork(s, l, p, e)
    requires wid < |s.sent| && s.sent[wid] == Packet(l, All, WriteMsg(Some(v), e)) && (p, wid) !in s.delivered
    ensures Reach(c, b, s')
    ensures s' == s.(insts := s.insts[(p, e) := s.insts[(p, e)].(current := State(e, Some(v)))],
                     sent := s.sent + [Packet(p, To(l), AcceptMsg(e))], delivered := s.delivered + {(p, wid)})
  {
    hide Reach, ValidConfig;
    s' := Handle(c, b, s, p, e, wid, HandleWrite(l, Some(v)), State(0, None));
  }

  lemma TakeAccept(c: Config, b: Sys, s: Sys, l: PID, p: PID, e: int, id: nat) returns (s': Sys)
    requires ValidConfig(c) && Reach(c, b, s) && l in c.procs && Steady(s, l, e)
    requires s.insts[(l, e)].phase.Writing? && s.insts[(l, e)].tempValue.Some?
    requires s.insts[(l, e)].epochTs == e && s.insts[(l, e)].leader == l && s.insts[(l, e)].self == l
    requires id < |s.sent| && s.sent[id] == Packet(p, To(l), AcceptMsg(e)) && (l, id) !in s.delivered
    ensures Reach(c, b, s')
    ensures var (i, out) := OnReceivedAccept(s.insts[(l, e)]); Handled(s, s', l, e, id, i, out.packets)
  {
    hide Reach, ValidConfig;
    s' := Handle(c, b, s, l, e, id, ReceivedAccept(p), State(0, None));
  }

  lemma WriteExchange(c: Config, b: Sys, s: Sys, l: PID, p: PID, e: int, wid: nat, v: Value) returns (s': Sys)
    requires ValidConfig(c) && Reach(c, b, s) && l in c.procs && p in c.procs && c.leaderOf(e) == l
    requires Steady(s, l, e) && Steady(s, p, e) && s.insts[(l, e)].phase.Writing?
    requires s.insts[(l, e)].tempValue == Some(v)
    requires wid < |s.sent| && s.sent[wid] == Packet(l, All, WriteMsg(Some(v), e)) && (p, wid) !in s.delivered
    ensures Reach(c, b, s')
    ensures var insts := s.insts[(p, e) := s.insts[(p, e)].(current := State(e, Some(v)))];
            var (i, out) := OnReceivedAccept(insts[(l, e)]);
            && s' == s.(insts := insts[(l, e) := i], sent := s'.sent,
                        delivered := s.delivered + {(p, wid), (l, |s.sent|)})
            && s'.sent == s.sent + [Packet(p, To(l), AcceptMsg(e))] + out.packets
  {
    hide Reach, ValidConfig, OnReceivedAccept;
    BothAtWork(c, b, s, l, p, e);
    var s1 := AnswerWrite(c, b, s, l, p, e, wid, v);
    s' := TakeAccept(c, b, s1, l, p, e, |s.sent|);
  }

  /** After the write round: every process in done holds v, and nothing else about the instances has changed except
      the leader's counter and phase. */
  ghost predicate Stored(s: Sys, s': Sys, l: PID, e: int, v: Value, done: set<PID>) {
    && s' == s.(insts := s'.insts, sent := s'.sent, delivered := s'.delivered)
    && s'.insts.Keys == s.insts.Keys
    && forall k | k in s.insts ::
         && s'.insts[k].run == s.insts[k].run && s'.insts[k].queue == s.insts[k].queue
         && (k != (l, e) ==> s'.insts[k].phase == s.insts[k].phase)
         && s'.insts[k].current == if k.1 == e && k.0 in done then State(e, Some(v)) else s.insts[k].current
  }

  lemma StoreAll(c: Config, b: Sys, s: Sys, l: PID, e: int, wid: nat, v: Value, todo: set<PID>) returns (s': Sys)
    requires ValidConfig(c) && Reach(c, b, s) && l in c.procs && todo <= c.procs && c.leaderOf(e) == l
    requires Steady(s, l, e) && s.insts[(l, e)].phase.Writing? && s.insts[(l, e)].tempValue == Some(v)
    requires wid < |s.sent| && s.sent[wid] == Packet(l, All, WriteMsg(Some(v), e))
    requires forall p | p in todo :: Steady(s, p, e) && (p, wid) !in s.delivered
    requires todo != {} && s.insts[(l, e)].accepted + |todo| == Quorum(|c.procs|)
    ensures Reach(c, b, s') && Stored(s, s', l, e, v, todo) && (l, e) in s'.insts && s'.insts[(l, e)].phase.Deciding?
    ensures Announced(s', Packet(l, All, DecidedMsg(v, e)))
    decreases |todo|
  {
    hide Reach, ValidConfig;
    var p := OneOutside(todo, {});
    assert |todo - {p}| == |todo| - 1;
    var s1 := StoreOne(c, b, s, l, p, e, wid, v);
    if |todo| == 1 {
      assert todo == {p} by { SubsetCard({p}, todo); }
      s' := s1;
    } else {
      StillSteady(s, s1, l, e, v, {p}, todo - {p} + {l}, wid);
      s' := StoreAll(c, b, s1, l, e, wid, v, todo - {p});
      hide Steady;
      StoredTwice(s, s1, s', l, e, v, {p}, todo - {p});
      assert {p} + (todo - {p}) == todo;
    }
  }

  lemma StoreOne(c: Config, b: Sys, s: Sys, l: PID, p: PID, e: int, wid: nat, v: Value) returns (s': Sys)
    requires ValidConfig(c) && Reach(c, b, s) && l in c.procs && p in c.procs && c.leaderOf(e) == l
    requires Steady(s, l, e) && Steady(s, p, e) && s.insts[(l, e)].phase.Writing?
    requires s.insts[(l, e)].tempValue == Some(v)
    requires wid < |s.sent| && s.sent[wid] == Packet(l, All, WriteMsg(Some(v), e)) && (p, wid) !in s.delivered
    ensures Reach(c, b, s') && Stored(s, s', l, e, v, {p}) && (l, e) in s'.insts && s.sent <= s'.sent
    ensures s'.delivered == s.delivered + {(p, wid), (l, |s.sent|)}
    ensures var n := s.insts[(l, e)].accepted + 1;
            && s'.insts[(l, e)].accepted == n && s'.insts[(l, e)].tempValue == Some(v)
            && (n < Quorum(|c.procs|) ==> s'.insts[(l, e)].phase.Writing?)
            && (n >= Quorum(|c.procs|) ==>
                s'.insts[(l, e)].phase.Deciding? && Announced(s', Packet(l, All, DecidedMsg(v, e))))
  {
    hide Reach, ValidConfig;
    InstFacts(c, b, s, (l, e));
    s' := WriteExchange(c, b, s, l, p, e, wid, v);
  }

  lemma StillSteady(s: Sys, s': Sys, l: PID, e: int, v: Value, done: set<PID>, ps: set<PID>, wid: nat)
    requires Stored(s, s', l, e, v, done) && forall p | p in ps :: Steady(s, p, e)
    ensures forall p | p in ps :: Steady(s', p, e)
  {
  }

  lemma StoredTwice(s: Sys, s1: Sys, s2: Sys, l: PID, e: int, v: Value, a: set<PID>, b: set<PID>)
    requires Stored(s, s1, l, e, v, a) && Stored(s1, s2, l, e, v, b)
    ensures Stored(s, s2, l, e, v, a + b)
  {
  }

  // ---- Deciding ----

  lemma DecideAt(c: Config, b: Sys, s: Sys, d: PID, l: PID, e: int, v: Value) returns (s': Sys)
    requires ValidConfig(c) && Reach(c, b, s) && d in c.procs && c.leaderOf(e) == l
    requires Steady(s, d, e) && Announced(s, Packet(l, All, DecidedMsg(v, e)))
    requires d == l ==> s.insts[(d, e)].phase.Deciding?
    ensures Reach(c, b, s') && d in s'.nodes && s'.nodes[d].decided == Some(v)
    ensures s' == s.(nodes := s.nodes[d := s.nodes[d].(decided := Some(v))],
                     insts := s.insts[(d, e) := s.insts[(d, e)].(run := Stalled)],
                     taken := s.taken + {e},
                     delivered := s.delivered + {(d, |s.sent| - 1)})
  {
    hide Reach, ValidConfig, Announced;
    var ch := s.chans[d];
    var s1 := HandleDecided(c, b, s, d, l, e, v);
    s' := TakeOwn(c, b, s1, d, e, v);
    assert ch.decisions + multiset{Decision(e, v)} - multiset{Decision(e, v)} == ch.decisions;
    assert s'.chans[d] == ch;
    assert s'.chans == s.chans;
  }

  lemma TakeOwn(c: Config, b: Sys, s: Sys, d: PID, e: int, v: Value) returns (s': Sys)
    requires Reach(c, b, s) && d in c.procs && d in s.nodes && d in s.chans && Decision(e, v) in s.chans[d].decisions
    requires Live(s.nodes[d]) && s.nodes[d].ets == e && s.nodes[d].decided.None?
    ensures Reach(c, b, s')
    ensures s' == s.(nodes := s.nodes[d := s.nodes[d].(decided := Some(v))],
                     chans := s.chans[d := s.chans[d].(decisions := s.chans[d].decisions - multiset{Decision(e, v)})],
                     taken := s.taken + {e})
  {
    hide Reach;
    Go(c, b, s, TakeDecision(d, Decision(e, v)));
    s' := Do(c, s, TakeDecision(d, Decision(e, v)));
  }

  lemma HandleDecided(c: Config, b: Sys, s: Sys, d: PID, l: PID, e: int, v: Value) returns (s': Sys)
    requires ValidConfig(c) && Reach(c, b, s) && d in c.procs && c.leaderOf(e) == l
    requires Steady(s, d, e) && Announced(s, Packet(l, All, DecidedMsg(v, e)))
    requires d == l ==> s.insts[(d, e)].phase.Deciding?
    ensures Reach(c, b, s')
    ensures s' == s.(insts := s.insts[(d, e) := s.insts[(d, e)].(run := Stalled)],
                     delivered := s.delivered + {(d, |s.sent| - 1)},
                     chans := s.chans[d := s.chans[d].(decisions := s.chans[d].decisions + multiset{Decision(e, v)})])
  {
    hide Reach, ValidConfig;
    var id := |s.sent| - 1;
    var i := s.insts[(d, e)];
    InstFacts(c, b, s, (d, e));
    var s1 := s.(insts := s.insts[(d, e) := i.(queue := [Decided(v)])], delivered := s.delivered + {(d, id)});
    assert i.queue + [Decided(v)] == [Decided(v)];
    assert DoReceive(s, d, id) == s1;
    Go(c, b, s, Receive(d, id));
    s' := ApplyDecided(c, b, s1, d, e, v);
    assert s1.insts[(d, e) := i.(run := Stalled)] == s.insts[(d, e) := i.(run := Stalled)];
  }

  lemma ApplyDecided(c: Config, b: Sys, s: Sys, d: PID, e: int, v: Value) returns (s': Sys)
    requires Reach(c, b, s) && d in c.procs && d in s.nodes && d in s.chans && (d, e) in s.insts
    requires var i := s.insts[(d, e)]; i.queue == [Decided(v)] && i.run.Running? && (i.phase.Deciding? || i.phase.Idle?)
    ensures Reach(c, b, s')
    ensures s' == s.(insts := s.insts[(d, e) := s.insts[(d, e)].(queue := [], run := Stalled)],
                     chans := s.chans[d := s.chans[d].(decisions := s.chans[d].decisions + multiset{Decision(e, v)})])
  {
    hide Reach;
    var h := State(0, None);
    assert [Decided(v)][1..] == [];
    Go(c, b, s, ApplyEvent(d, e, h));
    s' := DoApply(s, d, e, h);
    assert s'.sent == s.sent;
  }

  /** A leader with nothing proposed yet gets v from its client and starts to read. */
  lemma Launch(c: Config, b: Sys, s: Sys, l: PID, e: int, v: Value) returns (s': Sys)
    requires ValidConfig(c) && Reach(c, b, s) && l in c.procs && c.leaderOf(e) == l
    requires Steady(s, l, e) && s.nodes[l].leader == l == s.nodes[l].self && !s.nodes[l].proposed
    requires s.insts[(l, e)].phase.Proposing?
    ensures Reach(c, b, s')
    ensures s' == s.(nodes := s.nodes[l := s.nodes[l].(val := Some(v), proposed := true)], proposed := s.proposed + {v},
                     insts := s.insts[(l, e) := s.insts[(l, e)].(tempValue := Some(v), phase := Reading)],
                     sent := s.sent + [Packet(l, All, ReadMsg(e))])
    ensures Announced(s', Packet(l, All, ReadMsg(e)))
  {
    hide Reach, ValidConfig;
    InstFacts(c, b, s, (l, e));
    var i := s.insts[(l, e)];
    var h := State(0, None);
    Go(c, b, s, ClientPropose(l, v));
    var s1 := Do(c, s, ClientPropose(l, v));
    Go(c, b, s1, ProposeTick(l));
    var s2 := DoTick(s1, l);
    assert i.queue + [Propose(v)] == [Propose(v)] && [Propose(v)][1..] == i.queue;
    assert s2.insts[(l, e)] == i.(queue := [Propose(v)]);
    Go(c, b, s2, ApplyEvent(l, e, h));
    s' := DoApply(s2, l, e, h);
  }

  /** What a whole epoch does: d has decided v, the quorum q holds it, and otherwise only l's proposal flags changed. */
  ghost predicate Rounded(c: Config, s: Sys, s': Sys, e: int, v: Value, q: set<PID>, d: PID) {
    && s'.nodes.Keys == s.nodes.Keys && s'.chans == s.chans
    && d in s'.nodes && s'.nodes[d].decided == Some(v)
    && (forall p | p in s.nodes && p != d ::
        s'.nodes[p] == s.nodes[p].(val := s'.nodes[p].val, proposed := s'.nodes[p].proposed))
    && s'.insts.Keys == s.insts.Keys
    && forall k | k in s.insts && k != (d, e) ::
         s'.insts[k].run == s.insts[k].run && s'.insts[k].queue == s.insts[k].queue
         && s'.insts[k].current == if k.1 == e && k.0 in q then State(e, Some(v)) else s.insts[k].current
  }

  lemma RoundReads(c: Config, b: Sys, s: Sys, l: PID, e: int, v: Value, q: set<PID>, m: PID, d: PID) returns (s': Sys)
    requires ValidConfig(c) && Reach(c, b, s) && l in c.procs && c.leaderOf(e) == l
    requires q <= c.procs && |q| == Quorum(|c.procs|) && m in q
    requires Steady(s, l, e) && Steady(s, d, e) && forall p | p in q ::
               Steady(s, p, e) && s.insts[(p, e)].current.ts == 0
    requires (m, e) in s.insts && s.insts[(m, e)].current == State(0, None)
    requires s.nodes[l].leader == l == s.nodes[l].self && !s.nodes[l].proposed
    requires s.insts[(l, e)] == Start(l, |c.procs|, l, e, s.insts[(l, e)].current)
    ensures Reach(c, b, s') && Announced(s', Packet(l, All, WriteMsg(Some(v), e)))
    ensures s'.nodes == s.nodes[l := s.nodes[l].(val := Some(v), proposed := true)] && s'.chans == s.chans
    ensures s'.insts == s.insts[(l, e) := s.insts[(l, e)].(tempValue := Some(v), phase := Writing)]
    ensures Steady(s', l, e) && Steady(s', d, e) && forall p | p in q :: Steady(s', p, e)
  {
    hide Reach, ValidConfig;
    assert forall x | x in s.delivered :: x.1 < |s.sent| by { InstFacts(c, b, s, (l, e)); }
    var s1 := Launch(c, b, s, l, e, v);
    s' := Collect(c, b, s1, l, e, |s1.sent| - 1, q, m);
    assert s'.insts == s.insts[(l, e) := s.insts[(l, e)].(tempValue := Some(v), phase := Writing)];
    RoundWrites(c, s, s1, s', l, e, v, q, d);
  }

  lemma RoundEnd(c: Config, b: Sys, s: Sys, l: PID, e: int, v: Value, q: set<PID>, d: PID) returns (s': Sys)
    requires ValidConfig(c) && Reach(c, b, s) && l in c.procs && d in c.procs && c.leaderOf(e) == l
    requires q <= c.procs && |q| == Quorum(|c.procs|)
    requires Steady(s, l, e) && Steady(s, d, e) && forall p | p in q :: Steady(s, p, e)
    requires s.insts[(l, e)].phase.Writing? && s.insts[(l, e)].tempValue == Some(v) && s.insts[(l, e)].accepted == 0
    requires Announced(s, Packet(l, All, WriteMsg(Some(v), e)))
    ensures Reach(c, b, s') && Rounded(c, s, s', e, v, q, d)
  {
    hide Reach, ValidConfig;
    var s3 := StoreAll(c, b, s, l, e, |s.sent| - 1, v, q);
    StillSteady(s, s3, l, e, v, q, {d}, 0);
    s' := DecideAt(c, b, s3, d, l, e, v);
    hide Steady;
  }

  /** A whole epoch: l proposes v, reads from and writes to the quorum q, and d decides v. */
  lemma Round(c: Config, b: Sys, s: Sys, l: PID, e: int, v: Value, q: set<PID>, m: PID, d: PID) returns (s': Sys)
    requires ValidConfig(c) && Reach(c, b, s) && l in c.procs && d in c.procs && c.leaderOf(e) == l
    requires q <= c.procs && |q| == Quorum(|c.procs|) && m in q
    requires Steady(s, l, e) && Steady(s, d, e) && forall p | p in q ::
               Steady(s, p, e) && s.insts[(p, e)].current.ts == 0
    requires (m, e) in s.insts && s.insts[(m, e)].current == State(0, None)
    requires s.nodes[l].leader == l == s.nodes[l].self && !s.nodes[l].proposed
    requires s.insts[(l, e)] == Start(l, |c.procs|, l, e, s.insts[(l, e)].current)
    ensures Reach(c, b, s') && Rounded(c, s, s', e, v, q, d)
  {
    hide Reach, ValidConfig, Rounded;
    assert (l, e) in s.insts && l in s.nodes;
    hide Steady;
    var s2 := RoundReads(c, b, s, l, e, v, q, m, d);
    s' := RoundEnd(c, b, s2, l, e, v, q, d);
    RoundedFrom(c, s, s2, s', l, e, v, q, d);
  }

  /** The reads before the round's end changed only l's proposal flags and its instance's phase. */
  lemma RoundedFrom(c: Config, s: Sys, s2: Sys, s': Sys, l: PID, e: int, v: Value, q: set<PID>, d: PID)
    requires l in s.nodes && (l, e) in s.insts && Rounded(c, s2, s', e, v, q, d) && s2.chans == s.chans
    requires s2.nodes == s.nodes[l := s.nodes[l].(val := Some(v), proposed := true)]
    requires s2.insts == s.insts[(l, e) := s.insts[(l, e)].(tempValue := Some(v), phase := Writing)]
    ensures Rounded(c, s, s', e, v, q, d)
  {
  }

  lemma RoundWrites(c: Config, s: Sys, s1: Sys, s2: Sys, l: PID, e: int, v: Value, q: set<PID>, d: PID)
    requires Steady(s, l, e) && Steady(s, d, e) && forall p | p in q :: Steady(s, p, e)
    requires s1.nodes == s.nodes[l := s.nodes[l].(val := Some(v), proposed := true)] && s1.chans == s.chans
    requires s1.insts == s.insts[(l, e) := s.insts[(l, e)].(tempValue := Some(v), phase := Reading)]
    requires s2.nodes == s1.nodes && s2.chans == s1.chans
    requires s2.insts == s1.insts[(l, e) := s1.insts[(l, e)].(received := map[], phase := Writing)]
    ensures Steady(s2, l, e) && Steady(s2, d, e) && forall p | p in q :: Steady(s2, p, e)
  {
  }

  // ---- Changing epoch ----

  /** p has moved from epoch 0 to epoch e with what it had stored. */
  ghost predicate Moved(c: Config, s: Sys, s': Sys, p: PID, e: int) {
    && p in s.nodes && (p, 0) in s.insts && Steady(s', p, e)
    && s'.nodes[p].leader == c.leaderOf(e) && !s'.nodes[p].proposed && s'.nodes[p].self == s.nodes[p].self
    && s'.insts[(p, e)] == Start(p, |c.procs|, c.leaderOf(e), e, s.insts[(p, 0)].current)
  }

  /** Epoch e, and no other, is waiting for p. */
  predicate Waits(c: Config, s: Sys, p: PID, e: int) {
    p in s.chans && s.chans[p].epochs == [Epoch(e, c.leaderOf(e))]
  }

  /** The node takes up epoch e and cancels its instance of epoch 0. */
  lemma Announce(c: Config, b: Sys, s: Sys, p: PID, e: int) returns (s': Sys)
    requires ValidConfig(c) && Reach(c, b, s) && p in c.procs && Steady(s, p, 0) && Waits(c, s, p, e) && 0 < e
    ensures Reach(c, b, s')
    ensures s' == s.(nodes := s.nodes[p := s.nodes[p].(newTs := e, newLeader := c.leaderOf(e), inner := false,
                                                       aborting := true)],
                     insts := s.insts[(p, 0) := s.insts[(p, 0)].(run := Draining)],
                     chans := s.chans[p := s.chans[p].(epochs := [])])
  {
    hide Reach, ValidConfig;
    assert s.chans[p].epochs[1..] == [];
    Go(c, b, s, TakeEpoch(p));
    s' := DoTakeEpoch(s, p);
  }

  /** The abort of an instance with nothing queued reports its state. */
  lemma Abort(c: Config, b: Sys, s: Sys, p: PID) returns (s': Sys)
    requires Reach(c, b, s) && p in c.procs && p in s.nodes && p in s.chans && (p, 0) in s.insts
    requires s.nodes[p].aborting && s.nodes[p].ets == 0 && s.insts[(p, 0)].run.Draining? && s.insts[(p, 0)].queue == []
    ensures Reach(c, b, s')
    ensures var a := AbortedState(0, s.insts[(p, 0)].current);
            s' == s.(nodes := s.nodes[p := s.nodes[p].(aborting := false)],
                     insts := s.insts[(p, 0) := s.insts[(p, 0)].(run := Stopped)],
                     chans := s.chans[p := s.chans[p].(aborts := s.chans[p].aborts + multiset{a})])
  {
    hide Reach;
    Go(c, b, s, FinishAbort(p));
    s' := DoFinish(s, p);
  }

  /** The node takes the aborted state and starts the instance of epoch e from it. */
  lemma Restart(c: Config, b: Sys, s: Sys, p: PID, e: int, st: State) returns (s': Sys)
    requires Reach(c, b, s) && p in c.procs && p in s.nodes && p in s.chans
    requires Live(s.nodes[p]) && s.nodes[p].ets == 0 && s.nodes[p].newTs == e
    requires AbortedState(0, st) in s.chans[p].aborts
    ensures Reach(c, b, s') && s'.chans
            == s.chans[p := s.chans[p].(aborts := s.chans[p].aborts - multiset{AbortedState(0, st)})]
    ensures s'.nodes == s.nodes[p := OnAborted(s.nodes[p], AbortedState(0, st))]
    ensures s'.insts == s.insts[(p, e) := Start(p, s.nodes[p].n, s.nodes[p].newLeader, e, st)]
  {
    hide Reach;
    var a := AbortedState(0, st);
    Go(c, b, s, TakeAborted(p, a, []));
    s' := DoTakeAborted(s, p, a, []);
  }

  lemma Advance(c: Config, b: Sys, s: Sys, p: PID, e: int) returns (s': Sys)
    requires ValidConfig(c) && Reach(c, b, s) && p in c.procs && Steady(s, p, 0) && Waits(c, s, p, e) && 0 < e
    ensures Reach(c, b, s') && (p, 0) in s.insts && Moved(c, s, s', p, e)
    ensures p in s'.chans && s'.chans == s.chans[p := s'.chans[p]] && s'.nodes == s.nodes[p := s'.nodes[p]]
    ensures (p, 0) in s'.insts && s'.insts == s.insts[(p, 0) := s'.insts[(p, 0)]][(p, e) := s'.insts[(p, e)]]
  {
    hide Reach, ValidConfig;
    ReachNode(c, b, s, p);
    var st := s.insts[(p, 0)].current;
    var s1 := Announce(c, b, s, p, e);
    var s2 := Abort(c, b, s1, p);
    s' := Restart(c, b, s2, p, e, st);
  }

  lemma ReachNode(c: Config, b: Sys, s: Sys, p: PID)
    requires ValidConfig(c) && Reach(c, b, s) && p in c.procs
    ensures p in s.nodes && s.nodes[p].self == p && s.nodes[p].n == |c.procs|
    ensures s.nodes[p].leader == c.leaderOf(s.nodes[p].ets)
  {
    hide Inv;
    ReachInv(c, b, s);
    NodeAt(c, s, p);
  }

  lemma AdvanceAll(c: Config, b: Sys, s: Sys, e: int, todo: set<PID>) returns (s': Sys)
    requires ValidConfig(c) && Reach(c, b, s) && todo <= c.procs && 0 < e
    requires forall p | p in todo :: Steady(s, p, 0) && Waits(c, s, p, e)
    ensures Reach(c, b, s') && s'.nodes.Keys == s.nodes.Keys && s'.chans.Keys == s.chans.Keys
    ensures forall p | p in todo :: (p, 0) in s.insts && Moved(c, s, s', p, e)
    ensures forall p | p in s.nodes && p !in todo :: s'.nodes[p] == s.nodes[p]
    ensures forall k | k in s.insts && k.0 !in todo :: k in s'.insts && s'.insts[k] == s.insts[k]
    decreases |todo|
  {
    hide Reach, ValidConfig;
    if todo == {} {
      s' := s;
    } else {
      var p := OneOutside(todo, {});
      var s1 := Advance(c, b, s, p, e);
      assert |todo - {p}| == |todo| - 1;
      s' := AdvanceAll(c, b, s1, e, todo - {p});
      forall q | q in todo ensures (q, 0) in s.insts && Moved(c, s, s', q, e) {
        if q == p { MovedStays(c, s, s1, s', p, e); }
      }
    }
  }

  lemma MovedStays(c: Config, s: Sys, s1: Sys, s': Sys, p: PID, e: int)
    requires Moved(c, s, s1, p, e) && p in s'.nodes && p in s'.chans && s'.nodes[p] == s1.nodes[p]
    requires (p, e) in s'.insts && s'.insts[(p, e)] == s1.insts[(p, e)]
    ensures Moved(c, s, s', p, e)
  {
  }

  // ---- Two decisions ----

  lemma SmallerSet(s: set<PID>, x: PID, n: nat) returns (t: set<PID>)
    requires x in s && 1 <= n <= |s|
    ensures x in t && t <= s && |t| == n
    decreases |s|
  {
    if n == |s| {
      t := s;
    } else {
      var y := OneOutside(s, {x});
      assert |s - {y}| == |s| - 1;
      t := SmallerSet(s - {y}, x, n);
    }
  }

  /** Two majorities: d is in the first only, m in the second only. */
  lemma Majorities(c: Config, m: PID) returns (d: PID, first: set<PID>, second: set<PID>)
    requires m in c.procs && 3 <= |c.procs|
    ensures first <= c.procs && second <= c.procs && |first| == |second| == Quorum(|c.procs|)
    ensures d in first && d !in second && m in second && m !in first
  {
    assert |{m}| == 1;
    d := OneOutside(c.procs, {m});
    assert |c.procs - {m}| == |c.procs| - 1 && |c.procs - {d}| == |c.procs| - 1;
    first := SmallerSet(c.procs - {m}, d, Quorum(|c.procs|));
    second := SmallerSet(c.procs - {d}, m, Quorum(|c.procs|));
  }

  /** The initial state, but with epoch e waiting for the members of ps. */
  ghost function Waiting(c: Config, ps: set<PID>, e: int): Sys {
    Init(c).(chans := map p | p in c.procs ::
      Chans(if p in ps then [Epoch(e, c.leaderOf(e))] else [], multiset{}, multiset{}))
  }

  lemma WaitingNext(c: Config, ps: set<PID>, p: PID, e: int)
    requires ValidConfig(c) && p in c.procs && p !in ps && 0 < e
    ensures var t := EpochArrives(p, Epoch(e, c.leaderOf(e)));
            Enabled(c, Waiting(c, ps, e), t) && Do(c, Waiting(c, ps, e), t) == Waiting(c, ps + {p}, e)
  {
    var s, t := Waiting(c, ps, e), EpochArrives(p, Epoch(e, c.leaderOf(e)));
    assert [] + [Epoch(e, c.leaderOf(e))] == [Epoch(e, c.leaderOf(e))];
    assert Do(c, s, t).chans == Waiting(c, ps + {p}, e).chans;
  }

  lemma WaitingNone(c: Config, e: int)
    ensures Waiting(c, {}, e) == Init(c)
  {
    assert Waiting(c, {}, e).chans == Init(c).chans;
  }

  lemma Extend(c: Config, run: seq<Sys>, s: Sys)
    requires IsRun(c, run) && Next(c, run[|run| - 1], s)
    ensures IsRun(c, run + [s])
  {
    hide Init, Next;
  }

  lemma {:induction false} WaitingRun(c: Config, ps: set<PID>, e: int) returns (run: seq<Sys>)
    requires ValidConfig(c) && ps <= c.procs && 0 < e
    ensures IsRun(c, run) && run[|run| - 1] == Waiting(c, ps, e)
    decreases |ps|
  {
    if ps == {} {
      WaitingNone(c, e);
      run := [Init(c)];
    } else {
      hide Waiting, Init, Enabled, Do, ValidConfig;
      var p := OneOutside(ps, {});
      assert |ps - {p}| == |ps| - 1 && ps - {p} + {p} == ps;
      var before := WaitingRun(c, ps - {p}, e);
      WaitingNext(c, ps - {p}, p, e);
      assert Next(c, before[|before| - 1], Waiting(c, ps, e));
      Extend(c, before, Waiting(c, ps, e));
      run := before + [Waiting(c, ps, e)];
    }
  }

  lemma WaitingSteady(c: Config, ps: set<PID>, e: int)
    requires ValidConfig(c)
    ensures var s := Waiting(c, ps, e);
      forall p | p in c.procs ::
        Steady(s, p, 0) && s.insts[(p, 0)] == Start(p, |c.procs|, c.leaderOf(0), 0, State(0, None))
        && s.nodes[p].leader == c.leaderOf(0) && s.nodes[p].self == p && !s.nodes[p].proposed
            && (p in ps ==> Waits(c, s, p, e))
  {
  }

  lemma WaitingReached(c: Config, ps: set<PID>, e: int)
    requires ValidConfig(c) && ps <= c.procs && 0 < e
    ensures Reach(c, Waiting(c, ps, e), Waiting(c, ps, e))
  {
    hide IsRun, Move;
    var run := WaitingRun(c, ps, e);
    assert Comes(c, Waiting(c, ps, e), run, [Waiting(c, ps, e)]);
  }

  /** With epoch e of leader m waiting for a majority that misses d: d decides 1 in epoch 0 while m stores nothing; then
      that majority changes to epoch e, m's empty state hides what the others stored, and m decides 2. */
  lemma Disagreement(c: Config, e: int, d: PID, m: PID, first: set<PID>, second: set<PID>) returns (s: Sys)
    requires ValidConfig(c) && 0 < e && m == c.leaderOf(e)
    requires first <= c.procs && second <= c.procs && |first| == |second| == Quorum(|c.procs|)
    requires d in first && d !in second && m in second && m !in first
    ensures Reach(c, Waiting(c, second, e), s)
    ensures d in s.nodes && m in s.nodes && s.nodes[d].decided == Some(1) && s.nodes[m].decided == Some(2)
  {
    hide Reach;
    var b := Waiting(c, second, e);
    WaitingSteady(c, second, e);
    WaitingReached(c, second, e);
    hide Waiting;
    var s1 := Round(c, b, b, c.leaderOf(0), 0, 1, first, d, d);
    AfterFirst(c, b, s1, first, second, d, m, e);
    var s2 := AdvanceAll(c, b, s1, e, second);
    assert forall p | p in second :: s2.insts[(p, e)].current == s1.insts[(p, 0)].current;
    s := Round(c, b, s2, m, e, 2, second, m, m);
  }

  lemma AfterFirst(c: Config, s0: Sys, s1: Sys, first: set<PID>, second: set<PID>, d: PID, m: PID, e: int)
    requires forall p | p in c.procs :: Steady(s0, p, 0) && s0.insts[(p, 0)].current == State(0, None)
    requires forall p | p in second :: Waits(c, s0, p, e)
    requires Rounded(c, s0, s1, 0, 1, first, d) && m !in first && m in second && d !in second && second <= c.procs
    ensures forall p | p in second :: Steady(s1, p, 0) && Waits(c, s1, p, e) && s1.insts[(p, 0)].current.ts == 0
    ensures (m, 0) in s1.insts && s1.insts[(m, 0)].current == State(0, None) && d in s1.nodes
    ensures s1.nodes[d].decided == Some(1)
  {
  }

  // ---- The exact condition ----

  ghost predicate DecidesAt(run: seq<Sys>, i: nat, p: PID, v: Value) {
    i < |run| && p in run[i].nodes && run[i].nodes[p].decided == Some(v)
  }

  /** No run of the system ever shows two different decisions. */
  ghost predicate AlwaysAgrees(c: Config) {
    forall run: seq<Sys>, i, j, p, q, v, w ::
      (IsRun(c, run) && DecidesAt(run, i, p, v) && DecidesAt(run, j, q, w)) ==> v == w
  }

  lemma Joined(c: Config, a: seq<Sys>, run: seq<Sys>)
    requires IsRun(c, a) && IsMoves(c, a[|a| - 1], run)
    ensures a != [] && run != []
    ensures IsRun(c, a + run[1..]) && (a + run[1..])[|a| + |run| - 2] == run[|run| - 1]
  {
    hide Init, Enabled, Do;
    var both := a + run[1..];
    forall k | 0 <= k < |both| - 1 ensures Next(c, both[k], both[k + 1]) {
      if |a| - 1 <= k {
        assert both[k] == run[k - (|a| - 1)];
        assert Move(c, run[k - (|a| - 1)], run[k - (|a| - 1) + 1]);
      } else {
        assert Next(c, a[k], a[k + 1]);
      }
    }
  }

  /** Agreement over all runs holds exactly when no majority can miss another one's member: at most two processes. */
  lemma AgreementExactly(c: Config)
    requires ValidConfig(c)
    ensures AlwaysAgrees(c) <==> |c.procs| <= 2
  {
    hide IsRun, IsMoves, Waiting;
    if |c.procs| <= 2 {
      forall run: seq<Sys>, i, j, p, q, v, w | IsRun(c, run) && DecidesAt(run, i, p, v) && DecidesAt(run, j, q, w)
        ensures v == w
      {
        RunProcesses(c, run, i);
        RunProcesses(c, run, j);
        Agreement(c, run, i, j, p, q);
      }
    } else {
      var run, k, d, m := DisagreeingRun(c);
      assert DecidesAt(run, k, d, 1) && DecidesAt(run, k, m, 2);
    }
  }

  lemma DisagreeingRun(c: Config) returns (run: seq<Sys>, k: nat, d: PID, m: PID)
    requires ValidConfig(c) && 3 <= |c.procs|
    ensures IsRun(c, run) && DecidesAt(run, k, d, 1) && DecidesAt(run, k, m, 2)
  {
    hide IsRun, IsMoves, Waiting, Reach;
    m := c.leaderOf(1);
    var first, second;
    d, first, second := Majorities(c, m);
    var s := Disagreement(c, 1, d, m, first, second);
    var pre, moves := RunTo(c, Waiting(c, second, 1), s);
    Joined(c, pre, moves);
    k := |pre| + |moves| - 2;
    run := pre + moves[1..];
  }
}

/** What double-echo broadcast delivers once every packet between correct members has been handled, with the exact
    group sizes: counting loops that skip their own entry need one supporter more than the usual thresholds. */
module DoubleEchoProgress {
  import opened Common
  import opened Tally
  import opened DoubleEcho
  import opened DoubleEchoSystem

  // ---- Invariants about progress ----

  /** A packet that reached a correct member has left its trace there. */
  predicate Traced(c: Config, s: Sys, k: Packet) {
    k.to in s.nodes ==>
      match k.msg
      case Send(_) => k.from == c.sender ==> s.nodes[k.to].sentEcho
      case Echo(_) => k.from in s.nodes[k.to].echos
      case Ready(_) => k.from in s.nodes[k.to].readys
  }

  ghost predicate Echoed(c: Config, s: Sys, p: PID) {
    exists m :: ToAll(c, p, Echo(m)) <= s.sent
  }

  ghost predicate Readied(c: Config, s: Sys, p: PID) {
    exists m :: ToAll(c, p, Ready(m)) <= s.sent
  }

  ghost predicate DeliveredBy(c: Config, nd: Node, m: Payload) {
    |Support(nd.readys, m)| >= 2 * c.f + 2 && nd.output == if c.decodes(m) then [m] else []
  }

  /** No threshold has been reached without its consequence. */
  ghost predicate Prompt(c: Config, nd: Node) {
    && (!nd.sentReady ==> forall m :: |Support(nd.echos, m)| < Quorum(nd.n, nd.faults) + 2)
    && (!nd.sentReady ==> forall m :: |Support(nd.readys, m)| < c.f + 2)
    && (!nd.delivered ==> nd.output == [] && forall m :: |Support(nd.readys, m)| < 2 * c.f + 2)
    && (nd.delivered ==> exists m :: DeliveredBy(c, nd, m))
  }

  ghost predicate Moving(c: Config, s: Sys, p: PID)
    requires p in s.nodes
  {
    && Prompt(c, s.nodes[p])
    && (s.nodes[p].sentEcho ==> Echoed(c, s, p)) && (c.stamped && s.nodes[p].sentReady ==> Readied(c, s, p))
  }

  ghost predicate ProgressInv(c: Config, s: Sys) {
    && s.handled <= s.sent
    && (forall k | k in s.handled :: Traced(c, s, k))
    && (forall p | p in s.nodes :: Moving(c, s, p))
    && (forall k | k in s.sent && k.from in Correct(c) :: ToAll(c, k.from, k.msg) <= s.sent)
    && (c.sender in Correct(c) ==> forall m | m in s.bcast :: ToAll(c, c.sender, Send(m)) <= s.sent)
  }

  lemma SupportMonotone(e: map<PID, Payload>, p: PID, v: Payload, m: Payload)
    requires p !in e
    ensures |Support(e, m)| <= |Support(e[p := v], m)|
  {
    SupportInsert(e, p, v, m);
    SubsetCard(Support(e, m), Support(e[p := v], m));
  }

  lemma EchoPrompt(c: Config, nd: Node, from: PID, m: Payload, pick: Option<Payload>)
    requires Prompt(c, nd) && EchoPick(nd, from, m, pick)
    ensures Prompt(c, OnEcho(nd, from, m, pick).0)
  {
    hide Support;
    var nd' := OnEcho(nd, from, m, pick).0;
    if nd.delivered {
      var v :| DeliveredBy(c, nd, v);
      assert DeliveredBy(c, nd', v);
    }
  }

  lemma ReadyPrompt(c: Config, nd: Node, from: PID, m: Payload, e: Option<Payload>, d: Option<Payload>)
    requires Prompt(c, nd) && ReadyPicks(nd, from, m, e, d) && nd.faults == c.f
    ensures Prompt(c, OnReady(nd, from, m, e, d, c.decodes).0)
  {
    hide Support;
    var nd' := OnReady(nd, from, m, e, d, c.decodes).0;
    if from !in nd.readys {
      if nd.delivered {
        var v :| DeliveredBy(c, nd, v);
        SupportMonotone(nd.readys, from, m, v);
        assert DeliveredBy(c, nd', v);
      } else if d.Some? {
        assert DeliveredBy(c, nd', d.value);
      }
    }
  }

  /** Everything but the receiving node and the new packets is as before. */
  lemma KeepMoving(c: Config, s: Sys, s': Sys, p: PID)
    requires s.sent <= s'.sent && p in s'.nodes && s'.nodes == s.nodes[p := s'.nodes[p]]
    requires forall q | q in s.nodes :: Moving(c, s, q)
    requires Moving(c, s', p)
    ensures forall q | q in s'.nodes :: Moving(c, s', q)
  {
    hide Prompt;
    forall q | q in s'.nodes ensures Moving(c, s', q) {
      if q != p {
        assert Moving(c, s, q);
        FlagsStay(c, s, s', q);
      }
    }
  }

  lemma FlagsStay(c: Config, s: Sys, s': Sys, q: PID)
    requires s.sent <= s'.sent
    ensures Echoed(c, s, q) ==> Echoed(c, s', q)
    ensures Readied(c, s, q) ==> Readied(c, s', q)
  {
    if Echoed(c, s, q) {
      var m :| ToAll(c, q, Echo(m)) <= s.sent;
      assert ToAll(c, q, Echo(m)) <= s'.sent;
    }
    if Readied(c, s, q) {
      var m :| ToAll(c, q, Ready(m)) <= s.sent;
      assert ToAll(c, q, Ready(m)) <= s'.sent;
    }
  }

  lemma ReceiverMoves(c: Config, s: Sys, t: Step)
    requires Inv(c, s) && ProgressInv(c, s) && Enabled(c, s, t) && t.Receive?
    ensures Moving(c, Do(c, s, t), t.k.to)
  {
    hide Inv, Prompt;
    var p, nd := t.k.to, s.nodes[t.k.to];
    var s' := Do(c, s, t);
    assert Moving(c, s, p);
    FlagsStay(c, s, s', p);
    SenderIs(c, s, p) by { KeysAre(c, s); }
    match t.k.msg
    case Send(m) => SendPrompt(c, nd, t.k.from, m); Spread(c, s, t);
    case Echo(m) => EchoPrompt(c, nd, t.k.from, m, t.pick); Spread(c, s, t);
    case Ready(m) => ReadyPrompt(c, nd, t.k.from, m, t.enhance, t.deliver); Spread(c, s, t);
  }

  lemma SendPrompt(c: Config, nd: Node, from: PID, m: Payload)
    requires Prompt(c, nd)
    ensures Prompt(c, OnSend(nd, from, m).0)
  {
    var nd' := OnSend(nd, from, m).0;
    if nd.delivered {
      var v :| DeliveredBy(c, nd, v);
      assert DeliveredBy(c, nd', v);
    }
  }

  /** A flag that is raised comes with the packets it stands for. */
  lemma Spread(c: Config, s: Sys, t: Step)
    requires Enabled(c, s, t) && t.Receive?
    ensures var nd, s' := s.nodes[t.k.to], Do(c, s, t);
            && (s'.nodes[t.k.to].sentEcho && !nd.sentEcho ==> Echoed(c, s', t.k.to))
            && (c.stamped && s'.nodes[t.k.to].sentReady && !nd.sentReady ==> Readied(c, s', t.k.to))
  {
    var p, s' := t.k.to, Do(c, s, t);
    var (nd, out) := Handle(c, s.nodes[p], t);
    if out.Some? && Origin(c, t) == p {
      assert ToAll(c, p, out.value) <= s'.sent;
    }
  }

  lemma TraceStays(c: Config, s: Sys, t: Step, k: Packet)
    requires Inv(c, s) && Enabled(c, s, t) && t.Receive? && (k == t.k || Traced(c, s, k))
    ensures Traced(c, Do(c, s, t), k)
  {
    hide Inv, EchoPick, ReadyPicks;
    SenderIs(c, s, t.k.to) by { KeysAre(c, s); }
    match t.k.msg
    case Send(_) =>
    case Echo(_) =>
    case Ready(_) =>
  }

  lemma ReceiveProgress(c: Config, s: Sys, t: Step)
    requires Inv(c, s) && ProgressInv(c, s) && Enabled(c, s, t) && t.Receive?
    ensures ProgressInv(c, Do(c, s, t))
  {
    hide Inv, Moving;
    var s' := Do(c, s, t);
    ReceiverMoves(c, s, t);
    KeepMoving(c, s, s', t.k.to);
    forall k | k in s'.handled ensures Traced(c, s', k) {
      TraceStays(c, s, t, k);
    }
    forall k | k in s'.sent && k.from in Correct(c) ensures ToAll(c, k.from, k.msg) <= s'.sent {
      if k !in s.sent {
        var out := Handle(c, s.nodes[t.k.to], t).1;
        assert k in ToAll(c, Origin(c, t), out.value);
      }
    }
  }

  lemma ProgressStep(c: Config, s: Sys, t: Step)
    requires Inv(c, s) && ProgressInv(c, s) && Enabled(c, s, t)
    ensures ProgressInv(c, Do(c, s, t))
  {
    if t.Receive? {
      hide Inv, ProgressInv, Do, Enabled;
      ReceiveProgress(c, s, t);
    } else {
      hide Inv, Prompt;
      KeysAre(c, s);
      var s' := Do(c, s, t);
      forall p | p in s'.nodes ensures Moving(c, s', p) {
        assert Moving(c, s, p);
        FlagsStay(c, s, s', p);
      }
      forall k | k in s'.handled ensures Traced(c, s', k) {
        assert Traced(c, s, k);
      }
    }
  }

  // ---- Reachable states ----

  ghost predicate Reach(c: Config, s: Sys) {
    exists run :: IsRun(c, run) && run[|run| - 1] == s
  }

  lemma Go(c: Config, s: Sys, t: Step)
    requires Reach(c, s) && Enabled(c, s, t)
    ensures Reach(c, Do(c, s, t))
  {
    hide Do, Enabled;
    var run :| IsRun(c, run) && run[|run| - 1] == s;
    assert Next(c, s, Do(c, s, t));
    assert IsRun(c, run + [Do(c, s, t)]);
  }

  lemma {:induction false} RunProgress(c: Config, run: seq<Sys>, i: nat)
    requires ValidConfig(c) && IsRun(c, run) && i < |run|
    ensures ProgressInv(c, run[i]) && Inv(c, run[i])
  {
    hide Inv, ProgressInv, Do, Enabled;
    RunInv(c, run, i);
    if i == 0 {
      InitProgress(c);
    } else {
      RunProgress(c, run, i - 1);
      assert Next(c, run[i - 1], run[i - 1 + 1]);
      var t :| Enabled(c, run[i - 1], t) && run[i] == Do(c, run[i - 1], t);
      ProgressStep(c, run[i - 1], t);
    }
  }

  lemma InitProgress(c: Config)
    ensures ProgressInv(c, Init(c))
  {
    var s := Init(c);
    forall p | p in s.nodes ensures Moving(c, s, p) {
      assert forall m: Payload :: Support<Payload>(map[], m) == {};
    }
  }

  lemma ReachInv(c: Config, s: Sys)
    requires ValidConfig(c) && Reach(c, s)
    ensures Inv(c, s) && ProgressInv(c, s)
  {
    hide Inv, ProgressInv;
    var run :| IsRun(c, run) && run[|run| - 1] == s;
    RunProgress(c, run, |run| - 1);
  }

  // ---- Quiescence ----

  /** Every packet between correct members has been handled. */
  predicate Quiescent(c: Config, s: Sys) {
    forall k | k in s.sent && k.from in Correct(c) && k.to in Correct(c) :: k in s.handled
  }

  /** The correct member r sent m to everybody, so at quiescence q has recorded it. */
  lemma Recorded(c: Config, s: Sys, r: PID, q: PID, msg: Msg)
    requires Inv(c, s) && ProgressInv(c, s) && Quiescent(c, s)
    requires r in Correct(c) && q in Correct(c) && Packet(r, r, msg) in s.sent
    ensures q in s.nodes && Packet(r, q, msg) in s.sent
    ensures msg.Send? && r == c.sender ==> s.nodes[q].sentEcho
    ensures msg.Echo? ==> r in s.nodes[q].echos && s.nodes[q].echos[r] == msg.m
    ensures msg.Ready? ==> r in s.nodes[q].readys && Packet(r, q, Ready(s.nodes[q].readys[r])) in s.sent
  {
    hide Inv, Moving;
    NodeAt(c, s, q);
    var k := Packet(r, q, msg);
    assert k in ToAll(c, r, msg);
    assert Traced(c, s, k);
    EchoesOnce(c, s);
    if msg.Echo? {
      assert Packet(r, q, Echo(s.nodes[q].echos[r])) in s.sent;
    }
  }

  /** m is the one value correct members are ready for. */
  lemma ReadyFor(c: Config, s: Sys, r: PID, m: Payload, v: Payload)
    requires ValidConfig(c) && Inv(c, s) && r in Correct(c) && Packet(r, r, Ready(v)) in s.sent
    requires |Echoers(c, s, m)| >= Quorum(|c.procs|, c.f) + 2
    ensures v == m
  {
    hide Inv;
    PacketAt(c, s, Packet(r, r, Ready(v)));
    OneReadyValue(c, s, v, m);
  }

  lemma ReadySeen(c: Config, s: Sys, r: PID, q: PID, m: Payload)
    requires ValidConfig(c) && Inv(c, s) && ProgressInv(c, s) && Quiescent(c, s)
    requires r in Correct(c) && q in Correct(c) && Packet(r, r, Ready(m)) in s.sent
    requires |Echoers(c, s, m)| >= Quorum(|c.procs|, c.f) + 2
    ensures q in s.nodes && r in Support(s.nodes[q].readys, m)
  {
    hide Inv, ProgressInv, Echoers, Quiescent;
    Recorded(c, s, r, q, Ready(m));
    var v := s.nodes[q].readys[r];
    PacketAt(c, s, Packet(r, q, Ready(v)));
    ReadyFor(c, s, r, m, v);
  }

  lemma FlagMeansPackets(c: Config, s: Sys, p: PID)
    requires Inv(c, s) && ProgressInv(c, s) && p in Correct(c)
    ensures p in s.nodes && Prompt(c, s.nodes[p])
    ensures s.nodes[p].sentEcho ==> exists m :: Packet(p, p, Echo(m)) in s.sent
    ensures c.stamped && s.nodes[p].sentReady ==> exists m :: Packet(p, p, Ready(m)) in s.sent
  {
    hide Inv, Prompt;
    NodeAt(c, s, p);
    assert Moving(c, s, p);
    if s.nodes[p].sentEcho {
      var m :| ToAll(c, p, Echo(m)) <= s.sent;
      assert Packet(p, p, Echo(m)) in ToAll(c, p, Echo(m));
    }
    if c.stamped && s.nodes[p].sentReady {
      var m :| ToAll(c, p, Ready(m)) <= s.sent;
      assert Packet(p, p, Ready(m)) in ToAll(c, p, Ready(m));
    }
  }

  /** Every correct member is ready and 2f + 2 of them exist: all deliver the one value. */
  lemma AllReady(c: Config, s: Sys, m: Payload, q: PID)
    requires ValidConfig(c) && Inv(c, s) && ProgressInv(c, s) && Quiescent(c, s)
    requires |Echoers(c, s, m)| >= Quorum(|c.procs|, c.f) + 2
    requires c.stamped && |Correct(c)| >= 2 * c.f + 2 && q in Correct(c)
    requires forall r | r in Correct(c) :: r in s.nodes && s.nodes[r].sentReady
    ensures q in s.nodes && s.nodes[q].output == if c.decodes(m) then [m] else []
  {
    hide Inv, ProgressInv, Echoers, Readiers, Quiescent, Prompt;
    FlagMeansPackets(c, s, q);
    forall r | r in Correct(c) ensures r in Support(s.nodes[q].readys, m) {
      FlagMeansPackets(c, s, r);
      var v :| Packet(r, r, Ready(v)) in s.sent;
      ReadyFor(c, s, r, m, v);
      ReadySeen(c, s, r, q, m);
    }
    SubsetCard(Correct(c), Support(s.nodes[q].readys, m));
    MustDeliver(c, s, q, m);
  }

  lemma MustDeliver(c: Config, s: Sys, q: PID, m: Payload)
    requires ValidConfig(c) && Inv(c, s) && q in s.nodes && Prompt(c, s.nodes[q])
    requires |Support(s.nodes[q].readys, m)| >= 2 * c.f + 2
    ensures s.nodes[q].output == if c.decodes(m) then [m] else []
  {
    hide Inv, Support, Readiers, Echoers;
    assert s.nodes[q].delivered;
    var v :| DeliveredBy(c, s.nodes[q], v);
    Ready2(c, s, q, v);
    Ready2(c, s, q, m);
    OneReadyValue(c, s, v, m);
  }

  lemma Ready2(c: Config, s: Sys, q: PID, m: Payload)
    requires ValidConfig(c) && Inv(c, s) && q in s.nodes && |Support(s.nodes[q].readys, m)| > c.f
    ensures |Echoers(c, s, m)| >= Quorum(|c.procs|, c.f) + 2
  {
    hide Inv;
    ReadySupport(c, s, q, m);
    SubsetCard(Support(s.nodes[q].readys, m), Readiers(c, s, m));
    var _ := ReadyHasQuorum(c, s, m);
  }

  lemma CorrectMany(c: Config)
    requires ValidConfig(c)
    ensures |Correct(c)| == |c.procs| - |c.byz| && |Correct(c)| >= |c.procs| - c.f
  {
  }

  /** f + 2 correct members are ready for m: their READYs make every correct member ready. */
  lemma Amplified(c: Config, s: Sys, m: Payload, q: PID)
    requires ValidConfig(c) && Inv(c, s) && ProgressInv(c, s) && Quiescent(c, s) && q in Correct(c)
    requires |Readiers(c, s, m)| >= 2 * c.f + 2
    ensures q in s.nodes && s.nodes[q].sentReady && |Echoers(c, s, m)| >= Quorum(|c.procs|, c.f) + 2
  {
    hide Inv, ProgressInv, Echoers, Quiescent, Support;
    var _ := ReadyHasQuorum(c, s, m);
    FlagMeansPackets(c, s, q);
    var ready := Readiers(c, s, m) - c.byz;
    assert |ready| >= c.f + 2 by {
      assert Readiers(c, s, m) <= ready + c.byz;
      SubsetCard(Readiers(c, s, m), ready + c.byz);
    }
    forall r | r in ready ensures r in Support(s.nodes[q].readys, m) {
      ReadySeen(c, s, r, q, m);
    }
    SubsetCard(ready, Support(s.nodes[q].readys, m));
  }

  /** Totality where links stamp messages: in a group of at least 3f + 2, once all packets between correct members are
      handled, either every correct member has delivered or none has. */
  lemma StampedTotality(c: Config, run: seq<Sys>, i: nat, p: PID, q: PID)
    requires ValidConfig(c) && IsRun(c, run) && i < |run| && Quiescent(c, run[i])
    requires c.stamped && |c.procs| >= 3 * c.f + 2 && p in Correct(c) && q in Correct(c)
    ensures p in run[i].nodes && q in run[i].nodes && run[i].nodes[p].output == run[i].nodes[q].output
  {
    hide IsRun, Inv, ProgressInv, Quiescent, Readiers, Echoers;
    RunProgress(c, run, i);
    QuiescentTotal(c, run[i], p, q);
    QuiescentTotal(c, run[i], q, p);
  }

  lemma QuiescentTotal(c: Config, s: Sys, p: PID, q: PID)
    requires ValidConfig(c) && Inv(c, s) && ProgressInv(c, s) && Quiescent(c, s)
    requires c.stamped && |c.procs| >= 3 * c.f + 2 && p in Correct(c) && q in Correct(c)
    ensures p in s.nodes && q in s.nodes && (s.nodes[p].output != [] ==> s.nodes[q].output == s.nodes[p].output)
  {
    hide Inv, ProgressInv, Quiescent, Readiers, Echoers;
    NodeAt(c, s, p);
    NodeAt(c, s, q);
    if s.nodes[p].output != [] {
      DeliveredReady(c, s, p);
      var m := s.nodes[p].output[0];
      assert c.decodes(m);
      forall r | r in Correct(c) ensures r in s.nodes && s.nodes[r].sentReady { Amplified(c, s, m, r); }
      Amplified(c, s, m, q);
      CorrectMany(c);
      AllReady(c, s, m, q);
    }
  }

  /** Validity where links stamp messages: in a group of at least 3f + 3, the single message of a correct sender is
      delivered by every correct member once all packets between them are handled. */
  lemma StampedValidity(c: Config, run: seq<Sys>, i: nat, m: Payload, q: PID)
    requires ValidConfig(c) && IsRun(c, run) && i < |run| && Quiescent(c, run[i])
    requires c.stamped && |c.procs| >= 3 * c.f + 3 && c.sender in Correct(c) && run[i].bcast == {m} && c.decodes(m)
    requires q in Correct(c)
    ensures q in run[i].nodes && run[i].nodes[q].output == [m]
  {
    hide IsRun, Inv, ProgressInv, Quiescent;
    RunProgress(c, run, i);
    var s := run[i];
    CorrectMany(c);
    forall r | r in Correct(c) ensures Packet(r, r, Echo(m)) in s.sent { SentIsEchoed(c, s, m, r); }
    assert Correct(c) <= Echoers(c, s, m);
    SubsetCard(Correct(c), Echoers(c, s, m));
    forall r | r in Correct(c) ensures r in s.nodes && s.nodes[r].sentReady { EchoesReachQuorum(c, s, m, r); }
    AllReady(c, s, m, q);
  }

  lemma SentIsEchoed(c: Config, s: Sys, m: Payload, r: PID)
    requires ValidConfig(c) && Inv(c, s) && ProgressInv(c, s) && Quiescent(c, s)
    requires c.sender in Correct(c) && s.bcast == {m} && r in Correct(c)
    ensures Packet(r, r, Echo(m)) in s.sent
  {
    hide Inv, Quiescent, Moving;
    assert Packet(c.sender, c.sender, Send(m)) in ToAll(c, c.sender, Send(m));
    hide ProgressInv;
    Recorded(c, s, c.sender, r, Send(m));
    FlagMeansPackets(c, s, r);
    var v :| Packet(r, r, Echo(v)) in s.sent;
    PacketAt(c, s, Packet(r, r, Echo(v)));
  }

  lemma EchoesReachQuorum(c: Config, s: Sys, m: Payload, q: PID)
    requires ValidConfig(c) && Inv(c, s) && ProgressInv(c, s) && Quiescent(c, s) && q in Correct(c)
    requires |Correct(c)| >= Quorum(|c.procs|, c.f) + 2
    requires forall r | r in Correct(c) :: Packet(r, r, Echo(m)) in s.sent
    ensures q in s.nodes && s.nodes[q].sentReady
  {
    hide Inv, ProgressInv, Quiescent;
    FlagMeansPackets(c, s, q);
    forall r | r in Correct(c) ensures r in Support(s.nodes[q].echos, m) {
      Recorded(c, s, r, q, Echo(m));
    }
    SubsetCard(Correct(c), Support(s.nodes[q].echos, m));
    NodeAt(c, s, q);
  }
}

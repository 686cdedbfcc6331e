/** Links that do not stamp messages: the READY a member passes on then counts for its author, so members that become
    ready by amplification add no READY of their own, and from one fault on even a correct sender may never be heard. */
module DoubleEchoRelay {
  import opened Common
  import opened Tally
  import opened DoubleEcho
  import opened DoubleEchoSystem
  import opened DoubleEchoProgress
  import opened DoubleEchoBounds

  // ---- What the entries and flags of a member come from ----

  predicate EntriesHandled(s: Sys, p: PID)
    requires p in s.nodes
  {
    && (forall r | r in s.nodes[p].echos :: Packet(r, p, Echo(s.nodes[p].echos[r])) in s.handled)
    && (forall r | r in s.nodes[p].readys :: Packet(r, p, Ready(s.nodes[p].readys[r])) in s.handled)
  }

  ghost predicate EchoQuorum(c: Config, nd: Node) {
    exists v :: |Support(nd.echos, v)| >= Quorum(|c.procs|, c.f) + 2
  }

  ghost predicate Amplifies(c: Config, nd: Node) {
    exists v :: |Support(nd.readys, v)| >= c.f + 2
  }

  predicate HasReady(s: Sys, p: PID) {
    exists k :: k in s.sent && k.from == p && k.msg.Ready?
  }

  /** Whoever is ready has sent its own READY on an echo quorum, or passes on others'. */
  ghost predicate Caused(c: Config, s: Sys, p: PID)
    requires p in s.nodes
  {
    && EntriesHandled(s, p)
    && (s.nodes[p].sentReady ==> HasReady(s, p) || Amplifies(c, s.nodes[p]))
    && (HasReady(s, p) ==> EchoQuorum(c, s.nodes[p]))
  }

  ghost predicate RelayInv(c: Config, s: Sys) {
    forall p | p in s.nodes :: Caused(c, s, p)
  }

  lemma ReadyStays(s: Sys, s': Sys, p: PID)
    requires s.sent <= s'.sent && HasReady(s, p)
    ensures HasReady(s', p)
  {
    var k :| k in s.sent && k.from == p && k.msg.Ready?;
    assert k in s'.sent;
  }

  /** A READY in the name of a correct member, passed on, is one that member has sent before. */
  lemma NewNames(c: Config, s: Sys, t: Step, p: PID)
    requires ValidConfig(c) && !c.stamped && Inv(c, s) && Enabled(c, s, t) && p in s.nodes
    requires HasReady(Do(c, s, t), p) && !(t.Receive? && t.k.msg.Echo? && t.k.to == p)
    ensures HasReady(s, p)
  {
    hide Inv, EchoPick, ReadyPicks;
    KeysAre(c, s);
    var s' := Do(c, s, t);
    var k :| k in s'.sent && k.from == p && k.msg.Ready?;
    if k !in s.sent {
      assert t.Receive? && t.k.msg.Ready?;
      NodeAt(c, s, t.k.to);
      assert Packet(t.author, t.k.to, Ready(t.enhance.value)) in s.sent;
    } else {
      assert HasReady(s, p);
    }
  }

  lemma Untouched(c: Config, s: Sys, t: Step, p: PID)
    requires ValidConfig(c) && !c.stamped && Inv(c, s) && Enabled(c, s, t) && p in s.nodes && Caused(c, s, p)
    requires p in Do(c, s, t).nodes && Do(c, s, t).nodes[p] == s.nodes[p].(sentEcho := Do(c, s, t).nodes[p].sentEcho)
    ensures Caused(c, Do(c, s, t), p)
  {
    hide Inv, EchoPick, ReadyPicks, EchoQuorum, Amplifies;
    var s' := Do(c, s, t);
    if HasReady(s, p) { ReadyStays(s, s', p); }
    if HasReady(s', p) && !(t.Receive? && t.k.msg.Echo? && t.k.to == p) { NewNames(c, s, t, p); }
    SameQuorums(c, s.nodes[p], s'.nodes[p]);
    if t.Receive? && t.k.msg.Echo? && t.k.to == p {
      assert Handle(c, s.nodes[p], t).1.None?;
      assert s'.sent == s.sent;
    }
  }

  lemma SameQuorums(c: Config, nd: Node, nd': Node)
    requires nd'.echos == nd.echos && nd'.readys == nd.readys
    ensures EchoQuorum(c, nd') == EchoQuorum(c, nd) && Amplifies(c, nd') == Amplifies(c, nd)
  {
  }

  lemma QuorumsGrow(c: Config, nd: Node, from: PID, m: Payload)
    ensures from !in nd.echos && EchoQuorum(c, nd) ==> EchoQuorum(c, nd.(echos := nd.echos[from := m]))
    ensures from !in nd.readys && Amplifies(c, nd) ==> Amplifies(c, nd.(readys := nd.readys[from := m]))
  {
    if from !in nd.echos && EchoQuorum(c, nd) {
      var v :| |Support(nd.echos, v)| >= Quorum(|c.procs|, c.f) + 2;
      SupportMonotone(nd.echos, from, m, v);
    }
    if from !in nd.readys && Amplifies(c, nd) {
      var v :| |Support(nd.readys, v)| >= c.f + 2;
      SupportMonotone(nd.readys, from, m, v);
    }
  }

  lemma EchoCaused(c: Config, s: Sys, t: Step)
    requires ValidConfig(c) && !c.stamped && Inv(c, s) && Enabled(c, s, t) && t.Receive? && t.k.msg.Echo?
    requires Caused(c, s, t.k.to)
    requires t.k.from !in s.nodes[t.k.to].echos
    ensures Caused(c, Do(c, s, t), t.k.to)
  {
    hide Inv, Support;
    var p, nd, s' := t.k.to, s.nodes[t.k.to], Do(c, s, t);
    var nd' := s'.nodes[p];
    var m := t.k.msg.m;
    SenderIs(c, s, p);
    QuorumsGrow(c, nd, t.k.from, m);
    SameQuorums(c, nd.(echos := nd.echos[t.k.from := m]), nd');
    SameQuorumsReady(c, nd, nd');
    if HasReady(s, p) { ReadyStays(s, s', p); }
    if Handle(c, nd, t).1.Some? {
      assert |Support(nd'.echos, t.pick.value)| >= Quorum(|c.procs|, c.f) + 2;
      assert Packet(p, p, Ready(t.pick.value)) in s'.sent by {
        KeysAre(c, s);
        assert Packet(p, p, Ready(t.pick.value)) in ToAll(c, p, Ready(t.pick.value));
      }
      assert HasReady(s', p);
    } else {
      assert s'.sent == s.sent;
    }
  }

  lemma SameQuorumsReady(c: Config, nd: Node, nd': Node)
    requires nd'.readys == nd.readys
    ensures Amplifies(c, nd') == Amplifies(c, nd)
  {
  }

  lemma ReadyCaused(c: Config, s: Sys, t: Step)
    requires ValidConfig(c) && !c.stamped && Inv(c, s) && Enabled(c, s, t) && t.Receive? && t.k.msg.Ready?
    requires Caused(c, s, t.k.to)
    requires t.k.from !in s.nodes[t.k.to].readys
    ensures Caused(c, Do(c, s, t), t.k.to)
  {
    hide Inv, Support;
    var p, nd, s' := t.k.to, s.nodes[t.k.to], Do(c, s, t);
    var nd' := s'.nodes[p];
    SenderIs(c, s, p);
    QuorumsGrow(c, nd, t.k.from, t.k.msg.m);
    assert Amplifies(c, nd) ==> Amplifies(c, nd') by {
      assert nd'.readys == nd.(readys := nd.readys[t.k.from := t.k.msg.m]).readys;
      SameQuorumsReady(c, nd.(readys := nd.readys[t.k.from := t.k.msg.m]), nd');
    }
    assert EchoQuorum(c, nd') == EchoQuorum(c, nd);
    if HasReady(s, p) { ReadyStays(s, s', p); }
    if HasReady(s', p) { NewNames(c, s, t, p); }
    if nd'.sentReady && !nd.sentReady {
      assert |Support(nd'.readys, t.enhance.value)| >= c.f + 2;
    }
  }

  lemma RelayStep(c: Config, s: Sys, t: Step)
    requires ValidConfig(c) && !c.stamped && Inv(c, s) && RelayInv(c, s) && Enabled(c, s, t)
    ensures RelayInv(c, Do(c, s, t))
  {
    hide Inv, Caused, EchoPick, ReadyPicks;
    var s' := Do(c, s, t);
    forall p | p in s'.nodes ensures Caused(c, s', p) {
      assert Caused(c, s, p);
      if t.Receive? && t.k.to == p && t.k.msg.Echo? && t.k.from !in s.nodes[p].echos {
        EchoCaused(c, s, t);
      } else if t.Receive? && t.k.to == p && t.k.msg.Ready? && t.k.from !in s.nodes[p].readys {
        ReadyCaused(c, s, t);
      } else {
        Untouched(c, s, t, p);
      }
    }
  }

  lemma {:induction false} RunRelay(c: Config, run: seq<Sys>, i: nat)
    requires ValidConfig(c) && !c.stamped && IsRun(c, run) && i < |run|
    ensures RelayInv(c, run[i])
  {
    hide Inv, RelayInv, Do, Enabled;
    if i == 0 {
      StartRelay(c);
    } else {
      RunRelay(c, run, i - 1);
      RunInv(c, run, i - 1);
      assert Next(c, run[i - 1], run[i - 1 + 1]);
      var t :| Enabled(c, run[i - 1], t) && run[i] == Do(c, run[i - 1], t);
      RelayStep(c, run[i - 1], t);
    }
  }

  lemma StartRelay(c: Config)
    ensures RelayInv(c, Init(c))
  {
  }

  lemma CausedAt(c: Config, s: Sys, p: PID)
    requires ValidConfig(c) && !c.stamped && Reach(c, s) && p in Correct(c)
    ensures Inv(c, s) && ProgressInv(c, s) && p in s.nodes && Caused(c, s, p)
  {
    hide Inv, ProgressInv, RelayInv;
    ReachInv(c, s);
    KeysAre(c, s);
    var run := RunTo(c, s);
    RunRelay(c, run, |run| - 1);
    assert RelayInv(c, s);
    RelayAt(c, s, p);
  }

  lemma RelayAt(c: Config, s: Sys, p: PID)
    requires RelayInv(c, s) && p in s.nodes
    ensures Caused(c, s, p)
  {
  }

  // ---- A schedule in which only f + 2 members send a READY of their own ----

  /** Chosen packets are handled, one after another. */
  lemma {:induction false} HandleSet(c: Config, s: Sys, ks: set<Packet>) returns (s': Sys)
    requires ValidConfig(c) && Reach(c, s) && ks <= s.sent && forall k | k in ks :: k.to in Correct(c)
    ensures Reach(c, s') && s'.handled == s.handled + ks && s.sent <= s'.sent && s'.bcast == s.bcast
    ensures (Silent(c, s) ==> Silent(c, s')) && (ReadySilent(c, s) ==> ReadySilent(c, s'))
    ensures forall m | AllAbout(s, m) :: AllAbout(s', m)
    decreases |ks|
  {
    hide Reach, Inv, ProgressInv, Silent, ReadySilent, EveryoneFlagged, AllAbout;
    if ks == {} {
      s' := s;
    } else {
      var k := OneOutside(ks, {});
      ReachInv(c, s);
      KeysAre(c, s);
      var t := Resolve(s, k);
      Go(c, s, t);
      NamesStay(c, s, t);
      forall m | AllAbout(s, m) ensures AllAbout(Do(c, s, t), m) { StaysAbout(c, s, t, m); }
      var s1 := Do(c, s, t);
      hide Do;
      s' := HandleSet(c, s1, ks - {k});
      assert s1.handled + (ks - {k}) == s.handled + ks;
    }
  }

  /** A state on the way: everything is about m, and no READY is in a Byzantine member's name. */
  ghost predicate OnTheWay(c: Config, s: Sys, m: Payload) {
    Reach(c, s) && AllAbout(s, m) && ReadySilent(c, s)
  }

  /** Nothing of the kind was handled, so nothing of the kind is recorded. */
  lemma NoEntries(c: Config, s: Sys, p: PID)
    requires ValidConfig(c) && !c.stamped && Reach(c, s) && p in Correct(c)
    ensures p in s.nodes
    ensures (forall k | k in s.handled && k.to == p :: !k.msg.Echo?) ==> s.nodes[p].echos == map[] && !HasReady(s, p)
    ensures (forall k | k in s.handled && k.to == p :: !k.msg.Ready?) ==>
              s.nodes[p].readys == map[] && (s.nodes[p].sentReady ==> HasReady(s, p))
  {
    hide Inv, ProgressInv, Reach;
    CausedAt(c, s, p);
    assert forall v: Payload :: Support<Payload>(map[], v) == {};
    forall r
      ensures r in s.nodes[p].echos.Keys ==> exists k :: k in s.handled && k.to == p && k.msg.Echo?
      ensures r in s.nodes[p].readys.Keys ==> exists k :: k in s.handled && k.to == p && k.msg.Ready?
    {
      EntryKind(s, p, r);
    }
    assert (forall k | k in s.handled && k.to == p :: !k.msg.Echo?) ==> s.nodes[p].echos.Keys == {};
    assert (forall k | k in s.handled && k.to == p :: !k.msg.Ready?) ==> s.nodes[p].readys.Keys == {};
  }

  lemma EntryKind(s: Sys, p: PID, r: PID)
    requires p in s.nodes && EntriesHandled(s, p)
    ensures r in s.nodes[p].echos ==> exists k :: k in s.handled && k.to == p && k.msg.Echo?
    ensures r in s.nodes[p].readys ==> exists k :: k in s.handled && k.to == p && k.msg.Ready?
  {
    if r in s.nodes[p].echos { assert Packet(r, p, Echo(s.nodes[p].echos[r])) in s.handled; }
    if r in s.nodes[p].readys { assert Packet(r, p, Ready(s.nodes[p].readys[r])) in s.handled; }
  }

  function Sends(c: Config, m: Payload): set<Packet> {
    set p | p in Correct(c) :: Packet(c.sender, p, Send(m))
  }

  function Echoes(m: Payload, voices: set<PID>, early: set<PID>): set<Packet> {
    set r, p | r in voices && p in early :: Packet(r, p, Echo(m))
  }

  function Readies(c: Config, m: Payload, early: set<PID>): set<Packet> {
    set r, p | r in early && p in Correct(c) - early :: Packet(r, p, Ready(m))
  }

  /** Nothing has been handled yet; the sender's message is on its way to every correct member. */
  ghost predicate Fresh(c: Config, s: Sys, m: Payload) {
    OnTheWay(c, s, m) && s.handled == {} && Sends(c, m) <= s.sent
  }

  /** Everybody has the message and echoes it. */
  lemma AllEcho(c: Config, s0: Sys, m: Payload) returns (s: Sys)
    requires ValidConfig(c) && !c.stamped && Fresh(c, s0, m)
    ensures OnTheWay(c, s, m) && s.handled == Sends(c, m) && s0.sent <= s.sent && s.bcast == s0.bcast
    ensures Silent(c, s0) ==> Silent(c, s)
    ensures forall r, p | r in Correct(c) && p in Correct(c) :: Packet(r, p, Echo(m)) in s.sent
  {
    hide Reach, Inv, ProgressInv, Silent;
    s := HandleSet(c, s0, Sends(c, m));
    ReachInv(c, s);
    forall r, p | r in Correct(c) && p in Correct(c) ensures Packet(r, p, Echo(m)) in s.sent {
      EchoedTo(c, s, m, r, p);
    }
  }

  lemma EchoedTo(c: Config, s: Sys, m: Payload, r: PID, p: PID)
    requires ValidConfig(c) && Inv(c, s) && ProgressInv(c, s) && AllAbout(s, m) && r in Correct(c) && p in c.procs
    requires Packet(c.sender, r, Send(m)) in s.handled
    ensures Packet(r, p, Echo(m)) in s.sent
  {
    hide Inv, Moving;
    KeysAre(c, s);
    assert Traced(c, s, Packet(c.sender, r, Send(m)));
    FlagMeansPackets(c, s, r);
    var v :| Packet(r, r, Echo(v)) in s.sent;
    assert Packet(r, r, Echo(v)).msg.m == m;
    assert Packet(r, p, Echo(m)) in ToAll(c, r, Echo(m));
  }

  /** The early members have all echoes and send their own READY. */
  lemma EarlyReady(c: Config, s: Sys, m: Payload, voices: set<PID>, early: set<PID>, p: PID)
    requires ValidConfig(c) && !c.stamped && OnTheWay(c, s, m) && early <= Correct(c) && p in early
    requires |voices| >= Quorum(|c.procs|, c.f) + 2
    requires Echoes(m, voices, early) <= s.handled && forall k | k in s.handled :: !k.msg.Ready?
    ensures forall q | q in c.procs :: Packet(p, q, Ready(m)) in s.sent
  {
    hide Reach, Inv, ProgressInv;
    CausedAt(c, s, p);
    forall r | r in voices ensures r in Support(s.nodes[p].echos, m) {
      HeardEcho(c, s, m, r, p) by { assert Packet(r, p, Echo(m)) in Echoes(m, voices, early); }
    }
    SubsetCard(voices, Support(s.nodes[p].echos, m));
    FlagMeansPackets(c, s, p);
    SenderIs(c, s, p);
    MustReady(c, s.nodes[p], m);
    NoEntries(c, s, p);
    var k :| k in s.sent && k.from == p && k.msg.Ready?;
    assert k.msg == Ready(m);
    forall q | q in c.procs ensures Packet(p, q, Ready(m)) in s.sent {
      WholeBroadcast(c, s, k);
      assert Packet(p, q, Ready(m)) in ToAll(c, p, Ready(m));
    }
  }

  lemma WholeBroadcast(c: Config, s: Sys, k: Packet)
    requires ProgressInv(c, s) && k in s.sent && k.from in Correct(c)
    ensures ToAll(c, k.from, k.msg) <= s.sent
  {
  }

  lemma HeardEcho(c: Config, s: Sys, m: Payload, r: PID, p: PID)
    requires Inv(c, s) && ProgressInv(c, s) && AllAbout(s, m) && p in s.nodes && Packet(r, p, Echo(m)) in s.handled
    ensures r in Support(s.nodes[p].echos, m)
  {
    assert Traced(c, s, Packet(r, p, Echo(m)));
    assert NodeOk(c, s, p);
    assert Packet(r, p, Echo(s.nodes[p].echos[r])).msg.m == m;
  }

  lemma HeardReady(c: Config, s: Sys, m: Payload, r: PID, p: PID)
    requires Inv(c, s) && ProgressInv(c, s) && AllAbout(s, m) && p in s.nodes && Packet(r, p, Ready(m)) in s.handled
    ensures r in Support(s.nodes[p].readys, m)
  {
    assert Traced(c, s, Packet(r, p, Ready(m)));
    assert NodeOk(c, s, p);
    assert Packet(r, p, Ready(s.nodes[p].readys[r])).msg.m == m;
  }

  /** The others hear the early READYs before any echo: they only pass them on. */
  lemma LateMuted(c: Config, s: Sys, m: Payload, early: set<PID>, p: PID)
    requires ValidConfig(c) && !c.stamped && OnTheWay(c, s, m) && |early| >= c.f + 2 && p in Correct(c) - early
    requires Readies(c, m, early) <= s.handled && forall k | k in s.handled && k.msg.Echo? :: k.to in early
    ensures Muted(c, s, p)
  {
    hide Reach, Inv, ProgressInv;
    CausedAt(c, s, p);
    forall r | r in early ensures r in Support(s.nodes[p].readys, m) {
      HeardReady(c, s, m, r, p) by { assert Packet(r, p, Ready(m)) in Readies(c, m, early); }
    }
    SubsetCard(early, Support(s.nodes[p].readys, m));
    FlagMeansPackets(c, s, p);
    NoEntries(c, s, p);
  }

  /** Only the early members have sent a READY, the others are ready and will never send one. */
  ghost predicate Parted(c: Config, s: Sys, m: Payload, early: set<PID>) {
    && OnTheWay(c, s, m) && EveryoneFlagged(s)
    && (forall p | p in Correct(c) - early :: Muted(c, s, p))
    && forall p, q | p in early && q in c.procs :: Packet(p, q, Ready(m)) in s.sent
  }

  /** f + 2 early members get all echoes before anybody else; the others then hear their READYs before any echo. */
  lemma Part(c: Config, s0: Sys, m: Payload, voices: set<PID>, early: set<PID>) returns (s: Sys)
    requires ValidConfig(c) && !c.stamped && Fresh(c, s0, m)
    requires early <= Correct(c) && |early| == c.f + 2 && |voices| >= Quorum(|c.procs|, c.f) + 2
    requires forall r, p | r in voices - Correct(c) && p in early :: Packet(r, p, Echo(m)) in s0.sent
    ensures Parted(c, s, m, early) && s0.sent <= s.sent && s.bcast == s0.bcast && (Silent(c, s0) ==> Silent(c, s))
  {
    hide Reach, Inv, ProgressInv, Silent, AllAbout, ReadySilent, EveryoneFlagged, Muted, Sends, Echoes, Readies;
    var s1 := AllEcho(c, s0, m);
    EchoesSent(c, s1, m, voices, early);
    var s2 := HandleSet(c, s1, Echoes(m, voices, early));
    KindsHandled(c, m, voices, early);
    forall p, q | p in early && q in c.procs ensures Packet(p, q, Ready(m)) in s2.sent {
      EarlyReady(c, s2, m, voices, early, p);
    }
    ReadiesSent(c, s2, m, early);
    s := HandleSet(c, s2, Readies(c, m, early));
    forall p | p in Correct(c) - early ensures Muted(c, s, p) { LateMuted(c, s, m, early, p); }
    EverybodyReady(c, s, m, early);
  }

  lemma EverybodyReady(c: Config, s: Sys, m: Payload, early: set<PID>)
    requires ValidConfig(c) && Reach(c, s) && forall p | p in Correct(c) - early :: Muted(c, s, p)
    requires early <= Correct(c) && forall p, q | p in early && q in c.procs :: Packet(p, q, Ready(m)) in s.sent
    ensures EveryoneFlagged(s)
  {
    hide Reach, Inv, ProgressInv;
    ReachInv(c, s);
    KeysAre(c, s);
    forall p | p in s.nodes ensures s.nodes[p].sentReady {
      if p in early {
        assert Packet(p, p, Ready(m)) in s.sent;
        PacketAt(c, s, Packet(p, p, Ready(m)));
      } else {
        assert Muted(c, s, p);
      }
    }
  }

  /** With at least one tolerated fault there is a run, without any misbehaviour, in which all packets are handled and
      nobody delivers the correct sender's message. */
  lemma RelaysLost(c: Config, m: Payload) returns (s: Sys)
    requires ValidConfig(c) && !c.stamped && c.f >= 1 && c.sender in Correct(c) && |c.procs| >= 3 * c.f + 3
    ensures Reach(c, s) && Quiescent(c, s) && s.bcast == {m}
    ensures forall p | p in Correct(c) :: p in s.nodes && s.nodes[p].output == []
  {
    hide Reach, Inv, ProgressInv, EveryoneFlagged, Muted;
    CorrectMany(c);
    var early := SomeOf(Correct(c), c.f + 2);
    StartRun(c);
    Go(c, Init(c), Broadcast(m));
    var s0 := Do(c, Init(c), Broadcast(m));
    forall p | p in Correct(c) ensures Packet(c.sender, p, Send(m)) in s0.sent {
      assert Packet(c.sender, p, Send(m)) in ToAll(c, c.sender, Send(m));
    }
    var s1 := Part(c, s0, m, Correct(c), early);
    hide Silent;
    s := Settle(c, s1);
    SettledIsQuiescent(c, s);
    forall p | p in Correct(c) ensures p in s.nodes && s.nodes[p].output == [] { TooFew(c, s, early, p); }
  }

  lemma EchoesSent(c: Config, s: Sys, m: Payload, voices: set<PID>, early: set<PID>)
    requires early <= Correct(c) && forall r, p | r in Correct(c) && p in Correct(c) :: Packet(r, p, Echo(m)) in s.sent
    requires forall r, p | r in voices - Correct(c) && p in early :: Packet(r, p, Echo(m)) in s.sent
    ensures Echoes(m, voices, early) <= s.sent && forall k | k in Echoes(m, voices, early) :: k.to in Correct(c)
  {
  }

  lemma ReadiesSent(c: Config, s: Sys, m: Payload, early: set<PID>)
    requires early <= Correct(c) && forall p, q | p in early && q in c.procs :: Packet(p, q, Ready(m)) in s.sent
    ensures Readies(c, m, early) <= s.sent && forall k | k in Readies(c, m, early) :: k.to in Correct(c)
  {
  }

  lemma KindsHandled(c: Config, m: Payload, voices: set<PID>, early: set<PID>)
    ensures forall k | k in Sends(c, m) :: k.msg.Send?
    ensures forall k | k in Echoes(m, voices, early) :: k.msg.Echo? && k.to in early
    ensures forall k | k in Readies(c, m, early) :: k.msg.Ready?
  {
  }

  lemma {:induction false} SomeOf(s: set<PID>, n: nat) returns (t: set<PID>)
    requires n <= |s|
    ensures t <= s && |t| == n
    decreases |s|
  {
    if n == |s| {
      t := s;
    } else {
      var x := OneOutside(s, {});
      t := SomeOf(s - {x}, n);
    }
  }

  /** READYs in fewer than 2f + 2 names are never enough to deliver. */
  lemma TooFew(c: Config, s: Sys, early: set<PID>, p: PID)
    requires ValidConfig(c) && !c.stamped && Reach(c, s) && Silent(c, s) && p in Correct(c)
    requires |early| < 2 * c.f + 2 && forall q | q in Correct(c) - early :: Muted(c, s, q)
    ensures p in s.nodes && s.nodes[p].output == []
  {
    hide Reach, Inv, ProgressInv;
    CausedAt(c, s, p);
    NodeAt(c, s, p);
    FlagMeansPackets(c, s, p);
    forall v ensures |Support(s.nodes[p].readys, v)| < 2 * c.f + 2 {
      forall r | r in Support(s.nodes[p].readys, v) ensures r in early {
        var k := Packet(r, p, Ready(v));
        assert k in s.sent && k.from == r;
        assert r in Correct(c) - early ==> Muted(c, s, r);
      }
      SubsetCard(Support(s.nodes[p].readys, v), early);
    }
    assert forall v :: !DeliveredBy(c, s.nodes[p], v);
  }

  // ---- Exactly when validity survives ----

  /** Without faults two READYs are enough to deliver, and whoever passes READYs on has seen two. */
  lemma NoFaultsDeliver(c: Config, s: Sys, m: Payload, q: PID)
    requires ValidConfig(c) && !c.stamped && c.f == 0 && Reach(c, s) && Quiescent(c, s)
    requires |c.procs| >= 3 && c.sender in Correct(c) && s.bcast == {m} && c.decodes(m) && q in Correct(c)
    ensures q in s.nodes && s.nodes[q].output == [m]
  {
    hide Reach, Inv, ProgressInv, Quiescent, Amplifies;
    CausedAt(c, s, q);
    CorrectMany(c);
    forall r | r in Correct(c) ensures Packet(r, r, Echo(m)) in s.sent { SentIsEchoed(c, s, m, r); }
    assert Correct(c) <= Echoers(c, s, m);
    SubsetCard(Correct(c), Echoers(c, s, m));
    var two := TwoNames(c, s, m);
    forall r | r in two ensures r in Support(s.nodes[q].readys, m) { ReadySeen(c, s, r, q, m); }
    SubsetCard(two, Support(s.nodes[q].readys, m));
    FlagMeansPackets(c, s, q);
    MustDeliver(c, s, q, m);
  }

  /** At least two members have sent a READY in their own name. */
  lemma TwoNames(c: Config, s: Sys, m: Payload) returns (two: set<PID>)
    requires ValidConfig(c) && !c.stamped && c.f == 0 && Reach(c, s) && Quiescent(c, s) && |c.procs| >= 3
    requires Correct(c) == c.procs && |Echoers(c, s, m)| >= Quorum(|c.procs|, c.f) + 2
    requires forall r | r in Correct(c) :: Packet(r, r, Echo(m)) in s.sent
    ensures two <= Correct(c) && |two| >= 2 && forall r | r in two :: Packet(r, r, Ready(m)) in s.sent
  {
    hide Reach, Inv, ProgressInv, Quiescent, Echoers;
    ReachInv(c, s);
    if p :| p in Correct(c) && !HasReady(s, p) {
      CausedAt(c, s, p);
      EchoesReachQuorum(c, s, m, p);
      var v :| |Support(s.nodes[p].readys, v)| >= c.f + 2;
      two := Support(s.nodes[p].readys, v);
      NodeAt(c, s, p);
      forall r | r in two ensures Packet(r, r, Ready(m)) in s.sent {
        InOwnName(c, s, m, Packet(r, p, Ready(v)));
      }
      forall r | r in two ensures r in Correct(c) {
        InOwnName(c, s, m, Packet(r, p, Ready(v)));
      }
    } else {
      two := Correct(c);
      forall r | r in two ensures Packet(r, r, Ready(m)) in s.sent {
        assert HasReady(s, r);
        var k :| k in s.sent && k.from == r && k.msg.Ready?;
        InOwnName(c, s, m, k);
      }
    }
  }

  lemma InOwnName(c: Config, s: Sys, m: Payload, k: Packet)
    requires ValidConfig(c) && Inv(c, s) && k in s.sent && k.msg.Ready? && Correct(c) == c.procs
    requires |Echoers(c, s, m)| >= Quorum(|c.procs|, c.f) + 2
    ensures k.from in Correct(c) && Packet(k.from, k.from, Ready(m)) in s.sent
  {
    hide Inv;
    PacketAt(c, s, k);
    ReadyFor(c, s, k.from, m, k.msg.m);
  }

  /** With as many Byzantine members as allowed, the single message of a correct sender always reaches everybody
      exactly if the group has at least 3f + 3 members and either links stamp messages with the process that sent them
      or no fault is tolerated. */
  lemma ValidityByLinks(c: Config, m: Payload)
    requires ValidConfig(c) && |c.byz| == c.f && c.sender in Correct(c) && c.decodes(m)
    ensures AlwaysValid(c) <==> |c.procs| >= 3 * c.f + 3 && (c.stamped || c.f == 0)
  {
    hide Inv, Quiescent, IsRun, Reach;
    if c.stamped {
      ValidityExactly(c, m);
    } else if |c.procs| <= 3 * c.f + 2 {
      var s := Unheard(c, m);
      assert !ValidAt(c, s, m);
    } else if c.f >= 1 {
      var s := RelaysLost(c, m);
      assert c.sender in s.nodes && s.nodes[c.sender].output == [];
      assert !ValidAt(c, s, m);
    } else {
      forall s, v | Reach(c, s) ensures ValidAt(c, s, v) {
        if Quiescent(c, s) && s.bcast == {v} && c.decodes(v) {
          forall q | q in Correct(c) ensures q in s.nodes && s.nodes[q].output == [v] {
            NoFaultsDeliver(c, s, v, q);
          }
        }
      }
    }
  }

  // ---- Exactly when totality survives ----

  /** A Byzantine sender, or a correct one, is heard by all, and the Byzantine members echo to the early ones. */
  lemma Prepare(c: Config, m: Payload, early: set<PID>) returns (s: Sys)
    requires ValidConfig(c) && !c.stamped && early <= Correct(c)
    ensures Fresh(c, s, m) && forall r, p | r in c.procs - Correct(c) && p in early :: Packet(r, p, Echo(m)) in s.sent
  {
    hide Reach;
    StartRun(c);
    var s0 := Init(c);
    var forged := Echoes(m, c.byz, early);
    if c.sender in Correct(c) {
      Go(c, s0, Broadcast(m));
      s0 := Do(c, s0, Broadcast(m));
      forall p | p in Correct(c) ensures Packet(c.sender, p, Send(m)) in s0.sent {
        assert Packet(c.sender, p, Send(m)) in ToAll(c, c.sender, Send(m));
      }
    } else {
      forged := forged + Sends(c, m);
    }
    ForgeAll(c, s0, forged);
    s := s0.(sent := s0.sent + forged);
    forall r, p | r in c.procs - Correct(c) && p in early ensures Packet(r, p, Echo(m)) in s.sent {
      assert Packet(r, p, Echo(m)) in Echoes(m, c.byz, early);
    }
  }

  function Favours(c: Config, m: Payload, lucky: PID): set<Packet> {
    set b | b in c.byz :: Packet(b, lucky, Ready(m))
  }

  /** At rest after the early members' READYs, and the Byzantine members' READYs to lucky only. */
  ghost predicate Uneven(c: Config, s: Sys, m: Payload, lucky: PID, early: set<PID>) {
    && Inv(c, s) && ProgressInv(c, s) && Pending(c, s) == {} && AllAbout(s, m)
    && (forall k | k in s.sent && k.msg.Ready? :: k.from in early || (k.from in c.byz && k.to == lucky))
    && (forall p | p in early :: Packet(p, lucky, Ready(m)) in s.sent) && Favours(c, m, lucky) <= s.sent
  }

  lemma MakeUneven(c: Config, m: Payload, lucky: PID, early: set<PID>) returns (s: Sys)
    requires ValidConfig(c) && !c.stamped && lucky in Correct(c) && early <= Correct(c) && |early| == c.f + 2
    requires |c.procs| >= Quorum(|c.procs|, c.f) + 2
    ensures Reach(c, s) && Uneven(c, s, m, lucky, early)
  {
    hide Reach, Inv, ProgressInv, Pending, Silent, EveryoneFlagged;
    var s0 := Prepare(c, m, early);
    var s1 := Part(c, s0, m, c.procs, early);
    assert forall k | k in s1.sent && k.msg.Ready? :: k.from in early by { EarlyNamesOnly(c, s1, m, early); }
    ForgeAll(c, s1, Favours(c, m, lucky));
    var s2 := s1.(sent := s1.sent + Favours(c, m, lucky));
    assert EveryoneFlagged(s2) by { SameNodes(s1, s2); }
    assert AllAbout(s2, m);
    hide Fresh, Parted, AllAbout;
    s := Settle(c, s2);
    ReachInv(c, s);
  }

  lemma SameNodes(s: Sys, s': Sys)
    requires EveryoneFlagged(s) && s'.nodes == s.nodes
    ensures EveryoneFlagged(s')
  {
  }

  lemma EarlyNamesOnly(c: Config, s: Sys, m: Payload, early: set<PID>)
    requires Parted(c, s, m, early)
    ensures forall k | k in s.sent && k.msg.Ready? :: k.from in early
  {
    hide Reach, EveryoneFlagged;
    forall k | k in s.sent && k.msg.Ready? ensures k.from in early {
      assert k.from in Correct(c) - early ==> Muted(c, s, k.from);
    }
  }

  lemma LuckyGetsEnough(c: Config, s: Sys, m: Payload, lucky: PID, early: set<PID>)
    requires ValidConfig(c) && |c.byz| == c.f && Uneven(c, s, m, lucky, early) && lucky in Correct(c) && c.decodes(m)
    requires early <= Correct(c) && |early| == c.f + 2
    ensures lucky in s.nodes && s.nodes[lucky].output == [m]
  {
    hide Inv, ProgressInv, Pending, Prompt;
    NodeAt(c, s, lucky);
    assert |early + c.byz| == |early| + |c.byz| by { assert early !! c.byz; }
    forall r | r in early + c.byz ensures r in Support(s.nodes[lucky].readys, m) {
      assert Packet(r, lucky, Ready(m)) in s.sent;
      assert Traced(c, s, Packet(r, lucky, Ready(m))) by { HandledTraced(c, s, Packet(r, lucky, Ready(m))); }
      assert Packet(r, lucky, Ready(s.nodes[lucky].readys[r])).msg.m == m;
    }
    SubsetCard(early + c.byz, Support(s.nodes[lucky].readys, m));
    FlagMeansPackets(c, s, lucky);
    MustDeliver(c, s, lucky, m);
  }

  lemma HandledTraced(c: Config, s: Sys, k: Packet)
    requires ProgressInv(c, s) && Pending(c, s) == {} && k in s.sent && k.to in Correct(c)
    ensures Traced(c, s, k)
  {
    assert k !in Pending(c, s);
  }

  lemma OthersGetTooFew(c: Config, s: Sys, m: Payload, lucky: PID, early: set<PID>, q: PID)
    requires ValidConfig(c) && Uneven(c, s, m, lucky, early) && q in Correct(c) && q != lucky && |early| < 2 * c.f + 2
    ensures q in s.nodes && s.nodes[q].output == []
  {
    hide Inv, ProgressInv, Pending, Favours;
    NodeAt(c, s, q);
    FlagMeansPackets(c, s, q);
    forall v ensures |Support(s.nodes[q].readys, v)| < 2 * c.f + 2 {
      forall r | r in Support(s.nodes[q].readys, v) ensures r in early {
        assert Packet(r, q, Ready(v)) in s.sent;
      }
      SubsetCard(Support(s.nodes[q].readys, v), early);
    }
    assert forall v :: !DeliveredBy(c, s.nodes[q], v);
  }

  /** With f >= 1 and a group in which anybody can deliver at all, one correct member delivers and another never
      does. */
  lemma Lopsided(c: Config, m: Payload) returns (s: Sys)
    requires ValidConfig(c) && !c.stamped && |c.byz| == c.f >= 1 && c.decodes(m) && |c.procs| >= 2 * c.f + 2
    ensures Reach(c, s) && !TotalAt(c, s)
  {
    hide Reach, Inv, Uneven;
    CorrectMany(c);
    var lucky := OneOutside(Correct(c), {});
    assert |{lucky}| == 1;
    var q := OneOutside(Correct(c), {lucky});
    var early := SomeOf(Correct(c), c.f + 2);
    s := MakeUneven(c, m, lucky, early);
    LuckyGetsEnough(c, s, m, lucky, early);
    OthersGetTooFew(c, s, m, lucky, early, q);
    assert Quiescent(c, s) by { UnevenRests(c, s, m, lucky, early); }
  }

  lemma UnevenRests(c: Config, s: Sys, m: Payload, lucky: PID, early: set<PID>)
    requires Uneven(c, s, m, lucky, early)
    ensures Quiescent(c, s)
  {
    SettledIsQuiescent(c, s);
  }

  /** Without faults, whoever delivers has seen two READYs in their senders' names, and so does everybody. */
  lemma NoFaultsTotal(c: Config, s: Sys, p: PID, q: PID)
    requires ValidConfig(c) && c.f == 0 && Inv(c, s) && ProgressInv(c, s) && Quiescent(c, s)
    requires p in Correct(c) && q in Correct(c)
    ensures p in s.nodes && q in s.nodes && (s.nodes[p].output != [] ==> s.nodes[q].output == s.nodes[p].output)
  {
    hide Inv, ProgressInv, Quiescent, Echoers;
    NodeAt(c, s, p);
    NodeAt(c, s, q);
    CorrectMany(c);
    if s.nodes[p].output != [] {
      DeliveredReady(c, s, p);
      var m := s.nodes[p].output[0];
      assert c.decodes(m);
      var _ := ReadyHasQuorum(c, s, m);
      forall r | r in Readiers(c, s, m) ensures r in Support(s.nodes[q].readys, m) { ReadySeen(c, s, r, q, m); }
      SubsetCard(Readiers(c, s, m), Support(s.nodes[q].readys, m));
      FlagMeansPackets(c, s, q);
      MustDeliver(c, s, q, m);
    }
  }

  lemma NoFaultsTotalAt(c: Config, s: Sys)
    requires ValidConfig(c) && c.f == 0 && Reach(c, s)
    ensures TotalAt(c, s)
  {
    hide Inv, ProgressInv, Reach, Quiescent;
    ReachInv(c, s);
    if Quiescent(c, s) {
      forall p, q | p in Correct(c) && q in Correct(c)
        ensures p in s.nodes && q in s.nodes && s.nodes[p].output == s.nodes[q].output
      {
        NoFaultsTotal(c, s, p, q);
        NoFaultsTotal(c, s, q, p);
      }
    }
  }

  lemma TooSmallTotalAt(c: Config, s: Sys)
    requires ValidConfig(c) && Reach(c, s) && |c.procs| <= 2 * c.f + 1
    ensures TotalAt(c, s)
  {
    hide Inv, ProgressInv, Reach, Quiescent;
    ReachInv(c, s);
    forall p | p in Correct(c) ensures p in s.nodes && s.nodes[p].output == [] { NobodyDelivers(c, s, p); }
  }

  /** With as many Byzantine members as allowed, totality holds in all runs exactly from 3f + 2 members on, provided
      links stamp messages or no fault is tolerated, and where a group is too small for anyone ever to deliver. */
  lemma TotalityByLinks(c: Config, m: Payload)
    requires ValidConfig(c) && |c.byz| == c.f && c.decodes(m)
    ensures AlwaysTotal(c) <==>
            ((|c.procs| >= 3 * c.f + 2 && (c.stamped || c.f == 0)) || |c.procs| <= 2 * c.f + 1)
  {
    hide Inv, Quiescent, Reach, TotalAt;
    if c.stamped {
      TotalityExactly(c, m);
    } else if c.f == 0 {
      forall s | Reach(c, s) ensures TotalAt(c, s) { NoFaultsTotalAt(c, s); }
    } else if |c.procs| <= 2 * c.f + 1 {
      forall s | Reach(c, s) ensures TotalAt(c, s) { TooSmallTotalAt(c, s); }
    } else {
      var s := Lopsided(c, m);
    }
  }

  // ---- The positive halves, for both kinds of link ----

  lemma RunReaches(c: Config, run: seq<Sys>, i: nat)
    requires IsRun(c, run) && i < |run|
    ensures Reach(c, run[i])
  {
    hide Next;
    var prefix := run[..i + 1];
    forall k | 0 <= k < |prefix| - 1 ensures Next(c, prefix[k], prefix[k + 1]) {
      assert Next(c, run[k], run[k + 1]);
    }
    assert IsRun(c, prefix) && prefix[|prefix| - 1] == run[i];
  }

  /** Totality: in a group of at least 3f + 2, once all packets between correct members are handled, either every
      correct member has delivered or none has. */
  lemma Totality(c: Config, run: seq<Sys>, i: nat, p: PID, q: PID)
    requires ValidConfig(c) && IsRun(c, run) && i < |run| && Quiescent(c, run[i]) && p in Correct(c) && q in Correct(c)
    requires |c.procs| >= 3 * c.f + 2 && (c.stamped || c.f == 0)
    ensures p in run[i].nodes && q in run[i].nodes && run[i].nodes[p].output == run[i].nodes[q].output
  {
    hide IsRun, Quiescent, Inv, ProgressInv, Reach;
    if c.stamped {
      StampedTotality(c, run, i, p, q);
    } else {
      RunReaches(c, run, i);
      NoFaultsTotalAt(c, run[i]);
    }
  }

  /** Validity: in a group of at least 3f + 3, the single message of a correct sender is delivered by every correct
      member once all packets between them are handled. */
  lemma Validity(c: Config, run: seq<Sys>, i: nat, m: Payload, q: PID)
    requires ValidConfig(c) && IsRun(c, run) && i < |run| && Quiescent(c, run[i]) && q in Correct(c)
    requires |c.procs| >= 3 * c.f + 3 && (c.stamped || c.f == 0)
    requires c.sender in Correct(c) && run[i].bcast == {m} && c.decodes(m)
    ensures q in run[i].nodes && run[i].nodes[q].output == [m]
  {
    hide IsRun, Quiescent, Inv, ProgressInv, Reach;
    if c.stamped {
      StampedValidity(c, run, i, m, q);
    } else {
      RunReaches(c, run, i);
      NoFaultsDeliver(c, run[i], m, q);
    }
  }
}

/** The group sizes of validity and totality are exact: below them there are quiescent runs that break the property. */
module DoubleEchoBounds {
  import opened Common
  import opened Tally
  import opened DoubleEcho
  import opened DoubleEchoSystem
  import opened DoubleEchoProgress

  // ---- Every run can be brought to rest ----

  function Pending(c: Config, s: Sys): set<Packet> {
    set k | k in s.sent && k.to in Correct(c) && k !in s.handled
  }

  function Unechoed(s: Sys): set<PID> { set p | p in s.nodes && !s.nodes[p].sentEcho }

  function Unready(s: Sys): set<PID> { set p | p in s.nodes && !s.nodes[p].sentReady }

  /** Packets still to handle, and a broadcast for every flag still to be raised. */
  function Work(c: Config, s: Sys): nat {
    |Pending(c, s)| + (|c.procs| + 1) * (|Unechoed(s)| + |Unready(s)|)
  }

  predicate AllAbout(s: Sys, m: Payload) {
    forall k | k in s.sent :: k.msg.m == m
  }

  predicate Silent(c: Config, s: Sys) {
    forall k | k in s.sent :: k.from in Correct(c)
  }

  predicate ReadySilent(c: Config, s: Sys) {
    forall k | k in s.sent && k.msg.Ready? :: k.from in Correct(c)
  }

  predicate EveryoneFlagged(s: Sys) {
    forall p | p in s.nodes :: s.nodes[p].sentReady
  }

  /** p counts as ready, but no READY in its name is on its way or ever will be. */
  predicate Muted(c: Config, s: Sys, p: PID) {
    !c.stamped && p in Correct(c) && p in s.nodes && s.nodes[p].sentReady && forall k | k in s.sent && k.from == p ::
        !k.msg.Ready?
  }

  /** s' is later than s and only correct members have sent anything in between. */
  ghost predicate Later(c: Config, s: Sys, s': Sys) {
    && Reach(c, s') && s.sent <= s'.sent && s'.bcast == s.bcast
    && (c.stamped ==> forall k | k in s'.sent - s.sent :: k.from in Correct(c))
    && (Silent(c, s) ==> Silent(c, s')) && (forall p | Muted(c, s, p) :: Muted(c, s', p))
    && (EveryoneFlagged(s) ==> EveryoneFlagged(s') && forall k | k in s'.sent - s.sent :: !k.msg.Ready?)
    && forall m | AllAbout(s, m) :: AllAbout(s', m)
  }

  lemma SomeOutcome(e: map<PID, Payload>, k: nat) returns (pick: Option<Payload>)
    ensures Elects(e, k, pick)
  {
    if m :| |Support(e, m)| >= k + 2 {
      pick := Some(m);
    } else {
      pick := None;
    }
  }

  lemma Resolve(s: Sys, k: Packet) returns (t: Step)
    requires k.to in s.nodes
    ensures t.Receive? && t.k == k && Resolved(s, t)
  {
    var nd := s.nodes[k.to];
    var pick := SomeOutcome(nd.echos[k.from := k.msg.m], Quorum(nd.n, nd.faults));
    var e := SomeOutcome(nd.readys[k.from := k.msg.m], nd.faults);
    var d := SomeOutcome(nd.readys[k.from := k.msg.m], 2 * nd.faults);
    var author := 0;
    if e.Some? { author := OneOutside(Support(nd.readys[k.from := k.msg.m], e.value), {}); }
    t := Receive(k, pick, e, d, author);
  }

  /** Values reappear, they are not invented. */
  lemma StaysAbout(c: Config, s: Sys, t: Step, m: Payload)
    requires Inv(c, s) && Enabled(c, s, t) && t.Receive? && AllAbout(s, m)
    ensures AllAbout(Do(c, s, t), m)
  {
    hide Inv;
    var p := t.k.to;
    var nd := s.nodes[p];
    var out := Handle(c, nd, t).1;
    NodeAt(c, s, p) by { KeysAre(c, s); }
    if out.Some? {
      if t.k.msg.Echo? {
        var e := nd.echos[t.k.from := t.k.msg.m];
        var r := OneOutside(Support(e, t.pick.value), {});
        assert r in nd.echos ==> Packet(r, p, Echo(nd.echos[r])).msg.m == m;
      } else if t.k.msg.Ready? {
        var e := nd.readys[t.k.from := t.k.msg.m];
        var r := OneOutside(Support(e, t.enhance.value), {});
        assert r in nd.readys ==> Packet(r, p, Ready(nd.readys[r])).msg.m == m;
      }
      assert out.value.m == m;
    }
  }

  lemma FlagRaised(c: Config, s: Sys, t: Step)
    requires Enabled(c, s, t) && t.Receive?
    ensures var out, s' := Handle(c, s.nodes[t.k.to], t).1, Do(c, s, t);
            && s'.nodes.Keys == s.nodes.Keys
            && |Unechoed(s')| + |Unready(s')| <= |Unechoed(s)| + |Unready(s)| - if out.Some? then 1 else 0
  {
    hide Elects;
    var p, s' := t.k.to, Do(c, s, t);
    var nd' := s'.nodes[p];
    assert Unechoed(s') == if nd'.sentEcho then Unechoed(s) - {p} else Unechoed(s);
    assert Unready(s') == if nd'.sentReady then Unready(s) - {p} else Unready(s);
  }

  lemma ToAllCard(c: Config, from: PID, msg: Msg)
    ensures |ToAll(c, from, msg)| <= |c.procs|
  {
    ImageCard(c.procs, from, msg);
  }

  lemma {:induction false} ImageCard(ps: set<PID>, from: PID, msg: Msg)
    ensures |set p | p in ps :: Packet(from, p, msg)| <= |ps|
    decreases |ps|
  {
    if ps != {} {
      var p := OneOutside(ps, {});
      ImageCard(ps - {p}, from, msg);
      assert (set q | q in ps :: Packet(from, q, msg))
          == (set q | q in ps - {p} :: Packet(from, q, msg)) + {Packet(from, p, msg)};
    }
  }

  lemma PendingShrinks(c: Config, s: Sys, t: Step)
    requires Enabled(c, s, t) && t.Receive? && t.k in Pending(c, s)
    ensures |Pending(c, Do(c, s, t))| <= |Pending(c, s)| - 1 + if Handle(c, s.nodes[t.k.to], t).1.Some? then |c.procs|
              else 0
  {
    hide Resolved, Handle;
    var s' := Do(c, s, t);
    var out := Handle(c, s.nodes[t.k.to], t).1;
    var added := if out.None? then {} else ToAll(c, Origin(c, t), out.value);
    assert Pending(c, s') <= Pending(c, s) - {t.k} + added;
    SubsetCard(Pending(c, s'), Pending(c, s) - {t.k} + added);
    assert |Pending(c, s) - {t.k}| == |Pending(c, s)| - 1;
    if out.Some? { ToAllCard(c, Origin(c, t), out.value); }
  }

  lemma WorkShrinks(c: Config, s: Sys, t: Step)
    requires Enabled(c, s, t) && t.Receive? && t.k in Pending(c, s)
    ensures Work(c, Do(c, s, t)) < Work(c, s)
  {
    FlagRaised(c, s, t);
    PendingShrinks(c, s, t);
    hide Pending, Unechoed, Unready, Do, Enabled, Handle;
    var s' := Do(c, s, t);
    var out := Handle(c, s.nodes[t.k.to], t).1;
    var a, b := |Unechoed(s')| + |Unready(s')|, |Unechoed(s)| + |Unready(s)|;
    MulMono(|c.procs| + 1, a, b - if out.Some? then 1 else 0);
  }

  /** READYs are passed on only under names that have sent them. */
  lemma NamesStay(c: Config, s: Sys, t: Step)
    requires ValidConfig(c) && Inv(c, s) && Enabled(c, s, t) && t.Receive?
    ensures Silent(c, s) ==> Silent(c, Do(c, s, t))
    ensures ReadySilent(c, s) ==> ReadySilent(c, Do(c, s, t))
    ensures EveryoneFlagged(s) ==>
              EveryoneFlagged(Do(c, s, t)) && forall k | k in Do(c, s, t).sent - s.sent :: !k.msg.Ready?
    ensures forall p | Muted(c, s, p) :: Muted(c, Do(c, s, t), p)
    ensures c.stamped ==> forall k | k in Do(c, s, t).sent - s.sent :: k.from in Correct(c)
  {
    hide Inv, EchoPick, ReadyPicks;
    KeysAre(c, s);
    NodeAt(c, s, t.k.to);
    var out := Handle(c, s.nodes[t.k.to], t).1;
    if out.Some? && t.k.msg.Ready? && !c.stamped {
      assert Packet(t.author, t.k.to, Ready(t.enhance.value)) in s.sent;
    }
  }

  lemma Handled(c: Config, s: Sys, k: Packet) returns (s': Sys)
    requires ValidConfig(c) && Reach(c, s) && k in Pending(c, s)
    ensures Later(c, s, s') && Work(c, s') < Work(c, s)
  {
    hide Inv, ProgressInv, Reach, Elects;
    ReachInv(c, s);
    KeysAre(c, s);
    var t := Resolve(s, k);
    Go(c, s, t);
    s' := Do(c, s, t);
    WorkShrinks(c, s, t);
    NamesStay(c, s, t);
    forall m | AllAbout(s, m) ensures AllAbout(s', m) { StaysAbout(c, s, t, m); }
  }

  /** From every reachable state, handling packets alone leads to one in which all are handled. */
  lemma {:induction false} Settle(c: Config, s: Sys) returns (s': Sys)
    requires ValidConfig(c) && Reach(c, s)
    ensures Later(c, s, s') && Pending(c, s') == {}
    decreases Work(c, s)
  {
    if Pending(c, s) == {} {
      s' := s;
    } else {
      hide Reach, Work, Pending;
      var k := OneOutside(Pending(c, s), {});
      var s1 := Handled(c, s, k);
      s' := Settle(c, s1);
    }
  }

  lemma SettledIsQuiescent(c: Config, s: Sys)
    requires Pending(c, s) == {}
    ensures Quiescent(c, s)
  {
    forall k | k in s.sent && k.to in Correct(c) ensures k in s.handled {
      assert k !in Pending(c, s);
    }
  }

  // ---- Validity needs 3f + 3 ----

  predicate NoReady(s: Sys) {
    && (forall k | k in s.sent :: !k.msg.Ready?)
    && forall p | p in s.nodes :: s.nodes[p].output == []
  }

  /** Correct members alone are too few for a quorum of echoes. */
  lemma StillNoReady(c: Config, s: Sys, t: Step)
    requires ValidConfig(c) && Inv(c, s) && Enabled(c, s, t) && !t.Forge? && Silent(c, s) && NoReady(s)
    requires |c.byz| == c.f && |c.procs| <= 3 * c.f + 2
    ensures NoReady(Do(c, s, t))
  {
    hide Inv;
    CorrectMany(c);
    if t.Receive? && t.k.msg.Echo? {
      var p := t.k.to;
      var nd := s.nodes[p];
      KeysAre(c, s);
      NodeAt(c, s, p);
      if t.pick.Some? && t.k.from !in nd.echos && !nd.sentReady {
        var e := nd.echos[t.k.from := t.k.msg.m];
        forall r | r in Support(e, t.pick.value) ensures r in Correct(c) {
          assert r in nd.echos ==> Packet(r, p, Echo(nd.echos[r])) in s.sent;
        }
        SubsetCard(Support(e, t.pick.value), Correct(c));
      }
    }
  }

  lemma {:induction false} SilentRun(c: Config, run: seq<Sys>, i: nat)
    requires ValidConfig(c) && IsRun(c, run) && i < |run| && Silent(c, run[i])
    requires |c.byz| == c.f && |c.procs| <= 3 * c.f + 2
    ensures NoReady(run[i])
  {
    hide Inv, Do, Enabled;
    if i > 0 {
      RunInv(c, run, i - 1);
      assert Next(c, run[i - 1], run[i - 1 + 1]);
      var t :| Enabled(c, run[i - 1], t) && run[i] == Do(c, run[i - 1], t);
      SentGrows(c, run[i - 1], t);
      SilentRun(c, run, i - 1);
      StillNoReady(c, run[i - 1], t);
    } else {
      InitNoReady(c);
    }
  }

  lemma InitNoReady(c: Config)
    ensures NoReady(Init(c))
  {
  }

  lemma SentGrows(c: Config, s: Sys, t: Step)
    requires ValidConfig(c) && Enabled(c, s, t)
    ensures s.sent <= Do(c, s, t).sent
    ensures t.Forge? ==> t.k in Do(c, s, t).sent && t.k.from !in Correct(c)
  {
  }

  /** With f silent Byzantine members and a group of at most 3f + 2, no correct member ever delivers anything. */
  lemma SilentBlocks(c: Config, run: seq<Sys>, i: nat, p: PID)
    requires ValidConfig(c) && IsRun(c, run) && i < |run| && Silent(c, run[i])
    requires |c.byz| == c.f && |c.procs| <= 3 * c.f + 2 && p in Correct(c)
    ensures p in run[i].nodes && run[i].nodes[p].output == []
    ensures forall k | k in run[i].sent :: !k.msg.Ready?
  {
    hide Inv, IsRun;
    RunInv(c, run, i);
    KeysAre(c, run[i]);
    SilentRun(c, run, i);
  }

  /** At rest, the single message of the correct sender has reached every correct member. */
  ghost predicate ValidAt(c: Config, s: Sys, m: Payload) {
    Quiescent(c, s) && s.bcast == {m} && c.decodes(m) ==>
      forall q | q in Correct(c) :: q in s.nodes && s.nodes[q].output == [m]
  }

  ghost predicate AlwaysValid(c: Config) {
    forall s, m | Reach(c, s) :: ValidAt(c, s, m)
  }

  /** With as many Byzantine members as allowed, validity holds in all runs exactly from 3f + 3 members on. */
  lemma ValidityExactly(c: Config, m: Payload)
    requires ValidConfig(c) && c.stamped && |c.byz| == c.f && c.sender in Correct(c) && c.decodes(m)
    ensures AlwaysValid(c) <==> |c.procs| >= 3 * c.f + 3
  {
    hide Inv, Quiescent, IsRun;
    if |c.procs| >= 3 * c.f + 3 {
      forall s, v | Reach(c, s) ensures ValidAt(c, s, v) {
        var run := RunTo(c, s);
        if Quiescent(c, s) && s.bcast == {v} && c.decodes(v) {
          forall q | q in Correct(c) ensures q in s.nodes && s.nodes[q].output == [v] {
            StampedValidity(c, run, |run| - 1, v, q);
          }
        }
      }
    } else {
      var s := Unheard(c, m);
      assert !ValidAt(c, s, m);
    }
  }

  lemma RunTo(c: Config, s: Sys) returns (run: seq<Sys>)
    requires Reach(c, s)
    ensures IsRun(c, run) && run != [] && run[|run| - 1] == s
  {
    run :| IsRun(c, run) && run[|run| - 1] == s;
  }

  lemma StartRun(c: Config)
    ensures Reach(c, Init(c))
  {
    assert IsRun(c, [Init(c)]);
  }

  lemma Unheard(c: Config, m: Payload) returns (s: Sys)
    requires ValidConfig(c) && |c.byz| == c.f && c.sender in Correct(c) && |c.procs| <= 3 * c.f + 2
    ensures Reach(c, s) && Quiescent(c, s) && s.bcast == {m}
    ensures c.sender in s.nodes && s.nodes[c.sender].output == []
  {
    hide Reach, Inv, Quiescent, Pending, NoReady;
    StartRun(c);
    Go(c, Init(c), Broadcast(m));
    var s0 := Do(c, Init(c), Broadcast(m));
    s := Settle(c, s0);
    SettledIsQuiescent(c, s);
    assert Silent(c, s0);
    assert Silent(c, s);
    SilentReach(c, s);
  }

  lemma SilentReach(c: Config, s: Sys)
    requires ValidConfig(c) && Reach(c, s) && Silent(c, s)
    requires |c.byz| == c.f && |c.procs| <= 3 * c.f + 2
    ensures forall p | p in Correct(c) :: p in s.nodes && s.nodes[p].output == []
  {
    hide Silent, NoReady;
    var run :| IsRun(c, run) && run[|run| - 1] == s;
    forall p | p in Correct(c) ensures p in s.nodes && s.nodes[p].output == [] {
      SilentBlocks(c, run, |run| - 1, p);
    }
  }

  // ---- Totality needs 3f + 2 ----

  /** At rest, correct members have delivered alike. */
  ghost predicate TotalAt(c: Config, s: Sys) {
    Quiescent(c, s) ==>
      forall p, q | p in Correct(c) && q in Correct(c) ::
          p in s.nodes && q in s.nodes && s.nodes[p].output == s.nodes[q].output
  }

  ghost predicate AlwaysTotal(c: Config) {
    forall s | Reach(c, s) :: TotalAt(c, s)
  }

  lemma {:induction false} ForgeAll(c: Config, s: Sys, ks: set<Packet>)
    requires Reach(c, s) && forall k | k in ks :: k.from in c.byz && k.to in c.procs
    ensures Reach(c, s.(sent := s.sent + ks))
    decreases |ks|
  {
    hide Reach;
    if ks == {} {
      assert s.sent + ks == s.sent;
    } else {
      var k := OneOutside(ks, {});
      Go(c, s, Forge(k));
      ForgeAll(c, s.(sent := s.sent + {k}), ks - {k});
      assert s.sent + {k} + (ks - {k}) == s.sent + ks;
    }
  }

  /** The Byzantine members play along, except that only one correct member gets their READYs. */
  function Attack(c: Config, m: Payload, lucky: PID): set<Packet> {
    (set p | p in Correct(c) && c.sender in c.byz :: Packet(c.sender, p, Send(m)))
    + (set b, p | b in c.byz && p in Correct(c) :: Packet(b, p, Echo(m)))
    + (set b | b in c.byz :: Packet(b, lucky, Ready(m)))
  }

  /** A resting state after the attack on a correct sender's, or a Byzantine sender's, message m. */
  ghost predicate Attacked(c: Config, s: Sys, m: Payload, lucky: PID) {
    && Inv(c, s) && ProgressInv(c, s) && Pending(c, s) == {} && AllAbout(s, m)
    && (forall p | p in Correct(c) :: Packet(c.sender, p, Send(m)) in s.sent)
    && Attack(c, m, lucky) <= s.sent
    && forall k | k in s.sent && k.from in c.byz && k.msg.Ready? :: k.to == lucky
  }

  /** The packets of the attack and, from a correct sender, its broadcast. */
  ghost predicate Armed(c: Config, s: Sys, m: Payload, lucky: PID) {
    && AllAbout(s, m)
    && (forall p | p in Correct(c) :: Packet(c.sender, p, Send(m)) in s.sent)
    && Attack(c, m, lucky) <= s.sent
    && forall k | k in s.sent && k.from in c.byz && k.msg.Ready? :: k.to == lucky
  }

  lemma Arm(c: Config, m: Payload, lucky: PID) returns (s: Sys)
    requires ValidConfig(c) && lucky in Correct(c)
    ensures Reach(c, s) && Armed(c, s, m, lucky)
  {
    hide Reach;
    StartRun(c);
    var s0 := Init(c);
    if c.sender in Correct(c) {
      Go(c, s0, Broadcast(m));
      s0 := Do(c, s0, Broadcast(m));
      assert forall p | p in c.procs :: Packet(c.sender, p, Send(m)) in ToAll(c, c.sender, Send(m));
    }
    ForgeAll(c, s0, Attack(c, m, lucky));
    s := s0.(sent := s0.sent + Attack(c, m, lucky));
  }

  lemma Launch(c: Config, m: Payload, lucky: PID) returns (s: Sys)
    requires ValidConfig(c) && c.stamped && lucky in Correct(c)
    ensures Reach(c, s) && Attacked(c, s, m, lucky)
  {
    hide Reach, Inv, ProgressInv, Pending, AllAbout, Attack;
    var s1 := Arm(c, m, lucky);
    s := Settle(c, s1);
    ReachInv(c, s);
  }

  /** A packet to a correct member has left its trace. */
  lemma Arrived(c: Config, s: Sys, m: Payload, lucky: PID, k: Packet)
    requires Attacked(c, s, m, lucky) && k in s.sent && k.to in Correct(c)
    ensures Traced(c, s, k)
  {
    assert k !in Pending(c, s);
  }

  lemma EveryoneEchoes(c: Config, s: Sys, m: Payload, lucky: PID, r: PID)
    requires ValidConfig(c) && Attacked(c, s, m, lucky) && r in Correct(c)
    ensures Packet(r, r, Echo(m)) in s.sent
  {
    hide Inv, ProgressInv, Pending, Attack;
    KeysAre(c, s);
    Arrived(c, s, m, lucky, Packet(c.sender, r, Send(m)));
    FlagMeansPackets(c, s, r);
    var v :| Packet(r, r, Echo(v)) in s.sent;
    assert Packet(r, r, Echo(v)).msg.m == m;
  }

  lemma EveryoneReady(c: Config, s: Sys, m: Payload, lucky: PID, p: PID)
    requires ValidConfig(c) && c.stamped && Attacked(c, s, m, lucky) && p in Correct(c)
    requires |c.procs| >= Quorum(|c.procs|, c.f) + 2
    ensures p in s.nodes && s.nodes[p].sentReady && Packet(p, p, Ready(m)) in s.sent
  {
    hide Inv, ProgressInv, Pending, Prompt;
    NodeAt(c, s, p);
    SettledIsQuiescent(c, s);
    forall r | r in c.procs ensures r in Support(s.nodes[p].echos, m) {
      if r in Correct(c) {
        EveryoneEchoes(c, s, m, lucky, r);
        Recorded(c, s, r, p, Echo(m));
      } else {
        Arrived(c, s, m, lucky, Packet(r, p, Echo(m)));
        assert Packet(r, p, Echo(s.nodes[p].echos[r])).msg.m == m;
      }
    }
    SubsetCard(c.procs, Support(s.nodes[p].echos, m));
    FlagMeansPackets(c, s, p);
    MustReady(c, s.nodes[p], m);
    var v :| Packet(p, p, Ready(v)) in s.sent;
    assert Packet(p, p, Ready(v)).msg.m == m;
  }

  lemma MustReady(c: Config, nd: Node, m: Payload)
    requires Prompt(c, nd) && |Support(nd.echos, m)| >= Quorum(nd.n, nd.faults) + 2
    ensures nd.sentReady
  {
  }

  lemma LuckyDelivers(c: Config, s: Sys, m: Payload, lucky: PID)
    requires ValidConfig(c) && c.stamped && Attacked(c, s, m, lucky) && lucky in Correct(c) && c.decodes(m)
    requires |c.procs| >= Quorum(|c.procs|, c.f) + 2 && |c.procs| >= 2 * c.f + 2
    ensures lucky in s.nodes && s.nodes[lucky].output == [m]
  {
    hide Inv, ProgressInv, Pending, Prompt;
    NodeAt(c, s, lucky);
    SettledIsQuiescent(c, s);
    forall r | r in c.procs ensures r in Support(s.nodes[lucky].readys, m) {
      if r in Correct(c) {
        EveryoneReady(c, s, m, lucky, r);
        Recorded(c, s, r, lucky, Ready(m));
      } else {
        Arrived(c, s, m, lucky, Packet(r, lucky, Ready(m)));
      }
      assert Packet(r, lucky, Ready(s.nodes[lucky].readys[r])).msg.m == m;
    }
    SubsetCard(c.procs, Support(s.nodes[lucky].readys, m));
    FlagMeansPackets(c, s, lucky);
    MustDeliver(c, s, lucky, m);
  }

  lemma OthersDoNot(c: Config, s: Sys, m: Payload, lucky: PID, q: PID)
    requires ValidConfig(c) && Attacked(c, s, m, lucky) && q in Correct(c) && q != lucky
    requires |c.byz| == c.f && |c.procs| <= 3 * c.f + 1
    ensures q in s.nodes && s.nodes[q].output == []
  {
    hide Inv, ProgressInv, Pending, Attack;
    NodeAt(c, s, q);
    FlagMeansPackets(c, s, q);
    CorrectMany(c);
    forall v ensures |Support(s.nodes[q].readys, v)| < 2 * c.f + 2 {
      forall r | r in Support(s.nodes[q].readys, v) ensures r in Correct(c) {
        PacketAt(c, s, Packet(r, q, Ready(v)));
      }
      SubsetCard(Support(s.nodes[q].readys, v), Correct(c));
    }
    assert forall v :: !DeliveredBy(c, s.nodes[q], v);
  }

  lemma NobodyDelivers(c: Config, s: Sys, p: PID)
    requires Inv(c, s) && |c.procs| <= 2 * c.f + 1 && p in Correct(c)
    ensures p in s.nodes && s.nodes[p].output == []
  {
    hide Inv;
    NodeAt(c, s, p);
    if s.nodes[p].output != [] {
      DeliveredReady(c, s, p);
      SubsetCard(Readiers(c, s, s.nodes[p].output[0]), c.procs);
    }
  }

  /** With as many Byzantine members as allowed, totality holds in all runs exactly from 3f + 2 members on, and
      trivially where a group is too small for anyone ever to deliver. */
  lemma TotalityExactly(c: Config, m: Payload)
    requires ValidConfig(c) && c.stamped && |c.byz| == c.f && c.decodes(m)
    ensures AlwaysTotal(c) <==> |c.procs| >= 3 * c.f + 2 || |c.procs| <= 2 * c.f + 1
  {
    hide Inv, ProgressInv, Quiescent, IsRun, Attacked;
    if |c.procs| >= 3 * c.f + 2 || |c.procs| <= 2 * c.f + 1 {
      forall s | Reach(c, s) ensures TotalAt(c, s) {
        TotalHere(c, s);
      }
    } else {
      CorrectMany(c);
      var lucky := OneOutside(Correct(c), {});
      assert |{lucky}| == 1;
      var q := OneOutside(Correct(c), {lucky});
      var s := Launch(c, m, lucky);
      LuckyDelivers(c, s, m, lucky);
      OthersDoNot(c, s, m, lucky, q);
      assert Quiescent(c, s) by { AtRest(c, s, m, lucky); }
      assert !TotalAt(c, s);
    }
  }

  lemma AtRest(c: Config, s: Sys, m: Payload, lucky: PID)
    requires Attacked(c, s, m, lucky)
    ensures Quiescent(c, s)
  {
    SettledIsQuiescent(c, s);
  }

  lemma TotalHere(c: Config, s: Sys)
    requires ValidConfig(c) && c.stamped && Reach(c, s) && (|c.procs| >= 3 * c.f + 2 || |c.procs| <= 2 * c.f + 1)
    ensures TotalAt(c, s)
  {
    hide Inv, ProgressInv, IsRun, Quiescent;
    ReachInv(c, s);
    if Quiescent(c, s) {
      forall p, q | p in Correct(c) && q in Correct(c)
        ensures p in s.nodes && q in s.nodes && s.nodes[p].output == s.nodes[q].output
      {
        if |c.procs| <= 2 * c.f + 1 {
          NobodyDelivers(c, s, p);
          NobodyDelivers(c, s, q);
        } else {
          QuiescentTotal(c, s, p, q);
          QuiescentTotal(c, s, q, p);
        }
      }
    }
  }
}

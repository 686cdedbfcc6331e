/** Echo broadcast with Byzantine members: consistency and integrity in every reachable state. */
module EchoSystem {
  import opened Common
  import opened Tally
  import opened EchoBroadcast

  /** procs is the group, byz the members that may do anything; links tell the receiver the true transmitter. */
  datatype Config = Config(procs: set<PID>, byz: set<PID>, f: nat, sender: PID, decodes: Payload -> bool)

  ghost predicate ValidConfig(c: Config) {
    c.byz <= c.procs && |c.byz| <= c.f && c.sender in c.procs
  }

  function Correct(c: Config): set<PID> { c.procs - c.byz }

  datatype Packet = Packet(from: PID, to: PID, msg: Msg)

  /** bcast: what a correct sender was asked to broadcast. */
  datatype Sys = Sys(nodes: map<PID, Node>, sent: set<Packet>, bcast: set<Payload>)

  /** Any member may call Broadcast; pick resolves the map iteration order. */
  datatype Step =
    | Broadcast(p: PID, m: Payload)
    | Forge(k: Packet)
    | Receive(k: Packet, pick: Option<Payload>)

  ghost function Start(c: Config): Sys {
    Sys(map p | p in Correct(c) :: NewNode(p, c.sender, |c.procs|, c.f), {}, {})
  }

  function ToAll(procs: set<PID>, from: PID, msg: Msg): set<Packet> {
    set p | p in procs :: Packet(from, p, msg)
  }

  ghost predicate Enabled(c: Config, s: Sys, t: Step) {
    match t
    case Broadcast(p, _) => p in s.nodes
    case Forge(k) => k.from in c.byz && k.to in c.procs
    case Receive(k, pick) =>
      k in s.sent && k.to in s.nodes && (k.msg.Echo? ==> EchoPick(s.nodes[k.to], k.from, k.msg.m, pick))
  }

  function Handle(nd: Node, k: Packet, pick: Option<Payload>, decodes: Payload -> bool): (Node, Option<Msg>) {
    match k.msg
    case Init(m) => OnInit(nd, k.from, m)
    case Echo(m) => (OnEcho(nd, k.from, m, pick, decodes), None)
  }

  ghost function Do(c: Config, s: Sys, t: Step): Sys
    requires Enabled(c, s, t)
  {
    match t
    case Broadcast(p, m) =>
      s.(sent := s.sent + ToAll(c.procs, p, Init(m)), bcast := if p == c.sender then s.bcast + {m} else s.bcast)
    case Forge(k) => s.(sent := s.sent + {k})
    case Receive(k, pick) =>
      var (nd, out) := Handle(s.nodes[k.to], k, pick, c.decodes);
      s.(nodes := s.nodes[k.to := nd],
         sent := if out.None? then s.sent else s.sent + ToAll(c.procs, k.to, out.value))
  }

  ghost predicate Next(c: Config, s: Sys, s': Sys) {
    exists t :: Enabled(c, s, t) && s' == Do(c, s, t)
  }

  ghost predicate IsRun(c: Config, run: seq<Sys>) {
    && run != [] && run[0] == Start(c)
    && forall i | 0 <= i < |run| - 1 :: Next(c, run[i], run[i + 1])
  }

  ghost predicate Reach(c: Config, s: Sys) {
    exists run :: IsRun(c, run) && run[|run| - 1] == s
  }

  lemma Go(c: Config, s: Sys, t: Step)
    requires Reach(c, s) && Enabled(c, s, t)
    ensures Reach(c, Do(c, s, t))
  {
    hide Do, Enabled;
    var run :| IsRun(c, run) && run[|run| - 1] == s;
    assert Next(c, s, Do(c, s, t));
    assert IsRun(c, run + [Do(c, s, t)]);
  }

  lemma StartReached(c: Config)
    ensures Reach(c, Start(c))
  {
    assert IsRun(c, [Start(c)]);
  }

  // ---- Invariant ----

  function Echoers(c: Config, s: Sys, m: Payload): set<PID> {
    set p | p in c.procs && (p in c.byz || Packet(p, p, Echo(m)) in s.sent)
  }

  ghost predicate PacketOk(c: Config, s: Sys, k: Packet) {
    && k.from in c.procs && k.to in c.procs
    && (k.from in Correct(c) ==>
          && k.from in s.nodes
          && Packet(k.from, k.from, k.msg) in s.sent
          && match k.msg
             case Init(m) => k.from == c.sender ==> m in s.bcast
             case Echo(m) => s.nodes[k.from].sentEcho && (c.sender in Correct(c) ==> m in s.bcast))
  }

  /** Correct members echo once. */
  ghost predicate OneEcho(c: Config, s: Sys) {
    forall j, k :: (j in s.sent && k in s.sent && j.from == k.from && j.from in Correct(c) && j.msg.Echo?
        && k.msg.Echo?) ==>
      j.msg == k.msg
  }

  ghost predicate NodeOk(c: Config, s: Sys, p: PID)
    requires p in s.nodes
  {
    var nd := s.nodes[p];
    && nd.self == p && nd.sender == c.sender && nd.n == |c.procs| && nd.faults == c.f
    && (forall r | r in nd.echos :: Packet(r, p, Echo(nd.echos[r])) in s.sent)
    && (nd.output != [] ==> nd.delivered) && |nd.output| <= 1
    && forall m | m in nd.output :: c.decodes(m) && |Echoers(c, s, m)| >= Quorum(|c.procs|, c.f) + 2
  }

  ghost predicate Inv(c: Config, s: Sys) {
    && s.nodes.Keys == Correct(c)
    && (forall k | k in s.sent :: PacketOk(c, s, k))
    && (forall p | p in s.nodes :: NodeOk(c, s, p))
    && OneEcho(c, s)
  }

  lemma EchoersGrow(c: Config, s: Sys, s': Sys, m: Payload)
    requires s.sent <= s'.sent
    ensures |Echoers(c, s, m)| <= |Echoers(c, s', m)|
  {
    SubsetCard(Echoers(c, s, m), Echoers(c, s', m));
  }

  /** Nodes that did not change are as good as before in a larger network. */
  lemma OldNode(c: Config, s: Sys, s': Sys, q: PID)
    requires Inv(c, s) && s.sent <= s'.sent && q in s.nodes && q in s'.nodes
    requires s'.nodes[q] == s.nodes[q].(sentEcho := s'.nodes[q].sentEcho)
    ensures NodeOk(c, s', q)
  {
    assert NodeOk(c, s, q);
    forall m | m in s.nodes[q].output ensures |Echoers(c, s', m)| >= Quorum(|c.procs|, c.f) + 2 {
      EchoersGrow(c, s, s', m);
    }
  }

  /** Supporters of v after one more echo was recorded are echoers of v. */
  lemma Supported(c: Config, s: Sys, k: Packet, v: Payload)
    requires Inv(c, s) && k in s.sent && k.msg.Echo? && k.to in s.nodes
    ensures |Support(Record(s.nodes[k.to].echos, k.from, k.msg.m), v)| <= |Echoers(c, s, v)|
  {
    var sup := Support(Record(s.nodes[k.to].echos, k.from, k.msg.m), v);
    assert NodeOk(c, s, k.to);
    forall r | r in sup ensures r in Echoers(c, s, v) {
      assert Packet(r, k.to, Echo(v)) in s.sent;
      assert PacketOk(c, s, Packet(r, k.to, Echo(v)));
    }
    SubsetCard(sup, Echoers(c, s, v));
  }

  lemma SentKeeps(c: Config, s: Sys, t: Step)
    requires ValidConfig(c) && Inv(c, s) && Enabled(c, s, t) && !t.Receive?
    ensures Inv(c, Do(c, s, t))
  {
    hide NodeOk;
    var s' := Do(c, s, t);
    forall q | q in s'.nodes ensures NodeOk(c, s', q) { OldNode(c, s, s', q); }
    forall k | k in s'.sent ensures PacketOk(c, s', k) {
      if k in s.sent {
        assert PacketOk(c, s, k);
      } else if t.Broadcast? {
        assert Packet(t.p, t.p, Init(t.m)) in ToAll(c.procs, t.p, Init(t.m));
      }
    }
  }

  lemma InitKeeps(c: Config, s: Sys, t: Step)
    requires Inv(c, s) && Enabled(c, s, t) && t.Receive? && t.k.msg.Init?
    ensures Inv(c, Do(c, s, t))
  {
    hide NodeOk;
    var s', p, m := Do(c, s, t), t.k.to, t.k.msg.m;
    forall q | q in s'.nodes ensures NodeOk(c, s', q) { OldNode(c, s, s', q); }
    assert PacketOk(c, s, t.k);
    assert s.nodes[p].sender == c.sender by { SenderIs(c, s, p); }
    forall k | k in s'.sent ensures PacketOk(c, s', k) {
      if k in s.sent {
        assert PacketOk(c, s, k);
      } else {
        assert Packet(p, p, Echo(m)) in ToAll(c.procs, p, Echo(m));
      }
    }
    assert !s.nodes[p].sentEcho ==> forall k | k in s.sent && k.from == p :: PacketOk(c, s, k);
  }

  lemma SenderIs(c: Config, s: Sys, p: PID)
    requires Inv(c, s) && p in s.nodes
    ensures s.nodes[p].sender == c.sender && s.nodes[p].self == p
    ensures s.nodes[p].n == |c.procs| && s.nodes[p].faults == c.f
  {
    assert NodeOk(c, s, p);
  }

  lemma EchoKeeps(c: Config, s: Sys, t: Step)
    requires Inv(c, s) && Enabled(c, s, t) && t.Receive? && t.k.msg.Echo?
    ensures Inv(c, Do(c, s, t))
  {
    hide Support, Echoers;
    var s', p := Do(c, s, t), t.k.to;
    assert NodeOk(c, s, p);
    if t.pick.Some? { Supported(c, s, t.k, t.pick.value); }
    forall m ensures |Echoers(c, s, m)| <= |Echoers(c, s', m)| { EchoersGrow(c, s, s', m); }
    forall q | q in s'.nodes ensures NodeOk(c, s', q) {
      if q != p { OldNode(c, s, s', q); }
    }
    forall k | k in s'.sent ensures PacketOk(c, s', k) {
      assert PacketOk(c, s, k);
    }
  }

  lemma StepInv(c: Config, s: Sys, t: Step)
    requires ValidConfig(c) && Inv(c, s) && Enabled(c, s, t)
    ensures Inv(c, Do(c, s, t))
  {
    hide Inv, Do, Enabled;
    match t
    case Receive(k, _) => if k.msg.Init? { InitKeeps(c, s, t); } else { EchoKeeps(c, s, t); }
    case _ => SentKeeps(c, s, t);
  }

  lemma {:induction false} RunInv(c: Config, run: seq<Sys>, i: nat)
    requires ValidConfig(c) && IsRun(c, run) && i < |run|
    ensures Inv(c, run[i])
  {
    hide Inv, Do, Enabled;
    if i == 0 {
      StartInv(c);
    } else {
      RunInv(c, run, i - 1);
      assert Next(c, run[i - 1], run[i - 1 + 1]);
      var t :| Enabled(c, run[i - 1], t) && run[i] == Do(c, run[i - 1], t);
      StepInv(c, run[i - 1], t);
    }
  }

  lemma StartInv(c: Config)
    ensures Inv(c, Start(c))
  {
  }

  /** In every reachable state: a correct member delivers at most once, no two correct members deliver differently,
      and with a correct sender they deliver only what it has broadcast. */
  lemma ConsistentAt(c: Config, s: Sys, p: PID, q: PID)
    requires ValidConfig(c) && Reach(c, s) && p in Correct(c) && q in Correct(c)
    ensures p in s.nodes && q in s.nodes && |s.nodes[p].output| <= 1
    ensures s.nodes[p].output != [] && s.nodes[q].output != [] ==> s.nodes[p].output == s.nodes[q].output
    ensures c.sender in Correct(c) ==> forall m | m in s.nodes[p].output :: m in s.bcast && c.decodes(m)
  {
    hide PacketOk;
    var run :| IsRun(c, run) && run[|run| - 1] == s;
    hide IsRun;
    RunInv(c, run, |run| - 1);
    assert NodeOk(c, s, p) && NodeOk(c, s, q);
    if s.nodes[p].output != [] {
      var m := s.nodes[p].output[0];
      if s.nodes[q].output != [] { OneQuorum(c, s, m, s.nodes[q].output[0]); }
      if c.sender in Correct(c) { QuorumBroadcast(c, s, m); }
    }
  }

  lemma {:induction false} OutputStays(c: Config, run: seq<Sys>, i: nat, j: nat, p: PID)
    requires ValidConfig(c) && IsRun(c, run) && i <= j < |run| && p in Correct(c)
    ensures p in run[i].nodes && p in run[j].nodes && run[i].nodes[p].output <= run[j].nodes[p].output
    decreases j - i
  {
    hide NodeOk, PacketOk, OneEcho, EchoPick;
    RunInv(c, run, i);
    if i < j {
      OutputStays(c, run, i, j - 1, p);
      assert Next(c, run[j - 1], run[j - 1 + 1]);
    }
  }

  lemma Prefix(c: Config, run: seq<Sys>, i: nat)
    requires IsRun(c, run) && i < |run|
    ensures Reach(c, run[i])
  {
    hide Next;
    assert IsRun(c, run[..i + 1]) && run[..i + 1][i] == run[i];
  }

  /** Consistency, no duplication and integrity in every run, at whatever moments two members are looked at. */
  lemma Consistency(c: Config, run: seq<Sys>, i: nat, j: nat, p: PID, q: PID)
    requires ValidConfig(c) && IsRun(c, run) && i <= j < |run| && p in Correct(c) && q in Correct(c)
    ensures p in run[i].nodes && q in run[j].nodes && |run[i].nodes[p].output| <= 1 && |run[j].nodes[q].output| <= 1
    ensures run[i].nodes[p].output != [] && run[j].nodes[q].output != [] ==>
              run[i].nodes[p].output == run[j].nodes[q].output
    ensures c.sender in Correct(c) ==> forall m | m in run[i].nodes[p].output :: m in run[i].bcast && c.decodes(m)
  {
    hide IsRun, Reach;
    Prefix(c, run, i);
    Prefix(c, run, j);
    OutputStays(c, run, i, j, p);
    ConsistentAt(c, run[i], p, p);
    ConsistentAt(c, run[j], p, q);
    ConsistentAt(c, run[j], q, p);
  }

  lemma OneQuorum(c: Config, s: Sys, m: Payload, m': Payload)
    requires ValidConfig(c) && OneEcho(c, s)
    requires |Echoers(c, s, m)| >= Quorum(|c.procs|, c.f) + 2 && |Echoers(c, s, m')| >= Quorum(|c.procs|, c.f) + 2
    ensures m == m'
  {
    var r := ByzantineQuorumsMeet(Echoers(c, s, m), Echoers(c, s, m'), c.procs, c.byz, c.f);
    assert Packet(r, r, Echo(m)).msg == Packet(r, r, Echo(m')).msg;
  }

  lemma QuorumBroadcast(c: Config, s: Sys, m: Payload)
    requires ValidConfig(c) && Inv(c, s) && c.sender in Correct(c) && |Echoers(c, s, m)| >= Quorum(|c.procs|, c.f) + 2
    ensures m in s.bcast
  {
    SubsetCard(c.byz, c.procs);
    var r := OneOutside(Echoers(c, s, m), c.byz);
    assert PacketOk(c, s, Packet(r, r, Echo(m)));
  }
}

/** Double-echo broadcast with Byzantine members: consistency and integrity in every run. */
module DoubleEchoSystem {
  import opened Common
  import opened Tally
  import opened DoubleEcho

  /** procs is the group, byz the members that may do anything. stamped: links report as From() the process that
      called Send. Otherwise From() is the id stored in the message, and the READY a member passes on when it has seen
      enough of them is the stored message of the member it got it from. In both cases nobody can speak in the name of
      a correct member. */
  datatype Config = Config(procs: set<PID>, byz: set<PID>, f: nat, sender: PID, decodes: Payload -> bool, stamped: bool)

  ghost predicate ValidConfig(c: Config) {
    c.byz <= c.procs && |c.byz| <= c.f && c.sender in c.procs
  }

  function Correct(c: Config): set<PID> { c.procs - c.byz }

  datatype Packet = Packet(from: PID, to: PID, msg: Msg)

  /** nodes are the correct members. handled: packets received at least once; a packet may arrive again.
      bcast: what a correct sender was asked to broadcast. */
  datatype Sys = Sys(nodes: map<PID, Node>, sent: set<Packet>, handled: set<Packet>, bcast: set<Payload>)

  /** The fields of Receive after k resolve map iteration orders; author is whose READY is passed on. */
  datatype Step =
    | Broadcast(m: Payload)
    | Forge(k: Packet)
    | Receive(k: Packet, pick: Option<Payload>, enhance: Option<Payload>, deliver: Option<Payload>, author: PID)

  ghost function Init(c: Config): Sys {
    Sys(map p | p in Correct(c) :: NewNode(p, c.sender, |c.procs|, c.f), {}, {}, {})
  }

  function ToAll(c: Config, from: PID, msg: Msg): set<Packet> {
    set p | p in c.procs :: Packet(from, p, msg)
  }

  ghost predicate Resolved(s: Sys, t: Step)
    requires t.Receive? && t.k.to in s.nodes
  {
    match t.k.msg
    case Send(_) => true
    case Echo(m) => EchoPick(s.nodes[t.k.to], t.k.from, m, t.pick)
    case Ready(m) =>
      && ReadyPicks(s.nodes[t.k.to], t.k.from, m, t.enhance, t.deliver)
      && (t.enhance.Some? ==> t.author in Support(s.nodes[t.k.to].readys[t.k.from := m], t.enhance.value))
  }

  /** Whom receivers take the receiver's answer to be from. */
  function Origin(c: Config, t: Step): PID
    requires t.Receive?
  {
    if t.k.msg.Ready? && !c.stamped then t.author else t.k.to
  }

  ghost predicate Enabled(c: Config, s: Sys, t: Step) {
    match t
    case Broadcast(_) => c.sender in s.nodes
    case Forge(k) => k.from in c.byz && k.to in c.procs
    case Receive(k, _, _, _, _) => k in s.sent && k.to in s.nodes && Resolved(s, t)
  }

  function Handle(c: Config, nd: Node, t: Step): (Node, Option<Msg>)
    requires t.Receive?
  {
    match t.k.msg
    case Send(m) => OnSend(nd, t.k.from, m)
    case Echo(m) => OnEcho(nd, t.k.from, m, t.pick)
    case Ready(m) => OnReady(nd, t.k.from, m, t.enhance, t.deliver, c.decodes)
  }

  ghost function Do(c: Config, s: Sys, t: Step): Sys
    requires Enabled(c, s, t)
  {
    match t
    case Broadcast(m) => s.(sent := s.sent + ToAll(c, c.sender, Send(m)), bcast := s.bcast + {m})
    case Forge(k) => s.(sent := s.sent + {k})
    case Receive(k, _, _, _, _) =>
      var (nd, out) := Handle(c, s.nodes[k.to], t);
      s.(nodes := s.nodes[k.to := nd], handled := s.handled + {k},
         sent := if out.None? then s.sent else s.sent + ToAll(c, Origin(c, t), out.value))
  }

  ghost predicate Next(c: Config, s: Sys, s': Sys) {
    exists t :: Enabled(c, s, t) && s' == Do(c, s, t)
  }

  ghost predicate IsRun(c: Config, run: seq<Sys>) {
    && run != [] && run[0] == Init(c)
    && forall i | 0 <= i < |run| - 1 :: Next(c, run[i], run[i + 1])
  }

  // ---- Invariants ----

  /** Everybody who may be counted as an echoer of m: it is Byzantine or its echo of m is in the network. */
  function Echoers(c: Config, s: Sys, m: Payload): set<PID> {
    set p | p in c.procs && (p in c.byz || Packet(p, p, Echo(m)) in s.sent)
  }

  function Readiers(c: Config, s: Sys, m: Payload): set<PID> {
    set p | p in c.procs && (p in c.byz || Packet(p, p, Ready(m)) in s.sent)
  }

  /** A packet of a correct member is one of a broadcast, and its flag records it. */
  ghost predicate PacketOk(c: Config, s: Sys, k: Packet) {
    && k.from in c.procs && k.to in c.procs
    && (k.from in Correct(c) ==>
          && k.from in s.nodes
          && Packet(k.from, k.from, k.msg) in s.sent
          && match k.msg
             case Send(m) => k.from == c.sender && m in s.bcast
             case Echo(m) => s.nodes[k.from].sentEcho && (c.sender in Correct(c) ==> m in s.bcast)
             case Ready(m) => s.nodes[k.from].sentReady && |Echoers(c, s, m)| >= Quorum(|c.procs|, c.f) + 2)
  }

  /** Correct members echo once. */
  ghost predicate OneEcho(c: Config, s: Sys) {
    forall j, k :: (j in s.sent && k in s.sent && j.from == k.from && j.from in Correct(c) && j.msg.Echo?
        && k.msg.Echo?) ==>
      j.msg == k.msg
  }

  /** What a correct member has recorded was sent to it. */
  ghost predicate NodeOk(c: Config, s: Sys, p: PID)
    requires p in s.nodes
  {
    var nd := s.nodes[p];
    && nd.self == p && nd.sender == c.sender && nd.n == |c.procs| && nd.faults == c.f
    && (forall r | r in nd.echos :: Packet(r, p, Echo(nd.echos[r])) in s.sent)
    && (forall r | r in nd.readys :: Packet(r, p, Ready(nd.readys[r])) in s.sent)
    && (nd.output != [] ==> nd.delivered) && |nd.output| <= 1
    && forall m | m in nd.output :: c.decodes(m) && |Readiers(c, s, m)| >= 2 * c.f + 2
  }

  ghost predicate Inv(c: Config, s: Sys) {
    && s.nodes.Keys == Correct(c)
    && (forall k | k in s.sent :: PacketOk(c, s, k))
    && (forall p | p in s.nodes :: NodeOk(c, s, p))
    && OneEcho(c, s)
  }

  lemma PacketAt(c: Config, s: Sys, k: Packet)
    requires Inv(c, s) && k in s.sent
    ensures PacketOk(c, s, k)
  {
  }

  lemma NodeAt(c: Config, s: Sys, p: PID)
    requires Inv(c, s) && p in Correct(c)
    ensures p in s.nodes && NodeOk(c, s, p)
  {
  }

  /** Supporters of m among what p recorded are echoers (readiers) of m. */
  lemma EchoSupport(c: Config, s: Sys, p: PID, m: Payload)
    requires Inv(c, s) && p in s.nodes
    ensures Support(s.nodes[p].echos, m) <= Echoers(c, s, m)
  {
    forall r | r in Support(s.nodes[p].echos, m) ensures r in Echoers(c, s, m) {
      NodeAt(c, s, p);
      PacketAt(c, s, Packet(r, p, Echo(m)));
    }
  }

  lemma ReadySupport(c: Config, s: Sys, p: PID, m: Payload)
    requires Inv(c, s) && p in s.nodes
    ensures Support(s.nodes[p].readys, m) <= Readiers(c, s, m)
  {
    forall r | r in Support(s.nodes[p].readys, m) ensures r in Readiers(c, s, m) {
      NodeAt(c, s, p);
      PacketAt(c, s, Packet(r, p, Ready(m)));
    }
  }

  /** More than f readiers: some correct member is ready for m, so m has a quorum of echoers. */
  lemma ReadyHasQuorum(c: Config, s: Sys, m: Payload) returns (r: PID)
    requires ValidConfig(c) && Inv(c, s) && |Readiers(c, s, m)| > c.f
    ensures r in Correct(c) && Packet(r, r, Ready(m)) in s.sent
    ensures |Echoers(c, s, m)| >= Quorum(|c.procs|, c.f) + 2
  {
    hide Inv;
    r := OneOutside(Readiers(c, s, m), c.byz);
    PacketAt(c, s, Packet(r, r, Ready(m)));
  }

  /** The READYs of correct members carry one value. */
  lemma OneReadyValue(c: Config, s: Sys, m: Payload, m': Payload)
    requires ValidConfig(c) && Inv(c, s)
    requires |Echoers(c, s, m)| >= Quorum(|c.procs|, c.f) + 2 && |Echoers(c, s, m')| >= Quorum(|c.procs|, c.f) + 2
    ensures m == m'
  {
    var p := ByzantineQuorumsMeet(Echoers(c, s, m), Echoers(c, s, m'), c.procs, c.byz, c.f);
    assert Packet(p, p, Echo(m)).msg == Packet(p, p, Echo(m')).msg;
  }

  // ---- Preservation ----

  /** The network grows, nodes but p are as before. */
  ghost predicate Grows(s: Sys, s': Sys, p: PID) {
    && s.sent <= s'.sent && s.bcast <= s'.bcast && s'.nodes.Keys == s.nodes.Keys
    && (forall q | q in s.nodes && q != p :: s'.nodes[q] == s.nodes[q])
    && (p in s.nodes && s.nodes[p].sentEcho ==> s'.nodes[p].sentEcho)
    && (p in s.nodes && s.nodes[p].sentReady ==> s'.nodes[p].sentReady)
  }

  lemma EchoersGrow(c: Config, s: Sys, s': Sys, m: Payload)
    requires s.sent <= s'.sent
    ensures |Echoers(c, s, m)| <= |Echoers(c, s', m)| && |Readiers(c, s, m)| <= |Readiers(c, s', m)|
  {
    SubsetCard(Echoers(c, s, m), Echoers(c, s', m));
    SubsetCard(Readiers(c, s, m), Readiers(c, s', m));
  }

  lemma OldPackets(c: Config, s: Sys, s': Sys, p: PID, k: Packet)
    requires Inv(c, s) && Grows(s, s', p) && k in s.sent
    ensures PacketOk(c, s', k)
  {
    PacketAt(c, s, k);
    EchoersGrow(c, s, s', k.msg.m);
  }

  lemma OldNode(c: Config, s: Sys, s': Sys, p: PID, q: PID)
    requires Inv(c, s) && Grows(s, s', p) && q in s.nodes && q != p
    ensures NodeOk(c, s', q)
  {
    NodeAt(c, s, q);
    forall m | m in s.nodes[q].output ensures |Readiers(c, s', m)| >= 2 * c.f + 2 {
      EchoersGrow(c, s, s', m);
    }
  }

  /** A step keeps the invariant if it keeps it for the packets it adds and the node it changes. */
  lemma Keep(c: Config, s: Sys, s': Sys, p: PID)
    requires Inv(c, s) && Grows(s, s', p)
    requires p in s.nodes ==> NodeOk(c, s', p)
    requires forall k | k in s'.sent - s.sent :: PacketOk(c, s', k)
    requires OneEcho(c, s')
    ensures Inv(c, s')
  {
    hide PacketOk, NodeOk, OneEcho;
    forall k | k in s'.sent ensures PacketOk(c, s', k) {
      if k in s.sent { OldPackets(c, s, s', p, k); }
    }
    forall q | q in s'.nodes ensures NodeOk(c, s', q) {
      if q != p { OldNode(c, s, s', p, q); }
    }
  }

  lemma Quiet(c: Config, s: Sys, s': Sys)
    requires Inv(c, s) && s' == s.(handled := s'.handled)
    ensures Inv(c, s')
  {
    hide PacketOk, NodeOk, OneEcho, Inv;
    SameEchoers(c, s, s');
  }

  lemma SameEchoers(c: Config, s: Sys, s': Sys)
    requires Inv(c, s) && s' == s.(handled := s'.handled)
    ensures Inv(c, s')
  {
    forall k | k in s'.sent ensures PacketOk(c, s', k) {
      PacketAt(c, s, k);
      assert Echoers(c, s', k.msg.m) == Echoers(c, s, k.msg.m);
    }
    forall p | p in s'.nodes ensures NodeOk(c, s', p) {
      NodeAt(c, s, p);
      forall m | m in s.nodes[p].output ensures |Readiers(c, s', m)| >= 2 * c.f + 2 {
        assert Readiers(c, s', m) == Readiers(c, s, m);
      }
    }
  }

  lemma BroadcastKeeps(c: Config, s: Sys, m: Payload)
    requires Inv(c, s) && Enabled(c, s, Broadcast(m)) && ValidConfig(c)
    ensures Inv(c, Do(c, s, Broadcast(m)))
  {
    var s' := Do(c, s, Broadcast(m));
    hide PacketOk, NodeOk, Inv;
    KeysAre(c, s);
    assert OneEcho(c, s') by { EchoesOnce(c, s); }
    SenderNode(c, s, s');
    forall k | k in s'.sent - s.sent ensures PacketOk(c, s', k) { NewSend(c, s', m, k); }
    Keep(c, s, s', c.sender);
  }

  lemma KeysAre(c: Config, s: Sys)
    requires Inv(c, s)
    ensures s.nodes.Keys == Correct(c)
  {
  }

  lemma EchoesOnce(c: Config, s: Sys)
    requires Inv(c, s)
    ensures OneEcho(c, s)
  {
  }

  lemma NewSend(c: Config, s: Sys, m: Payload, k: Packet)
    requires k in ToAll(c, c.sender, Send(m)) && ToAll(c, c.sender, Send(m)) <= s.sent
    requires c.sender in s.nodes && c.sender in c.procs && m in s.bcast
    ensures PacketOk(c, s, k)
  {
    assert Packet(c.sender, c.sender, Send(m)) in ToAll(c, c.sender, Send(m));
  }

  /** A node that did not change is as good as before in a larger network. */
  lemma SenderNode(c: Config, s: Sys, s': Sys)
    requires Inv(c, s) && s.sent <= s'.sent && s'.nodes == s.nodes
    ensures forall p | p in s.nodes :: NodeOk(c, s', p)
  {
    forall p | p in s.nodes ensures NodeOk(c, s', p) {
      NodeAt(c, s, p);
      forall m | m in s.nodes[p].output ensures |Readiers(c, s', m)| >= 2 * c.f + 2 {
        EchoersGrow(c, s, s', m);
      }
    }
  }

  lemma ForgeKeeps(c: Config, s: Sys, k: Packet)
    requires Inv(c, s) && Enabled(c, s, Forge(k)) && ValidConfig(c)
    ensures Inv(c, Do(c, s, Forge(k)))
  {
    var s' := Do(c, s, Forge(k));
    hide NodeOk, Inv;
    KeysAre(c, s);
    assert OneEcho(c, s') by { EchoesOnce(c, s); }
    SenderNode(c, s, s');
    Keep(c, s, s', k.from);
  }

  // ---- Receiving ----

  lemma SendKeeps(c: Config, s: Sys, t: Step)
    requires Inv(c, s) && Enabled(c, s, t) && t.Receive? && t.k.msg.Send? && ValidConfig(c)
    ensures Inv(c, Do(c, s, t))
  {
    var s' := Do(c, s, t);
    var p, m := t.k.to, t.k.msg.m;
    hide Inv, NodeOk, PacketOk, Echoers, Readiers;
    KeysAre(c, s);
    SenderIs(c, s, p);
    if t.k.from != c.sender || s.nodes[p].sentEcho {
      assert s'.nodes == s.nodes;
      Quiet(c, s, s');
    } else {
      FromSender(c, s, t.k);
      FirstEcho(c, s, s', p, m);
      AfterSend(c, s, s', p);
      forall k | k in s'.sent - s.sent ensures PacketOk(c, s', k) { NewEcho(c, s', p, m, k); }
      Keep(c, s, s', p);
    }
  }

  lemma SenderIs(c: Config, s: Sys, p: PID)
    requires Inv(c, s) && p in s.nodes
    ensures p in Correct(c) && s.nodes[p].sender == c.sender && s.nodes[p].self == p
    ensures s.nodes[p].n == |c.procs| && s.nodes[p].faults == c.f
  {
    NodeAt(c, s, p);
  }

  lemma FromSender(c: Config, s: Sys, k: Packet)
    requires Inv(c, s) && k in s.sent && k.msg.Send? && k.from == c.sender
    ensures c.sender in Correct(c) ==> k.msg.m in s.bcast
  {
    PacketAt(c, s, k);
  }

  lemma FirstEcho(c: Config, s: Sys, s': Sys, p: PID, m: Payload)
    requires Inv(c, s) && p in s.nodes && !s.nodes[p].sentEcho && s'.sent == s.sent + ToAll(c, p, Echo(m))
    ensures OneEcho(c, s')
  {
    forall k | k in s.sent && k.from == p && k.from in Correct(c) ensures !k.msg.Echo? {
      PacketAt(c, s, k);
    }
    EchoesOnce(c, s);
  }

  lemma AfterSend(c: Config, s: Sys, s': Sys, p: PID)
    requires Inv(c, s) && p in s.nodes && s.sent <= s'.sent && p in s'.nodes
    requires s'.nodes[p] == s.nodes[p].(sentEcho := s'.nodes[p].sentEcho, sentReady := s'.nodes[p].sentReady)
    ensures NodeOk(c, s', p)
  {
    NodeAt(c, s, p);
    forall m | m in s.nodes[p].output ensures |Readiers(c, s', m)| >= 2 * c.f + 2 {
      EchoersGrow(c, s, s', m);
    }
  }

  lemma NewEcho(c: Config, s: Sys, p: PID, m: Payload, k: Packet)
    requires k in ToAll(c, p, Echo(m)) && ToAll(c, p, Echo(m)) <= s.sent
    requires p in s.nodes && p in c.procs && s.nodes[p].sentEcho && (c.sender in Correct(c) ==> m in s.bcast)
    ensures PacketOk(c, s, k)
  {
    assert Packet(p, p, Echo(m)) in ToAll(c, p, Echo(m));
  }

  lemma NewReady(c: Config, s: Sys, p: PID, m: Payload, k: Packet)
    requires k in ToAll(c, p, Ready(m)) && ToAll(c, p, Ready(m)) <= s.sent
    requires p in s.nodes && p in c.procs && s.nodes[p].sentReady && |Echoers(c, s, m)| >= Quorum(|c.procs|, c.f) + 2
    ensures PacketOk(c, s, k)
  {
    assert Packet(p, p, Ready(m)) in ToAll(c, p, Ready(m));
  }

  /** A READY passed on under its author's name is one the author has sent itself, or the author is Byzantine. */
  lemma PassedOn(c: Config, s: Sys, s': Sys, t: Step, k: Packet)
    requires Inv(c, s) && Enabled(c, s, t) && t.Receive? && t.k.msg.Ready? && t.enhance.Some?
    requires k in ToAll(c, t.author, Ready(t.enhance.value)) && s.sent <= s'.sent
    requires s'.nodes.Keys == s.nodes.Keys && forall q | q in s.nodes :: s.nodes[q].sentReady ==> s'.nodes[q].sentReady
    ensures PacketOk(c, s', k)
  {
    var p, v := t.k.to, t.enhance.value;
    NodeAt(c, s, p) by { KeysAre(c, s); }
    var x := Packet(t.author, p, Ready(v));
    assert x in s.sent;
    PacketAt(c, s, x);
    EchoersGrow(c, s, s', v);
  }

  /** The entries after a new echo are still supported by echoers. */
  lemma MoreEchoes(c: Config, s: Sys, k: Packet, v: Payload)
    requires Inv(c, s) && k in s.sent && k.msg.Echo? && k.to in s.nodes && k.from !in s.nodes[k.to].echos
    ensures |Support(s.nodes[k.to].echos[k.from := k.msg.m], v)| <= |Echoers(c, s, v)|
  {
    EchoSupport(c, s, k.to, v);
    PacketAt(c, s, k);
    SupportInsert(s.nodes[k.to].echos, k.from, k.msg.m, v);
    SubsetCard(Support(s.nodes[k.to].echos[k.from := k.msg.m], v), Echoers(c, s, v));
  }

  lemma MoreReadys(c: Config, s: Sys, k: Packet, v: Payload)
    requires Inv(c, s) && k in s.sent && k.msg.Ready? && k.to in s.nodes && k.from !in s.nodes[k.to].readys
    ensures |Support(s.nodes[k.to].readys[k.from := k.msg.m], v)| <= |Readiers(c, s, v)|
  {
    ReadySupport(c, s, k.to, v);
    PacketAt(c, s, k);
    SupportInsert(s.nodes[k.to].readys, k.from, k.msg.m, v);
    SubsetCard(Support(s.nodes[k.to].readys[k.from := k.msg.m], v), Readiers(c, s, v));
  }

  lemma EchoNode(c: Config, s: Sys, s': Sys, k: Packet)
    requires Inv(c, s) && k in s.sent && k.msg.Echo? && k.to in s.nodes && k.to in s'.nodes && s.sent <= s'.sent
    requires var nd := s.nodes[k.to];
             s'.nodes[k.to] == nd.(echos := nd.echos[k.from := k.msg.m], sentReady := s'.nodes[k.to].sentReady)
    ensures NodeOk(c, s', k.to)
  {
    NodeAt(c, s, k.to);
    forall m | m in s.nodes[k.to].output ensures |Readiers(c, s', m)| >= 2 * c.f + 2 {
      EchoersGrow(c, s, s', m);
    }
  }

  lemma ReadyEchoes(c: Config, s: Sys, s': Sys, p: PID, m: Payload)
    requires Inv(c, s) && s'.sent == s.sent + ToAll(c, p, Ready(m))
    ensures OneEcho(c, s')
  {
    EchoesOnce(c, s);
  }

  lemma EchoKeeps(c: Config, s: Sys, t: Step)
    requires Inv(c, s) && Enabled(c, s, t) && t.Receive? && t.k.msg.Echo? && ValidConfig(c)
    ensures Inv(c, Do(c, s, t))
  {
    var s' := Do(c, s, t);
    var p := t.k.to;
    hide Inv, NodeOk, PacketOk, OneEcho, Echoers, Readiers, Support;
    KeysAre(c, s);
    SenderIs(c, s, p);
    if t.k.from in s.nodes[p].echos {
      assert s'.nodes == s.nodes;
      Quiet(c, s, s');
    } else {
      EchoNode(c, s, s', t.k);
      if s.nodes[p].sentReady || t.pick.None? {
        assert OneEcho(c, s') by { EchoesOnce(c, s); SameSent(c, s, s'); }
      } else {
        var m := t.pick.value;
        MoreEchoes(c, s, t.k, m);
        EchoersGrow(c, s, s', m);
        ReadyEchoes(c, s, s', p, m);
        forall k | k in s'.sent - s.sent ensures PacketOk(c, s', k) { NewReady(c, s', p, m, k); }
      }
      Keep(c, s, s', p);
    }
  }

  lemma SameSent(c: Config, s: Sys, s': Sys)
    requires OneEcho(c, s) && s'.sent == s.sent
    ensures OneEcho(c, s')
  {
  }

  lemma ReadyNode(c: Config, s: Sys, s': Sys, k: Packet, d: Option<Payload>)
    requires Inv(c, s) && k in s.sent && k.msg.Ready? && k.to in s.nodes && k.to in s'.nodes && s.sent <= s'.sent
    requires var nd, nd' := s.nodes[k.to], s'.nodes[k.to];
             && nd' == nd.(readys := nd.readys[k.from := k.msg.m], sentReady := nd'.sentReady,
                           delivered := nd'.delivered, output := nd'.output)
             && (d.None? ==> nd'.delivered == nd.delivered && nd'.output == nd.output)
             && (d.Some? ==> !nd.delivered && nd'.delivered && nd'.output == if c.decodes(d.value)
                 then nd.output + [d.value] else nd.output)
    requires d.Some? ==> |Readiers(c, s, d.value)| >= 2 * c.f + 2
    ensures NodeOk(c, s', k.to)
  {
    NodeAt(c, s, k.to);
    forall m | m in s'.nodes[k.to].output ensures |Readiers(c, s', m)| >= 2 * c.f + 2 {
      EchoersGrow(c, s, s', m);
    }
  }

  lemma ReadyKeeps(c: Config, s: Sys, t: Step)
    requires Inv(c, s) && Enabled(c, s, t) && t.Receive? && t.k.msg.Ready? && ValidConfig(c)
    ensures Inv(c, Do(c, s, t))
  {
    var s' := Do(c, s, t);
    var p, nd := t.k.to, s.nodes[t.k.to];
    hide Inv, NodeOk, PacketOk, OneEcho, Echoers, Readiers, Support;
    KeysAre(c, s);
    SenderIs(c, s, p);
    if t.k.from in nd.readys {
      assert s'.nodes == s.nodes;
      Quiet(c, s, s');
    } else {
      if !nd.delivered && t.deliver.Some? { MoreReadys(c, s, t.k, t.deliver.value); }
      ReadyNode(c, s, s', t.k, if nd.delivered then None else t.deliver);
      if nd.sentReady || t.enhance.None? {
        assert OneEcho(c, s') by { EchoesOnce(c, s); SameSent(c, s, s'); }
      } else {
        var m := t.enhance.value;
        MoreReadys(c, s, t.k, m);
        var _ := ReadyHasQuorum(c, s, m);
        EchoersGrow(c, s, s', m);
        ReadyEchoes(c, s, s', Origin(c, t), m);
        forall k | k in s'.sent - s.sent ensures PacketOk(c, s', k) {
          if c.stamped { NewReady(c, s', p, m, k); } else { PassedOn(c, s, s', t, k); }
        }
      }
      Keep(c, s, s', p);
    }
  }

  lemma StepInv(c: Config, s: Sys, t: Step)
    requires ValidConfig(c) && Inv(c, s) && Enabled(c, s, t)
    ensures Inv(c, Do(c, s, t))
  {
    hide Inv, Do, Enabled;
    match t
    case Broadcast(m) => BroadcastKeeps(c, s, m);
    case Forge(k) => ForgeKeeps(c, s, k);
    case Receive(k, _, _, _, _) =>
      match k.msg
      case Send(_) => SendKeeps(c, s, t);
      case Echo(_) => EchoKeeps(c, s, t);
      case Ready(_) => ReadyKeeps(c, s, t);
  }

  lemma {:induction false} RunInv(c: Config, run: seq<Sys>, i: nat)
    requires ValidConfig(c) && IsRun(c, run) && i < |run|
    ensures Inv(c, run[i])
  {
    hide Inv, Do, Enabled;
    if i == 0 {
      InitInv(c);
    } else {
      RunInv(c, run, i - 1);
      assert Next(c, run[i - 1], run[i - 1 + 1]);
      var t :| Enabled(c, run[i - 1], t) && run[i] == Do(c, run[i - 1], t);
      StepInv(c, run[i - 1], t);
    }
  }

  lemma InitInv(c: Config)
    ensures Inv(c, Init(c))
  {
  }

  // ---- The theorems ----

  /** What a correct member delivered has more than f readiers. */
  lemma DeliveredReady(c: Config, s: Sys, p: PID)
    requires Inv(c, s) && p in s.nodes && s.nodes[p].output != []
    ensures |s.nodes[p].output| == 1 && |Readiers(c, s, s.nodes[p].output[0])| >= 2 * c.f + 2
  {
    NodeAt(c, s, p);
  }

  /** Deliveries are never taken back. */
  lemma {:induction false} OutputStays(c: Config, run: seq<Sys>, i: nat, j: nat, p: PID)
    requires ValidConfig(c) && IsRun(c, run) && i <= j < |run| && p in Correct(c)
    ensures p in run[i].nodes && p in run[j].nodes && run[i].nodes[p].output <= run[j].nodes[p].output
  {
    hide Inv;
    RunInv(c, run, i);
    KeysAre(c, run[i]);
    if i < j {
      OutputStays(c, run, i, j - 1, p);
      assert Next(c, run[j - 1], run[j - 1 + 1]);
    }
  }

  lemma Consistent(c: Config, s: Sys, p: PID, q: PID)
    requires ValidConfig(c) && Inv(c, s) && p in Correct(c) && q in Correct(c)
    ensures p in s.nodes && q in s.nodes && |s.nodes[p].output| <= 1
    ensures s.nodes[p].output != [] && s.nodes[q].output != [] ==> s.nodes[p].output == s.nodes[q].output
    ensures c.sender in Correct(c) ==> forall m | m in s.nodes[p].output :: m in s.bcast && c.decodes(m)
  {
    hide Inv, Readiers, Echoers;
    NodeAt(c, s, p);
    NodeAt(c, s, q);
    if s.nodes[p].output != [] {
      DeliveredReady(c, s, p);
      var m := s.nodes[p].output[0];
      var _ := ReadyHasQuorum(c, s, m);
      if s.nodes[q].output != [] {
        DeliveredReady(c, s, q);
        var _ := ReadyHasQuorum(c, s, s.nodes[q].output[0]);
        OneReadyValue(c, s, m, s.nodes[q].output[0]);
      }
      if c.sender in Correct(c) { QuorumBroadcast(c, s, m); }
    }
  }

  /** Consistency, no duplication and integrity in every run: a correct member delivers at most once, no two correct
      members ever deliver differently, and with a correct sender they deliver only what it has broadcast. */
  lemma Consistency(c: Config, run: seq<Sys>, i: nat, j: nat, p: PID, q: PID)
    requires ValidConfig(c) && IsRun(c, run) && i <= j < |run| && p in Correct(c) && q in Correct(c)
    ensures p in run[i].nodes && q in run[j].nodes && |run[i].nodes[p].output| <= 1 && |run[j].nodes[q].output| <= 1
    ensures run[i].nodes[p].output != [] && run[j].nodes[q].output != [] ==>
              run[i].nodes[p].output == run[j].nodes[q].output
    ensures c.sender in Correct(c) ==> forall m | m in run[i].nodes[p].output :: m in run[i].bcast && c.decodes(m)
  {
    hide Inv, IsRun;
    RunInv(c, run, i);
    RunInv(c, run, j);
    OutputStays(c, run, i, j, p);
    Consistent(c, run[i], p, p);
    Consistent(c, run[j], p, q);
    Consistent(c, run[j], q, q);
  }

  lemma QuorumBroadcast(c: Config, s: Sys, m: Payload)
    requires ValidConfig(c) && Inv(c, s) && c.sender in Correct(c) && |Echoers(c, s, m)| >= Quorum(|c.procs|, c.f) + 2
    ensures m in s.bcast
  {
    hide Inv;
    SubsetCard(c.byz, c.procs);
    var r := OneOutside(Echoers(c, s, m), c.byz);
    PacketAt(c, s, Packet(r, r, Echo(m)));
  }

  /** All READYs that correct members ever send in a run carry one value. */
  lemma ReadysAgree(c: Config, run: seq<Sys>, i: nat, j: Packet, k: Packet)
    requires ValidConfig(c) && IsRun(c, run) && i < |run| && j in run[i].sent && k in run[i].sent
    requires j.msg.Ready? && k.msg.Ready? && j.from in Correct(c) && k.from in Correct(c)
    ensures j.msg == k.msg
  {
    hide Inv, IsRun;
    RunInv(c, run, i);
    PacketAt(c, run[i], j);
    PacketAt(c, run[i], k);
    OneReadyValue(c, run[i], j.msg.m, k.msg.m);
  }
}

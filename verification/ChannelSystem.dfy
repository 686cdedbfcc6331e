/** Byzantine channels of a group, composed from echo-broadcast instances: what a run does to instance number k of
    originator q is itself a run of echo broadcast, and from its consistency the channel's order follows. */
module ChannelSystem {
  import opened Common
  import opened Tally
  import opened EchoBroadcast
  import opened ByzantineChannel
  import E = EchoSystem

  /** matched: the link drops a message whose inner message names another process than its transmitter. The code's link
      does not look. */
  datatype Config = Config(procs: set<PID>, byz: set<PID>, f: nat, decodes: Payload -> bool, matched: bool)

  ghost predicate ValidConfig(c: Config) {
    c.byz <= c.procs && |c.byz| <= c.f
  }

  function Correct(c: Config): set<PID> { c.procs - c.byz }

  /** Inner messages name their transmitter, since links see to it or since nobody misbehaves. */
  predicate Guarded(c: Config) { c.matched || c.byz == {} }

  /** The configuration of the instances of originator q. */
  function Instance(c: Config, q: PID): E.Config { E.Config(c.procs, c.byz, c.f, q, c.decodes) }

  /** ByzChannelMessage: an instance's message tagged with the instance; from is the transmitter, inner the process that
      the instance's message names as its own. */
  datatype Wrapped = Wrapped(from: PID, inner: PID, to: PID, sender: PID, number: nat, msg: Msg)

  /** given is history: what the layer above has asked each correct member to broadcast, in order. */
  datatype Sys = Sys(chans: map<PID, Chan>, sent: set<Wrapped>, given: map<PID, seq<Payload>>)

  function Given(s: Sys, p: PID): seq<Payload> {
    if p in s.given then s.given[p] else []
  }

  datatype Step =
    | Ask(p: PID, m: Payload)
    | Forge(w: Wrapped)
    | Receive(w: Wrapped, pick: Option<Payload>)
    | Upcall(p: PID, u: Domain)

  ghost function Start(c: Config): Sys {
    Sys(map p | p in Correct(c) :: NewChan(p, c.procs, c.f), {}, map[])
  }

  function ToAll(c: Config, from: PID, sender: PID, number: nat, msg: Msg): set<Wrapped> {
    set p | p in c.procs :: Wrapped(from, from, p, sender, number, msg)
  }

  ghost predicate Enabled(c: Config, s: Sys, t: Step) {
    match t
    case Ask(p, _) => p in s.chans
    case Forge(w) => w.from in c.byz && w.to in c.procs && (c.matched ==> w.inner == w.from)
    case Receive(w, pick) =>
      && w in s.sent && w.to in s.chans
      && (Routes(s.chans[w.to], w.sender, w.number) && w.msg.Echo? ==>
            EchoPick(s.chans[w.to].bcasters[w.sender], w.inner, w.msg.m, pick))
    case Upcall(p, u) => p in s.chans && u in s.chans[p].upcalls
  }

  /** The instance p.n[p] broadcasts the message dequeued for it. */
  function Hand(c: Config, s: Sys, p: PID, ch: Chan, m: Option<Payload>): Sys {
    s.(chans := s.chans[p := ch],
       sent := if m.None? || p !in ch.n then s.sent else s.sent + ToAll(c, p, p, ch.n[p], Init(m.value)))
  }

  ghost function Do(c: Config, s: Sys, t: Step): Sys
    requires Enabled(c, s, t)
  {
    match t
    case Ask(p, m) =>
      var (ch, out) := OnBroadcast(s.chans[p], m);
      Hand(c, s, p, ch, out).(given := s.given[p := Given(s, p) + [m]])
    case Forge(w) => s.(sent := s.sent + {w})
    case Receive(w, pick) =>
      var (ch, out) := OnMessage(s.chans[w.to], w.sender, w.number, w.inner, w.msg, pick, c.decodes);
      s.(chans := s.chans[w.to := ch],
         sent := if out.None? then s.sent else s.sent + ToAll(c, w.to, w.sender, w.number, out.value))
    case Upcall(p, u) =>
      var (ch, out) := OnDelivered(s.chans[p], u);
      Hand(c, s, p, ch, out)
  }

  ghost predicate Next(c: Config, s: Sys, s': Sys) {
    exists t :: Enabled(c, s, t) && s' == Do(c, s, t)
  }

  ghost predicate IsRun(c: Config, run: seq<Sys>) {
    && run != [] && run[0] == Start(c)
    && forall i | 0 <= i < |run| - 1 :: Next(c, run[i], run[i + 1])
  }

  // ---- One instance of a channel state ----

  function NodeOf(ch: Chan, q: PID, k: nat): Node {
    if q in ch.n && q in ch.bcasters && ch.n[q] == k then ch.bcasters[q]
    else if (q, k) in ch.retired then ch.retired[(q, k)]
    else NewNode(ch.self, q, ch.size, ch.faults)
  }

  function Packets(s: Sys, q: PID, k: nat): set<E.Packet> {
    set w | w in s.sent && w.sender == q && w.number == k :: E.Packet(w.inner, w.to, w.msg)
  }

  /** What a correct originator has handed to its instance k. */
  function Handed(c: Config, s: Sys, q: PID, k: nat): set<Payload> {
    if q in Correct(c) && q in s.chans && k < |s.chans[q].handed| then {s.chans[q].handed[k]} else {}
  }

  function Projection(c: Config, s: Sys, q: PID, k: nat): E.Sys {
    E.Sys(map p | p in s.chans :: NodeOf(s.chans[p], q, k), Packets(s, q, k), Handed(c, s, q, k))
  }

  // ---- Invariant ----

  /** The layer above has received from q exactly the messages 0 .. n[q] - 1, each from its own instance. */
  predicate InOrder(ch: Chan, q: PID)
    requires q in ch.n
  {
    var ds := From(ch.output, q);
    && |ds| == ch.n[q]
    && forall k | 0 <= k < |ds| :: ds[k].sender == q && ds[k].number == k && NodeOf(ch, q, k).output == [ds[k].m]
  }

  predicate ChanOk(c: Config, p: PID, ch: Chan) {
    && ch.self == p && ch.size == |c.procs| && ch.faults == c.f
    && ch.n.Keys == c.procs && ch.bcasters.Keys == c.procs
    && (forall j | j in ch.retired :: j.0 in c.procs && j.1 < ch.n[j.0])
    && (forall q | q in c.procs :: InOrder(ch, q))
    && (forall u | u in ch.upcalls :: u.sender in c.procs && NodeOf(ch, u.sender, u.number).output == [u.m])
  }

  /** The send queue: all messages are handed over or queued, and ready says whether the last one is still under way. */
  predicate QueueOk(p: PID, ch: Chan) {
    && p in ch.n && |ch.handed| == ch.n[p] + (if ch.ready then 0 else 1)
    && (ch.ready ==> ch.queue == [])
  }

  /** A correct member starts a broadcast only in its own instances, with the message handed to that instance. */
  ghost predicate InitOk(c: Config, s: Sys, w: Wrapped) {
    && w.from in c.procs && w.to in c.procs
    && (w.from in Correct(c) && w.msg.Init? ==>
          && w.from in s.chans && w.sender == w.from
          && w.number < |s.chans[w.from].handed| && s.chans[w.from].handed[w.number] == w.msg.m)
  }

  ghost predicate LocalInv(c: Config, s: Sys) {
    && s.chans.Keys == Correct(c)
    && (forall p | p in s.chans :: ChanOk(c, p, s.chans[p]))
    && (forall p | p in s.chans :: QueueOk(p, s.chans[p]))
    && (forall w | w in s.sent :: InitOk(c, s, w))
  }

  ghost predicate Projects(c: Config, s: Sys, q: PID, k: nat) {
    E.Reach(Instance(c, q), Projection(c, s, q, k))
  }

  ghost predicate Inv(c: Config, s: Sys) {
    LocalInv(c, s) && forall q, k: nat | q in c.procs :: Projects(c, s, q, k)
  }

  // ---- Every step of the channels is a step of at most one instance ----

  lemma PacketsOf(c: Config, s: Sys, s': Sys, from: PID, sender: PID, number: nat, msg: Msg, q: PID, k: nat)
    requires s'.sent == s.sent + ToAll(c, from, sender, number, msg)
    ensures Packets(s', q, k) == if (q, k) == (sender, number) then Packets(s, q, k) + E.ToAll(c.procs, from, msg)
              else Packets(s, q, k)
  {
    if (q, k) == (sender, number) {
      forall x | x in E.ToAll(c.procs, from, msg) ensures x in Packets(s', q, k) {
        assert Wrapped(from, from, x.to, sender, number, msg) in s'.sent;
      }
      forall w | w in s'.sent && w.sender == q && w.number == k
        ensures E.Packet(w.inner, w.to, w.msg) in Packets(s, q, k) + E.ToAll(c.procs, from, msg)
      {
        assert w !in s.sent ==> E.Packet(w.inner, w.to, w.msg) in E.ToAll(c.procs, from, msg);
      }
    }
  }

  lemma ForgeProjects(c: Config, s: Sys, w: Wrapped, q: PID, k: nat)
    requires Guarded(c) && Projects(c, s, q, k) && Enabled(c, s, Forge(w))
    ensures Projects(c, Do(c, s, Forge(w)), q, k)
  {
    hide E.Reach;
    var s' := Do(c, s, Forge(w));
    var x := E.Packet(w.inner, w.to, w.msg);
    if (q, k) == (w.sender, w.number) {
      E.Go(Instance(c, q), Projection(c, s, q, k), E.Forge(x));
      assert Packets(s', q, k) == Packets(s, q, k) + {x} by {
        assert w in s'.sent;
      }
    } else {
      assert Packets(s', q, k) == Packets(s, q, k);
    }
  }

  lemma RoutedNodes(ch: Chan, ch': Chan, q: PID, k: nat, nd: Node)
    requires Routes(ch, q, k) && ch'.n == ch.n && ch'.retired == ch.retired && ch'.bcasters == ch.bcasters[q := nd]
    requires ch'.self == ch.self && ch'.size == ch.size && ch'.faults == ch.faults
    ensures forall r, j: nat :: NodeOf(ch', r, j) == if (r, j) == (q, k) then nd else NodeOf(ch, r, j)
  {
  }

  lemma ReceiveProjects(c: Config, s: Sys, w: Wrapped, pick: Option<Payload>, q: PID, k: nat)
    requires Projects(c, s, q, k) && Enabled(c, s, Receive(w, pick))
    ensures Projects(c, Do(c, s, Receive(w, pick)), q, k)
  {
    hide E.Reach, NodeOf, EchoPick;
    var s', p, ch := Do(c, s, Receive(w, pick)), w.to, s.chans[w.to];
    if !Routes(ch, w.sender, w.number) {
      assert s'.chans == s.chans;
      assert s' == s;
    } else {
      var (ch', out) := OnMessage(ch, w.sender, w.number, w.inner, w.msg, pick, c.decodes);
      RoutedNodes(ch, ch', w.sender, w.number, ch'.bcasters[w.sender]);
      if out.Some? { PacketsOf(c, s, s', p, w.sender, w.number, out.value, q, k); }
      assert out.None? ==> Packets(s', q, k) == Packets(s, q, k);
      assert Handed(c, s', q, k) == Handed(c, s, q, k);
      var before, after := Projection(c, s, q, k), Projection(c, s', q, k);
      if (q, k) == (w.sender, w.number) {
        var t := E.Receive(E.Packet(w.inner, p, w.msg), pick);
        assert before.nodes[p] == ch.bcasters[q] by { CurrentNode(ch, q, k); }
        assert t.k in before.sent;
        E.Go(Instance(c, q), before, t);
        assert after.nodes == before.nodes[p := ch'.bcasters[q]];
        assert after == E.Do(Instance(c, q), before, t);
      } else {
        assert after.nodes == before.nodes;
      }
    }
  }

  lemma CurrentNode(ch: Chan, q: PID, k: nat)
    requires Routes(ch, q, k)
    ensures NodeOf(ch, q, k) == ch.bcasters[q]
  {
  }

  /** Between ch and ch' no instance moved; if a message is handed over it is the next one of instance n[p]. */
  ghost predicate HandsNext(p: PID, ch: Chan, ch': Chan, m: Option<Payload>) {
    && (forall q, k: nat :: NodeOf(ch', q, k) == NodeOf(ch, q, k))
    && (if m.None? then ch'.handed == ch.handed
        else ch'.handed == ch.handed + [m.value] && p in ch'.n && ch'.n[p] == |ch.handed|)
  }

  lemma HandProjects(c: Config, s: Sys, p: PID, ch: Chan, m: Option<Payload>, q: PID, k: nat)
    requires Projects(c, s, q, k) && p in s.chans && p in Correct(c) && HandsNext(p, s.chans[p], ch, m)
    ensures Projects(c, Hand(c, s, p, ch, m), q, k)
  {
    hide E.Reach, NodeOf;
    var s' := Hand(c, s, p, ch, m);
    var before, after := Projection(c, s, q, k), Projection(c, s', q, k);
    assert after.nodes == before.nodes;
    if m.Some? {
      PacketsOf(c, s, s', p, p, ch.n[p], Init(m.value), q, k);
      if (q, k) == (p, ch.n[p]) {
        E.Go(Instance(c, q), before, E.Broadcast(p, m.value));
        assert after == E.Do(Instance(c, q), before, E.Broadcast(p, m.value));
      } else {
        assert Handed(c, s', q, k) == Handed(c, s, q, k);
      }
    } else {
      assert Packets(s', q, k) == Packets(s, q, k);
      assert Handed(c, s', q, k) == Handed(c, s, q, k);
    }
  }

  lemma AskHands(c: Config, p: PID, ch: Chan, m: Payload)
    requires ChanOk(c, p, ch) && QueueOk(p, ch)
    ensures HandsNext(p, ch, OnBroadcast(ch, m).0, OnBroadcast(ch, m).1)
    ensures QueueOk(p, OnBroadcast(ch, m).0)
  {
  }

  /** An originator's own instance delivers only what was handed to it, so its message was under way. */
  lemma OwnDelivery(c: Config, s: Sys, p: PID, u: Domain)
    requires ValidConfig(c) && Inv(c, s) && p in s.chans && u in s.chans[p].upcalls && u.sender == p
    ensures u.number < |s.chans[p].handed| && s.chans[p].handed[u.number] == u.m
  {
    hide E.Reach;
    assert ChanOk(c, p, s.chans[p]) && Projects(c, s, p, u.number);
    E.ConsistentAt(Instance(c, p), Projection(c, s, p, u.number), p, p);
    assert u.m in Projection(c, s, p, u.number).nodes[p].output;
  }

  lemma InstallMovesNothing(c: Config, p: PID, ch: Chan, q: PID)
    requires ChanOk(c, p, ch) && q in c.procs
    ensures forall r, k: nat :: NodeOf(Install(ch, q), r, k) == NodeOf(ch, r, k)
  {
  }

  lemma UpcallHands(c: Config, s: Sys, p: PID, u: Domain)
    requires ValidConfig(c) && Inv(c, s) && p in s.chans && u in s.chans[p].upcalls
    ensures var (ch', out) := OnDelivered(s.chans[p], u);
            HandsNext(p, s.chans[p], ch', out) && QueueOk(p, ch')
  {
    var ch := s.chans[p];
    assert ChanOk(c, p, ch) && QueueOk(p, ch);
    if u.sender == p { OwnDelivery(c, s, p, u); }
    hide Inv;
    DeliveredHands(c, p, ch, u);
  }

  lemma DeliveredHands(c: Config, p: PID, ch: Chan, u: Domain)
    requires ChanOk(c, p, ch) && QueueOk(p, ch) && (u.sender == p ==> u.number < |ch.handed|)
    ensures HandsNext(p, ch, OnDelivered(ch, u).0, OnDelivered(ch, u).1) && QueueOk(p, OnDelivered(ch, u).0)
  {
    KeysOk(c, p, ch);
    if u.sender in c.procs && ch.n[u.sender] == u.number {
      InstallMovesNothing(c, p, ch, u.sender);
      hide ChanOk, NodeOf;
      var ch2 := Install(ch.(upcalls := ch.upcalls - {u}), u.sender).(output := ch.output + [u]);
      SameInstances(ch2, Install(ch, u.sender));
      var ch3 := ch2.(ready := true);
      SameInstances(ch3, ch2);
      SameInstances(Dequeue(ch3).0, ch3);
    } else {
      hide ChanOk, NodeOf;
      SameInstances(ch.(upcalls := ch.upcalls - {u}), ch);
    }
  }

  lemma KeysOk(c: Config, p: PID, ch: Chan)
    requires ChanOk(c, p, ch)
    ensures ch.n.Keys == c.procs && ch.bcasters.Keys == c.procs
  {
  }

  lemma SameInstances(ch': Chan, ch: Chan)
    requires ch'.n == ch.n && ch'.bcasters == ch.bcasters && ch'.retired == ch.retired
    requires ch'.self == ch.self && ch'.size == ch.size && ch'.faults == ch.faults
    ensures forall q, k: nat :: NodeOf(ch', q, k) == NodeOf(ch, q, k)
  {
  }

  // ---- Each channel stays in order ----

  lemma FromAppend(output: seq<Domain>, u: Domain, q: PID)
    ensures From(output + [u], q) == if u.sender == q then From(output, q) + [u] else From(output, q)
  {
    assert (output + [u])[..|output|] == output;
  }

  /** Instances moved forward at most: what had been delivered still is, so the order is kept. */
  lemma OrderKept(ch: Chan, ch': Chan, q: PID)
    requires q in ch.n && q in ch'.n && ch'.n[q] == ch.n[q] && ch'.output == ch.output && InOrder(ch, q)
    requires forall k: nat | k < ch.n[q] :: NodeOf(ch', q, k) == NodeOf(ch, q, k)
    ensures InOrder(ch', q)
  {
  }

  lemma AskOk(c: Config, p: PID, ch: Chan, m: Payload)
    requires ChanOk(c, p, ch)
    ensures ChanOk(c, p, OnBroadcast(ch, m).0)
  {
    var ch' := OnBroadcast(ch, m).0;
    SameInstances(ch', ch);
    hide NodeOf;
    forall q | q in c.procs ensures InOrder(ch', q) { OrderKept(ch, ch', q); }
  }

  /** A delivery is taken: the messages from its originator grow by the next number. */
  lemma Advanced(c: Config, p: PID, ch: Chan, u: Domain)
    requires ChanOk(c, p, ch) && u in ch.upcalls && u.sender in c.procs && ch.n[u.sender] == u.number
    ensures ChanOk(c, p, Install(ch.(upcalls := ch.upcalls - {u}), u.sender).(output := ch.output + [u]))
  {
    var ch' := Install(ch.(upcalls := ch.upcalls - {u}), u.sender).(output := ch.output + [u]);
    InstallMovesNothing(c, p, ch, u.sender);
    SameInstances(ch', Install(ch, u.sender));
    assert forall w | w in ch.upcalls :: w.sender in c.procs && NodeOf(ch, w.sender, w.number).output == [w.m];
    assert forall q | q in c.procs :: InOrder(ch, q);
    hide NodeOf;
    forall q | q in c.procs ensures InOrder(ch', q) { AdvancedOrder(c, ch, ch', u, q); }
    hide InOrder;
  }

  /** The messages of the originator grow by one, those of others stay. */
  lemma AdvancedOrder(c: Config, ch: Chan, ch': Chan, u: Domain, q: PID)
    requires q in ch.n && q in ch'.n && InOrder(ch, q) && ch'.output == ch.output + [u]
    requires ch'.n[q] == if q == u.sender then ch.n[q] + 1 else ch.n[q]
    requires forall r, k: nat :: NodeOf(ch', r, k) == NodeOf(ch, r, k)
    requires q == u.sender ==> ch.n[q] == u.number && NodeOf(ch, q, u.number).output == [u.m]
    ensures InOrder(ch', q)
  {
    hide NodeOf, From;
    FromAppend(ch.output, u, q);
  }

  lemma UpcallOk(c: Config, p: PID, ch: Chan, u: Domain)
    requires ChanOk(c, p, ch) && u in ch.upcalls
    ensures ChanOk(c, p, OnDelivered(ch, u).0)
  {
    var ch' := OnDelivered(ch, u).0;
    if u.sender in c.procs && ch.n[u.sender] == u.number {
      Advanced(c, p, ch, u);
      OnlyQueue(c, p, Install(ch.(upcalls := ch.upcalls - {u}), u.sender).(output := ch.output + [u]), ch');
    } else {
      OnlyQueue(c, p, ch, ch');
    }
  }

  lemma OnlyQueue(c: Config, p: PID, ch: Chan, ch': Chan)
    requires ChanOk(c, p, ch) && ch'.upcalls <= ch.upcalls
    requires ch' == ch.(queue := ch'.queue, ready := ch'.ready, handed := ch'.handed, upcalls := ch'.upcalls)
    ensures ChanOk(c, p, ch')
  {
    SameInstances(ch', ch);
    hide NodeOf;
    forall q | q in c.procs ensures InOrder(ch', q) { OrderKept(ch, ch', q); }
  }

  lemma ReceiveOk(c: Config, s: Sys, w: Wrapped, pick: Option<Payload>)
    requires ValidConfig(c) && Inv(c, s) && Enabled(c, s, Receive(w, pick))
    ensures ChanOk(c, w.to, Do(c, s, Receive(w, pick)).chans[w.to])
  {
    hide EchoPick, E.Reach;
    var s', p, ch := Do(c, s, Receive(w, pick)), w.to, s.chans[w.to];
    var ch' := s'.chans[p];
    assert ChanOk(c, p, ch);
    if Routes(ch, w.sender, w.number) {
      CurrentNode(ch', w.sender, w.number);
      assert |ch'.bcasters[w.sender].output| <= 1 by {
        assert Projects(c, s, w.sender, w.number);
        ReceiveProjects(c, s, w, pick, w.sender, w.number);
        OneOutput(c, s', w.sender, w.number, p);
      }
      hide Inv;
      MessageOk(c, p, ch, w, pick);
    }
  }

  /** An instance that has delivered at most once keeps the order. */
  lemma MessageOk(c: Config, p: PID, ch: Chan, w: Wrapped, pick: Option<Payload>)
    requires ChanOk(c, p, ch) && Routes(ch, w.sender, w.number)
    requires var ch' := OnMessage(ch, w.sender, w.number, w.inner, w.msg, pick, c.decodes).0;
             w.sender in ch'.bcasters && |ch'.bcasters[w.sender].output| <= 1
    ensures ChanOk(c, p, OnMessage(ch, w.sender, w.number, w.inner, w.msg, pick, c.decodes).0)
  {
    var ch' := OnMessage(ch, w.sender, w.number, w.inner, w.msg, pick, c.decodes).0;
    var q, k := w.sender, w.number;
    RoutedNodes(ch, ch', q, k, ch'.bcasters[q]);
    CurrentNode(ch, q, k);
    assert ch.bcasters[q].output <= ch'.bcasters[q].output;
    hide NodeOf, OnEcho, OnInit;
    forall r | r in c.procs ensures InOrder(ch', r) { OrderKept(ch, ch', r); }
    forall u | u in ch'.upcalls ensures u.sender in c.procs && NodeOf(ch', u.sender, u.number).output == [u.m] {
      if u in ch.upcalls { assert NodeOf(ch, u.sender, u.number).output == [u.m]; }
    }
  }

  lemma OneOutput(c: Config, s: Sys, q: PID, k: nat, p: PID)
    requires ValidConfig(c) && Projects(c, s, q, k) && q in c.procs && p in s.chans && p in Correct(c)
    ensures |NodeOf(s.chans[p], q, k).output| <= 1
  {
    E.ConsistentAt(Instance(c, q), Projection(c, s, q, k), p, p);
  }

  // ---- Preservation ----

  /** The parts of the invariant that one channel's step concerns. */
  lemma LocalKeep(c: Config, s: Sys, s': Sys, p: PID)
    requires LocalInv(c, s) && s'.chans.Keys == s.chans.Keys
    requires forall q | q in s.chans && q != p :: s'.chans[q] == s.chans[q]
    requires p in s.chans ==>
               ChanOk(c, p, s'.chans[p]) && QueueOk(p, s'.chans[p]) && s.chans[p].handed <= s'.chans[p].handed
    requires forall w | w in s'.sent - s.sent :: InitOk(c, s', w)
    ensures LocalInv(c, s')
  {
    hide ChanOk, QueueOk;
    forall w | w in s'.sent ensures InitOk(c, s', w) {
      if w in s.sent { assert InitOk(c, s, w); }
    }
  }

  lemma HandKeeps(c: Config, s: Sys, p: PID, ch: Chan, m: Option<Payload>)
    requires Inv(c, s) && p in s.chans && HandsNext(p, s.chans[p], ch, m) && ChanOk(c, p, ch) && QueueOk(p, ch)
    ensures Inv(c, Hand(c, s, p, ch, m))
  {
    hide ChanOk, QueueOk, NodeOf, E.Reach;
    var s' := Hand(c, s, p, ch, m);
    LocalKeep(c, s, s', p);
    forall q, k: nat | q in c.procs ensures Projects(c, s', q, k) {
      assert Projects(c, s, q, k);
      HandProjects(c, s, p, ch, m, q, k);
    }
  }

  lemma ReceiveKeeps(c: Config, s: Sys, w: Wrapped, pick: Option<Payload>)
    requires ValidConfig(c) && Inv(c, s) && Enabled(c, s, Receive(w, pick))
    ensures Inv(c, Do(c, s, Receive(w, pick)))
  {
    hide EchoPick, E.Reach, ChanOk, NodeOf;
    var s' := Do(c, s, Receive(w, pick));
    ReceiveOk(c, s, w, pick);
    assert QueueOk(w.to, s.chans[w.to]) && InitOk(c, s, w);
    LocalKeep(c, s, s', w.to);
    forall q, k: nat | q in c.procs ensures Projects(c, s', q, k) {
      assert Projects(c, s, q, k);
      ReceiveProjects(c, s, w, pick, q, k);
    }
  }

  lemma ForgeKeeps(c: Config, s: Sys, w: Wrapped)
    requires ValidConfig(c) && Guarded(c) && Inv(c, s) && Enabled(c, s, Forge(w))
    ensures Inv(c, Do(c, s, Forge(w)))
  {
    hide E.Reach, ChanOk, QueueOk, NodeOf;
    var s' := Do(c, s, Forge(w));
    LocalKeep(c, s, s', w.from);
    forall q, k: nat | q in c.procs ensures Projects(c, s', q, k) {
      assert Projects(c, s, q, k);
      ForgeProjects(c, s, w, q, k);
    }
  }

  /** The history plays no part. */
  lemma GivenFree(c: Config, s: Sys, given: map<PID, seq<Payload>>)
    requires Inv(c, s)
    ensures Inv(c, s.(given := given))
  {
    hide ChanOk, QueueOk, NodeOf, E.Reach;
    var s' := s.(given := given);
    forall w | w in s'.sent ensures InitOk(c, s', w) { assert InitOk(c, s, w); }
    forall q, k: nat | q in c.procs ensures Projects(c, s', q, k) {
      assert Projects(c, s, q, k);
      assert Projection(c, s', q, k) == Projection(c, s, q, k);
    }
  }

  lemma StepInv(c: Config, s: Sys, t: Step)
    requires ValidConfig(c) && Guarded(c) && Inv(c, s) && Enabled(c, s, t)
    ensures Inv(c, Do(c, s, t))
  {
    hide Projects, ChanOk, QueueOk, InitOk;
    match t
    case Ask(p, m) =>
      assert ChanOk(c, p, s.chans[p]) && QueueOk(p, s.chans[p]);
      AskHands(c, p, s.chans[p], m);
      AskOk(c, p, s.chans[p], m);
      HandKeeps(c, s, p, OnBroadcast(s.chans[p], m).0, OnBroadcast(s.chans[p], m).1);
      GivenFree(c, Hand(c, s, p, OnBroadcast(s.chans[p], m).0, OnBroadcast(s.chans[p], m).1), Do(c, s, t).given);
    case Forge(w) => ForgeKeeps(c, s, w);
    case Receive(w, pick) => ReceiveKeeps(c, s, w, pick);
    case Upcall(p, u) =>
      assert ChanOk(c, p, s.chans[p]);
      UpcallHands(c, s, p, u);
      UpcallOk(c, p, s.chans[p], u);
      HandKeeps(c, s, p, OnDelivered(s.chans[p], u).0, OnDelivered(s.chans[p], u).1);
  }

  lemma StartLocal(c: Config, p: PID)
    requires p in c.procs
    ensures ChanOk(c, p, NewChan(p, c.procs, c.f)) && QueueOk(p, NewChan(p, c.procs, c.f))
  {
    var ch := NewChan(p, c.procs, c.f);
    assert ch.handed + ch.queue == [];
    forall q | q in c.procs ensures InOrder(ch, q) {
      assert From(ch.output, q) == [];
    }
  }

  lemma StartProjects(c: Config, q: PID, k: nat)
    requires q in c.procs
    ensures Projects(c, Start(c), q, k)
  {
    hide E.Reach;
    E.StartReached(Instance(c, q));
    var s := Projection(c, Start(c), q, k);
    assert s.nodes == E.Start(Instance(c, q)).nodes;
    assert s == E.Start(Instance(c, q));
  }

  lemma StartInv(c: Config)
    ensures Inv(c, Start(c))
  {
    hide Projects, ChanOk, QueueOk, NewChan;
    forall p | p in Correct(c) ensures ChanOk(c, p, Start(c).chans[p]) && QueueOk(p, Start(c).chans[p]) {
      StartLocal(c, p);
    }
    forall q, k: nat | q in c.procs ensures Projects(c, Start(c), q, k) { StartProjects(c, q, k); }
  }

  lemma {:induction false} RunInv(c: Config, run: seq<Sys>, i: nat)
    requires ValidConfig(c) && Guarded(c) && IsRun(c, run) && i < |run|
    ensures Inv(c, run[i])
  {
    hide Inv, Do, Enabled;
    if i == 0 {
      StartInv(c);
    } else {
      RunInv(c, run, i - 1);
      assert Next(c, run[i - 1], run[i - 1 + 1]);
      var t :| Enabled(c, run[i - 1], t) && run[i] == Do(c, run[i - 1], t);
      StepInv(c, run[i - 1], t);
    }
  }

  // ---- The theorems ----

  /** An instance delivers at most once, whoever speaks to it. */
  predicate DeliversOnce(nd: Node) {
    |nd.output| <= 1 && (nd.output != [] ==> nd.delivered)
  }

  predicate AllOnce(ch: Chan) {
    forall q | q in ch.bcasters :: DeliversOnce(ch.bcasters[q])
  }

  ghost predicate Numbered(c: Config, s: Sys) {
    s.chans.Keys == Correct(c) && forall p | p in s.chans :: ChanOk(c, p, s.chans[p]) && AllOnce(s.chans[p])
  }

  lemma MessageOnce(ch: Chan, w: Wrapped, pick: Option<Payload>, decodes: Payload -> bool)
    requires AllOnce(ch)
    ensures AllOnce(OnMessage(ch, w.sender, w.number, w.inner, w.msg, pick, decodes).0)
  {
    hide Record;
  }

  lemma DeliveredOnce(ch: Chan, u: Domain)
    requires AllOnce(ch)
    ensures AllOnce(OnDelivered(ch, u).0)
  {
  }

  lemma NumberedStep(c: Config, s: Sys, t: Step)
    requires Numbered(c, s) && Enabled(c, s, t)
    ensures Numbered(c, Do(c, s, t))
  {
    hide ChanOk, AllOnce, EchoPick, OnMessage, OnDelivered, OnBroadcast;
    match t
    case Ask(p, m) =>
      AskOk(c, p, s.chans[p], m);
      assert AllOnce(OnBroadcast(s.chans[p], m).0) by { AskOnce(s.chans[p], m); }
    case Forge(_) =>
    case Receive(w, pick) =>
      MessageOnce(s.chans[w.to], w, pick, c.decodes);
      assert ChanOk(c, w.to, OnMessage(s.chans[w.to], w.sender, w.number, w.inner, w.msg, pick, c.decodes).0) by {
        MessageNumbered(c, w.to, s.chans[w.to], w, pick);
      }
    case Upcall(p, u) =>
      UpcallOk(c, p, s.chans[p], u);
      DeliveredOnce(s.chans[p], u);
  }

  lemma AskOnce(ch: Chan, m: Payload)
    requires AllOnce(ch)
    ensures AllOnce(OnBroadcast(ch, m).0)
  {
  }

  lemma MessageNumbered(c: Config, p: PID, ch: Chan, w: Wrapped, pick: Option<Payload>)
    requires ChanOk(c, p, ch) && AllOnce(ch)
    ensures ChanOk(c, p, OnMessage(ch, w.sender, w.number, w.inner, w.msg, pick, c.decodes).0)
  {
    hide ChanOk;
    if Routes(ch, w.sender, w.number) {
      MessageOnce(ch, w, pick, c.decodes);
      MessageOk(c, p, ch, w, pick);
    }
  }

  lemma {:induction false} RunNumbered(c: Config, run: seq<Sys>, i: nat)
    requires IsRun(c, run) && i < |run|
    ensures Numbered(c, run[i])
  {
    hide Numbered, Do, Enabled;
    if i == 0 {
      StartNumbered(c);
    } else {
      RunNumbered(c, run, i - 1);
      assert Next(c, run[i - 1], run[i - 1 + 1]);
      var t :| Enabled(c, run[i - 1], t) && run[i] == Do(c, run[i - 1], t);
      NumberedStep(c, run[i - 1], t);
    }
  }

  lemma StartNumbered(c: Config)
    ensures Numbered(c, Start(c))
  {
    hide ChanOk, QueueOk;
    forall p | p in Correct(c) ensures ChanOk(c, p, Start(c).chans[p]) { StartLocal(c, p); }
  }

  /** Labels: what a correct member has received from q is numbered 0, 1, 2, ... without gaps, whatever ids inner
      messages name. */
  lemma Labels(c: Config, run: seq<Sys>, i: nat, p: PID, q: PID, k: nat)
    requires IsRun(c, run) && i < |run| && p in Correct(c) && q in c.procs
    requires p in run[i].chans && k < |From(run[i].chans[p].output, q)|
    ensures From(run[i].chans[p].output, q)[k].number == k && From(run[i].chans[p].output, q)[k].sender == q
  {
    hide IsRun, AllOnce;
    RunNumbered(c, run, i);
    assert ChanOk(c, p, run[i].chans[p]);
    assert InOrder(run[i].chans[p], q);
  }

  lemma SameLabel(c: Config, s: Sys, p: PID, r: PID, q: PID, k: nat)
    requires ValidConfig(c) && Inv(c, s) && p in Correct(c) && r in Correct(c) && q in c.procs
    requires p in s.chans && r in s.chans
    requires k < |From(s.chans[p].output, q)| && k < |From(s.chans[r].output, q)|
    ensures From(s.chans[p].output, q)[k] == From(s.chans[r].output, q)[k]
  {
    hide E.Reach, NodeOf;
    assert ChanOk(c, p, s.chans[p]) && ChanOk(c, r, s.chans[r]);
    assert InOrder(s.chans[p], q) && InOrder(s.chans[r], q);
    assert Projects(c, s, q, k);
    E.ConsistentAt(Instance(c, q), Projection(c, s, q, k), p, r);
  }

  lemma PrefixNow(c: Config, s: Sys, p: PID, r: PID, q: PID)
    requires ValidConfig(c) && Inv(c, s) && p in Correct(c) && r in Correct(c) && q in c.procs
    ensures p in s.chans && r in s.chans
    ensures var a, b := From(s.chans[p].output, q), From(s.chans[r].output, q);
            a <= b || b <= a
  {
    hide Projects;
    var a, b := From(s.chans[p].output, q), From(s.chans[r].output, q);
    forall k | 0 <= k < |a| && k < |b| ensures a[k] == b[k] {
      SameLabel(c, s, p, r, q, k);
    }
  }

  lemma {:induction false} FromGrows(a: seq<Domain>, b: seq<Domain>, q: PID)
    requires a <= b
    ensures From(a, q) <= From(b, q)
    decreases |b|
  {
    if |a| < |b| {
      assert a <= b[..|b| - 1];
      FromGrows(a, b[..|b| - 1], q);
    } else {
      assert a == b;
    }
  }

  /** What was handed up stays handed up. */
  lemma {:induction false} OutputGrows(c: Config, run: seq<Sys>, i: nat, j: nat, p: PID)
    requires IsRun(c, run) && i <= j < |run| && p in Correct(c)
    ensures p in run[i].chans && p in run[j].chans && run[i].chans[p].output <= run[j].chans[p].output
    decreases j - i
  {
    hide OnMessage, OnDelivered, OnBroadcast, ChanOk, AllOnce;
    RunNumbered(c, run, i);
    if i < j {
      OutputGrows(c, run, i, j - 1, p);
      assert Next(c, run[j - 1], run[j - 1 + 1]);
      var t :| Enabled(c, run[j - 1], t) && run[j] == Do(c, run[j - 1], t);
      StepOutput(c, run[j - 1], t, p);
    }
  }

  lemma StepOutput(c: Config, s: Sys, t: Step, p: PID)
    requires Enabled(c, s, t) && p in s.chans
    ensures p in Do(c, s, t).chans && s.chans[p].output <= Do(c, s, t).chans[p].output
  {
    hide EchoPick;
  }

  /** Prefix agreement: of what two correct members have received from any originator q, at whatever moments, one
      sequence is a prefix of the other. */
  lemma PrefixAgreement(c: Config, run: seq<Sys>, i: nat, j: nat, p: PID, r: PID, q: PID)
    requires ValidConfig(c) && Guarded(c) && IsRun(c, run) && i <= j < |run| && p in Correct(c) && r in Correct(c)
    requires q in c.procs
    ensures p in run[i].chans && r in run[j].chans
    ensures var a, b := From(run[i].chans[p].output, q), From(run[j].chans[r].output, q);
            a <= b || b <= a
  {
    hide IsRun, Inv;
    RunInv(c, run, j);
    OutputGrows(c, run, i, j, p);
    PrefixNow(c, run[j], p, r, q);
    FromGrows(run[i].chans[p].output, run[j].chans[p].output, q);
  }

  /** Integrity: what correct members receive from a correct originator is a prefix of what its channel was given. */
  lemma ChannelIntegrity(c: Config, run: seq<Sys>, i: nat, p: PID, q: PID)
    requires ValidConfig(c) && Guarded(c) && IsRun(c, run) && i < |run| && p in Correct(c) && q in Correct(c)
    ensures p in run[i].chans && q in run[i].chans
    ensures Payloads(From(run[i].chans[p].output, q)) <= run[i].chans[q].handed <= Given(run[i], q)
  {
    hide IsRun, Projects;
    RunInv(c, run, i);
    var s := run[i];
    var ds := From(s.chans[p].output, q);
    SendOrder(c, run, i, q);
    assert QueueOk(q, s.chans[q]);
    forall k | 0 <= k < |ds| ensures k < |s.chans[q].handed| && s.chans[q].handed[k] == ds[k].m {
      ReceivedWasHanded(c, s, p, q, k);
    }
    if |ds| > 0 { ReceivedWasHanded(c, s, p, q, |ds| - 1); }
  }

  lemma ReceivedWasHanded(c: Config, s: Sys, p: PID, q: PID, k: nat)
    requires ValidConfig(c) && Inv(c, s) && p in Correct(c) && q in Correct(c) && p in s.chans && q in s.chans
    requires k < |From(s.chans[p].output, q)|
    ensures k < |s.chans[q].handed| && s.chans[q].handed[k] == From(s.chans[p].output, q)[k].m
  {
    hide E.Reach, NodeOf;
    assert ChanOk(c, p, s.chans[p]);
    assert InOrder(s.chans[p], q);
    assert Projects(c, s, q, k);
    E.ConsistentAt(Instance(c, q), Projection(c, s, q, k), p, p);
    assert NodeOf(s.chans[p], q, k).output[0] in Projection(c, s, q, k).nodes[p].output;
  }

  /** What the channel has been given it has handed over or queues, in order, and it queues nothing while it is
      ready. */
  predicate InSequence(ch: Chan, given: seq<Payload>) {
    ch.handed + ch.queue == given && (ch.ready ==> ch.queue == [])
  }

  lemma StepSequence(c: Config, s: Sys, t: Step, p: PID)
    requires Enabled(c, s, t) && p in s.chans && InSequence(s.chans[p], Given(s, p))
    ensures p in Do(c, s, t).chans && InSequence(Do(c, s, t).chans[p], Given(Do(c, s, t), p))
  {
    hide EchoPick, OnInit, OnEcho;
    if t.Ask? && t.p == p {
      AskSequence(s.chans[p], t.m, Given(s, p));
    } else if t.Upcall? && t.p == p {
      UpcallSequence(s.chans[p], t.u, Given(s, p));
    }
  }

  lemma AskSequence(ch: Chan, m: Payload, given: seq<Payload>)
    requires InSequence(ch, given)
    ensures InSequence(OnBroadcast(ch, m).0, given + [m])
  {
    assert ch.handed + (ch.queue + [m]) == given + [m];
  }

  lemma UpcallSequence(ch: Chan, u: Domain, given: seq<Payload>)
    requires InSequence(ch, given)
    ensures InSequence(OnDelivered(ch, u).0, given)
  {
  }

  /** The order of the send queue, in every run and over every link: whatever a member was given is handed over or
      queued, nothing is lost, repeated or reordered. */
  lemma {:induction false} SendOrder(c: Config, run: seq<Sys>, i: nat, p: PID)
    requires IsRun(c, run) && i < |run| && p in Correct(c)
    ensures p in run[i].chans && run[i].chans[p].handed + run[i].chans[p].queue == Given(run[i], p)
    ensures run[i].chans[p].ready ==> run[i].chans[p].queue == []
  {
    hide Do, Enabled;
    if i == 0 {
      var ch := NewChan(p, c.procs, c.f);
      assert ch.handed + ch.queue == [];
    } else {
      SendOrder(c, run, i - 1, p);
      assert Next(c, run[i - 1], run[i - 1 + 1]);
      var t :| Enabled(c, run[i - 1], t) && run[i] == Do(c, run[i - 1], t);
      StepSequence(c, run[i - 1], t, p);
    }
  }

  /** The channel is ready exactly if all that was handed over has been delivered to the channel itself. */
  predicate ReadyWhenDone(p: PID, ch: Chan) {
    && p in ch.n
    && (ch.ready <==> |ch.handed| == ch.n[p])
    && (!ch.ready <==> |ch.handed| == ch.n[p] + 1)
  }

  /** p starts broadcasts for what was handed over and for nothing else: the k-th message in instance (p, k). */
  predicate Dispatched(c: Config, s: Sys, p: PID)
    requires p in s.chans
  {
    var handed := s.chans[p].handed;
    && (forall k | 0 <= k < |handed| :: ToAll(c, p, p, k, Init(handed[k])) <= s.sent)
    && (forall w | w in s.sent && w.from == p && w.msg.Init? ::
          w.sender == p && w.number < |handed| && w.msg.m == handed[w.number])
  }

  predicate SentAll(c: Config, s: Sys, p: PID)
    requires p in s.chans
  {
    forall k | 0 <= k < |s.chans[p].handed| :: ToAll(c, p, p, k, Init(s.chans[p].handed[k])) <= s.sent
  }

  lemma HandSends(c: Config, s: Sys, p: PID, ch: Chan, m: Option<Payload>)
    requires p in s.chans && SentAll(c, s, p) && HandsNext(p, s.chans[p], ch, m)
    ensures SentAll(c, Hand(c, s, p, ch, m), p)
  {
    hide NodeOf, ToAll;
  }

  lemma StepSends(c: Config, s: Sys, t: Step, p: PID)
    requires ValidConfig(c) && Guarded(c) && Inv(c, s) && Enabled(c, s, t) && p in s.chans && SentAll(c, s, p)
    ensures p in Do(c, s, t).chans && SentAll(c, Do(c, s, t), p)
  {
    hide Inv, HandsNext, ToAll, EchoPick, OnBroadcast, OnDelivered;
    if t.Ask? && t.p == p {
      assert ChanOk(c, p, s.chans[p]) && QueueOk(p, s.chans[p]) by { ChanAt(c, s, p); }
      AskHands(c, p, s.chans[p], t.m);
      HandSends(c, s, p, OnBroadcast(s.chans[p], t.m).0, OnBroadcast(s.chans[p], t.m).1);
    } else if t.Upcall? && t.p == p {
      UpcallHands(c, s, p, t.u);
      HandSends(c, s, p, OnDelivered(s.chans[p], t.u).0, OnDelivered(s.chans[p], t.u).1);
    } else {
      SameHanded(c, s, t, p);
    }
  }

  lemma ChanAt(c: Config, s: Sys, p: PID)
    requires Inv(c, s) && p in s.chans
    ensures p in Correct(c) && ChanOk(c, p, s.chans[p]) && QueueOk(p, s.chans[p])
  {
    hide Projects, ChanOk, QueueOk;
  }

  lemma SameHanded(c: Config, s: Sys, t: Step, p: PID)
    requires Enabled(c, s, t) && p in s.chans && (t.Ask? || t.Upcall? ==> t.p != p)
    ensures p in Do(c, s, t).chans && Do(c, s, t).chans[p].handed == s.chans[p].handed && s.sent <= Do(c, s, t).sent
  {
    hide EchoPick, OnInit, OnEcho, OnBroadcast, OnDelivered;
  }

  lemma {:induction false} RunSends(c: Config, run: seq<Sys>, i: nat, p: PID)
    requires ValidConfig(c) && Guarded(c) && IsRun(c, run) && i < |run| && p in Correct(c)
    ensures p in run[i].chans && SentAll(c, run[i], p)
  {
    hide Inv, Do, Enabled;
    if i > 0 {
      RunSends(c, run, i - 1, p);
      RunInv(c, run, i - 1);
      assert Next(c, run[i - 1], run[i - 1 + 1]);
      var t :| Enabled(c, run[i - 1], t) && run[i] == Do(c, run[i - 1], t);
      StepSends(c, run[i - 1], t, p);
    }
  }

  /** The send queue of a correct member: handed-over and queued messages are all it was given, in order; ready is
      false exactly while its current instance has a message it has not delivered; and the k-th message handed over,
      and no other, is what instance (p, k) sends to everybody. */
  lemma SendQueue(c: Config, run: seq<Sys>, i: nat, p: PID)
    requires ValidConfig(c) && Guarded(c) && IsRun(c, run) && i < |run| && p in Correct(c)
    ensures p in run[i].chans && ReadyWhenDone(p, run[i].chans[p]) && Dispatched(c, run[i], p)
    ensures run[i].chans[p].handed + run[i].chans[p].queue == Given(run[i], p)
    ensures run[i].chans[p].ready ==> run[i].chans[p].queue == []
  {
    hide IsRun, Projects, ChanOk;
    RunInv(c, run, i);
    RunSends(c, run, i, p);
    var s := run[i];
    SendOrder(c, run, i, p);
    assert QueueOk(p, s.chans[p]);
    assert forall w | w in s.sent :: InitOk(c, s, w);
  }

  // ---- Why the link has to look ----

  ghost predicate Reach(c: Config, s: Sys) {
    exists run :: IsRun(c, run) && run[|run| - 1] == s
  }

  lemma RunTo(c: Config, s: Sys) returns (run: seq<Sys>)
    requires Reach(c, s)
    ensures IsRun(c, run) && run != [] && run[|run| - 1] == s
  {
    run :| IsRun(c, run) && run[|run| - 1] == s;
  }

  lemma Go(c: Config, s: Sys, t: Step)
    requires Reach(c, s) && Enabled(c, s, t)
    ensures Reach(c, Do(c, s, t))
  {
    hide Do, Enabled, Start;
    var run := RunTo(c, s);
    assert Next(c, s, Do(c, s, t));
    hide Next;
    assert IsRun(c, run + [Do(c, s, t)]);
  }

  /** j made-up processes have sent the same echo. */
  function Echos(m: Payload, j: nat): map<PID, Payload> {
    if j == 0 then map[] else Echos(m, j - 1)[j - 1 := m]
  }

  lemma {:induction false} EchosCount(m: Payload, j: nat)
    ensures |Support(Echos(m, j), m)| == j && forall i :: i in Echos(m, j) <==> 0 <= i < j
    ensures forall x | x != m :: Support(Echos(m, j), x) == {}
  {
    if j > 0 {
      EchosCount(m, j - 1);
      assert Support(Echos(m, j), m) == Support(Echos(m, j - 1), m) + {j - 1};
      forall x | x != m ensures Support(Echos(m, j), x) == {} {
        assert Support(Echos(m, j), x) == Support(Echos(m, j - 1), x);
      }
    }
  }

  lemma EchosElect(m: Payload, j: nat, k: nat, pick: Option<Payload>)
    requires pick == if j < k + 2 then None else Some(m)
    ensures Elects(Echos(m, j), k, pick)
    ensures j > 0 ==> Record(Echos(m, j - 1), j - 1, m) == Echos(m, j)
  {
    EchosCount(m, j);
    if j > 0 { EchosCount(m, j - 1); }
    forall x ensures |Support(Echos(m, j), x)| <= j {
      if x != m { assert Support(Echos(m, j), x) == {}; }
    }
  }

  /** A fresh channel of p whose first instance of q has got j made-up echoes of m, too few to deliver. */
  function Fed(c: Config, p: PID, q: PID, m: Payload, j: nat): Chan
    requires q in c.procs
  {
    var ch := NewChan(p, c.procs, c.f);
    ch.(bcasters := ch.bcasters[q := ch.bcasters[q].(echos := Echos(m, j))])
  }

  /** x sends p the next made-up echo. */
  lemma NextEcho(c: Config, s: Sys, p: PID, q: PID, m: Payload, x: PID, j: nat, pick: Option<Payload>) returns (s': Sys)
    requires Reach(c, s) && !c.matched && x in c.byz && p in c.procs && q in c.procs && p in s.chans
    requires s.chans[p] == Fed(c, p, q, m, j)
    requires pick == if j + 1 < Quorum(|c.procs|, c.f) + 2 then None else Some(m)
    ensures Reach(c, s')
    ensures s'.chans == s.chans[p := OnMessage(s.chans[p], q, 0, j, Echo(m), pick, c.decodes).0]
    ensures s'.given == s.given
  {
    hide Reach, OnMessage, Elects, Record, NewChan;
    var w := Wrapped(x, j, p, q, 0, Echo(m));
    Go(c, s, Forge(w));
    var s1 := Do(c, s, Forge(w));
    EchosElect(m, j + 1, Quorum(|c.procs|, c.f), pick);
    FedNode(c, p, q, m, j);
    Go(c, s1, Receive(w, pick));
    s' := Do(c, s1, Receive(w, pick));
  }

  lemma FedNode(c: Config, p: PID, q: PID, m: Payload, j: nat)
    requires q in c.procs
    ensures Routes(Fed(c, p, q, m, j), q, 0)
    ensures Fed(c, p, q, m, j).bcasters[q] == NewNode(p, q, |c.procs|, c.f).(echos := Echos(m, j))
  {
  }

  lemma {:induction false} FeedTo(c: Config, s: Sys, p: PID, q: PID, m: Payload, x: PID, j: nat) returns (s': Sys)
    requires Reach(c, s) && !c.matched && x in c.byz && p in c.procs && q in c.procs && p in s.chans
    requires s.chans[p] == NewChan(p, c.procs, c.f) && j < Quorum(|c.procs|, c.f) + 2
    ensures Reach(c, s') && s'.chans == s.chans[p := Fed(c, p, q, m, j)] && s'.given == s.given
  {
    hide Reach;
    if j == 0 {
      FedNone(c, p, q, m);
      s' := s;
    } else {
      hide NewChan, Fed, OnMessage;
      var s1 := FeedTo(c, s, p, q, m, x, j - 1);
      s' := NextEcho(c, s1, p, q, m, x, j - 1, None);
      FedMore(c, p, q, m, j - 1);
    }
  }

  lemma FedNone(c: Config, p: PID, q: PID, m: Payload)
    requires q in c.procs
    ensures Fed(c, p, q, m, 0) == NewChan(p, c.procs, c.f)
  {
    assert Echos(m, 0) == map[];
    assert Fed(c, p, q, m, 0).bcasters == NewChan(p, c.procs, c.f).bcasters;
  }

  lemma FedMore(c: Config, p: PID, q: PID, m: Payload, j: nat)
    requires q in c.procs
    ensures OnMessage(Fed(c, p, q, m, j), q, 0, j, Echo(m), None, c.decodes).0 == Fed(c, p, q, m, j + 1)
  {
    FedNode(c, p, q, m, j);
    EchosElect(m, j + 1, j, None);
    var ch := OnMessage(Fed(c, p, q, m, j), q, 0, j, Echo(m), None, c.decodes).0;
    assert ch.bcasters[q] == Fed(c, p, q, m, j + 1).bcasters[q];
    assert ch.bcasters == Fed(c, p, q, m, j + 1).bcasters;
  }

  /** ch has delivered a first message of q, but has handed nothing over. */
  predicate DeliveredUnasked(ch: Chan, q: PID, m: Payload) {
    && From(ch.output, q) == [Domain(q, m, 0)]
    && ch.handed == [] && ch.queue == [] && ch.ready
    && q in ch.n && ch.n[q] == 1
  }

  /** One Byzantine member makes p, which has received nothing yet, hand up m as the first message of q. */
  lemma Misled(c: Config, s: Sys, p: PID, q: PID, m: Payload, x: PID) returns (s': Sys)
    requires Reach(c, s) && !c.matched && x in c.byz && p in c.procs && q in c.procs && p in s.chans
    requires s.chans[p] == NewChan(p, c.procs, c.f) && c.decodes(m)
    ensures Reach(c, s') && p in s'.chans && s'.chans == s.chans[p := s'.chans[p]]
    ensures DeliveredUnasked(s'.chans[p], q, m) && s'.given == s.given
  {
    hide Reach, NewChan;
    var j := Quorum(|c.procs|, c.f) + 1;
    var s1 := FeedTo(c, s, p, q, m, x, j);
    var s2 := NextEcho(c, s1, p, q, m, x, j, Some(m));
    var u := Domain(q, m, 0);
    FedLast(c, p, q, m, j);
    var ch := s2.chans[p];
    hide Fed;
    Go(c, s2, Upcall(p, u));
    s' := Do(c, s2, Upcall(p, u));
    UnaskedDelivery(ch, q, m);
  }

  lemma UnaskedDelivery(ch: Chan, q: PID, m: Payload)
    requires q in ch.n && q in ch.bcasters && ch.n[q] == 0 && ch.output == [] && ch.queue == []
    requires ch.handed == [] && ch.ready
    ensures DeliveredUnasked(OnDelivered(ch, Domain(q, m, 0)).0, q, m)
  {
    var u := Domain(q, m, 0);
    assert OnDelivered(ch, u).0.output == [u];
    assert [u][..0] == [];
  }

  lemma FedLast(c: Config, p: PID, q: PID, m: Payload, j: nat)
    requires q in c.procs && c.decodes(m)
    ensures var ch := OnMessage(Fed(c, p, q, m, j), q, 0, j, Echo(m), Some(m), c.decodes).0;
            && Domain(q, m, 0) in ch.upcalls && q in ch.n && q in ch.bcasters && ch.n[q] == 0
            && ch.output == [] && ch.queue == [] && ch.self == p
            && ch.handed == [] && ch.ready
  {
    FedNode(c, p, q, m, j);
  }

  /** Of what two correct members have received from one originator, one sequence is always a prefix of the other. */
  ghost predicate AlwaysPrefix(c: Config) {
    forall run: seq<Sys>, i: nat, j: nat, p, r, q |
      IsRun(c, run) && i <= j < |run| && p in Correct(c) && r in Correct(c) && q in c.procs
      && p in run[i].chans && r in run[j].chans ::
      Comparable(From(run[i].chans[p].output, q), From(run[j].chans[r].output, q))
  }

  predicate Comparable(a: seq<Domain>, b: seq<Domain>) { a <= b || b <= a }

  /** Two correct members and two payloads that decode given, prefix agreement holds in all runs exactly if inner
      messages cannot name another process than their transmitter. */
  lemma PrefixExactly(c: Config, a: PID, b: PID, m: Payload, m': Payload)
    requires ValidConfig(c) && a in Correct(c) && b in Correct(c) && a != b
    requires c.decodes(m) && c.decodes(m') && m != m'
    ensures AlwaysPrefix(c) <==> Guarded(c)
  {
    hide IsRun, From;
    if Guarded(c) {
      forall run: seq<Sys>, i: nat, j: nat, p, r, q |
        IsRun(c, run) && i <= j < |run| && p in Correct(c) && r in Correct(c) && q in c.procs
        && p in run[i].chans && r in run[j].chans
        ensures Comparable(From(run[i].chans[p].output, q), From(run[j].chans[r].output, q))
      {
        PrefixAgreement(c, run, i, j, p, r, q);
      }
    } else {
      var s := Impersonation(c, a, b, m, m');
      var run := RunTo(c, s);
      var i := |run| - 1;
      assert a in run[i].chans && b in run[i].chans;
      assert !Comparable(From(run[i].chans[a].output, b), From(run[i].chans[b].output, b));
    }
  }

  /** Neither member was asked to broadcast anything, and they have received different first messages of b. */
  lemma Impersonation(c: Config, a: PID, b: PID, m: Payload, m': Payload) returns (s: Sys)
    requires ValidConfig(c) && !Guarded(c) && a in Correct(c) && b in Correct(c) && a != b
    requires c.decodes(m) && c.decodes(m')
    ensures Reach(c, s) && a in s.chans && b in s.chans
    ensures From(s.chans[a].output, b) == [Domain(b, m, 0)] && From(s.chans[b].output, b) == [Domain(b, m', 0)]
    ensures s.given == map[]
  {
    hide Reach, NewChan, From;
    BeginReached(c);
    var x := OneOutside(c.byz, {});
    var s1 := Misled(c, Start(c), a, b, m, x);
    s := Misled(c, s1, b, b, m', x);
  }

  /** What a correct member has received from a correct originator is always a prefix of what that originator's channel
      has handed over. */
  ghost predicate AlwaysIntegral(c: Config) {
    forall run: seq<Sys>, i: nat, p, q |
      IsRun(c, run) && i < |run| && p in Correct(c) && q in Correct(c) && p in run[i].chans && q in run[i].chans ::
      Payloads(From(run[i].chans[p].output, q)) <= run[i].chans[q].handed
  }

  ghost predicate AlwaysReadyWhenDone(c: Config) {
    forall run: seq<Sys>, i: nat, p | IsRun(c, run) && i < |run| && p in Correct(c) && p in run[i].chans ::
      ReadyWhenDone(p, run[i].chans[p])
  }

  ghost predicate AlwaysDispatched(c: Config) {
    forall run: seq<Sys>, i: nat, p | IsRun(c, run) && i < |run| && p in Correct(c) && p in run[i].chans ::
      Dispatched(c, run[i], p)
  }

  /** A correct member that was asked for nothing hands up a message of its own. */
  lemma OwnImpersonated(c: Config, b: PID, m: Payload) returns (s: Sys)
    requires ValidConfig(c) && !Guarded(c) && b in Correct(c) && c.decodes(m)
    ensures Reach(c, s) && b in s.chans && DeliveredUnasked(s.chans[b], b, m) && s.given == map[]
  {
    hide Reach, NewChan, From, DeliveredUnasked;
    BeginReached(c);
    var x := OneOutside(c.byz, {});
    s := Misled(c, Start(c), b, b, m, x);
  }

  /** One correct member and one payload that decodes given, channel integrity holds in all runs exactly if inner
      messages cannot name another process than their transmitter. */
  lemma IntegrityExactly(c: Config, b: PID, m: Payload)
    requires ValidConfig(c) && b in Correct(c) && c.decodes(m)
    ensures AlwaysIntegral(c) <==> Guarded(c)
  {
    hide IsRun, Reach;
    if Guarded(c) {
      forall run: seq<Sys>, i: nat, p, q |
        IsRun(c, run) && i < |run| && p in Correct(c) && q in Correct(c) && p in run[i].chans && q in run[i].chans
        ensures Payloads(From(run[i].chans[p].output, q)) <= run[i].chans[q].handed
      {
        ChannelIntegrity(c, run, i, p, q);
      }
    } else {
      var s := OwnImpersonated(c, b, m);
      var run := RunTo(c, s);
      assert |Payloads(From(run[|run| - 1].chans[b].output, b))| == 1;
    }
  }

  /** ... and so does that a member is ready exactly when all it handed over has come back to it, ... */
  lemma ReadyExactly(c: Config, b: PID, m: Payload)
    requires ValidConfig(c) && b in Correct(c) && c.decodes(m)
    ensures AlwaysReadyWhenDone(c) <==> Guarded(c)
  {
    hide IsRun, Reach, Dispatched;
    if Guarded(c) {
      forall run: seq<Sys>, i: nat, p | IsRun(c, run) && i < |run| && p in Correct(c) && p in run[i].chans
        ensures ReadyWhenDone(p, run[i].chans[p])
      {
        SendQueue(c, run, i, p);
      }
    } else {
      var s := OwnImpersonated(c, b, m);
      var run := RunTo(c, s);
      assert !ReadyWhenDone(b, run[|run| - 1].chans[b]);
    }
  }

  /** ... and that the k-th message handed over is what instance k broadcasts: a member whose own first instance was
      used up by others broadcasts its first message in its second instance. */
  lemma DispatchExactly(c: Config, b: PID, m: Payload)
    requires ValidConfig(c) && b in Correct(c) && c.decodes(m)
    ensures AlwaysDispatched(c) <==> Guarded(c)
  {
    hide IsRun, Reach, ReadyWhenDone;
    if Guarded(c) {
      forall run: seq<Sys>, i: nat, p | IsRun(c, run) && i < |run| && p in Correct(c) && p in run[i].chans
        ensures Dispatched(c, run[i], p)
      {
        SendQueue(c, run, i, p);
      }
    } else {
      var s0 := OwnImpersonated(c, b, m);
      Go(c, s0, Ask(b, m));
      var s := Do(c, s0, Ask(b, m));
      assert Wrapped(b, b, b, b, 1, Init(m)) in s.sent && s.chans[b].handed == [m];
      var run := RunTo(c, s);
      assert !Dispatched(c, run[|run| - 1], b);
    }
  }

  lemma BeginReached(c: Config)
    ensures Reach(c, Start(c))
  {
    hide Start;
    assert IsRun(c, [Start(c)]);
  }
}

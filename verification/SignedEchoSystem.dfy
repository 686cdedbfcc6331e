/** Signed echo broadcast with Byzantine members and unforgeable signatures. */
module SignedEchoSystem {
  import opened Common
  import opened Tally
  import opened SignedEcho

  /** What a correct member has signed. */
  datatype Signed = Signed(p: PID, m: Payload)

  /** elsewhere: what correct members have signed in other instances with the same keys. A signature names neither the
      instance nor its sender, so it is as good here. */
  datatype Config = Config(procs: set<PID>, byz: set<PID>, f: nat, sender: PID, verify: Verifier,
                           decodes: Payload -> bool, elsewhere: set<Signed>)

  /** Only members have identities. */
  ghost predicate ValidConfig(c: Config) {
    && c.byz <= c.procs && |c.byz| <= c.f && c.sender in c.procs
    && forall p, m, x :: c.verify(p, m, x) ==> p in c.procs
  }

  function Correct(c: Config): set<PID> { c.procs - c.byz }

  datatype Packet = Packet(from: PID, to: PID, msg: Msg)

  datatype Sys = Sys(nodes: map<PID, Node>, sent: set<Packet>, bcast: set<Payload>, signed: set<Signed>)

  /** The fields of Receive after k are the outcome of signing and the resolution of map iteration orders. */
  datatype Step =
    | Broadcast(m: Payload)
    | Forge(k: Packet)
    | Receive(k: Packet, sig: Option<Signature>, pick: Option<Payload>, signs: seq<Sign>)

  ghost function Start(c: Config): Sys {
    Sys(map p | p in Correct(c) :: NewNode(p, c.sender, |c.procs|, c.f), {}, {}, {})
  }

  function ToAll(procs: set<PID>, from: PID, msg: Msg): set<Packet> {
    set p | p in procs :: Packet(from, p, msg)
  }

  /** x verifies for a correct member only on what that member has signed, here or elsewhere. */
  ghost predicate Genuine(c: Config, signed: set<Signed>, x: Signature) {
    forall r, m | r in Correct(c) && c.verify(r, m, x) :: Signed(r, m) in signed + c.elsewhere
  }

  /** Signatures cannot be forged. */
  ghost predicate Unforged(c: Config, signed: set<Signed>, msg: Msg) {
    match msg
    case Init(_) => true
    case SignedEcho(_, x) => Genuine(c, signed, x)
    case Final(_, signs) => forall x | x in signs :: Genuine(c, signed, x.sig)
  }

  /** The correct member t.k.to signs t.k.msg.m in this step. */
  predicate Signs(s: Sys, t: Step)
    requires t.Receive? && t.k.to in s.nodes
  {
    t.k.msg.Init? && OnInit(s.nodes[t.k.to], t.k.from, t.k.msg.m, t.sig).1.Some?
  }

  ghost predicate Enabled(c: Config, s: Sys, t: Step) {
    match t
    case Broadcast(_) => c.sender in s.nodes
    case Forge(k) => k.from in c.byz && k.to in c.procs && Unforged(c, s.signed, k.msg)
    case Receive(k, sig, pick, signs) =>
      && k in s.sent && k.to in s.nodes
      && (k.msg.Init? && sig.Some? ==> Genuine(c, s.signed + {Signed(k.to, k.msg.m)}, sig.value))
      && (k.msg.SignedEcho? ==> FinalPick(s.nodes[k.to], k.from, k.msg.m, k.msg.sig, c.verify, pick, signs))
  }

  function Handle(c: Config, nd: Node, t: Step): (Node, Option<Msg>)
    requires t.Receive?
  {
    match t.k.msg
    case Init(m) => OnInit(nd, t.k.from, m, t.sig)
    case SignedEcho(m, x) => OnEcho(nd, t.k.from, m, x, c.verify, t.pick, t.signs)
    case Final(m, signs) => (OnFinal(nd, m, signs, c.verify, c.decodes), None)
  }

  /** An echo goes to the sender only, a FINAL to everybody. */
  function Packets(c: Config, from: PID, out: Option<Msg>): set<Packet> {
    if out.None? then {}
    else if out.value.SignedEcho? then {Packet(from, c.sender, out.value)}
    else ToAll(c.procs, from, out.value)
  }

  ghost function Do(c: Config, s: Sys, t: Step): Sys
    requires Enabled(c, s, t)
  {
    match t
    case Broadcast(m) => s.(sent := s.sent + ToAll(c.procs, c.sender, Init(m)), bcast := s.bcast + {m})
    case Forge(k) => s.(sent := s.sent + {k})
    case Receive(k, _, _, _) =>
      var (nd, out) := Handle(c, s.nodes[k.to], t);
      s.(nodes := s.nodes[k.to := nd], sent := s.sent + Packets(c, k.to, out),
         signed := if Signs(s, t) then s.signed + {Signed(k.to, k.msg.m)} else s.signed)
  }

  ghost predicate Next(c: Config, s: Sys, s': Sys) {
    exists t :: Enabled(c, s, t) && s' == Do(c, s, t)
  }

  ghost predicate IsRun(c: Config, run: seq<Sys>) {
    && run != [] && run[0] == Start(c)
    && forall i | 0 <= i < |run| - 1 :: Next(c, run[i], run[i + 1])
  }

  // ---- Invariant ----

  /** Who may have a valid signature on m. */
  function Signers(c: Config, signed: set<Signed>, m: Payload): set<PID> {
    set p | p in c.procs && (p in c.byz || Signed(p, m) in signed + c.elsewhere)
  }

  /** Who may have one without having signed anything in this instance. */
  function Abroad(c: Config, m: Payload): set<PID> {
    set p | p in c.procs && (p in c.byz || Signed(p, m) in c.elsewhere)
  }

  /** Two payloads can gather a quorum of signatures each, although every correct member signs one payload here: a and b
      are those that sign the one and the other. */
  predicate Splits(c: Config, m: Payload, a: set<PID>, m': Payload, b: set<PID>) {
    && m != m' && c.decodes(m) && c.decodes(m') && a <= Correct(c) && b <= Correct(c) && a !! b
    && |Abroad(c, m) + a| > Quorum(|c.procs|, c.f) && |Abroad(c, m') + b| > Quorum(|c.procs|, c.f)
  }

  ghost predicate Splittable(c: Config) {
    exists m, a, m', b :: Splits(c, m, a, m', b)
  }

  ghost predicate PacketOk(c: Config, s: Sys, k: Packet) {
    && k.from in c.procs && Unforged(c, s.signed, k.msg)
    && (k.from in Correct(c) ==>
          match k.msg
          case Init(m) => k.from == c.sender && m in s.bcast
          case SignedEcho(_, _) => true
          case Final(m, signs) => |ValidSigners(c.verify, m, signs)| > Quorum(|c.procs|, c.f))
  }

  ghost predicate NodeOk(c: Config, s: Sys, p: PID)
    requires p in s.nodes
  {
    var nd := s.nodes[p];
    && nd.self == p && nd.sender == c.sender && nd.n == |c.procs| && nd.faults == c.f
    && (forall r | r in nd.echos ::
        c.verify(r, nd.echos[r].m, nd.echos[r].sig) && Genuine(c, s.signed, nd.echos[r].sig))
    && (nd.output != [] ==> nd.delivered) && |nd.output| <= 1
    && forall m | m in nd.output :: c.decodes(m) && |Signers(c, s.signed, m)| > Quorum(|c.procs|, c.f)
  }

  /** A correct member signs once, and only what a correct sender broadcast. */
  predicate SignedOk(c: Config, s: Sys) {
    && (forall x | x in s.signed ::
        x.p in s.nodes && s.nodes[x.p].sentEcho && (c.sender in Correct(c) ==> x.m in s.bcast))
    && forall x, y | x in s.signed && y in s.signed && x.p == y.p :: x.m == y.m
  }

  ghost predicate Inv(c: Config, s: Sys) {
    && s.nodes.Keys == Correct(c)
    && (forall k | k in s.sent :: PacketOk(c, s, k))
    && (forall p | p in s.nodes :: NodeOk(c, s, p))
    && SignedOk(c, s)
  }

  lemma GenuineStays(c: Config, s: set<Signed>, s': set<Signed>, msg: Msg)
    requires s <= s' && Unforged(c, s, msg)
    ensures Unforged(c, s', msg)
  {
  }

  lemma OldPacket(c: Config, s: Sys, s': Sys, k: Packet)
    requires PacketOk(c, s, k) && s.signed <= s'.signed && s.bcast <= s'.bcast
    ensures PacketOk(c, s', k)
  {
    GenuineStays(c, s.signed, s'.signed, k.msg);
  }

  lemma SignersGrow(c: Config, s: set<Signed>, s': set<Signed>, m: Payload)
    requires s <= s'
    ensures |Signers(c, s, m)| <= |Signers(c, s', m)|
  {
    SubsetCard(Signers(c, s, m), Signers(c, s', m));
  }

  lemma OldNode(c: Config, s: Sys, s': Sys, p: PID)
    requires p in s.nodes && p in s'.nodes && NodeOk(c, s, p) && s.signed <= s'.signed
    requires s'.nodes[p] == s.nodes[p].(sentEcho := s'.nodes[p].sentEcho)
    ensures NodeOk(c, s', p)
  {
    forall m | m in s.nodes[p].output ensures |Signers(c, s'.signed, m)| > Quorum(|c.procs|, c.f) {
      SignersGrow(c, s.signed, s'.signed, m);
    }
  }

  /** The valid signatures in an unforged list are by possible signers. */
  lemma ListSigners(c: Config, signed: set<Signed>, m: Payload, signs: seq<Sign>)
    requires ValidConfig(c) && Unforged(c, signed, Final(m, signs))
    ensures |ValidSigners(c.verify, m, signs)| <= |Signers(c, signed, m)|
  {
    forall p | p in ValidSigners(c.verify, m, signs) ensures p in Signers(c, signed, m) {
      var x :| x in signs && c.verify(x.pid, m, x.sig) && x.pid == p;
      assert Genuine(c, signed, x.sig);
    }
    SubsetCard(ValidSigners(c.verify, m, signs), Signers(c, signed, m));
  }

  lemma SentKeeps(c: Config, s: Sys, t: Step)
    requires ValidConfig(c) && Inv(c, s) && Enabled(c, s, t) && !t.Receive?
    ensures Inv(c, Do(c, s, t))
  {
    hide NodeOk;
    var s' := Do(c, s, t);
    forall p | p in s'.nodes ensures NodeOk(c, s', p) { OldNode(c, s, s', p); }
    forall k | k in s'.sent ensures PacketOk(c, s', k) {
      if k in s.sent { OldPacket(c, s, s', k); }
    }
  }

  lemma InitKeeps(c: Config, s: Sys, t: Step)
    requires ValidConfig(c) && Inv(c, s) && Enabled(c, s, t) && t.Receive? && t.k.msg.Init?
    ensures Inv(c, Do(c, s, t))
  {
    hide NodeOk, Genuine;
    var s', p := Do(c, s, t), t.k.to;
    assert s.nodes[p].sender == c.sender by { SenderIs(c, s, p); }
    assert PacketOk(c, s, t.k);
    forall q | q in s'.nodes ensures NodeOk(c, s', q) { OldNode(c, s, s', q); }
    forall k | k in s'.sent ensures PacketOk(c, s', k) {
      if k in s.sent { OldPacket(c, s, s', k); }
    }
  }

  lemma SenderIs(c: Config, s: Sys, p: PID)
    requires Inv(c, s) && p in s.nodes
    ensures s.nodes[p].sender == c.sender && s.nodes[p].self == p
    ensures s.nodes[p].n == |c.procs| && s.nodes[p].faults == c.f
  {
    assert NodeOk(c, s, p);
  }

  lemma EchoKeeps(c: Config, s: Sys, t: Step)
    requires ValidConfig(c) && Inv(c, s) && Enabled(c, s, t) && t.Receive? && t.k.msg.SignedEcho?
    ensures Inv(c, Do(c, s, t))
  {
    hide Genuine, FinalPick;
    var s', p := Do(c, s, t), t.k.to;
    assert NodeOk(c, s, p) && PacketOk(c, s, t.k);
    hide NodeOk, PacketOk;
    forall q | q in s'.nodes ensures NodeOk(c, s', q) {
      if q != p { OldNode(c, s, s', q); } else { EchoNode(c, s, s', t); }
    }
    forall k | k in s'.sent ensures PacketOk(c, s', k) {
      if k in s.sent { OldPacket(c, s, s', k); } else { FinalPacket(c, s, s', t, k); }
    }
  }

  lemma EchoNode(c: Config, s: Sys, s': Sys, t: Step)
    requires Enabled(c, s, t) && t.Receive? && t.k.msg.SignedEcho? && s' == Do(c, s, t)
    requires NodeOk(c, s, t.k.to) && PacketOk(c, s, t.k)
    ensures NodeOk(c, s', t.k.to)
  {
    hide FinalPick, Genuine;
  }

  lemma FinalPacket(c: Config, s: Sys, s': Sys, t: Step, k: Packet)
    requires Enabled(c, s, t) && t.Receive? && t.k.msg.SignedEcho? && s' == Do(c, s, t) && t.k.to in c.procs
    requires NodeOk(c, s, t.k.to) && PacketOk(c, s, t.k) && k in s'.sent - s.sent
    ensures PacketOk(c, s', k)
  {
    hide Genuine;
    var nd := s.nodes[t.k.to];
    var echos := nd.echos[t.k.from := Echo(t.k.msg.m, t.k.msg.sig)];
    FinalCounts(nd, t.k.from, t.k.msg.m, t.k.msg.sig, c.verify, t.pick, t.signs);
    assert forall x | x in t.signs :: Genuine(c, s.signed, x.sig);
  }

  /** The FINAL a sender builds carries more than a quorum of valid signatures. */
  lemma FinalCounts(nd: Node, from: PID, m: Payload, sig: Signature, verify: Verifier, pick: Option<Payload>,
                    signs: seq<Sign>)
    requires FinalPick(nd, from, m, sig, verify, pick, signs) && OnEcho(nd, from, m, sig, verify, pick, signs).1.Some?
    requires forall p | p in nd.echos :: verify(p, nd.echos[p].m, nd.echos[p].sig)
    ensures pick.Some? && |ValidSigners(verify, pick.value, signs)| > Quorum(nd.n, nd.faults)
  {
    FinalAccepted(nd, from, m, sig, verify, pick, signs, NewNode(nd.self, nd.sender, nd.n, nd.faults), _ => true);
  }

  lemma FinalKeeps(c: Config, s: Sys, t: Step)
    requires ValidConfig(c) && Inv(c, s) && Enabled(c, s, t) && t.Receive? && t.k.msg.Final?
    ensures Inv(c, Do(c, s, t))
  {
    hide Genuine, ValidSigners, Signers;
    var s', p := Do(c, s, t), t.k.to;
    assert NodeOk(c, s, p) && PacketOk(c, s, t.k);
    ListSigners(c, s.signed, t.k.msg.m, t.k.msg.signs);
    forall q | q in s'.nodes ensures NodeOk(c, s', q) {
      if q != p { OldNode(c, s, s', q); }
    }
    forall k | k in s'.sent ensures PacketOk(c, s', k) { OldPacket(c, s, s', k); }
  }

  lemma StepInv(c: Config, s: Sys, t: Step)
    requires ValidConfig(c) && Inv(c, s) && Enabled(c, s, t)
    ensures Inv(c, Do(c, s, t))
  {
    hide Inv, Do, Enabled;
    if !t.Receive? {
      SentKeeps(c, s, t);
    } else {
      match t.k.msg
      case Init(_) => InitKeeps(c, s, t);
      case SignedEcho(_, _) => EchoKeeps(c, s, t);
      case Final(_, _) => FinalKeeps(c, s, t);
    }
  }

  lemma {:induction false} RunInv(c: Config, run: seq<Sys>, i: nat)
    requires ValidConfig(c) && IsRun(c, run) && i < |run|
    ensures Inv(c, run[i])
  {
    hide Inv, Do, Enabled;
    if i == 0 {
      StartInv(c);
    } else {
      RunInv(c, run, i - 1);
      assert Next(c, run[i - 1], run[i - 1 + 1]);
      var t :| Enabled(c, run[i - 1], t) && run[i] == Do(c, run[i - 1], t);
      StepInv(c, run[i - 1], t);
    }
  }

  lemma StartInv(c: Config)
    ensures Inv(c, Start(c))
  {
  }

  /** The correct members that have signed m in this instance. */
  function Here(c: Config, s: Sys, m: Payload): set<PID> {
    set p | p in Correct(c) && Signed(p, m) in s.signed
  }

  lemma SignersAre(c: Config, s: Sys, m: Payload)
    requires c.byz <= c.procs && SignedOk(c, s) && s.nodes.Keys == Correct(c)
    ensures Signers(c, s.signed, m) == Abroad(c, m) + Here(c, s, m)
    ensures c.sender in Correct(c) && m !in s.bcast ==> Here(c, s, m) == {}
  {
  }

  /** Two deliveries are equal unless signatures from elsewhere help, and what a correct sender has not broadcast is
      delivered only if they suffice. */
  lemma Consistent(c: Config, s: Sys, p: PID, q: PID)
    requires ValidConfig(c) && Inv(c, s) && p in Correct(c) && q in Correct(c)
    ensures p in s.nodes && q in s.nodes && |s.nodes[p].output| <= 1
    ensures !Splittable(c) && s.nodes[p].output != [] && s.nodes[q].output != [] ==>
              s.nodes[p].output == s.nodes[q].output
    ensures forall m | m in s.nodes[p].output :: c.decodes(m)
    ensures c.sender in Correct(c) ==>
              forall m | m in s.nodes[p].output && m !in s.bcast :: |Abroad(c, m)| > Quorum(|c.procs|, c.f)
  {
    hide PacketOk, Splittable, Signers, Abroad, Here;
    assert NodeOk(c, s, p) && NodeOk(c, s, q);
    if s.nodes[p].output != [] {
      var m := s.nodes[p].output[0];
      SignersAre(c, s, m);
      assert Abroad(c, m) + {} == Abroad(c, m);
      if s.nodes[q].output != [] && s.nodes[q].output[0] != m {
        var m' := s.nodes[q].output[0];
        SignersAre(c, s, m');
        HereApart(c, s, m, m');
        assert Splits(c, m, Here(c, s, m), m', Here(c, s, m'));
        SplitsSplittable(c, m, Here(c, s, m), m', Here(c, s, m'));
      }
    }
  }

  lemma SplitsSplittable(c: Config, m: Payload, a: set<PID>, m': Payload, b: set<PID>)
    requires Splits(c, m, a, m', b)
    ensures Splittable(c)
  {
  }

  lemma HereApart(c: Config, s: Sys, m: Payload, m': Payload)
    requires SignedOk(c, s) && m != m'
    ensures Here(c, s, m) !! Here(c, s, m') && Here(c, s, m) <= Correct(c) && Here(c, s, m') <= Correct(c)
  {
    forall p ensures p in Here(c, s, m) ==> p !in Here(c, s, m') {
      assert Signed(p, m).p == Signed(p, m').p;
    }
  }

  /** Keys that are used in this instance only do no harm. */
  lemma OwnKeys(c: Config)
    requires ValidConfig(c) && c.elsewhere == {}
    ensures !Splittable(c) && forall m :: |Abroad(c, m)| <= Quorum(|c.procs|, c.f)
  {
    forall m ensures Abroad(c, m) == c.byz {}
    SubsetCard(c.byz, c.procs);
    forall m, a, m', b ensures !Splits(c, m, a, m', b) {
      if Splits(c, m, a, m', b) {
        var r := ByzantineQuorumsMeet(c.byz + a, c.byz + b, c.procs, c.byz, c.f);
      }
    }
  }

  /** Deliveries are never taken back. */
  lemma {:induction false} OutputStays(c: Config, run: seq<Sys>, i: nat, j: nat, p: PID)
    requires ValidConfig(c) && IsRun(c, run) && i <= j < |run| && p in Correct(c)
    ensures p in run[i].nodes && p in run[j].nodes && run[i].nodes[p].output <= run[j].nodes[p].output
    decreases j - i
  {
    hide NodeOk, PacketOk, SignedOk, FinalPick, Genuine;
    RunInv(c, run, i);
    if i < j {
      OutputStays(c, run, i, j - 1, p);
      assert Next(c, run[j - 1], run[j - 1 + 1]);
    }
  }

  /** Consistency, no duplication and integrity in every run, at whatever moments two members are looked at: deliveries
      differ only if signatures from other instances let two payloads gather a quorum each, and a payload that a correct
      sender did not broadcast needs a quorum of them. */
  lemma ConsistencyAmong(c: Config, run: seq<Sys>, i: nat, j: nat, p: PID, q: PID)
    requires ValidConfig(c) && IsRun(c, run) && i <= j < |run| && p in Correct(c) && q in Correct(c)
    ensures p in run[i].nodes && q in run[j].nodes && |run[i].nodes[p].output| <= 1 && |run[j].nodes[q].output| <= 1
    ensures !Splittable(c) && run[i].nodes[p].output != [] && run[j].nodes[q].output != [] ==>
              run[i].nodes[p].output == run[j].nodes[q].output
    ensures forall m | m in run[i].nodes[p].output :: c.decodes(m)
    ensures c.sender in Correct(c) ==>
              forall m | m in run[i].nodes[p].output && m !in run[i].bcast ::
                |Abroad(c, m)| > Quorum(|c.procs|, c.f)
  {
    hide IsRun, Inv, Splittable, Abroad;
    RunInv(c, run, i);
    RunInv(c, run, j);
    OutputStays(c, run, i, j, p);
    Consistent(c, run[i], p, p);
    Consistent(c, run[j], p, q);
    Consistent(c, run[j], q, q);
  }

  /** With keys of its own an instance is consistent. */
  lemma Consistency(c: Config, run: seq<Sys>, i: nat, j: nat, p: PID, q: PID)
    requires ValidConfig(c) && IsRun(c, run) && i <= j < |run| && p in Correct(c) && q in Correct(c)
    requires c.elsewhere == {}
    ensures p in run[i].nodes && q in run[j].nodes && |run[i].nodes[p].output| <= 1 && |run[j].nodes[q].output| <= 1
    ensures run[i].nodes[p].output != [] && run[j].nodes[q].output != [] ==>
              run[i].nodes[p].output == run[j].nodes[q].output
    ensures c.sender in Correct(c) ==> forall m | m in run[i].nodes[p].output :: m in run[i].bcast && c.decodes(m)
  {
    hide IsRun, Splittable, Abroad;
    OwnKeys(c);
    ConsistencyAmong(c, run, i, j, p, q);
  }

  /** In every run, a FINAL of a correct sender makes every correct member that has not delivered deliver its payload,
      provided it decodes. */
  lemma FinalsWork(c: Config, run: seq<Sys>, i: nat, k: Packet, p: PID)
    requires ValidConfig(c) && IsRun(c, run) && i < |run| && k in run[i].sent && k.msg.Final? && k.from in Correct(c)
    requires p in Correct(c) && p in run[i].nodes && !run[i].nodes[p].delivered && c.decodes(k.msg.m)
    ensures OnFinal(run[i].nodes[p], k.msg.m, k.msg.signs, c.verify, c.decodes)
         == run[i].nodes[p].(delivered := true, output := run[i].nodes[p].output + [k.msg.m])
  {
    hide IsRun, ValidSigners;
    RunInv(c, run, i);
    assert NodeOk(c, run[i], p) && PacketOk(c, run[i], k);
  }
}

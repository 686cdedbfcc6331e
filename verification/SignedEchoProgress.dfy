/** Progress of signed echo broadcast: what handled packets lead to, and validity once all packets are handled. */
module SignedEchoProgress {
  import opened Common
  import opened Tally
  import opened SignedEcho
  import opened SignedEchoSystem

  ghost predicate HandledAt(c: Config, run: seq<Sys>, i: nat, t: Step) {
    i < |run| - 1 && t.Receive? && Enabled(c, run[i], t) && run[i + 1] == Do(c, run[i], t)
  }

  /** Packet k was received in the run. */
  ghost predicate HandledIn(c: Config, run: seq<Sys>, k: Packet) {
    exists i: nat, t: Step :: HandledAt(c, run, i, t) && t.k == k
  }

  /** p received the sender's message m at a moment when signing worked. */
  ghost predicate SignedIn(c: Config, run: seq<Sys>, p: PID, m: Payload) {
    exists i: nat, t: Step :: HandledAt(c, run, i, t) && t.k == Packet(c.sender, p, Init(m)) && t.sig.Some?
  }

  /** Each correct member could sign the sender's message, and all echoes and FINALs between correct members have been
      received. */
  ghost predicate AtRest(c: Config, run: seq<Sys>, m: Payload) {
    && run != []
    && (forall p | p in Correct(c) :: SignedIn(c, run, p, m))
    && forall k | k in run[|run| - 1].sent && k.from in Correct(c) && k.to in Correct(c) && !k.msg.Init? ::
         HandledIn(c, run, k)
  }

  /** The signatures that correct members send verify. */
  ghost predicate SignaturesWork(c: Config, s: Sys) {
    forall k | k in s.sent && k.from in Correct(c) && k.msg.SignedEcho? :: c.verify(k.from, k.msg.m, k.msg.sig)
  }

  // ---- What never changes again ----

  predicate NodeGrows(nd: Node, nd': Node) {
    && (nd.sentEcho ==> nd'.sentEcho) && (nd.sentFinal ==> nd'.sentFinal) && (nd.delivered ==> nd'.delivered)
    && nd.output <= nd'.output && nd'.self == nd.self && nd'.sender == nd.sender
    && forall r | r in nd.echos :: r in nd'.echos && nd'.echos[r] == nd.echos[r]
  }

  lemma StepGrows(c: Config, s: Sys, t: Step, p: PID)
    requires Enabled(c, s, t) && p in s.nodes
    ensures p in Do(c, s, t).nodes && NodeGrows(s.nodes[p], Do(c, s, t).nodes[p]) && s.sent <= Do(c, s, t).sent
  {
    hide FinalPick, Genuine, ValidSigners;
  }

  /** Flags, echoes and deliveries are never taken back: the first valid echo of a process is the one that counts. */
  lemma {:induction false} FirstEchoCounts(c: Config, run: seq<Sys>, i: nat, j: nat, p: PID)
    requires ValidConfig(c) && IsRun(c, run) && i <= j < |run| && p in Correct(c)
    ensures p in run[i].nodes && p in run[j].nodes && NodeGrows(run[i].nodes[p], run[j].nodes[p])
    ensures run[i].sent <= run[j].sent
    decreases j - i
  {
    hide Inv, Do, Enabled;
    RunInv(c, run, i);
    MemberOf(c, run[i], p);
    if i < j {
      FirstEchoCounts(c, run, i, j - 1, p);
      assert Next(c, run[j - 1], run[j - 1 + 1]);
      var t :| Enabled(c, run[j - 1], t) && run[j] == Do(c, run[j - 1], t);
      StepGrows(c, run[j - 1], t, p);
    }
  }

  lemma MemberOf(c: Config, s: Sys, p: PID)
    requires Inv(c, s) && p in Correct(c)
    ensures p in s.nodes && NodeOk(c, s, p)
  {
  }

  // ---- What flags stand for ----

  ghost predicate EchoSent(c: Config, s: Sys, p: PID) {
    exists m, x :: Packet(p, c.sender, SignedEcho(m, x)) in s.sent
  }

  ghost predicate FinalToAll(c: Config, s: Sys) {
    exists m, signs :: ToAll(c.procs, c.sender, Final(m, signs)) <= s.sent
  }

  ghost predicate Prompt(c: Config, s: Sys, p: PID)
    requires p in s.nodes
  {
    var nd := s.nodes[p];
    && (nd.sentEcho ==> EchoSent(c, s, p))
    && (forall r | r in nd.echos :: Packet(r, p, SignedEcho(nd.echos[r].m, nd.echos[r].sig)) in s.sent)
    && (!nd.sentFinal ==> forall m :: |Support(Inners(nd.echos), m)| < Quorum(|c.procs|, c.f) + 2)
    && (nd.sentFinal ==> p == c.sender && FinalToAll(c, s))
    && (nd.delivered ==> nd.output != [])
  }

  /** What correct members echo they have signed here, and what they announce enough members have echoed. */
  ghost predicate SentOk(c: Config, s: Sys) {
    && (forall k | k in s.sent && k.from in Correct(c) && k.msg.SignedEcho? :: Signed(k.from, k.msg.m) in s.signed)
    && forall k | k in s.sent && k.from in Correct(c) && k.msg.Final? ::
        |Echoed(c, s, k.msg.m)| >= Quorum(|c.procs|, c.f) + 2
  }

  function Echoed(c: Config, s: Sys, m: Payload): set<PID> {
    set p | p in c.procs && (p in c.byz || Signed(p, m) in s.signed)
  }

  ghost predicate AllPrompt(c: Config, s: Sys) {
    s.nodes.Keys == Correct(c) && SentOk(c, s) && forall p | p in s.nodes :: Prompt(c, s, p)
  }

  lemma EchoedGrows(c: Config, s: Sys, s': Sys, m: Payload)
    requires s.signed <= s'.signed
    ensures |Echoed(c, s, m)| <= |Echoed(c, s', m)|
  {
    SubsetCard(Echoed(c, s, m), Echoed(c, s', m));
  }

  lemma FlagsStay(c: Config, s: Sys, s': Sys, p: PID)
    requires s.sent <= s'.sent
    ensures EchoSent(c, s, p) ==> EchoSent(c, s', p)
    ensures FinalToAll(c, s) ==> FinalToAll(c, s')
  {
    if m, x :| Packet(p, c.sender,
                      SignedEcho(m, x)) in s.sent { assert Packet(p, c.sender, SignedEcho(m, x)) in s'.sent; }
    if m, signs :| ToAll(c.procs, c.sender, Final(m, signs)) <= s.sent {
      assert ToAll(c.procs, c.sender, Final(m, signs)) <= s'.sent;
    }
  }

  lemma SamePrompt(c: Config, s: Sys, s': Sys, p: PID)
    requires p in s.nodes && p in s'.nodes && Prompt(c, s, p) && s'.nodes[p] == s.nodes[p] && s.sent <= s'.sent
    ensures Prompt(c, s', p)
  {
    FlagsStay(c, s, s', p);
  }

  /** Old packets are as good as before. */
  lemma SentKept(c: Config, s: Sys, s': Sys)
    requires SentOk(c, s) && s.signed <= s'.signed
    requires forall k | k in s'.sent && k !in s.sent && k.from in Correct(c) ::
               (k.msg.SignedEcho? ==> Signed(k.from, k.msg.m) in s'.signed)
               && (k.msg.Final? ==> |Echoed(c, s', k.msg.m)| >= Quorum(|c.procs|, c.f) + 2)
    ensures SentOk(c, s')
  {
    hide Echoed;
    forall k | k in s'.sent && k.from in Correct(c) && k.msg.Final?
      ensures |Echoed(c, s', k.msg.m)| >= Quorum(|c.procs|, c.f) + 2 {
      if k in s.sent { EchoedGrows(c, s, s', k.msg.m); }
    }
  }

  lemma InitPrompt(c: Config, s: Sys, t: Step)
    requires ValidConfig(c) && Inv(c, s) && AllPrompt(c, s) && Enabled(c, s, t) && t.Receive? && t.k.msg.Init?
    ensures Prompt(c, Do(c, s, t), t.k.to) && SentOk(c, Do(c, s, t))
  {
    var s', p := Do(c, s, t), t.k.to;
    hide Inv, Support, Inners, Echoed, Genuine;
    assert Prompt(c, s, p);
    FlagsStay(c, s, s', p);
    SentKept(c, s, s');
    if s'.nodes[p].sentEcho && !s.nodes[p].sentEcho {
      assert Packet(p, c.sender, SignedEcho(t.k.msg.m, t.sig.value)) in s'.sent;
    }
  }

  lemma EchoPrompt(c: Config, s: Sys, t: Step)
    requires ValidConfig(c) && Inv(c, s) && AllPrompt(c, s) && Enabled(c, s, t) && t.Receive? && t.k.msg.SignedEcho?
    ensures Prompt(c, Do(c, s, t), t.k.to) && SentOk(c, Do(c, s, t))
  {
    assert NodeOk(c, s, t.k.to) && Prompt(c, s, t.k.to);
    EchoSentOk(c, s, t);
    hide Inv, AllPrompt, SentOk;
    EchoNode(c, s, t);
  }

  lemma EchoSentOk(c: Config, s: Sys, t: Step)
    requires ValidConfig(c) && Inv(c, s) && AllPrompt(c, s) && Enabled(c, s, t) && t.Receive? && t.k.msg.SignedEcho?
    ensures SentOk(c, Do(c, s, t))
  {
    var s', nd := Do(c, s, t), s.nodes[t.k.to];
    if OnEcho(nd, t.k.from, t.k.msg.m, t.k.msg.sig, c.verify, t.pick, t.signs).1.Some? { EnoughEchoed(c, s, t); }
    hide Inv, Genuine, Echoed, FinalPick, Prompt;
    assert s'.signed == s.signed;
    forall m ensures Echoed(c, s', m) == Echoed(c, s, m) { SameEchoed(c, s, s', m); }
    SentKept(c, s, s');
  }

  lemma SameEchoed(c: Config, s: Sys, s': Sys, m: Payload)
    requires s'.signed == s.signed
    ensures Echoed(c, s', m) == Echoed(c, s, m)
  {
  }

  lemma EchoNode(c: Config, s: Sys, t: Step)
    requires Enabled(c, s, t) && t.Receive? && t.k.msg.SignedEcho? && NodeOk(c, s, t.k.to) && Prompt(c, s, t.k.to)
    ensures Prompt(c, Do(c, s, t), t.k.to)
  {
    var s', p, nd := Do(c, s, t), t.k.to, s.nodes[t.k.to];
    FlagsStay(c, s, s', p);
    hide Genuine, Lists, EchoSent, Support, Inners;
    if OnEcho(nd, t.k.from, t.k.msg.m, t.k.msg.sig, c.verify, t.pick, t.signs).1.Some? {
      assert ToAll(c.procs, c.sender, Final(t.pick.value, t.signs)) <= s'.sent;
    }
  }

  /** What the sender picks has been echoed by a quorum. */
  lemma EnoughEchoed(c: Config, s: Sys, t: Step)
    requires ValidConfig(c) && Inv(c, s) && AllPrompt(c, s) && Enabled(c, s, t) && t.Receive? && t.k.msg.SignedEcho?
    requires OnEcho(s.nodes[t.k.to], t.k.from, t.k.msg.m, t.k.msg.sig, c.verify, t.pick, t.signs).1.Some?
    ensures t.pick.Some? && t.k.to == c.sender && |Echoed(c, s, t.pick.value)| >= Quorum(|c.procs|, c.f) + 2
  {
    var p, nd := t.k.to, s.nodes[t.k.to];
    var v, echos := t.pick.value, nd.echos[t.k.from := Echo(t.k.msg.m, t.k.msg.sig)];
    assert NodeOk(c, s, p) && Prompt(c, s, p);
    forall r | r in Support(Inners(echos), v) ensures r in Echoed(c, s, v) {
      assert Packet(r, p, SignedEcho(v, echos[r].sig)) in s.sent;
      assert PacketOk(c, s, Packet(r, p, SignedEcho(v, echos[r].sig)));
    }
    SubsetCard(Support(Inners(echos), v), Echoed(c, s, v));
  }

  lemma FinalPrompt(c: Config, s: Sys, t: Step)
    requires AllPrompt(c, s) && Enabled(c, s, t) && t.Receive? && t.k.msg.Final?
    ensures Prompt(c, Do(c, s, t), t.k.to) && SentOk(c, Do(c, s, t))
  {
    var s', p := Do(c, s, t), t.k.to;
    hide Support, Inners, Echoed, Genuine, ValidSigners;
    assert Prompt(c, s, p);
    FlagsStay(c, s, s', p);
    SentKept(c, s, s');
  }

  lemma StepPrompt(c: Config, s: Sys, t: Step)
    requires ValidConfig(c) && Inv(c, s) && AllPrompt(c, s) && Enabled(c, s, t)
    ensures AllPrompt(c, Do(c, s, t))
  {
    hide Prompt, Inv, FinalPick, Genuine, SentOk;
    var s' := Do(c, s, t);
    if t.Receive? {
      match t.k.msg
      case Init(_) => InitPrompt(c, s, t);
      case SignedEcho(_, _) => EchoPrompt(c, s, t);
      case Final(_, _) => FinalPrompt(c, s, t);
    } else {
      assert SentOk(c, s') by { SentKept(c, s, s'); }
    }
    forall p | p in s'.nodes ensures Prompt(c, s', p) {
      if !(t.Receive? && p == t.k.to) { SamePrompt(c, s, s', p); }
    }
  }

  lemma {:induction false} RunPrompt(c: Config, run: seq<Sys>, i: nat)
    requires ValidConfig(c) && IsRun(c, run) && i < |run|
    ensures AllPrompt(c, run[i])
  {
    hide AllPrompt, Inv, Do, Enabled;
    if i == 0 {
      StartPrompt(c);
    } else {
      RunPrompt(c, run, i - 1);
      RunInv(c, run, i - 1);
      assert Next(c, run[i - 1], run[i - 1 + 1]);
      var t :| Enabled(c, run[i - 1], t) && run[i] == Do(c, run[i - 1], t);
      StepPrompt(c, run[i - 1], t);
    }
  }

  lemma StartPrompt(c: Config)
    ensures AllPrompt(c, Start(c))
  {
  }

  // ---- Handled packets ----

  /** A member that has received the sender's message when signing worked has sent the sender its echo, whatever failed
      before. */
  lemma InitHandled(c: Config, run: seq<Sys>, p: PID, m: Payload)
    requires ValidConfig(c) && IsRun(c, run) && p in Correct(c) && SignedIn(c, run, p, m)
    ensures EchoSent(c, run[|run| - 1], p)
  {
    hide IsRun, Inv, Do, Enabled;
    var i: nat, t: Step :| HandledAt(c, run, i, t) && t.k == Packet(c.sender, p, Init(m)) && t.sig.Some?;
    RunInv(c, run, i);
    MemberOf(c, run[i], p);
    Flagged(c, run[i], t);
    FirstEchoCounts(c, run, i + 1, |run| - 1, p);
    RunPrompt(c, run, |run| - 1);
    assert Prompt(c, run[|run| - 1], p);
  }

  lemma Flagged(c: Config, s: Sys, t: Step)
    requires Enabled(c, s, t) && t.Receive? && t.k.msg.Init? && t.sig.Some? && NodeOk(c, s, t.k.to)
    requires t.k.from == c.sender
    ensures Do(c, s, t).nodes[t.k.to].sentEcho
  {
    hide Genuine;
  }

  /** The sender counts every valid echo that it has received. */
  lemma EchoHandled(c: Config, run: seq<Sys>, r: PID, m: Payload, x: Signature)
    requires ValidConfig(c) && IsRun(c, run) && c.sender in Correct(c) && c.verify(r, m, x)
    requires HandledIn(c, run, Packet(r, c.sender, SignedEcho(m, x)))
    ensures c.sender in run[|run| - 1].nodes && r in run[|run| - 1].nodes[c.sender].echos
  {
    hide IsRun, Inv, Do, Enabled;
    var i: nat, t: Step :| HandledAt(c, run, i, t) && t.k == Packet(r, c.sender, SignedEcho(m, x));
    RunInv(c, run, i);
    MemberOf(c, run[i], c.sender);
    Counted(c, run[i], t);
    FirstEchoCounts(c, run, i + 1, |run| - 1, c.sender);
  }

  lemma Counted(c: Config, s: Sys, t: Step)
    requires Enabled(c, s, t) && t.Receive? && t.k.msg.SignedEcho? && NodeOk(c, s, t.k.to) && t.k.to == c.sender
    requires c.verify(t.k.from, t.k.msg.m, t.k.msg.sig)
    ensures t.k.to in Do(c, s, t).nodes && t.k.from in Do(c, s, t).nodes[t.k.to].echos
  {
    hide Genuine, FinalPick;
  }

  /** A member that has received the sender's FINAL for a payload that decodes has delivered. */
  lemma FinalHandled(c: Config, run: seq<Sys>, q: PID, m: Payload, signs: seq<Sign>)
    requires ValidConfig(c) && IsRun(c, run) && c.sender in Correct(c) && q in Correct(c) && c.decodes(m)
    requires HandledIn(c, run, Packet(c.sender, q, Final(m, signs)))
    ensures q in run[|run| - 1].nodes && run[|run| - 1].nodes[q].delivered
  {
    hide IsRun, Inv, Do, Enabled;
    var i: nat, t: Step :| HandledAt(c, run, i, t) && t.k == Packet(c.sender, q, Final(m, signs));
    RunInv(c, run, i);
    MemberOf(c, run[i], q);
    assert t.k in run[i].sent by { WasSent(c, run[i], t); }
    Delivers(c, run, i, t);
    FirstEchoCounts(c, run, i + 1, |run| - 1, q);
  }

  lemma WasSent(c: Config, s: Sys, t: Step)
    requires Enabled(c, s, t) && t.Receive?
    ensures t.k in s.sent && t.k.to in s.nodes
  {
    hide FinalPick, Genuine;
  }

  lemma Delivers(c: Config, run: seq<Sys>, i: nat, t: Step)
    requires ValidConfig(c) && IsRun(c, run) && i < |run| && Enabled(c, run[i], t) && t.Receive? && t.k.msg.Final?
    requires t.k.from in Correct(c) && t.k.to in Correct(c) && c.decodes(t.k.msg.m)
    ensures t.k.to in Do(c, run[i], t).nodes && Do(c, run[i], t).nodes[t.k.to].delivered
  {
    hide IsRun, ValidSigners, Genuine;
    if !run[i].nodes[t.k.to].delivered { FinalsWork(c, run, i, t.k, t.k.to); }
  }

  // ---- Validity ----

  lemma OnlyBroadcast(c: Config, s: Sys, m: Payload, v: Payload)
    requires ValidConfig(c) && Inv(c, s) && c.sender in Correct(c) && s.bcast == {m}
    requires |Echoed(c, s, v)| >= Quorum(|c.procs|, c.f) + 2
    ensures v == m
  {
    SubsetCard(c.byz, c.procs);
    var r := OneOutside(Echoed(c, s, v), c.byz);
    assert Signed(r, v) in s.signed;
  }

  /** Every correct member's echo is counted by the sender, and for the one payload there is. */
  lemma AllCounted(c: Config, run: seq<Sys>, m: Payload)
    requires ValidConfig(c) && IsRun(c, run) && AtRest(c, run, m) && SignaturesWork(c, run[|run| - 1])
    requires c.sender in Correct(c) && run[|run| - 1].bcast == {m}
    ensures c.sender in run[|run| - 1].nodes
    ensures Correct(c) <= Support(Inners(run[|run| - 1].nodes[c.sender].echos), m)
  {
    hide IsRun, Inv, HandledIn, SignedIn;
    var s := run[|run| - 1];
    RunInv(c, run, |run| - 1);
    RunPrompt(c, run, |run| - 1);
    MemberOf(c, s, c.sender);
    forall r | r in Correct(c) ensures r in Support(Inners(s.nodes[c.sender].echos), m) {
      InitHandled(c, run, r, m);
      var v, x :| Packet(r, c.sender, SignedEcho(v, x)) in s.sent;
      EchoHandled(c, run, r, v, x);
      EchoIsBroadcast(c, s, r, m);
    }
  }

  lemma EchoIsBroadcast(c: Config, s: Sys, r: PID, m: Payload)
    requires Inv(c, s) && AllPrompt(c, s) && c.sender in Correct(c) && s.bcast == {m} && r in Correct(c)
    requires c.sender in s.nodes && r in s.nodes[c.sender].echos
    ensures s.nodes[c.sender].echos[r].m == m
  {
    assert Prompt(c, s, c.sender);
    assert Signed(r, s.nodes[c.sender].echos[r].m) in s.signed;
  }

  /** Validity: in a group of at least 3f + 3 in which no payload has a quorum of signatures from elsewhere, once each
      correct member could sign and all echoes and FINALs between correct members are handled, the single message of a
      correct sender has been delivered by every correct member. */
  lemma Validity(c: Config, run: seq<Sys>, m: Payload, q: PID)
    requires ValidConfig(c) && IsRun(c, run) && AtRest(c, run, m) && SignaturesWork(c, run[|run| - 1])
    requires |c.procs| >= 3 * c.f + 3 && c.sender in Correct(c) && run[|run| - 1].bcast == {m} && c.decodes(m)
    requires q in Correct(c) && forall v :: |Abroad(c, v)| <= Quorum(|c.procs|, c.f)
    ensures q in run[|run| - 1].nodes && run[|run| - 1].nodes[q].output == [m]
  {
    hide IsRun, Inv, HandledIn, SignedIn, Abroad, Splittable;
    var s := run[|run| - 1];
    RunInv(c, run, |run| - 1);
    RunPrompt(c, run, |run| - 1);
    AllCounted(c, run, m);
    FinalOut(c, s, m);
    var v, signs :| ToAll(c.procs, c.sender, Final(v, signs)) <= s.sent;
    assert Packet(c.sender, q, Final(v, signs)) in ToAll(c.procs, c.sender, Final(v, signs));
    FinalIsBroadcast(c, s, Packet(c.sender, q, Final(v, signs)), m);
    FinalHandled(c, run, q, v, signs);
    assert Prompt(c, s, q);
    ConsistencyAmong(c, run, |run| - 1, |run| - 1, q, q);
    var o := s.nodes[q].output[0];
    assert o in s.nodes[q].output;
    assert |Abroad(c, o)| <= Quorum(|c.procs|, c.f);
    assert o in s.bcast;
  }

  lemma FinalIsBroadcast(c: Config, s: Sys, k: Packet, m: Payload)
    requires ValidConfig(c) && Inv(c, s) && AllPrompt(c, s) && c.sender in Correct(c) && s.bcast == {m}
    requires k in s.sent && k.from in Correct(c) && k.msg.Final?
    ensures k.msg.m == m
  {
    hide Inv, Echoed;
    OnlyBroadcast(c, s, m, k.msg.m);
  }

  /** A sender that counts all correct members has sent its FINAL. */
  lemma FinalOut(c: Config, s: Sys, m: Payload)
    requires ValidConfig(c) && AllPrompt(c, s) && |c.procs| >= 3 * c.f + 3 && c.sender in Correct(c)
    requires Correct(c) <= Support(Inners(s.nodes[c.sender].echos), m)
    ensures FinalToAll(c, s)
  {
    hide Support, Inners, FinalToAll, EchoSent;
    SubsetCard(Correct(c), Support(Inners(s.nodes[c.sender].echos), m));
    SubsetCard(c.byz, c.procs);
    assert c.procs == Correct(c) + c.byz;
    assert Prompt(c, s, c.sender);
  }
}

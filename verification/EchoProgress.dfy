/** Progress of echo broadcast: what handled packets lead to, and validity once all packets are handled. */
module EchoProgress {
  import opened Common
  import opened Tally
  import opened EchoBroadcast
  import opened EchoSystem

  /** Packet k was received in the run. */
  ghost predicate HandledIn(c: Config, run: seq<Sys>, k: Packet) {
    exists i: nat, pick :: HandledAt(c, run, i, k, pick)
  }

  ghost predicate HandledAt(c: Config, run: seq<Sys>, i: nat, k: Packet, pick: Option<Payload>) {
    i < |run| - 1 && Enabled(c, run[i], Receive(k, pick)) && run[i + 1] == Do(c, run[i], Receive(k, pick))
  }

  /** All that correct members have sent to each other has been received. */
  ghost predicate AtRest(c: Config, run: seq<Sys>) {
    run != [] && forall k | k in run[|run| - 1].sent && k.from in Correct(c) && k.to in Correct(c) ::
        HandledIn(c, run, k)
  }

  // ---- What never changes again ----

  predicate NodeGrows(nd: Node, nd': Node) {
    && (nd.sentEcho ==> nd'.sentEcho) && (nd.delivered ==> nd'.delivered) && nd.output <= nd'.output
    && forall r | r in nd.echos :: r in nd'.echos && nd'.echos[r] == nd.echos[r]
  }

  lemma StepGrows(c: Config, s: Sys, t: Step, p: PID)
    requires Enabled(c, s, t) && p in s.nodes
    ensures p in Do(c, s, t).nodes && NodeGrows(s.nodes[p], Do(c, s, t).nodes[p])
    ensures s.sent <= Do(c, s, t).sent && s.bcast <= Do(c, s, t).bcast
  {
    hide EchoPick;
  }

  /** Flags, echoes and deliveries are never taken back: the first echo of a process is the one that counts. */
  lemma {:induction false} FirstEchoCounts(c: Config, run: seq<Sys>, i: nat, j: nat, p: PID)
    requires ValidConfig(c) && IsRun(c, run) && i <= j < |run| && p in Correct(c)
    ensures p in run[i].nodes && p in run[j].nodes && NodeGrows(run[i].nodes[p], run[j].nodes[p])
    ensures run[i].sent <= run[j].sent && run[i].bcast <= run[j].bcast
    decreases j - i
  {
    hide Inv, Do, Enabled;
    RunInv(c, run, i);
    MemberOf(c, run[i], p);
    if i < j {
      FirstEchoCounts(c, run, i, j - 1, p);
      assert Next(c, run[j - 1], run[j - 1 + 1]);
      var t :| Enabled(c, run[j - 1], t) && run[j] == Do(c, run[j - 1], t);
      StepGrows(c, run[j - 1], t, p);
    }
  }

  lemma MemberOf(c: Config, s: Sys, p: PID)
    requires Inv(c, s) && p in Correct(c)
    ensures p in s.nodes && NodeOk(c, s, p)
  {
  }

  // ---- What flags stand for ----

  ghost predicate EchoedToAll(c: Config, s: Sys, p: PID) {
    exists m :: ToAll(c.procs, p, Echo(m)) <= s.sent
  }

  /** Some payload had its quorum when the member delivered. */
  ghost predicate Chose(c: Config, s: Sys, p: PID, m: Payload)
    requires p in s.nodes
  {
    && |Echoers(c, s, m)| >= Quorum(|c.procs|, c.f) + 2
    && s.nodes[p].output == if c.decodes(m) then [m] else []
  }

  /** Undelivered: no payload has its quorum yet. */
  ghost predicate Prompt(c: Config, s: Sys, p: PID)
    requires p in s.nodes
  {
    var nd := s.nodes[p];
    && (nd.sentEcho ==> EchoedToAll(c, s, p))
    && (!nd.delivered ==> nd.output == [] && forall m :: |Support(nd.echos, m)| < Quorum(|c.procs|, c.f) + 2)
    && (nd.delivered ==> exists m :: Chose(c, s, p, m))
  }

  ghost predicate AllPrompt(c: Config, s: Sys) {
    s.nodes.Keys == Correct(c) && forall p | p in s.nodes :: Prompt(c, s, p)
  }

  lemma ChoiceStays(c: Config, s: Sys, s': Sys, p: PID, m: Payload)
    requires p in s.nodes && p in s'.nodes && Chose(c, s, p, m) && s.sent <= s'.sent
    requires s'.nodes[p].output == s.nodes[p].output
    ensures Chose(c, s', p, m)
  {
    EchoersGrow(c, s, s', m);
  }

  lemma SamePrompt(c: Config, s: Sys, s': Sys, p: PID)
    requires p in s.nodes && p in s'.nodes && Prompt(c, s, p) && s'.nodes[p] == s.nodes[p] && s.sent <= s'.sent
    ensures Prompt(c, s', p)
  {
    hide Echoers;
    if s.nodes[p].sentEcho {
      var m :| ToAll(c.procs, p, Echo(m)) <= s.sent;
      assert ToAll(c.procs, p, Echo(m)) <= s'.sent;
    }
    if s.nodes[p].delivered {
      var m :| Chose(c, s, p, m);
      ChoiceStays(c, s, s', p, m);
    }
  }

  lemma InitPrompt(c: Config, s: Sys, k: Packet, pick: Option<Payload>)
    requires Enabled(c, s, Receive(k, pick)) && k.msg.Init? && Prompt(c, s, k.to)
    ensures Prompt(c, Do(c, s, Receive(k, pick)), k.to)
  {
    var s', p := Do(c, s, Receive(k, pick)), k.to;
    hide Echoers;
    if s'.nodes[p].sentEcho {
      if s.nodes[p].sentEcho {
        var m :| ToAll(c.procs, p, Echo(m)) <= s.sent;
        assert ToAll(c.procs, p, Echo(m)) <= s'.sent;
      } else {
        assert ToAll(c.procs, p, Echo(k.msg.m)) <= s'.sent;
      }
    }
    if s'.nodes[p].delivered {
      var m :| Chose(c, s, p, m);
      ChoiceStays(c, s, s', p, m);
    }
  }

  lemma EchoPrompt(c: Config, s: Sys, k: Packet, pick: Option<Payload>)
    requires ValidConfig(c) && Inv(c, s) && Enabled(c, s, Receive(k, pick)) && k.msg.Echo? && Prompt(c, s, k.to)
    ensures Prompt(c, Do(c, s, Receive(k, pick)), k.to)
  {
    var s', p, nd := Do(c, s, Receive(k, pick)), k.to, s.nodes[k.to];
    hide Echoers, Inv;
    assert NodeOk(c, s, p) by { NodeOf(c, s, p); }
    if s'.nodes[p].sentEcho {
      var m :| ToAll(c.procs, p, Echo(m)) <= s.sent;
      assert ToAll(c.procs, p, Echo(m)) <= s'.sent;
    }
    if nd.delivered {
      var m :| Chose(c, s, p, m);
      ChoiceStays(c, s, s', p, m);
    } else if pick.Some? {
      Counted(c, s, k, pick.value);
      assert Chose(c, s', p, pick.value);
    }
  }

  lemma NodeOf(c: Config, s: Sys, p: PID)
    requires Inv(c, s) && p in s.nodes
    ensures NodeOk(c, s, p) && p in Correct(c)
  {
  }

  /** Who is counted has sent the echo. */
  lemma Counted(c: Config, s: Sys, k: Packet, m: Payload)
    requires Inv(c, s) && k in s.sent && k.to in s.nodes && k.msg.Echo?
    ensures |Support(Record(s.nodes[k.to].echos, k.from, k.msg.m), m)| <= |Echoers(c, s, m)|
  {
    var echos := Record(s.nodes[k.to].echos, k.from, k.msg.m);
    assert NodeOk(c, s, k.to);
    forall r | r in Support(echos, m) ensures r in Echoers(c, s, m) {
      assert Packet(r, k.to, Echo(m)) in s.sent;
      assert PacketOk(c, s, Packet(r, k.to, Echo(m)));
    }
    SubsetCard(Support(echos, m), Echoers(c, s, m));
  }

  lemma StepPrompt(c: Config, s: Sys, t: Step)
    requires ValidConfig(c) && Inv(c, s) && AllPrompt(c, s) && Enabled(c, s, t)
    ensures AllPrompt(c, Do(c, s, t))
  {
    hide Prompt, Inv, EchoPick;
    var s' := Do(c, s, t);
    forall p | p in s'.nodes ensures Prompt(c, s', p) {
      if t.Receive? && p == t.k.to {
        if t.k.msg.Init? { InitPrompt(c, s, t.k, t.pick); } else { EchoPrompt(c, s, t.k, t.pick); }
      } else {
        SamePrompt(c, s, s', p);
      }
    }
  }

  lemma {:induction false} RunPrompt(c: Config, run: seq<Sys>, i: nat)
    requires ValidConfig(c) && IsRun(c, run) && i < |run|
    ensures AllPrompt(c, run[i])
  {
    hide AllPrompt, Inv, Do, Enabled;
    if i == 0 {
      StartPrompt(c);
    } else {
      RunPrompt(c, run, i - 1);
      RunInv(c, run, i - 1);
      assert Next(c, run[i - 1], run[i - 1 + 1]);
      var t :| Enabled(c, run[i - 1], t) && run[i] == Do(c, run[i - 1], t);
      StepPrompt(c, run[i - 1], t);
    }
  }

  lemma StartPrompt(c: Config)
    ensures AllPrompt(c, Start(c))
  {
  }

  // ---- Handled packets ----

  /** A member that has received the sender's message has echoed to everybody. */
  lemma InitHandled(c: Config, run: seq<Sys>, p: PID, m: Payload)
    requires ValidConfig(c) && IsRun(c, run) && p in Correct(c) && HandledIn(c, run, Packet(c.sender, p, Init(m)))
    ensures EchoedToAll(c, run[|run| - 1], p)
  {
    hide IsRun, Inv, Do, Enabled;
    var i: nat, pick :| HandledAt(c, run, i, Packet(c.sender, p, Init(m)), pick);
    RunInv(c, run, i);
    MemberOf(c, run[i], p);
    Flagged(c, run[i], Packet(c.sender, p, Init(m)), pick);
    FirstEchoCounts(c, run, i + 1, |run| - 1, p);
    RunPrompt(c, run, |run| - 1);
  }

  lemma Flagged(c: Config, s: Sys, k: Packet, pick: Option<Payload>)
    requires Enabled(c, s, Receive(k, pick)) && k.msg.Init? && NodeOk(c, s, k.to) && k.from == c.sender
    ensures Do(c, s, Receive(k, pick)).nodes[k.to].sentEcho
  {
  }

  /** A member that has received an echo of r counts r. */
  lemma EchoHandled(c: Config, run: seq<Sys>, r: PID, q: PID, m: Payload)
    requires ValidConfig(c) && IsRun(c, run) && q in Correct(c) && HandledIn(c, run, Packet(r, q, Echo(m)))
    ensures q in run[|run| - 1].nodes && r in run[|run| - 1].nodes[q].echos
  {
    hide IsRun, Inv, Do, Enabled;
    var i: nat, pick :| HandledAt(c, run, i, Packet(r, q, Echo(m)), pick);
    FirstEchoCounts(c, run, i + 1, |run| - 1, q);
    Counts(c, run[i], Packet(r, q, Echo(m)), pick);
  }

  lemma Counts(c: Config, s: Sys, k: Packet, pick: Option<Payload>)
    requires Enabled(c, s, Receive(k, pick)) && k.msg.Echo?
    ensures k.to in Do(c, s, Receive(k, pick)).nodes && k.from in Do(c, s, Receive(k, pick)).nodes[k.to].echos
  {
    hide EchoPick;
  }

  lemma OnlyBroadcast(c: Config, s: Sys, r: PID, q: PID, v: Payload, m: Payload)
    requires Inv(c, s) && c.sender in Correct(c) && s.bcast == {m} && r in Correct(c) && Packet(r, q, Echo(v)) in s.sent
    ensures v == m
  {
    assert PacketOk(c, s, Packet(r, q, Echo(v)));
  }

  /** Everybody who echoed is counted, and for the one payload there is. */
  lemma AllCounted(c: Config, run: seq<Sys>, m: Payload, q: PID)
    requires ValidConfig(c) && IsRun(c, run) && AtRest(c, run) && q in Correct(c)
    requires c.sender in Correct(c) && run[|run| - 1].bcast == {m}
    requires forall p | p in Correct(c) :: EchoedToAll(c, run[|run| - 1], p)
    ensures q in run[|run| - 1].nodes && Correct(c) <= Support(run[|run| - 1].nodes[q].echos, m)
  {
    hide IsRun, Inv, HandledIn;
    var s := run[|run| - 1];
    RunInv(c, run, |run| - 1);
    MemberOf(c, s, q);
    forall r | r in Correct(c) ensures r in Support(s.nodes[q].echos, m) {
      var v :| ToAll(c.procs, r, Echo(v)) <= s.sent;
      assert Packet(r, q, Echo(v)) in ToAll(c.procs, r, Echo(v));
      EchoHandled(c, run, r, q, v);
      OnlyBroadcast(c, s, r, q, s.nodes[q].echos[r], m);
    }
  }

  /** Validity: in a group of at least 3f + 3, once all packets between correct members are handled, the single message
      of a correct sender has been delivered by every correct member. */
  lemma Validity(c: Config, run: seq<Sys>, m: Payload, q: PID)
    requires ValidConfig(c) && IsRun(c, run) && AtRest(c, run) && |c.procs| >= 3 * c.f + 3 && q in Correct(c)
    requires c.sender in Correct(c) && run[|run| - 1].bcast == {m} && c.decodes(m)
    ensures q in run[|run| - 1].nodes && run[|run| - 1].nodes[q].output == [m]
  {
    hide IsRun, Inv, HandledIn, EchoedToAll, AllPrompt;
    var s := run[|run| - 1];
    RunInv(c, run, |run| - 1);
    RunPrompt(c, run, |run| - 1);
    SentToEach(c, run, m);
    forall p | p in Correct(c) ensures EchoedToAll(c, s, p) {
      assert HandledIn(c, run, Packet(c.sender, p, Init(m)));
      InitHandled(c, run, p, m);
    }
    AllCounted(c, run, m, q);
    hide AtRest;
    CountedDelivers(c, s, m, q);
  }

  /** A member that counts all correct members for m has delivered it. */
  lemma CountedDelivers(c: Config, s: Sys, m: Payload, q: PID)
    requires ValidConfig(c) && Inv(c, s) && AllPrompt(c, s) && |c.procs| >= 3 * c.f + 3 && q in Correct(c)
    requires c.sender in Correct(c) && s.bcast == {m} && c.decodes(m)
    requires q in s.nodes && Correct(c) <= Support(s.nodes[q].echos, m)
    ensures s.nodes[q].output == [m]
  {
    hide Inv, Support, Echoers, EchoedToAll;
    SubsetCard(Correct(c), Support(s.nodes[q].echos, m));
    SubsetCard(c.byz, c.procs);
    assert c.procs == Correct(c) + c.byz;
    assert s.nodes[q].delivered by { assert Prompt(c, s, q); }
    var v :| Chose(c, s, q, v);
    QuorumBroadcast(c, s, v);
  }

  /** What the sender was asked to broadcast is on its way to everybody. */
  lemma SentToEach(c: Config, run: seq<Sys>, m: Payload)
    requires ValidConfig(c) && IsRun(c, run) && c.sender in Correct(c) && m in run[|run| - 1].bcast
    ensures ToAll(c.procs, c.sender, Init(m)) <= run[|run| - 1].sent
    ensures forall p | p in Correct(c) :: Packet(c.sender, p, Init(m)) in run[|run| - 1].sent
  {
    BcastSent(c, run, |run| - 1, m);
    forall p | p in Correct(c) ensures Packet(c.sender, p, Init(m)) in run[|run| - 1].sent {
      assert Packet(c.sender, p, Init(m)) in ToAll(c.procs, c.sender, Init(m));
    }
  }

  lemma {:induction false} BcastSent(c: Config, run: seq<Sys>, i: nat, m: Payload)
    requires IsRun(c, run) && i < |run| && m in run[i].bcast
    ensures ToAll(c.procs, c.sender, Init(m)) <= run[i].sent
  {
    hide EchoPick, Handle;
    if i > 0 {
      assert Next(c, run[i - 1], run[i - 1 + 1]);
      if m in run[i - 1].bcast { BcastSent(c, run, i - 1, m); }
    }
  }
}

/** Signed echo broadcast when keys are shared with other instances: exactly when its guarantees survive, and a run of
    two instances in which they do not. */
module SignedEchoReplay {
  import opened Common
  import opened Tally
  import opened SignedEcho
  import opened SignedEchoSystem

  type Signer = (PID, Payload) -> Signature

  /** Every member can sign, and a signature fits its signer and its payload only. */
  ghost predicate Scheme(c: Config, sign: Signer) {
    && (forall p, m | p in c.procs :: c.verify(p, m, sign(p, m)))
    && forall p, m, r, v :: c.verify(r, v, sign(p, m)) ==> r == p && v == m
  }

  ghost predicate Reach(c: Config, s: Sys) {
    exists run :: IsRun(c, run) && run[|run| - 1] == s
  }

  lemma RunTo(c: Config, s: Sys) returns (run: seq<Sys>)
    requires Reach(c, s)
    ensures IsRun(c, run) && run != [] && run[|run| - 1] == s
  {
    run :| IsRun(c, run) && run[|run| - 1] == s;
  }

  lemma Go(c: Config, s: Sys, t: Step)
    requires Reach(c, s) && Enabled(c, s, t)
    ensures Reach(c, Do(c, s, t))
  {
    hide Do, Enabled, Start;
    var run := RunTo(c, s);
    assert Next(c, s, Do(c, s, t));
    hide Next;
    assert IsRun(c, run + [Do(c, s, t)]);
  }

  lemma StartReached(c: Config)
    ensures Reach(c, Start(c))
  {
    hide Start;
    assert IsRun(c, [Start(c)]);
  }

  // ---- Gathering signatures ----

  /** The members of done have signed; nothing else has happened at any member. */
  predicate Untouched(c: Config, s: Sys, done: set<PID>) {
    && s.nodes.Keys == Correct(c)
    && forall r | r in s.nodes :: s.nodes[r] == NewNode(r, c.sender, |c.procs|, c.f).(sentEcho := r in done)
  }

  /** The sender's message for r is on its way: a correct sender broadcasts it, a Byzantine one sends it. */
  lemma Offer(c: Config, s: Sys, m: Payload, r: PID) returns (s': Sys)
    requires ValidConfig(c) && Reach(c, s) && r in c.procs && s.nodes.Keys == Correct(c)
    ensures Reach(c, s') && Packet(c.sender, r, Init(m)) in s'.sent
    ensures s' == s.(sent := s'.sent, bcast := s'.bcast) && s'.bcast <= s.bcast + {m}
  {
    hide Reach;
    if c.sender in Correct(c) {
      Go(c, s, Broadcast(m));
      s' := Do(c, s, Broadcast(m));
    } else {
      var k := Packet(c.sender, r, Init(m));
      Go(c, s, Forge(k));
      s' := Do(c, s, Forge(k));
    }
  }

  lemma SignOne(c: Config, s: Sys, sign: Signer, m: Payload, r: PID, done: set<PID>) returns (s': Sys)
    requires ValidConfig(c) && Scheme(c, sign) && Reach(c, s) && Untouched(c, s, done) && r in Correct(c) && r !in done
    ensures Reach(c, s') && Untouched(c, s', done + {r}) && s'.signed == s.signed + {Signed(r, m)}
    ensures s'.bcast <= s.bcast + {m}
  {
    hide Reach;
    var s1 := Offer(c, s, m, r);
    var t := Receive(Packet(c.sender, r, Init(m)), Some(sign(r, m)), None, []);
    Go(c, s1, t);
    s' := Do(c, s1, t);
  }

  lemma {:induction false} SignAll(c: Config, s: Sys, sign: Signer, m: Payload, a: set<PID>, done: set<PID>)
    returns (s': Sys)
    requires ValidConfig(c) && Scheme(c, sign) && Reach(c, s) && Untouched(c, s, done) && a <= Correct(c) && a !! done
    ensures Reach(c, s') && Untouched(c, s', done + a) && s.signed <= s'.signed
    ensures forall r | r in a :: Signed(r, m) in s'.signed
    ensures s'.bcast <= s.bcast + {m}
    decreases |a|
  {
    hide Reach, Scheme, ValidConfig;
    if a == {} {
      assert done + a == done;
      s' := s;
    } else {
      var r := OneOutside(a, {});
      assert |a - {r}| == |a| - 1 && done + {r} + (a - {r}) == done + a;
      var s1 := SignOne(c, s, sign, m, r, done);
      s' := SignAll(c, s1, sign, m, a - {r}, done + {r});
    }
  }

  // ---- Using them ----

  lemma {:induction false} Listed(sign: Signer, m: Payload, ps: set<PID>) returns (signs: seq<Sign>)
    ensures forall x | x in signs :: x.pid in ps && x.sig == sign(x.pid, m)
    ensures forall p | p in ps :: Sign(p, sign(p, m)) in signs
    decreases |ps|
  {
    signs := [];
    if ps != {} {
      var p := OneOutside(ps, {});
      assert |ps - {p}| == |ps| - 1;
      var rest := Listed(sign, m, ps - {p});
      signs := rest + [Sign(p, sign(p, m))];
    }
  }

  lemma ListedValid(c: Config, sign: Signer, m: Payload, ps: set<PID>, signs: seq<Sign>)
    requires Scheme(c, sign) && ps <= c.procs
    requires forall x | x in signs :: x.pid in ps && x.sig == sign(x.pid, m)
    requires forall p | p in ps :: Sign(p, sign(p, m)) in signs
    ensures ValidSigners(c.verify, m, signs) == ps
  {
    forall p | p in ps ensures p in ValidSigners(c.verify, m, signs) {
      assert Sign(p, sign(p, m)).pid == p;
    }
  }

  /** x sends p a FINAL of m with signatures of ps, and p delivers. */
  lemma Final1(c: Config, s: Sys, sign: Signer, m: Payload, ps: set<PID>, x: PID, p: PID) returns (s': Sys)
    requires Scheme(c, sign) && Reach(c, s) && x in c.byz && p in c.procs && p in s.nodes
    requires ps <= c.procs && |ps| > Quorum(|c.procs|, c.f) && c.decodes(m)
    requires forall r | r in ps && r in Correct(c) :: Signed(r, m) in s.signed + c.elsewhere
    requires !s.nodes[p].delivered && s.nodes[p].n == |c.procs| && s.nodes[p].faults == c.f
    ensures Reach(c, s') && s'.signed == s.signed && s'.bcast == s.bcast
    ensures s'.nodes == s.nodes[p := s.nodes[p].(delivered := true, output := s.nodes[p].output + [m])]
  {
    hide Reach, ValidSigners;
    var signs := Listed(sign, m, ps);
    ListedValid(c, sign, m, ps, signs);
    var k := Packet(x, p, Final(m, signs));
    Go(c, s, Forge(k));
    var s1 := Do(c, s, Forge(k));
    var t := Receive(k, None, None, []);
    Go(c, s1, t);
    s' := Do(c, s1, t);
  }

  /** If two payloads can gather a quorum each, one Byzantine member makes two members deliver one each. */
  lemma Split(c: Config, sign: Signer, m: Payload, a: set<PID>, m': Payload, b: set<PID>, x: PID, p: PID, q: PID)
    returns (s: Sys)
    requires ValidConfig(c) && Scheme(c, sign) && Splits(c, m, a, m', b) && x in c.byz
    requires p in Correct(c) && q in Correct(c) && p != q
    ensures Reach(c, s) && p in s.nodes && q in s.nodes && s.nodes[p].output == [m] && s.nodes[q].output == [m']
    ensures (a == {} ==> s.bcast <= {m'}) && (b == {} ==> s.bcast <= {m})
  {
    var s2 := BothSigned(c, sign, m, a, m', b);
    hide Reach, Scheme, Abroad;
    Covered(c, s2, m, a);
    Covered(c, s2, m', b);
    hide Untouched, ValidConfig;
    assert p in s2.nodes && q in s2.nodes && Fresh(c, s2, p) && Fresh(c, s2, q) by { UntouchedFresh(c, s2, a + b); }
    var s3 := Final1(c, s2, sign, m, Abroad(c, m) + a, x, p);
    s := Final1(c, s3, sign, m', Abroad(c, m') + b, x, q);
  }

  predicate Fresh(c: Config, s: Sys, p: PID) {
    && p in s.nodes && p in c.procs && !s.nodes[p].delivered && s.nodes[p].output == []
    && s.nodes[p].n == |c.procs| && s.nodes[p].faults == c.f
  }

  lemma UntouchedFresh(c: Config, s: Sys, done: set<PID>)
    requires Untouched(c, s, done)
    ensures forall p | p in Correct(c) :: Fresh(c, s, p)
  {
  }

  /** All that can have a signature on m, with those that have signed it here. */
  lemma Covered(c: Config, s: Sys, m: Payload, a: set<PID>)
    requires a <= Correct(c) && forall r | r in a :: Signed(r, m) in s.signed
    ensures Abroad(c, m) + a <= c.procs
    ensures forall r | r in Abroad(c, m) + a && r in Correct(c) :: Signed(r, m) in s.signed + c.elsewhere
  {
  }

  lemma BothSigned(c: Config, sign: Signer, m: Payload, a: set<PID>, m': Payload, b: set<PID>) returns (s: Sys)
    requires ValidConfig(c) && Scheme(c, sign) && a <= Correct(c) && b <= Correct(c) && a !! b
    ensures Reach(c, s) && Untouched(c, s, a + b)
    ensures forall r | r in a :: Signed(r, m) in s.signed
    ensures forall r | r in b :: Signed(r, m') in s.signed
    ensures (a == {} ==> s.bcast <= {m'}) && (b == {} ==> s.bcast <= {m})
  {
    hide Reach, Scheme, ValidConfig;
    StartReached(c);
    var s0 := Start(c);
    assert Untouched(c, s0, {});
    hide Untouched;
    var s1 := SignSome(c, s0, sign, m, a, {});
    assert {} + a == a;
    s := SignSome(c, s1, sign, m', b, a);
  }

  lemma SignSome(c: Config, s: Sys, sign: Signer, m: Payload, a: set<PID>, done: set<PID>) returns (s': Sys)
    requires ValidConfig(c) && Scheme(c, sign) && Reach(c, s) && Untouched(c, s, done) && a <= Correct(c) && a !! done
    ensures Reach(c, s') && Untouched(c, s', done + a) && s.signed <= s'.signed
    ensures forall r | r in a :: Signed(r, m) in s'.signed
    ensures s'.bcast <= s.bcast + {m} && (a == {} ==> s'.bcast <= s.bcast)
  {
    hide Reach, Scheme, ValidConfig;
    if a == {} {
      assert done + a == done;
      s' := s;
    } else {
      s' := SignAll(c, s, sign, m, a, done);
    }
  }

  // ---- Without Byzantine members ----

  /** Nobody misbehaves: all FINALs are the sender's one, and what is echoed was broadcast. */
  predicate OneFinal(c: Config, s: Sys) {
    && (forall k | k in s.sent && k.msg.Final? ::
          c.sender in s.nodes && s.nodes[c.sender].sentFinal && k.msg.m in s.bcast)
    && (forall j, k | j in s.sent && k in s.sent && j.msg.Final? && k.msg.Final? :: j.msg.m == k.msg.m)
    && (forall k | k in s.sent && k.msg.SignedEcho? :: k.msg.m in s.bcast)
    && (forall p, r | p in s.nodes && r in s.nodes[p].echos :: s.nodes[p].echos[r].m in s.bcast)
  }

  /** Every delivery is that of a FINAL. */
  ghost predicate OutputsSent(s: Sys) {
    forall p, m | p in s.nodes && m in s.nodes[p].output :: FinalSent(s, m)
  }

  ghost predicate FinalSent(s: Sys, m: Payload) {
    exists k :: k in s.sent && k.msg.Final? && k.msg.m == m
  }

  lemma FinalStays(s: Sys, s': Sys, m: Payload)
    requires FinalSent(s, m) && s.sent <= s'.sent
    ensures FinalSent(s', m)
  {
  }

  lemma QuietOutputs(c: Config, s: Sys, t: Step)
    requires OutputsSent(s) && Enabled(c, s, t)
    ensures OutputsSent(Do(c, s, t))
  {
    hide FinalPick, Genuine, FinalSent, ValidSigners;
    var s' := Do(c, s, t);
    forall p, m | p in s'.nodes && m in s'.nodes[p].output ensures FinalSent(s', m) {
      if m in s.nodes[p].output {
        FinalStays(s, s', m);
      } else {
        assert t.k in s'.sent && t.k.msg.Final? && t.k.msg.m == m;
        SentFinal(s', t.k);
      }
    }
  }

  lemma SentFinal(s: Sys, k: Packet)
    requires k in s.sent && k.msg.Final?
    ensures FinalSent(s, k.msg.m)
  {
  }

  lemma QuietStep(c: Config, s: Sys, t: Step)
    requires ValidConfig(c) && c.byz == {} && Inv(c, s) && OneFinal(c, s) && Enabled(c, s, t)
    ensures OneFinal(c, Do(c, s, t))
  {
    hide Genuine, Unforged, ValidSigners, SignedOk;
    if t.Receive? {
      assert NodeOk(c, s, t.k.to) && PacketOk(c, s, t.k);
      match t.k.msg
      case Init(_) => QuietInit(c, s, t);
      case SignedEcho(_, _) => QuietEcho(c, s, t);
      case Final(_, _) => QuietFinal(c, s, t);
    } else {
      hide Inv;
    }
  }

  lemma QuietInit(c: Config, s: Sys, t: Step)
    requires c.byz == {} && OneFinal(c, s) && Enabled(c, s, t) && t.Receive? && t.k.msg.Init?
    requires NodeOk(c, s, t.k.to) && PacketOk(c, s, t.k)
    ensures OneFinal(c, Do(c, s, t))
  {
    hide Genuine, Signers, ValidSigners;
  }

  lemma QuietEcho(c: Config, s: Sys, t: Step)
    requires c.byz == {} && OneFinal(c, s) && Enabled(c, s, t) && t.Receive? && t.k.msg.SignedEcho?
    requires NodeOk(c, s, t.k.to)
    ensures OneFinal(c, Do(c, s, t))
  {
    hide Genuine, Signers, ValidSigners, FinalPick;
    if OnEcho(s.nodes[t.k.to], t.k.from, t.k.msg.m, t.k.msg.sig, c.verify, t.pick, t.signs).1.Some? {
      PickBroadcast(c, s, t);
    }
  }

  /** What the sender picks was echoed, hence broadcast. */
  lemma PickBroadcast(c: Config, s: Sys, t: Step)
    requires OneFinal(c, s) && Enabled(c, s, t) && t.Receive? && t.k.msg.SignedEcho?
    requires OnEcho(s.nodes[t.k.to], t.k.from, t.k.msg.m, t.k.msg.sig, c.verify, t.pick, t.signs).1.Some?
    ensures t.pick.Some? && t.pick.value in s.bcast
  {
    var echos := s.nodes[t.k.to].echos[t.k.from := Echo(t.k.msg.m, t.k.msg.sig)];
    var r := OneOutside(Support(Inners(echos), t.pick.value), {});
    assert r in echos && echos[r].m == t.pick.value;
  }

  lemma QuietFinal(c: Config, s: Sys, t: Step)
    requires c.byz == {} && OneFinal(c, s) && Enabled(c, s, t) && t.Receive? && t.k.msg.Final?
    ensures OneFinal(c, Do(c, s, t))
  {
    hide Genuine, ValidSigners, FinalPick;
  }

  lemma {:induction false} QuietRun(c: Config, run: seq<Sys>, i: nat)
    requires ValidConfig(c) && c.byz == {} && IsRun(c, run) && i < |run|
    ensures OneFinal(c, run[i]) && OutputsSent(run[i])
  {
    hide OneFinal, OutputsSent, Do, Enabled, Inv;
    if i == 0 {
      QuietStart(c);
    } else {
      QuietRun(c, run, i - 1);
      RunInv(c, run, i - 1);
      assert Next(c, run[i - 1], run[i - 1 + 1]);
      var t :| Enabled(c, run[i - 1], t) && run[i] == Do(c, run[i - 1], t);
      QuietStep(c, run[i - 1], t);
      QuietOutputs(c, run[i - 1], t);
    }
  }

  lemma QuietStart(c: Config)
    ensures OneFinal(c, Start(c)) && OutputsSent(Start(c))
  {
  }

  lemma QuietConsistent(c: Config, s: Sys, p: PID, m: Payload, q: PID, m': Payload)
    requires OneFinal(c, s) && OutputsSent(s) && p in s.nodes && q in s.nodes
    requires m in s.nodes[p].output && m' in s.nodes[q].output
    ensures m == m' && m in s.bcast
  {
    assert FinalSent(s, m) && FinalSent(s, m');
  }

  // ---- The exact conditions ----

  ghost predicate DeliversAt(run: seq<Sys>, i: nat, p: PID, m: Payload) {
    i < |run| && p in run[i].nodes && m in run[i].nodes[p].output
  }

  /** No two correct members ever deliver different payloads. */
  ghost predicate AlwaysConsistent(c: Config) {
    forall run: seq<Sys>, i, j, p, m, q, m' |
      IsRun(c, run) && DeliversAt(run, i, p, m) && DeliversAt(run, j, q, m') && p in Correct(c) && q in Correct(c) ::
      m == m'
  }

  /** Only what the sender has broadcast is ever delivered. */
  ghost predicate AlwaysIntegral(c: Config) {
    forall run: seq<Sys>, i: nat, p, m | IsRun(c, run) && DeliversAt(run, i, p, m) && p in Correct(c) ::
      m in run[i].bcast
  }

  lemma SameDelivery(c: Config, run: seq<Sys>, i: nat, j: nat, p: PID, m: Payload, q: PID, m': Payload)
    requires ValidConfig(c) && IsRun(c, run) && i <= j && DeliversAt(run, i, p, m) && DeliversAt(run, j, q, m')
    requires p in Correct(c) && q in Correct(c) && (c.byz == {} || |Correct(c)| <= 1 || !Splittable(c))
    ensures m == m'
  {
    hide IsRun, Splittable, OneFinal, OutputsSent, Abroad;
    ConsistencyAmong(c, run, i, j, p, q);
    ConsistencyAmong(c, run, j, j, q, q);
    OutputStays(c, run, i, j, p);
    if c.byz == {} {
      QuietRun(c, run, j);
      QuietConsistent(c, run[j], p, m, q, m');
    } else if |Correct(c)| <= 1 {
      if p != q { SubsetCard({p, q}, Correct(c)); }
    }
  }

  /** Consistency holds in all runs exactly if nobody misbehaves, there are no two correct members, or no two payloads
      can gather a quorum of signatures each, those from other instances included. */
  lemma ConsistentExactly(c: Config, sign: Signer)
    requires ValidConfig(c) && Scheme(c, sign)
    ensures AlwaysConsistent(c) <==> c.byz == {} || |Correct(c)| <= 1 || !Splittable(c)
  {
    hide IsRun, Splittable, Reach, Scheme, Splits;
    if c.byz == {} || |Correct(c)| <= 1 || !Splittable(c) {
      forall run: seq<Sys>, i, j, p, m, q, m' |
        IsRun(c, run) && DeliversAt(run, i, p, m) && DeliversAt(run, j, q, m') && p in Correct(c) && q in Correct(c)
        ensures m == m'
      {
        if i <= j { SameDelivery(c, run, i, j, p, m, q, m'); } else { SameDelivery(c, run, j, i, q, m', p, m); }
      }
    } else {
      var m, a, m', b := Parts(c);
      var p := OneOutside(Correct(c), {});
      var q := OneOutside(Correct(c), {p});
      var x := OneOutside(c.byz, {});
      var s := Split(c, sign, m, a, m', b, x, p, q);
      var run := RunTo(c, s);
      assert DeliversAt(run, |run| - 1, p, m) && DeliversAt(run, |run| - 1, q, m');
      assert m != m' by { PartsDiffer(c, m, a, m', b); }
    }
  }

  lemma Parts(c: Config) returns (m: Payload, a: set<PID>, m': Payload, b: set<PID>)
    requires Splittable(c)
    ensures Splits(c, m, a, m', b)
  {
    m, a, m', b :| Splits(c, m, a, m', b);
  }

  lemma PartsDiffer(c: Config, m: Payload, a: set<PID>, m': Payload, b: set<PID>)
    requires Splits(c, m, a, m', b)
    ensures m != m'
  {
  }

  /** A payload that decodes has a quorum of signatures without anything signed in this instance. */
  ghost predicate Replayable(c: Config, m: Payload) {
    c.decodes(m) && |Abroad(c, m)| > Quorum(|c.procs|, c.f)
  }

  /** x sends p a replayed FINAL; nobody has broadcast anything. */
  lemma Replay(c: Config, sign: Signer, m: Payload, x: PID, p: PID) returns (s: Sys)
    requires ValidConfig(c) && Scheme(c, sign) && Replayable(c, m) && x in c.byz && p in Correct(c)
    ensures Reach(c, s) && p in s.nodes && s.nodes[p].output == [m] && s.bcast == {}
  {
    hide Reach, Scheme;
    StartReached(c);
    assert Abroad(c, m) <= c.procs;
    s := Final1(c, Start(c), sign, m, Abroad(c, m), x, p);
  }

  /** With a correct sender, only what it has broadcast is delivered in all runs exactly if nobody misbehaves or no
      payload has a quorum of signatures from other instances. */
  lemma IntegralExactly(c: Config, sign: Signer)
    requires ValidConfig(c) && Scheme(c, sign) && c.sender in Correct(c)
    ensures AlwaysIntegral(c) <==> c.byz == {} || forall m :: !Replayable(c, m)
  {
    hide IsRun, Reach, Scheme, Abroad, OneFinal, OutputsSent, Splittable;
    if c.byz == {} || forall m :: !Replayable(c, m) {
      forall run: seq<Sys>, i: nat, p, m | IsRun(c, run) && DeliversAt(run, i, p, m) && p in Correct(c)
        ensures m in run[i].bcast
      {
        ConsistencyAmong(c, run, i, i, p, p);
        assert c.byz == {} || !Replayable(c, m);
        if c.byz == {} {
          QuietRun(c, run, i);
          QuietConsistent(c, run[i], p, m, p, m);
        }
      }
    } else {
      var m :| Replayable(c, m);
      var x := OneOutside(c.byz, {});
      var s := Replay(c, sign, m, x, c.sender);
      var run := RunTo(c, s);
      assert DeliversAt(run, |run| - 1, c.sender, m);
    }
  }

  // ---- Two instances ----

  /** The same group and keys after s has happened in this instance. */
  function After(c: Config, s: Sys, sender: PID): Config {
    c.(sender := sender, elsewhere := s.signed)
  }

  /** Two instances with the same keys: after a run of the first, in which the correct members sign m as they should,
      the second has a run in which p delivers m, q delivers m', and nobody has broadcast m there. */
  lemma TwoInstances(c: Config, sign: Signer, sender: PID, m: Payload, m': Payload, p: PID, q: PID)
    returns (s1: Sys, s2: Sys)
    requires ValidConfig(c) && Scheme(c, sign) && c.elsewhere == {} && sender in c.procs
    requires c.byz != {} && p in Correct(c) && q in Correct(c) && p != q && |c.procs| > c.f
    requires c.decodes(m) && c.decodes(m') && m != m'
    ensures Reach(c, s1) && ValidConfig(After(c, s1, sender)) && Reach(After(c, s1, sender), s2)
    ensures forall r | r in s1.nodes :: s1.nodes[r].output == []
    ensures p in s2.nodes && q in s2.nodes && s2.nodes[p].output == [m] && s2.nodes[q].output == [m']
    ensures m !in s2.bcast
  {
    hide Reach, Scheme, Splits;
    assert Correct(c) <= Correct(c) && {} !! Correct(c);
    s1 := BothSigned(c, sign, m, {}, m, Correct(c));
    assert forall r | r in s1.nodes :: s1.nodes[r].output == [] by { NoOutputs(c, s1); }
    var d := After(c, s1, sender);
    SplitAfter(c, s1, sender, m, m');
    assert Scheme(d, sign) by { SameScheme(c, d, sign); }
    var x := OneOutside(c.byz, {});
    s2 := Split(d, sign, m, {}, m', Correct(c), x, p, q);
  }

  lemma NoOutputs(c: Config, s: Sys)
    requires Untouched(c, s, {} + Correct(c))
    ensures forall r | r in s.nodes :: s.nodes[r].output == []
  {
  }

  lemma SameScheme(c: Config, d: Config, sign: Signer)
    requires Scheme(c, sign) && d == c.(sender := d.sender, elsewhere := d.elsewhere)
    ensures Scheme(d, sign)
  {
  }

  lemma SplitAfter(c: Config, s: Sys, sender: PID, m: Payload, m': Payload)
    requires ValidConfig(c) && c.decodes(m) && c.decodes(m') && m != m' && |c.procs| > c.f
    requires forall r | r in Correct(c) :: Signed(r, m) in s.signed
    ensures Splits(After(c, s, sender), m, {}, m', Correct(c))
  {
    var d := After(c, s, sender);
    assert Abroad(d, m) + {} == c.procs;
    assert Abroad(d, m') + Correct(c) == c.procs;
  }
}

/** A group that generates a key, with Byzantine members: what its runs guarantee about QUAL and the keys. */
module DkgSystem {
  import opened Common
  import opened ModArith
  import opened Zp
  import opened Polynomials
  import opened Commitments
  import opened DkgSpec
  import opened DkgQual
  import opened DkgKeys
  import opened DkgRun
  import opened DkgHonest

  /** f and fMask are the polynomials that the correct members draw; members of byz may send anything. */
  datatype Config = Config(procs: seq<Id>, byz: set<Id>, t: nat, m: Params, f: map<Id, Polynomial>,
                           fMask: map<Id, Polynomial>)

  predicate Correct(c: Config, p: Id) { p in c.procs && p !in c.byz }

  predicate ValidConfig(c: Config) {
    && ValidParams(c.m)
    && forall p | p in c.procs && p !in c.byz :: p in c.f && p in c.fMask && Drawn(c.t, c.m, c.f[p], c.fMask[p])
  }

  function Fresh0(c: Config, p: Id): Dkg
    requires ValidConfig(c) && Correct(c, p)
  {
    NewDkg(p, c.procs, c.t, c.m, c.f[p], c.fMask[p])
  }

  datatype Post = Post(from: Id, msg: Message)

  /** log: what each started member has taken so far, its timers included; sent: everything on the network. */
  datatype Sys = Sys(log: map<Id, seq<Input>>, sent: set<Post>)

  datatype Step =
    | Begin(p: Id)
    | Receive(p: Id, k: Post)
    | Generate(p: Id)
    | Build(p: Id)
    | Forge(k: Post)

  function Start(): Sys { Sys(map[], {}) }

  /** The state of a member is what its log makes of it. */
  function Node(c: Config, s: Sys, p: Id): Dkg
    requires ValidConfig(c) && Correct(c, p) && p in s.log
  {
    After(Fresh0(c, p), s.log[p])
  }

  /** The event that handleMsg makes of a message. */
  function InputOf(k: Post): Input {
    match k.msg
    case CommitmentsMsg(comms) => Phase1(ReceivedCommitments(k.from, comms))
    case ShareMsg(_, s) => Phase1(ReceivedShare(k.from, s))
    case Complaint1Msg(dealer) => Phase1(Complaint1(k.from, dealer))
    case RevealShareMsg(target, s) => Phase1(RevealShare(k.from, target, s))
    case PubCommitmentsMsg(comms) => PubCommitments(k.from, comms)
    case Complaint2Msg(dealer, s, _) => Complaint2(k.from, dealer, s)
  }

  function HonestComm(c: Config, p: Id): seq<Element>
    requires ValidConfig(c) && Correct(c, p)
  {
    Pedersen(c.m, Values(c.f[p].coefficients), Values(c.fMask[p].coefficients))
  }

  function ShareFor(c: Config, p: Id, to: Id): Share
    requires ValidConfig(c) && Correct(c, p)
  {
    Dealt(c.f[p], c.fMask[p], to)
  }

  /** What handleStart sends. */
  function Opening(c: Config, p: Id): set<Post>
    requires ValidConfig(c) && Correct(c, p)
  {
    {Post(p, CommitmentsMsg(HonestComm(c, p)))} + set to | to in c.procs :: Post(p, ShareMsg(to, ShareFor(c, p, to)))
  }

  predicate Enabled(c: Config, s: Sys, t: Step)
    requires ValidConfig(c)
  {
    match t
    case Begin(p) => Correct(c, p) && p !in s.log
    case Receive(p, k) => Correct(c, p) && p in s.log && k in s.sent && (k.msg.ShareMsg? ==> k.msg.to == p)
    case Generate(p) => Correct(c, p) && p in s.log && GeneratingPub !in s.log[p]
    case Build(p) => Correct(c, p) && p in s.log && GeneratingPub in s.log[p]
    case Forge(k) => !Correct(c, k.from)
  }

  function Out(from: Id, out: Option<Message>): set<Post> {
    if out.None? then {} else {Post(from, out.value)}
  }

  function Feed(c: Config, s: Sys, p: Id, i: Input): Sys
    requires ValidConfig(c) && Correct(c, p) && p in s.log
  {
    Sys(s.log[p := s.log[p] + [i]], s.sent + Out(p, Take(Node(c, s, p), i).1))
  }

  function Do(c: Config, s: Sys, t: Step): Sys
    requires ValidConfig(c) && Enabled(c, s, t)
  {
    match t
    case Begin(p) => Sys(s.log[p := []], s.sent + Opening(c, p))
    case Receive(p, k) => Feed(c, s, p, InputOf(k))
    case Generate(p) => Feed(c, s, p, GeneratingPub)
    case Build(p) => Feed(c, s, p, BuildPubKey)
    case Forge(k) => s.(sent := s.sent + {k})
  }

  ghost predicate Next(c: Config, s: Sys, s': Sys)
    requires ValidConfig(c)
  {
    exists t :: Enabled(c, s, t) && s' == Do(c, s, t)
  }

  ghost predicate IsRun(c: Config, run: seq<Sys>)
    requires ValidConfig(c)
  {
    && run != [] && run[0] == Start()
    && forall i | 0 <= i < |run| - 1 :: Next(c, run[i], run[i + 1])
  }

  ghost predicate Reach(c: Config, s: Sys)
    requires ValidConfig(c)
  {
    exists run :: IsRun(c, run) && run[|run| - 1] == s
  }

  lemma Go(c: Config, s: Sys, t: Step)
    requires ValidConfig(c) && Reach(c, s) && Enabled(c, s, t)
    ensures Reach(c, Do(c, s, t))
  {
    hide Do, Enabled, ValidConfig;
    var run :| IsRun(c, run) && run[|run| - 1] == s;
    assert Next(c, s, Do(c, s, t));
    assert IsRun(c, run + [Do(c, s, t)]);
  }

  // ---- Invariant ----

  predicate HonestPost(c: Config, k: Post)
    requires ValidConfig(c) && Correct(c, k.from)
  {
    match k.msg
    case CommitmentsMsg(comms) => comms == HonestComm(c, k.from)
    case ShareMsg(to, s) => s == ShareFor(c, k.from, to)
    case RevealShareMsg(target, s) => s == ShareFor(c, k.from, target)
    case PubCommitmentsMsg(comms) => comms == Feldman(c.m, Values(c.f[k.from].coefficients))
    case _ => true
  }

  /** The inputs of p are timers, or messages that were sent to it. */
  predicate FromPost(s: Sys, p: Id, i: Input, k: Post) {
    k in s.sent && InputOf(k) == i && (k.msg.ShareMsg? ==> k.msg.to == p)
  }

  ghost predicate Sourced(s: Sys, p: Id, i: Input) {
    i != GeneratingPub && i != BuildPubKey ==> exists k :: FromPost(s, p, i, k)
  }

  /** A dealer with at most t complainants has answered all of them. */
  predicate HasAnswered(c: Config, s: Sys, p: Id)
    requires ValidConfig(c) && Correct(c, p) && p in s.log
  {
    var cs := Lookup(Node(c, s, p).complaints1, p);
    |cs| <= c.t ==> forall q | q in cs :: Post(p, RevealShareMsg(q, ShareFor(c, p, q))) in s.sent
  }

  predicate OneTimer(log: seq<Input>) {
    forall i, j | 0 <= i < |log| && 0 <= j < |log| && log[i] == GeneratingPub && log[j] == GeneratingPub :: i == j
  }

  ghost predicate LogOk(c: Config, s: Sys, p: Id)
    requires ValidConfig(c) && p in s.log
  {
    && Correct(c, p) && OneTimer(s.log[p]) && Opening(c, p) <= s.sent
    && (forall i | i in s.log[p] :: Sourced(s, p, i))
    && HasAnswered(c, s, p)
  }

  ghost predicate Inv(c: Config, s: Sys)
    requires ValidConfig(c)
  {
    && (forall k | k in s.sent && Correct(c, k.from) :: HonestPost(c, k))
    && (forall p | p in s.log :: LogOk(c, s, p))
  }

  lemma StartedFresh(c: Config, p: Id)
    requires ValidConfig(c) && Correct(c, p)
    ensures Started(Fresh0(c, p)) && Fresh(Fresh0(c, p)) && Usable(Fresh0(c, p))
  {
  }

  /** What a correct member sends is honest. */
  lemma HonestSends(c: Config, p: Id, d: Dkg, i: Input)
    requires ValidConfig(c) && Correct(c, p) && Usable(d) && SameProcess(Fresh0(c, p), d)
    ensures Take(d, i).1.Some? ==> HonestPost(c, Post(p, Take(d, i).1.value))
  {
    hide ShareFits, PubShareFits, Kept, Total, Collected, Parts, Unanswered, Missing, Feldman, At, Exp, HonestComm;
    match i
    case Phase1(ReceivedCommitments(_, _)) =>
    case Phase1(ReceivedShare(_, _)) =>
    case Phase1(Complaint1(_, _)) =>
    case _ =>
  }

  lemma SourcedGrows(s: Sys, s': Sys, p: Id, i: Input)
    requires Sourced(s, p, i) && s.sent <= s'.sent
    ensures Sourced(s', p, i)
  {
    if i != GeneratingPub && i != BuildPubKey {
      var k :| FromPost(s, p, i, k);
      assert FromPost(s', p, i, k);
    }
  }

  /** A log that did not change is as good as before in a larger network. */
  lemma OldLog(c: Config, s: Sys, s': Sys, p: Id)
    requires ValidConfig(c) && p in s.log && LogOk(c, s, p) && s.sent <= s'.sent && p in s'.log && s'.log[p] == s.log[p]
    ensures LogOk(c, s', p)
  {
    hide Sourced, OneTimer;
    forall i | i in s.log[p] ensures Sourced(s', p, i) { SourcedGrows(s, s', p, i); }
    assert Node(c, s', p) == Node(c, s, p);
  }

  /** One input: a new complaint about oneself is answered while there are at most t. */
  lemma TakeAnswers(c: Config, p: Id, d: Dkg, i: Input, sent: set<Post>)
    requires ValidConfig(c) && Correct(c, p) && Usable(d) && SameProcess(Fresh0(c, p), d)
    requires |Lookup(d.complaints1, p)| <= c.t ==>
               forall q | q in Lookup(d.complaints1, p) :: Post(p, RevealShareMsg(q, ShareFor(c, p, q))) in sent
    ensures |Lookup(Take(d, i).0.complaints1, p)| <= c.t ==>
              forall q | q in Lookup(Take(d, i).0.complaints1, p) ::
                Post(p, RevealShareMsg(q, ShareFor(c, p, q))) in sent + Out(p, Take(d, i).1)
  {
    if i.Phase1? && i.e.Complaint1? {
      hide OnComplaint1, Lookup, ShareFor;
      AnswersNew(c, p, d, i.e.from, i.e.dealer);
    } else {
      hide Take, ShareFor;
      SameComplaints(d, i);
    }
  }

  lemma AnswersNew(c: Config, p: Id, d: Dkg, from: Id, dealer: Id)
    requires ValidConfig(c) && Correct(c, p) && Usable(d) && SameProcess(Fresh0(c, p), d)
    ensures var r, cs := OnComplaint1(d, from, dealer), Lookup(d.complaints1, p);
      if dealer == p && from !in cs then
        && Lookup(r.0.complaints1, p) == cs + {from} && |cs| < |cs + {from}|
        && (|cs + {from}| <= c.t ==> r.1 == Some(RevealShareMsg(from, ShareFor(c, p, from))))
      else Lookup(r.0.complaints1, p) == cs
  {
    hide OnComplaint1, Lookup;
    NewComplaint(d, from, dealer, p);
    if from !in Lookup(d.complaints1, p) { FirstAnswered(d, from); }
    var cs := Lookup(d.complaints1, p);
    assert from in cs ==> cs + {from} == cs;
  }

  lemma NodeSame(c: Config, s: Sys, p: Id)
    requires ValidConfig(c) && Correct(c, p) && p in s.log
    ensures SameProcess(Fresh0(c, p), Node(c, s, p)) && Usable(Node(c, s, p))
  {
    Same(Fresh0(c, p), s.log[p]);
  }

  lemma Fed(c: Config, s: Sys, p: Id, i: Input)
    requires ValidConfig(c) && Correct(c, p) && p in s.log
    ensures Usable(Node(c, s, p)) && Node(c, Feed(c, s, p, i), p) == Take(Node(c, s, p), i).0
  {
    hide Take;
    assert (s.log[p] + [i])[..|s.log[p]|] == s.log[p];
  }

  lemma FeedLog(c: Config, s: Sys, p: Id, i: Input)
    requires ValidConfig(c) && p in s.log && LogOk(c, s, p)
    requires i == GeneratingPub ==> GeneratingPub !in s.log[p]
    requires Sourced(s, p, i)
    ensures LogOk(c, Feed(c, s, p, i), p)
  {
    hide Take, Sourced, Node, ShareFor, ValidConfig;
    var s' := Feed(c, s, p, i);
    forall j | j in s'.log[p] ensures Sourced(s', p, j) { SourcedGrows(s, s', p, j); }
    Fed(c, s, p, i);
    NodeSame(c, s, p);
    TakeAnswers(c, p, Node(c, s, p), i, s.sent);
  }

  lemma FeedInv(c: Config, s: Sys, p: Id, i: Input)
    requires ValidConfig(c) && Inv(c, s) && Correct(c, p) && p in s.log
    requires i == GeneratingPub ==> GeneratingPub !in s.log[p]
    requires Sourced(s, p, i)
    ensures Inv(c, Feed(c, s, p, i))
  {
    hide Take, Sourced, LogOk, Node, HonestPost;
    var s' := Feed(c, s, p, i);
    NodeSame(c, s, p);
    HonestSends(c, p, Node(c, s, p), i);
    forall q | q in s'.log ensures LogOk(c, s', q) {
      if q == p { FeedLog(c, s, p, i); } else { OldLog(c, s, s', q); }
    }
  }

  lemma BeginInv(c: Config, s: Sys, p: Id)
    requires ValidConfig(c) && Inv(c, s) && Correct(c, p) && p !in s.log
    ensures Inv(c, Do(c, s, Begin(p)))
  {
    hide LogOk, HonestComm, ShareFor;
    var s' := Do(c, s, Begin(p));
    forall q | q in s'.log ensures LogOk(c, s', q) {
      if q == p { EmptyLog(c, s', p); } else { OldLog(c, s, s', q); }
    }
  }

  lemma EmptyLog(c: Config, s: Sys, p: Id)
    requires ValidConfig(c) && Correct(c, p) && p in s.log && s.log[p] == [] && Opening(c, p) <= s.sent
    ensures LogOk(c, s, p)
  {
    hide Opening, ShareFor, Sourced;
    assert Node(c, s, p).complaints1 == map[];
  }

  lemma StepInv(c: Config, s: Sys, t: Step)
    requires ValidConfig(c) && Inv(c, s) && Enabled(c, s, t)
    ensures Inv(c, Do(c, s, t))
  {
    match t
    case Begin(p) =>
      hide Inv, Do;
      BeginInv(c, s, p);
    case Receive(p, k) =>
      hide Inv, LogOk, Feed;
      assert FromPost(s, p, InputOf(k), k);
      FeedInv(c, s, p, InputOf(k));
    case Generate(p) =>
      hide Inv, LogOk, Feed;
      FeedInv(c, s, p, GeneratingPub);
    case Build(p) =>
      hide Inv, LogOk, Feed;
      FeedInv(c, s, p, BuildPubKey);
    case Forge(k) =>
      hide Inv;
      ForgeInv(c, s, k);
  }

  lemma ForgeInv(c: Config, s: Sys, k: Post)
    requires ValidConfig(c) && Inv(c, s) && !Correct(c, k.from)
    ensures Inv(c, s.(sent := s.sent + {k}))
  {
    hide LogOk, HonestPost;
    var s' := s.(sent := s.sent + {k});
    forall q | q in s.log ensures LogOk(c, s', q) { OldLog(c, s, s', q); }
  }

  lemma {:induction false} RunInv(c: Config, run: seq<Sys>, i: nat)
    requires ValidConfig(c) && IsRun(c, run) && i < |run|
    ensures Inv(c, run[i])
  {
    hide Inv, Do, Enabled, ValidConfig;
    if i == 0 {
      assert Inv(c, Start()) by { StartInv(c); }
    } else {
      RunInv(c, run, i - 1);
      assert Next(c, run[i - 1], run[i - 1 + 1]);
      var t :| Enabled(c, run[i - 1], t) && run[i] == Do(c, run[i - 1], t);
      StepInv(c, run[i - 1], t);
    }
  }

  lemma StartInv(c: Config)
    requires ValidConfig(c)
    ensures Inv(c, Start())
  {
  }

  lemma ReachInv(c: Config, s: Sys)
    requires ValidConfig(c) && Reach(c, s)
    ensures Inv(c, s)
  {
    hide Inv, ValidConfig;
    var run :| IsRun(c, run) && run[|run| - 1] == s;
    hide IsRun;
    RunInv(c, run, |run| - 1);
  }

  // ---- Honest inputs ----

  /** Every input that came from a correct member is as that member sent it. */
  lemma HonestInputs(c: Config, s: Sys, p: Id, k: Id, i: Input)
    requires ValidConfig(c) && Reach(c, s) && p in s.log && Correct(c, k) && i in s.log[p]
    ensures GivesOnly(i, p, k, ShareFor(c, k, p).s)
    ensures i.Phase1? ==> FromHonest(i.e, k, c.m, c.f[k], c.fMask[k])
    ensures i.PubCommitments? && i.from == k ==> i.comms == Feldman(c.m, Values(c.f[k].coefficients))
  {
    hide Feldman, Pedersen, At, Inv, Reach;
    ReachInv(c, s);
    assert Sourced(s, p, i) by { InputSourced(c, s, p, i); }
    if i != GeneratingPub && i != BuildPubKey {
      var q :| FromPost(s, p, i, q);
      if q.from == k { PostHonest(c, s, q); }
    }
  }

  lemma InputSourced(c: Config, s: Sys, p: Id, i: Input)
    requires ValidConfig(c) && Inv(c, s) && p in s.log && i in s.log[p]
    ensures Sourced(s, p, i)
  {
    assert LogOk(c, s, p);
  }

  lemma PostHonest(c: Config, s: Sys, k: Post)
    requires ValidConfig(c) && Inv(c, s) && k in s.sent && Correct(c, k.from)
    ensures HonestPost(c, k)
  {
  }

  // ---- Honest dealers ----

  lemma LogFacts(c: Config, s: Sys, p: Id)
    requires ValidConfig(c) && Reach(c, s) && p in s.log
    ensures Correct(c, p) && OneTimer(s.log[p]) && Opening(c, p) <= s.sent && HasAnswered(c, s, p)
  {
    hide OneTimer, Opening, HasAnswered, Reach;
    ReachInv(c, s);
    assert LogOk(c, s, p);
  }

  /** p's timer of phase 1 has fired, as its g-th input. */
  predicate TimerAt(s: Sys, p: Id, g: nat) {
    p in s.log && g < |s.log[p]| && s.log[p][g] == GeneratingPub
  }

  /** The phase-1 events that p handled before its timer. */
  function Seen(s: Sys, p: Id, g: nat): seq<Event>
    requires TimerAt(s, p, g)
  {
    Firsts(s.log[p][..g])
  }

  lemma Timed(c: Config, s: Sys, p: Id, g: nat)
    requires ValidConfig(c) && Reach(c, s) && TimerAt(s, p, g)
    ensures Correct(c, p) && Generated(s.log[p], g)
  {
    hide Reach, Opening, HasAnswered;
    LogFacts(c, s, p);
  }

  lemma SeenHonest(c: Config, s: Sys, p: Id, g: nat, k: Id, e: Event)
    requires ValidConfig(c) && Reach(c, s) && TimerAt(s, p, g) && Correct(c, k) && e in Seen(s, p, g)
    ensures FromHonest(e, k, c.m, c.f[k], c.fMask[k])
  {
    hide Reach, ValidConfig, FromHonest, Firsts;
    FirstsIn(s.log[p][..g], e);
    assert Phase1(e) in s.log[p];
    HonestInputs(c, s, p, k, Phase1(e));
  }

  /** In every reachable state: p has the correct dealer k in QUAL exactly if, before its timer, k's commitments came,
      at most t processes complained, and every complaint was answered afterwards with no answer overtaking the
      commitments. */
  lemma HonestDealerExactlyInRuns(c: Config, s: Sys, p: Id, g: nat, k: Id)
    requires ValidConfig(c) && Reach(c, s) && TimerAt(s, p, g) && Correct(c, k)
    ensures Correct(c, p)
    ensures k in Node(c, s, p).qual <==>
              && Arrived(Seen(s, p, g), k) && |Complainants(Events(Seen(s, p, g)), k)| <= c.t
                  && !Overtaken(Seen(s, p, g), k)
              && forall q | q in Complainants(Events(Seen(s, p, g)), k) :: AnsweredInOrder(Seen(s, p, g), k, q)
  {
    hide Reach, FromHonest, Arrived, Overtaken, AnsweredInOrder, Complainants, Events, OnGeneratingPub;
    Timed(c, s, p, g);
    StartedFresh(c, p);
    RunQual(Fresh0(c, p), s.log[p], g);
    forall e | e in Seen(s, p, g) ensures FromHonest(e, k, c.m, c.f[k], c.fMask[k]) { SeenHonest(c, s, p, g, k, e); }
    HonestDealerExactly(Fresh0(c, p), Seen(s, p, g), k, c.f[k], c.fMask[k]);
  }

  /** p handled k's answers after what they answer. */
  predicate InOrder(es: seq<Event>, k: Id) {
    forall j | 0 <= j < |es| && es[j].RevealShare? && es[j].from == k ::
      Arrived(es[..j], k) && es[j].target in Complainants(Events(es[..j]), k)
  }

  /** p handled, before its timer, all the commitments and answers that k has broadcast. */
  predicate HandledAll(s: Sys, p: Id, g: nat, k: Id)
    requires TimerAt(s, p, g)
  {
    forall post | post in s.sent && post.from == k && (post.msg.CommitmentsMsg? || post.msg.RevealShareMsg?) ::
      InputOf(post) in s.log[p][..g]
  }

  /** Honest dealers are protected: if at most t processes have complained about k to k itself, k has handled every
      complaint that p has, and p has handled all that k broadcast in order, then k is in p's QUAL. That k answers, and
      answers well, is part of the claim. */
  lemma HonestDealerProtected(c: Config, s: Sys, p: Id, g: nat, k: Id)
    requires ValidConfig(c) && Reach(c, s) && TimerAt(s, p, g) && k in s.log
    requires |Complainers(s.log[k], k)| <= c.t && Complainers(s.log[p][..g], k) <= Complainers(s.log[k], k)
    requires HandledAll(s, p, g, k) && InOrder(Seen(s, p, g), k)
    ensures Correct(c, p) && k in Node(c, s, p).qual
  {
    hide Reach, Complainers, HandledAll, InOrder, AnsweredInOrder, Overtaken, Arrived, TimerAt, Seen, Node, ValidConfig;
    hide Complainants, Events, HasAnswered;
    LogFacts(c, s, k);
    HonestDealerExactlyInRuns(c, s, p, g, k);
    var es := Seen(s, p, g);
    SeenComplainants(s, p, g, k);
    SubsetCard(Complainants(Events(es), k), Complainers(s.log[k], k));
    SeenCommitments(c, s, p, g, k);
    InOrderNotOvertaken(es, k);
    forall q | q in Complainants(Events(es), k) ensures AnsweredInOrder(es, k, q) {
      HasSentAnswer(c, s, k, q);
      SeenAnswer(s, p, g, k, q, ShareFor(c, k, q));
    }
  }

  lemma SeenComplainants(s: Sys, p: Id, g: nat, k: Id)
    requires TimerAt(s, p, g)
    ensures Complainants(Events(Seen(s, p, g)), k) == Complainers(s.log[p][..g], k)
  {
    hide Firsts;
    var log := s.log[p][..g];
    forall q ensures q in Complainants(Events(Seen(s, p, g)), k) <==> q in Complainers(log, k) {
      FirstsIn(log, Complaint1(q, k));
      assert q in Complainants(Events(Seen(s, p, g)), k) <==> Complaint1(q, k) in Seen(s, p, g);
      assert q in Complainers(log, k) <==> Phase1(Complaint1(q, k)) in log;
    }
  }

  lemma SeenCommitments(c: Config, s: Sys, p: Id, g: nat, k: Id)
    requires ValidConfig(c) && TimerAt(s, p, g) && Correct(c, k) && Opening(c, k) <= s.sent && HandledAll(s, p, g, k)
    ensures Arrived(Seen(s, p, g), k)
  {
    hide Firsts, HonestComm, ShareFor, ValidConfig;
    var post := Post(k, CommitmentsMsg(HonestComm(c, k)));
    assert post in Opening(c, k);
    assert InputOf(post) in s.log[p][..g];
    var e := ReceivedCommitments(k, HonestComm(c, k));
    FirstsIn(s.log[p][..g], e);
    assert e in Seen(s, p, g) && IsCommitment(e, k);
  }

  lemma InOrderNotOvertaken(es: seq<Event>, k: Id)
    requires InOrder(es, k)
    ensures !Overtaken(es, k)
  {
  }

  lemma HasSentAnswer(c: Config, s: Sys, k: Id, q: Id)
    requires ValidConfig(c) && k in s.log && Correct(c, k) && HasAnswered(c, s, k)
    requires |Complainers(s.log[k], k)| <= c.t && q in Complainers(s.log[k], k)
    ensures Post(k, RevealShareMsg(q, ShareFor(c, k, q))) in s.sent
  {
    hide Complainers, ShareFor;
    StartedFresh(c, k);
    ComplaintsRecorded(Fresh0(c, k), s.log[k], k);
  }

  lemma SeenAnswer(s: Sys, p: Id, g: nat, k: Id, q: Id, share: Share)
    requires TimerAt(s, p, g) && HandledAll(s, p, g, k) && InOrder(Seen(s, p, g), k)
    requires Post(k, RevealShareMsg(q, share)) in s.sent
    ensures AnsweredInOrder(Seen(s, p, g), k, q)
  {
    hide Firsts, Complainants, Arrived;
    assert InputOf(Post(k, RevealShareMsg(q, share))) in s.log[p][..g];
    var es, e := Seen(s, p, g), RevealShare(k, q, share);
    FirstsIn(s.log[p][..g], e);
    var j: nat :| j < |es| && es[j] == e;
    assert Answers(es, k, q, j);
  }

  // ---- Keys ----

  function Coefficients(c: Config, ks: seq<Id>): seq<seq<nat>>
    requires ValidConfig(c) && forall k | k in ks :: Correct(c, k)
  {
    seq(|ks|, i requires 0 <= i < |ks| => CoefficientsOf(c, ks[i]))
  }

  function CoefficientsOf(c: Config, k: Id): seq<nat>
    requires ValidConfig(c) && Correct(c, k)
  {
    Values(c.f[k].coefficients)
  }

  /** What p had stored when its timer fired. */
  function StoredAt(c: Config, s: Sys, p: Id, g: nat): map<Id, Share>
    requires ValidConfig(c) && TimerAt(s, p, g) && Correct(c, p)
  {
    After(Fresh0(c, p), s.log[p][..g]).shares
  }

  /** A correct dealer's stored share and public commitments are honest. */
  lemma HonestStored(c: Config, s: Sys, p: Id, g: nat, k: Id)
    requires ValidConfig(c) && Reach(c, s) && TimerAt(s, p, g) && Correct(c, p) && Correct(c, k)
    ensures k in StoredAt(c, s, p, g) ==> StoredAt(c, s, p, g)[k].s == New(Sum(Values(c.f[k].coefficients), p), c.m.q)
    ensures k in Node(c, s, p).pubCommitments ==>
              Node(c, s, p).pubCommitments[k] == Feldman(c.m, Values(c.f[k].coefficients))
  {
    hide Reach, Sum, Feldman, After;
    StartedFresh(c, p);
    var log := s.log[p];
    forall j | 0 <= j < g ensures GivesOnly(log[..g][j], p, k, ShareFor(c, k, p).s) {
      HonestInputs(c, s, p, k, log[j]);
    }
    Given(Fresh0(c, p), log[..g], k, ShareFor(c, k, p).s);
    if k == p {
      Timed(c, s, p, g);
      OwnPub(Fresh0(c, p), log, g);
    } else {
      forall i | i in log && i.PubCommitments? && i.from == k
        ensures i.comms == Feldman(c.m, Values(c.f[k].coefficients)) {
        HonestInputs(c, s, p, k, i);
      }
      OthersPub(Fresh0(c, p), log, k, Feldman(c.m, Values(c.f[k].coefficients)));
    }
  }

  /** The keys of a group: whenever p has built a key from a QUAL of correct members, whatever the network and the other
      members did, the key is g^F(0) with F the sum of their polynomials, and p's private share is F(p) modulo q exactly
      if the shares that had not come before p's timer sum to 0 modulo q. */
  lemma GroupKey(c: Config, s: Sys, p: Id, g: nat)
    requires ValidConfig(c) && Reach(c, s) && TimerAt(s, p, g) && Correct(c, p) && Node(c, s, p).pubKey.Some?
    requires forall k | k in Node(c, s, p).qual :: Correct(c, k)
    ensures var n, fs := Node(c, s, p), Coefficients(c, Node(c, s, p).qual);
      && fs != [] && (forall i | 0 <= i < |fs| :: |fs[i]| == c.t + 1)
      && n.pubKey == Some(Exp(G(c.m), Sum(SumOf(fs), 0))) && n.pkShare.Some?
      && (n.pkShare.value.s == New(Sum(SumOf(fs), p), c.m.q) <==>
            Missed(n.qual, HonestShares(fs, c.m.q, p), StoredAt(c, s, p, g)) % c.m.q == 0)
  {
    hide Reach, Sum, SumOf, Feldman, After, Combined, Total, Parts, Collected, Missed, Lacking;
    var d, n, stored := Fresh0(c, p), Node(c, s, p), StoredAt(c, s, p, g);
    var fs := Coefficients(c, n.qual);
    StartedFresh(c, p);
    Timed(c, s, p, g);
    Assembled(d, s.log[p], g);
    forall i | 0 <= i < |n.qual|
      ensures n.qual[i] in stored ==> stored[n.qual[i]].s == HonestShares(fs, c.m.q, p)[i]
      ensures PubOf(n.qual, n.pubCommitments)[i] == HonestComms(c.m, fs)[i]
    {
      HonestStored(c, s, p, g, n.qual[i]);
    }
    assert PubOf(n.qual, n.pubCommitments) == HonestComms(c.m, fs);
    forall i | 0 <= i < |fs| ensures |fs[i]| == c.t + 1 { assert Correct(c, n.qual[i]); }
    LackingIsMissed(n.qual, HonestShares(fs, c.m.q, p), stored);
    HonestShareExactly(c.m, p, n.qual, fs, stored);
    HonestKeys(c.m, fs, p);
  }

  /** With Byzantine members in QUAL too: if the shares from QUAL were in time and p complained about none of them, the
      key that p has built and its private share fit. */
  lemma KeyCorrectnessInRuns(c: Config, s: Sys, p: Id, g: nat)
    requires ValidConfig(c) && Reach(c, s) && TimerAt(s, p, g) && Correct(c, p) && Node(c, s, p).pubKey.Some?
    requires InTime(Fresh0(c, p), s.log[p], g) && NoComplaint2(Fresh0(c, p), s.log[p])
    requires forall k | k in Node(c, s, p).qual && k in Node(c, s, p).pubCommitments ::
               Over(Node(c, s, p).pubCommitments[k], c.m.p)
    ensures KeyFits(Fresh0(c, p), Node(c, s, p))
  {
    hide Reach, After, KeyFits, InTime, NoComplaint2, Over;
    StartedFresh(c, p);
    Timed(c, s, p, g);
    forall j | 0 <= j < |s.log[p]| ensures GivesOnly(s.log[p][j], p, p, At(c.f[p], p)) {
      HonestInputs(c, s, p, p, s.log[p][j]);
    }
    KeyCorrectness(Fresh0(c, p), s.log[p], g);
  }

  /** Two members that before their timers handled the same public events, each in its own order, have the same QUAL. */
  lemma SameQual(c: Config, s: Sys, p: Id, g: nat, p': Id, g': nat)
    requires ValidConfig(c) && Reach(c, s) && TimerAt(s, p, g) && TimerAt(s, p', g')
    requires Causal(Seen(s, p, g), c.t) && Causal(Seen(s, p', g'), c.t)
    requires PublicEvents(Seen(s, p, g)) == PublicEvents(Seen(s, p', g'))
    requires OneCommitment(PublicEvents(Seen(s, p, g)), c.t)
    ensures Correct(c, p) && Correct(c, p') && Node(c, s, p).qual == Node(c, s, p').qual
  {
    hide Reach, Causal, PublicEvents, OneCommitment, OnGeneratingPub;
    Timed(c, s, p, g);
    Timed(c, s, p', g');
    StartedFresh(c, p);
    StartedFresh(c, p');
    RunQual(Fresh0(c, p), s.log[p], g);
    RunQual(Fresh0(c, p'), s.log[p'], g');
    QualConfluence(Fresh0(c, p), Fresh0(c, p'), Seen(s, p, g), Seen(s, p', g'));
  }

  // ---- A slow network is enough ----

  /** Two honest members whose polynomials are the constants 5 and 1. */
  function Pair(): Config {
    Config([1, 2], {}, 0, Small(), map[1 := Constant(5), 2 := Constant(1)], map[1 := Constant(0), 2 := Constant(0)])
  }

  lemma PairValid()
    ensures ValidConfig(Pair()) && Correct(Pair(), 1) && Correct(Pair(), 2) && Fresh0(Pair(), 2) == Second()
  {
    SmallPowers();
  }

  /** The messages of the run. */
  function Needed(): set<Post> {
    {Post(1, CommitmentsMsg([Zp(9, 23)])), Post(2, CommitmentsMsg([Zp(2, 23)])), Post(2, ShareMsg(2, OwnShare())),
     Post(1, ShareMsg(2, LateOne())), Post(1, PubCommitmentsMsg([Zp(9, 23)]))}
  }

  lemma PairOpens()
    ensures ValidConfig(Pair()) && Correct(Pair(), 1) && Correct(Pair(), 2)
    ensures Post(1, CommitmentsMsg([Zp(9, 23)])) in Opening(Pair(), 1)
    ensures Post(1, ShareMsg(2, LateOne())) in Opening(Pair(), 1)
    ensures Post(2, CommitmentsMsg([Zp(2, 23)])) in Opening(Pair(), 2)
    ensures Post(2, ShareMsg(2, OwnShare())) in Opening(Pair(), 2)
  {
    PairValid();
    LateAt();
    assert ShareFor(Pair(), 1, 2) == LateOne() && ShareFor(Pair(), 2, 2) == OwnShare();
    PairCommits();
    hide HonestComm, ShareFor;
    assert 2 in Pair().procs;
  }

  lemma PairCommits()
    requires ValidConfig(Pair()) && Correct(Pair(), 1) && Correct(Pair(), 2)
    ensures HonestComm(Pair(), 1) == [Zp(9, 23)] && HonestComm(Pair(), 2) == [Zp(2, 23)]
    ensures Feldman(Small(), Values(Constant(5).coefficients)) == [Zp(9, 23)]
  {
    SmallPowers();
  }

  predicate Quiet(s: Sys) {
    forall k | k in s.sent :: !k.msg.Complaint1Msg? && !k.msg.Complaint2Msg?
  }

  /** Both begin, and 1's timer fires at once. */
  lemma PairBegins() returns (s: Sys)
    ensures ValidConfig(Pair()) && Reach(Pair(), s) && 2 in s.log && s.log[2] == Late()[..0] && Needed() <= s.sent
    ensures Quiet(s)
  {
    hide Reach, Opening, ValidConfig;
    var c := Pair();
    PairValid();
    PairOpens();
    assert Reach(c, Start()) by { StartReached(c); }
    Go(c, Start(), Begin(1));
    s := Do(c, Start(), Begin(1));
    Go(c, s, Begin(2));
    s := Do(c, s, Begin(2));
    OpeningQuiet(c, 1);
    OpeningQuiet(c, 2);
    assert s.log[1] == [] && Opening(c, 1) + Opening(c, 2) <= s.sent;
    Go(c, s, Generate(1));
    FirstPubs(s);
    s := Do(c, s, Generate(1));
  }

  lemma OpeningQuiet(c: Config, p: Id)
    requires ValidConfig(c) && Correct(c, p)
    ensures Quiet(Sys(map[], Opening(c, p)))
  {
  }

  lemma StartReached(c: Config)
    requires ValidConfig(c)
    ensures Reach(c, Start())
  {
    assert IsRun(c, [Start()]);
  }

  lemma FirstPubs(s: Sys)
    requires ValidConfig(Pair()) && Correct(Pair(), 1) && 1 in s.log && s.log[1] == []
    ensures Feed(Pair(), s, 1, GeneratingPub).sent == s.sent + {Post(1, PubCommitmentsMsg([Zp(9, 23)]))}
  {
    hide ValidConfig, Kept, Total, Collected, Parts, Unanswered, Missing;
    PairValid();
    PairCommits();
    var d := Node(Pair(), s, 1);
    assert d == Fresh0(Pair(), 1);
    assert OnGeneratingPub(d).1 == PubCommitmentsMsg([Zp(9, 23)]);
  }

  /** 2 takes the inputs of Late one by one. */
  lemma {:induction false} PairTakes(j: nat) returns (s: Sys)
    requires j <= |Late()|
    ensures ValidConfig(Pair()) && Reach(Pair(), s) && 2 in s.log && s.log[2] == Late()[..j] && Needed() <= s.sent
    ensures Quiet(s)
  {
    hide Reach, ValidConfig, Take, Node, Constant;
    PairValid();
    if j == 0 {
      s := PairBegins();
    } else {
      var before := PairTakes(j - 1);
      var t := PairStep(j - 1);
      assert Enabled(Pair(), before, t) by { PairEnabled(before, j - 1); }
      Go(Pair(), before, t);
      s := Do(Pair(), before, t);
      PairSends(before, j - 1);
      assert Late()[..j] == Late()[..j - 1] + [Late()[j - 1]];
    }
  }

  lemma PairSends(s: Sys, j: nat)
    requires j < |Late()| && ValidConfig(Pair()) && Correct(Pair(), 2) && 2 in s.log && s.log[2] == Late()[..j]
    ensures Quiet(Sys(map[], Out(2, Take(Node(Pair(), s, 2), Late()[j]).1)))
  {
    hide ValidConfig, Take, After, Late, Pow, LateState;
    PairValid();
    assert Sent(Second(), Late(), j) == Take(Node(Pair(), s, 2), Late()[j]).1;
    LateSends(j);
  }

  lemma LateSends(j: nat)
    requires j < |Late()|
    ensures Usable(Second()) && (Sent(Second(), Late(), j) == None
            || Sent(Second(), Late(), j).value.PubCommitmentsMsg?)
  {
    hide Sent, LateState, After;
    LateStart();
    LateEnd();
  }

  function PairStep(j: nat): Step
    requires j < |Late()|
  {
    if j == 0 then Receive(2, Post(1, CommitmentsMsg([Zp(9, 23)])))
    else if j == 1 then Receive(2, Post(2, CommitmentsMsg([Zp(2, 23)])))
    else if j == 2 then Receive(2, Post(2, ShareMsg(2, OwnShare())))
    else if j == 3 then Generate(2)
    else if j == 4 then Receive(2, Post(1, ShareMsg(2, LateOne())))
    else if j == 5 then Receive(2, Post(1, PubCommitmentsMsg([Zp(9, 23)])))
    else Build(2)
  }

  lemma PairEnabled(s: Sys, j: nat)
    requires j < |Late()| && ValidConfig(Pair()) && Correct(Pair(), 2)
    requires 2 in s.log && s.log[2] == Late()[..j] && Needed() <= s.sent
    ensures Enabled(Pair(), s, PairStep(j))
  {
    if j == 6 {
      assert Late()[..6][3] == GeneratingPub;
    }
  }

  /** There is a run of honest members in which nobody complains, a key is built, and a private share does not fit it:
      it is enough that one share is slower than the timer. */
  lemma SlowShare() returns (s: Sys)
    ensures ValidConfig(Pair()) && Pair().byz == {} && Reach(Pair(), s) && 2 in s.log && Correct(Pair(), 2)
    ensures Quiet(s) && Node(Pair(), s, 2).pubKey.Some? && !KeyFits(Fresh0(Pair(), 2), Node(Pair(), s, 2))
  {
    hide ValidConfig, Reach, After, KeyFits, LateState;
    PairValid();
    s := PairTakes(7);
    assert Late()[..7] == Late();
    LateShare();
  }
}

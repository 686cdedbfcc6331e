/** When a process complains, read off its inputs: a share that does not open the dealer's commitments brings a
    complaint, a share that does brings none, and a dealer that cheats more than t correct members is in no QUAL. */
module DkgComplaints {
  import opened Common
  import opened Zp
  import opened Polynomials
  import opened Commitments
  import opened DkgSpec
  import opened DkgQual
  import opened DkgRun
  import opened DkgSystem

  // ---- What came from a dealer ----

  predicate IsCommitments(i: Input, k: Id, t: nat) {
    i.Phase1? && i.e.ReceivedCommitments? && i.e.from == k && |i.e.comms| == t + 1
  }

  /** The first commitments of valid length from k. */
  function FirstComms(log: seq<Input>, k: Id, t: nat): Option<seq<Element>> {
    if log == [] then None
    else
      var n := |log| - 1;
      var before := FirstComms(log[..n], k, t);
      if before.None? && IsCommitments(log[n], k, t) then Some(log[n].e.comms) else before
  }

  predicate IsShare(i: Input, k: Id) {
    i.Phase1? && i.e.ReceivedShare? && i.e.from == k
  }

  /** The last share from k. */
  function LastShare(log: seq<Input>, k: Id): Option<Share> {
    if log == [] then None
    else if IsShare(log[|log| - 1], k) then Some(log[|log| - 1].e.share)
    else LastShare(log[..|log| - 1], k)
  }

  /** s opens the commitments at the process: g^s h^s' is the product of the C_i to the process's i-th power. */
  predicate Opens(m: Params, comms: seq<Element>, at: Id, s: Share)
    requires m.p > 0 && comms != []
  {
    Mul(Exp(G(m), s.s.value), Exp(H(m), s.sMasked.value)) == Line(comms, at)
  }

  /** With input j, share s of k and its commitments are both there for the first time since: a share that arrives after
      the commitments, or commitments that arrive when a share waits for them. */
  predicate Meet(log: seq<Input>, j: nat, k: Id, s: Share, comms: seq<Element>, t: nat) {
    && j < |log| && |comms| == t + 1
    && if IsShare(log[j], k) then log[j].e.share == s && FirstComms(log[..j], k, t) == Some(comms)
       else
         && IsCommitments(log[j], k, t) && log[j].e.comms == comms
         && FirstComms(log[..j], k, t) == None && LastShare(log[..j], k) == Some(s)
  }

  // ---- The state follows the inputs ----

  predicate Tracked(d: Dkg, log: seq<Input>, k: Id) {
    && (k in d.polyCommitments <==> FirstComms(log, k, d.t).Some?)
    && (k in d.polyCommitments ==> d.polyCommitments[k] == FirstComms(log, k, d.t).value)
    && (k !in d.polyCommitments ==> k !in d.shares)
    && (k !in d.polyCommitments ==> (k in d.pendingShares <==> LastShare(log, k).Some?))
    && (k !in d.polyCommitments && k in d.pendingShares ==> d.pendingShares[k] == LastShare(log, k).value)
  }

  lemma LastInput(log: seq<Input>, k: Id, t: nat)
    requires log != []
    ensures var n := |log| - 1;
      && FirstComms(log, k, t) == (if FirstComms(log[..n], k, t).None? && IsCommitments(log[n], k, t)
                                   then Some(log[n].e.comms) else FirstComms(log[..n], k, t))
      && LastShare(log, k) == if IsShare(log[n], k) then Some(log[n].e.share) else LastShare(log[..n], k)
  {
  }

  lemma TakeTracked(d: Dkg, log: seq<Input>, k: Id)
    requires Usable(d) && log != [] && Tracked(d, log[..|log| - 1], k)
    ensures Tracked(Take(d, log[|log| - 1]).0, log, k)
  {
    var i := log[|log| - 1];
    if i.Phase1? && i.e.ReceivedCommitments? {
      hide Tracked, Take;
      CommitmentsTracked(d, log, k);
    } else if i.Phase1? && i.e.ReceivedShare? {
      hide Tracked, Take;
      ShareTracked(d, log, k);
    } else {
      LastInput(log, k, d.t);
      OtherInputs(d, i);
      hide Take, FirstComms, LastShare, Usable;
    }
  }

  lemma OtherInputs(d: Dkg, i: Input)
    requires Usable(d) && !(i.Phase1? && (i.e.ReceivedCommitments? || i.e.ReceivedShare?))
    ensures var e := Take(d, i).0;
      && e.t == d.t && e.polyCommitments == d.polyCommitments && e.pendingShares == d.pendingShares
      && forall k :: k in e.shares ==> k in d.shares || k in d.polyCommitments
  {
    if i.Phase1? {
      hide OnComplaint1, OnReveal;
      match i.e
      case Complaint1(from, dealer) => ComplaintChanges(d, from, dealer);
      case RevealShare(from, target, s) => RevealChanges(d, from, target, s);
    } else {
      hide Take;
      TakeChanges(d, i);
    }
  }

  lemma ShareTracked(d: Dkg, log: seq<Input>, k: Id)
    requires Usable(d) && log != [] && Tracked(d, log[..|log| - 1], k)
    requires log[|log| - 1].Phase1? && log[|log| - 1].e.ReceivedShare?
    ensures Tracked(Take(d, log[|log| - 1]).0, log, k)
  {
    LastInput(log, k, d.t);
    var e := log[|log| - 1].e;
    ShareChanges(d, e.from, e.share);
    if k !in d.polyCommitments { Waiting(d, e.from, e.share, k); }
    hide OnShare, FirstComms, LastShare;
  }

  /** A share without commitments waits, and the last one replaces those before. */
  lemma Waiting(d: Dkg, from: Id, s: Share, k: Id)
    requires Usable(d) && k !in d.polyCommitments && k !in d.shares
    ensures OnShare(d, from, s).0.pendingShares
            == if from in d.shares || from in d.polyCommitments then d.pendingShares else d.pendingShares[from := s]
  {
    hide ShareFits;
  }

  lemma CommitmentsTracked(d: Dkg, log: seq<Input>, k: Id)
    requires Usable(d) && log != [] && Tracked(d, log[..|log| - 1], k)
    requires log[|log| - 1].Phase1? && log[|log| - 1].e.ReceivedCommitments?
    ensures Tracked(Take(d, log[|log| - 1]).0, log, k)
  {
    LastInput(log, k, d.t);
    var e := log[|log| - 1].e;
    CommitmentsChange(d, e.from, e.comms);
    Recorded(d, e.from, e.comms, k);
    hide OnCommitments, FirstComms, LastShare;
  }

  /** The first commitments of valid length are those that are recorded. */
  lemma Recorded(d: Dkg, from: Id, comms: seq<Element>, k: Id)
    requires Usable(d)
    ensures var e := OnCommitments(d, from, comms).0;
      && e.polyCommitments == (if from !in d.polyCommitments && |comms| == d.t + 1 then d.polyCommitments[from := comms]
                               else d.polyCommitments)
      && (k !in e.polyCommitments ==> (k in e.pendingShares <==> k in d.pendingShares))
  {
    hide ShareFits;
  }

  lemma {:induction false} AfterTracked(d: Dkg, log: seq<Input>, k: Id)
    requires Started(d)
    ensures Tracked(After(d, log), log, k)
  {
    if log != [] {
      hide Take, Tracked;
      AfterTracked(d, log[..|log| - 1], k);
      TakeTracked(After(d, log[..|log| - 1]), log, k);
    }
  }

  /** A share and its commitments have met, and no share of k was stored before: the process stores the share if it
      opens the commitments, and otherwise complains about k; it does nothing else. */
  lemma MeetJudged(d: Dkg, log: seq<Input>, j: nat, k: Id, s: Share, comms: seq<Element>)
    requires Started(d) && Meet(log, j, k, s, comms, d.t) && k !in After(d, log[..j]).shares
    ensures Sent(d, log, j) == if Opens(d.params, comms, d.self, s) then None else Some(Complaint1Msg(k))
    ensures After(d, log[..j + 1]).shares
            == if Opens(d.params, comms, d.self, s) then After(d, log[..j]).shares[k := s]
                else After(d, log[..j]).shares
  {
    AfterTracked(d, log[..j], k);
    Same(d, log[..j]);
    assert log[..j + 1][..j] == log[..j];
    hide Line, Exp, After, FirstComms, LastShare;
    Unfold(d, log[..j + 1]);
  }

  /** A process complains about k only when such a share has met k's commitments. */
  lemma ComplaintMeets(d: Dkg, log: seq<Input>, j: nat, k: Id) returns (s: Share, comms: seq<Element>)
    requires Started(d) && j < |log| && Sent(d, log, j) == Some(Complaint1Msg(k))
    ensures Meet(log, j, k, s, comms, d.t) && k !in After(d, log[..j]).shares && !Opens(d.params, comms, d.self, s)
  {
    AfterTracked(d, log[..j], k);
    Same(d, log[..j]);
    AfterCommitted(d, log[..j]);
    var a := After(d, log[..j]);
    hide Line, Exp, After, FirstComms, LastShare;
    OnlyThese(a, log[j], k);
    if IsShare(log[j], k) {
      s, comms := log[j].e.share, a.polyCommitments[k];
    } else {
      s, comms := a.pendingShares[k], log[j].e.comms;
    }
  }

  /** The two places that complain. */
  lemma OnlyThese(d: Dkg, i: Input, k: Id)
    requires Usable(d) && Take(d, i).1 == Some(Complaint1Msg(k))
    ensures IsShare(i, k) || IsCommitments(i, k, d.t)
    ensures IsShare(i, k) ==>
              k !in d.shares && k in d.polyCommitments && !ShareFits(d.params, d.polyCommitments[k], d.self, i.e.share)
    ensures !IsShare(i, k) ==> k !in d.polyCommitments && k in d.pendingShares
                               && !ShareFits(d.params, i.e.comms, d.self, d.pendingShares[k])
  {
    hide ShareFits, PubShareFits, Lookup, Feldman, At;
  }

  // ---- Runs ----

  /** p complained about k: a share of k met k's commitments, opened nothing, and none was stored before. */
  ghost predicate Cheated(c: Config, s: Sys, p: Id, k: Id)
    requires ValidConfig(c) && Correct(c, p) && p in s.log
  {
    exists j: nat, share, comms :: CheatedAt(c, s, p, k, j, share, comms)
  }

  ghost predicate CheatedAt(c: Config, s: Sys, p: Id, k: Id, j: nat, share: Share, comms: seq<Element>)
    requires ValidConfig(c) && Correct(c, p) && p in s.log
  {
    && Meet(s.log[p], j, k, share, comms, c.t)
    && k !in After(Fresh0(c, p), s.log[p][..j]).shares
    && !Opens(c.m, comms, p, share)
  }

  /** Whatever a member sent on one of its inputs is on the network, and what is there from it was sent so, or when it
      began. */
  ghost predicate SentExactly(c: Config, s: Sys, p: Id)
    requires ValidConfig(c) && Correct(c, p)
  {
    && (p in s.log ==> forall j | 0 <= j < |s.log[p]| && Sent(Fresh0(c, p), s.log[p], j).Some? ::
          Post(p, Sent(Fresh0(c, p), s.log[p], j).value) in s.sent)
    && forall k | k in s.sent && k.from == p ::
         p in s.log && (k in Opening(c, p) || exists j :: SentAt(c, s, p, j, k.msg))
  }

  ghost predicate SentAt(c: Config, s: Sys, p: Id, j: nat, msg: Message)
    requires ValidConfig(c) && Correct(c, p) && p in s.log
  {
    j < |s.log[p]| && Sent(Fresh0(c, p), s.log[p], j) == Some(msg)
  }

  lemma SentBefore(c: Config, p: Id, log: seq<Input>, i: Input, j: nat)
    requires ValidConfig(c) && Correct(c, p) && j < |log|
    ensures Usable(Fresh0(c, p)) && Sent(Fresh0(c, p), log + [i], j) == Sent(Fresh0(c, p), log, j)
  {
    StartedFresh(c, p);
    assert (log + [i])[..j] == log[..j];
  }

  lemma SentNow(c: Config, s: Sys, p: Id, i: Input)
    requires ValidConfig(c) && Correct(c, p) && p in s.log
    ensures Usable(Fresh0(c, p)) && Usable(Node(c, s, p))
    ensures Sent(Fresh0(c, p), s.log[p] + [i], |s.log[p]|) == Take(Node(c, s, p), i).1
  {
    StartedFresh(c, p);
    assert (s.log[p] + [i])[..|s.log[p]|] == s.log[p];
  }

  lemma FeedExactly(c: Config, s: Sys, p: Id, i: Input)
    requires ValidConfig(c) && Correct(c, p) && p in s.log && SentExactly(c, s, p)
    ensures SentExactly(c, Feed(c, s, p, i), p)
  {
    hide Take, Node, Opening, ValidConfig, After, Sent;
    var s', n := Feed(c, s, p, i), |s.log[p]|;
    StartedFresh(c, p);
    SentNow(c, s, p, i);
    forall j | 0 <= j < |s'.log[p]| && Sent(Fresh0(c, p), s'.log[p], j).Some?
      ensures Post(p, Sent(Fresh0(c, p), s'.log[p], j).value) in s'.sent
    {
      if j < n { SentBefore(c, p, s.log[p], i, j); }
    }
    forall k | k in s'.sent && k.from == p && k !in Opening(c, p) ensures exists j :: SentAt(c, s', p, j, k.msg) {
      if k in s.sent {
        var j :| SentAt(c, s, p, j, k.msg);
        SentBefore(c, p, s.log[p], i, j);
        assert SentAt(c, s', p, j, k.msg);
      } else {
        assert SentAt(c, s', p, n, k.msg);
      }
    }
  }

  /** A step of another member, or of nobody's log. */
  lemma OthersExactly(c: Config, s: Sys, s': Sys, p: Id)
    requires ValidConfig(c) && Correct(c, p) && SentExactly(c, s, p)
    requires (p in s'.log <==> p in s.log) && (p in s.log ==> s'.log[p] == s.log[p])
    requires s.sent <= s'.sent && forall k | k in s'.sent && k !in s.sent :: k.from != p
    ensures SentExactly(c, s', p)
  {
    hide Opening, ValidConfig, After, Sent;
    StartedFresh(c, p);
    forall k | k in s'.sent && k.from == p && k !in Opening(c, p) ensures exists j :: SentAt(c, s', p, j, k.msg) {
      var j :| SentAt(c, s, p, j, k.msg);
      assert SentAt(c, s', p, j, k.msg);
    }
  }

  lemma BeginExactly(c: Config, s: Sys, p: Id)
    requires ValidConfig(c) && Correct(c, p) && p !in s.log && SentExactly(c, s, p)
    ensures SentExactly(c, Do(c, s, Begin(p)), p)
  {
    hide Opening, ValidConfig;
  }

  lemma StepExactly(c: Config, s: Sys, t: Step, p: Id)
    requires ValidConfig(c) && Enabled(c, s, t) && Correct(c, p) && SentExactly(c, s, p)
    ensures SentExactly(c, Do(c, s, t), p)
  {
    hide SentExactly, ValidConfig, Take, Node;
    match t
    case Begin(q) =>
      if q == p { BeginExactly(c, s, p); } else { BeginOthers(c, s, q); OthersExactly(c, s, Do(c, s, t), p); }
    case Receive(q, k) =>
      if q == p { FeedExactly(c, s, p, InputOf(k)); } else { OthersExactly(c, s, Do(c, s, t), p); }
    case Generate(q) =>
      if q == p { FeedExactly(c, s, p, GeneratingPub); } else { OthersExactly(c, s, Do(c, s, t), p); }
    case Build(q) =>
      if q == p { FeedExactly(c, s, p, BuildPubKey); } else { OthersExactly(c, s, Do(c, s, t), p); }
    case Forge(_) => OthersExactly(c, s, Do(c, s, t), p);
  }

  lemma BeginOthers(c: Config, s: Sys, q: Id)
    requires ValidConfig(c) && Correct(c, q)
    ensures forall k | k in Opening(c, q) :: k.from == q
  {
  }

  lemma {:induction false} RunExactly(c: Config, run: seq<Sys>, i: nat, p: Id)
    requires ValidConfig(c) && IsRun(c, run) && i < |run| && Correct(c, p)
    ensures SentExactly(c, run[i], p)
  {
    hide SentExactly, Do, Enabled, ValidConfig;
    if i == 0 {
      StartExactly(c, p);
    } else {
      RunExactly(c, run, i - 1, p);
      assert Next(c, run[i - 1], run[i - 1 + 1]);
      var t :| Enabled(c, run[i - 1], t) && run[i] == Do(c, run[i - 1], t);
      StepExactly(c, run[i - 1], t, p);
    }
  }

  lemma StartExactly(c: Config, p: Id)
    requires ValidConfig(c) && Correct(c, p)
    ensures SentExactly(c, Start(), p)
  {
  }

  /** In every reachable state, a correct member has complained about k exactly if a share from k that does not open k's
      commitments has met them at a moment when it had stored none. */
  lemma ComplainsExactly(c: Config, s: Sys, p: Id, k: Id)
    requires ValidConfig(c) && Reach(c, s) && Correct(c, p) && p in s.log
    ensures Post(p, Complaint1Msg(k)) in s.sent <==> Cheated(c, s, p, k)
  {
    hide Opens, Meet, After, Sent, IsRun, Reach, ValidConfig, Opening, Started;
    StartedFresh(c, p);
    assert SentExactly(c, s, p) by {
      var run := RunTo(c, s);
      RunExactly(c, run, |run| - 1, p);
    }
    var post := Post(p, Complaint1Msg(k));
    if post in s.sent {
      NoComplaintFirst(c, p, k);
      var j: nat :| SentAt(c, s, p, j, post.msg);
      var share, comms := ComplaintMeets(Fresh0(c, p), s.log[p], j, k);
      assert CheatedAt(c, s, p, k, j, share, comms);
    }
    if Cheated(c, s, p, k) {
      var j: nat, share, comms :| CheatedAt(c, s, p, k, j, share, comms);
      MeetJudged(Fresh0(c, p), s.log[p], j, k, share, comms);
      assert j < |s.log[p]| by { MeetIn(s.log[p], j, k, share, comms, c.t); }
    }
  }

  lemma MeetIn(log: seq<Input>, j: nat, k: Id, s: Share, comms: seq<Element>, t: nat)
    requires Meet(log, j, k, s, comms, t)
    ensures j < |log|
  {
  }

  lemma RunTo(c: Config, s: Sys) returns (run: seq<Sys>)
    requires ValidConfig(c) && Reach(c, s)
    ensures run != [] && IsRun(c, run) && run[|run| - 1] == s
  {
    run :| IsRun(c, run) && run[|run| - 1] == s;
  }

  lemma NoComplaintFirst(c: Config, p: Id, k: Id)
    requires ValidConfig(c) && Correct(c, p)
    ensures Post(p, Complaint1Msg(k)) !in Opening(c, p)
  {
  }

  // ---- Cheating dealers ----

  predicate ManyMarked(d: Dkg, k: Id) {
    |Lookup(d.complaints1, k)| > d.t ==> k in d.noqual
  }

  lemma TakeMarked(d: Dkg, i: Input, k: Id)
    requires Usable(d) && ManyMarked(d, k)
    ensures ManyMarked(Take(d, i).0, k)
  {
    if i.Phase1? && i.e.Complaint1? {
      hide At;
      var cs := Lookup(d.complaints1, i.e.dealer);
      assert i.e.from !in cs ==> |cs + {i.e.from}| == |cs| + 1;
    } else {
      SameComplaints(d, i);
      if k in d.noqual { StaysMarked(d, i, k); }
      TakeSame(d, i);
      hide Take;
    }
  }

  lemma StaysMarked(d: Dkg, i: Input, k: Id)
    requires Usable(d) && k in d.noqual
    ensures k in Take(d, i).0.noqual
  {
    if i.Phase1? {
      hide OnCommitments, OnShare, ShareFits;
      match i.e
      case ReceivedCommitments(from, comms) => CommitmentsChange(d, from, comms);
      case ReceivedShare(from, s) => ShareChanges(d, from, s);
      case _ =>
    } else if !i.GeneratingPub? {
      hide Take;
      TakeChanges(d, i);
    }
  }

  lemma {:induction false} AfterMarked(d: Dkg, log: seq<Input>, k: Id)
    requires Started(d)
    ensures ManyMarked(After(d, log), k)
  {
    if log != [] {
      hide Take, ManyMarked;
      AfterMarked(d, log[..|log| - 1], k);
      TakeMarked(After(d, log[..|log| - 1]), log[|log| - 1], k);
    }
  }

  lemma MarkedOut(d: Dkg, k: Id)
    requires Usable(d) && k in d.noqual
    ensures k !in OnGeneratingPub(d).0.qual
  {
    InKept(d.processes, d.noqual + Unanswered(d) + Missing(d), k);
  }

  /** More than t complaints that p handled before its timer leave a dealer out of p's QUAL. */
  lemma ManyComplaints(c: Config, s: Sys, p: Id, g: nat, k: Id)
    requires ValidConfig(c) && Reach(c, s) && TimerAt(s, p, g) && |Complainers(s.log[p][..g], k)| > c.t
    ensures Correct(c, p) && k !in Node(c, s, p).qual
  {
    hide Reach, OnGeneratingPub, Complainers;
    Timed(c, s, p, g);
    StartedFresh(c, p);
    var d, log := Fresh0(c, p), s.log[p];
    ComplaintsRecorded(d, log[..g], k);
    AfterMarked(d, log[..g], k);
    Same(d, log[..g]);
    MarkedOut(After(d, log[..g]), k);
    Fixed(d, log, g);
  }

  /** A dealer that gave the correct members of a shares that do not open its commitments, and a has more than t
      members, is in the QUAL of no member that handled their complaints before its timer. That they complain is part of
      the claim. */
  lemma CheaterLeftOut(c: Config, s: Sys, p: Id, g: nat, k: Id, a: set<Id>)
    requires ValidConfig(c) && Reach(c, s) && TimerAt(s, p, g) && |a| > c.t
    requires forall q | q in a :: Correct(c, q) && q in s.log && Cheated(c, s, q, k)
    requires forall q | q in a && Post(q, Complaint1Msg(k)) in s.sent :: Phase1(Complaint1(q, k)) in s.log[p][..g]
    ensures Correct(c, p) && k !in Node(c, s, p).qual
  {
    hide Reach, Cheated, TimerAt, Node;
    var log := s.log[p][..g] by { assert TimerAt(s, p, g); TimerIn(s, p, g); }
    forall q | q in a ensures q in Complainers(log, k) {
      ComplainsExactly(c, s, q, k);
      assert Phase1(Complaint1(q, k)) in log;
      assert Phase1(Complaint1(q, k)).e.from == q;
    }
    SubsetCard(a, Complainers(log, k));
    ManyComplaints(c, s, p, g, k);
  }

  lemma TimerIn(s: Sys, p: Id, g: nat)
    requires TimerAt(s, p, g)
    ensures p in s.log && g < |s.log[p]|
  {
  }
}

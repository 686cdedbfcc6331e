/** Whole runs of one process of the key generation, in any order of events and timers. */
module DkgRun {
  import opened Common
  import opened ModArith
  import opened Zp
  import opened Polynomials
  import opened Commitments
  import opened DkgSpec
  import opened DkgQual
  import opened DkgKeys

  /** What applyEvent is given after the start: there is no guard for the phase. */
  datatype Input =
    | Phase1(e: Event)
    | GeneratingPub
    | PubCommitments(from: Id, comms: seq<Element>)
    | Complaint2(from: Id, dealer: Id, share: Share)
    | BuildPubKey

  function Take(d: Dkg, i: Input): (r: (Dkg, Option<Message>))
    requires Usable(d)
    ensures Usable(r.0)
  {
    match i
    case Phase1(e) => Apply(d, e)
    case GeneratingPub => var (d1, m) := OnGeneratingPub(d); (d1, Some(m))
    case PubCommitments(from, comms) => OnPubCommitments(d, from, comms)
    case Complaint2(from, dealer, s) => (OnComplaint2(d, from, dealer, s), None)
    case BuildPubKey => (OnBuildPubKey(d).0, None)
  }

  function After(d: Dkg, log: seq<Input>): (r: Dkg)
    requires Usable(d)
    ensures Usable(r)
  {
    if log == [] then d else Take(After(d, log[..|log| - 1]), log[|log| - 1]).0
  }

  /** What the process sends on taking is[j]. */
  function Sent(d: Dkg, log: seq<Input>, j: nat): Option<Message>
    requires Usable(d) && j < |log|
  {
    Take(After(d, log[..j]), log[j]).1
  }

  /** A process as New and handleStart leave it. */
  predicate Started(d: Dkg) {
    Usable(d) && d == NewDkg(d.self, d.processes, d.t, d.params, d.f, d.fMask)
  }

  /** The timer of phase 1 fires at g, and once only. */
  predicate Generated(log: seq<Input>, g: nat) {
    g < |log| && log[g] == GeneratingPub && forall j | 0 <= j < |log| && log[j] == GeneratingPub :: j == g
  }

  /** The phase-1 events. */
  function Firsts(log: seq<Input>): seq<Event> {
    if log == [] then []
    else
      var i := log[|log| - 1];
      Firsts(log[..|log| - 1]) + if i.Phase1? then [i.e] else []
  }

  lemma Unfold(d: Dkg, log: seq<Input>)
    requires Usable(d) && log != []
    ensures After(d, log) == Take(After(d, log[..|log| - 1]), log[|log| - 1]).0
  {
  }

  /** What an input may change. */
  predicate Changes(d: Dkg, i: Input, e: Dkg) {
    match i
    case Phase1(_) =>
      e == d.(polyCommitments := e.polyCommitments, shares := e.shares, pendingShares := e.pendingShares,
              complaints1 := e.complaints1, revealed := e.revealed, noqual := e.noqual)
    case GeneratingPub =>
      e == d.(noqual := e.noqual, qual := e.qual, inQual := e.inQual, pkShare := e.pkShare,
              pubCommitments := e.pubCommitments)
    case PubCommitments(from, comms) =>
      && e == d.(pubCommitments := e.pubCommitments)
      && (e != d ==> |comms| == d.t + 1 && from in d.inQual && from !in d.pubCommitments)
      && (e != d ==> e.pubCommitments == d.pubCommitments[from := comms])
    case Complaint2(_, _, _) => e == d.(noqual2 := e.noqual2) && (e != d ==> d.inQual != {})
    case BuildPubKey => e == d.(pubKey := e.pubKey) && (e != d ==> d.qual != [])
  }

  lemma Phase1Changes(d: Dkg, ev: Event)
    requires Usable(d)
    ensures Changes(d, Phase1(ev), Apply(d, ev).0)
  {
    hide OnCommitments, OnShare, OnComplaint1, OnReveal;
    match ev
    case ReceivedCommitments(from, comms) => CommitmentsChange(d, from, comms);
    case ReceivedShare(from, s) => ShareChanges(d, from, s);
    case Complaint1(from, dealer) => ComplaintChanges(d, from, dealer);
    case RevealShare(from, target, s) => RevealChanges(d, from, target, s);
  }

  lemma ShareChanges(d: Dkg, from: Id, s: Share)
    requires Usable(d)
    ensures var e := OnShare(d, from, s).0;
      && e == d.(shares := e.shares, pendingShares := e.pendingShares)
      && (e.shares == d.shares || (from in d.polyCommitments && from !in d.shares && e.shares == d.shares[from := s]))
      && (e.pendingShares == d.pendingShares || e.pendingShares == d.pendingShares[from := s])
  {
    hide ShareFits;
  }

  lemma ComplaintChanges(d: Dkg, from: Id, dealer: Id)
    requires Usable(d)
    ensures var e := OnComplaint1(d, from, dealer).0; e == d.(complaints1 := e.complaints1, noqual := e.noqual)
  {
    hide Lookup;
  }

  lemma RevealChanges(d: Dkg, from: Id, target: Id, s: Share)
    requires Usable(d)
    ensures var e := OnReveal(d, from, target, s);
      && e == d.(revealed := e.revealed, noqual := e.noqual, shares := e.shares)
      && (e.shares == d.shares || (from in d.polyCommitments && target == d.self && e.shares == d.shares[from := s]))
  {
    hide ShareFits, Lookup;
  }

  /** Accepting commitments touches the shares from that dealer and nothing else. */
  lemma CommitmentsChange(d: Dkg, from: Id, comms: seq<Element>)
    requires Usable(d)
    ensures var e := OnCommitments(d, from, comms).0;
      && e == d.(polyCommitments := e.polyCommitments, shares := e.shares, pendingShares := e.pendingShares)
      && (e.shares == d.shares || (from !in d.polyCommitments && from in d.pendingShares && from in e.polyCommitments
                                   && e.shares == d.shares[from := d.pendingShares[from]]))
      && (forall k :: k in d.polyCommitments ==> k in e.polyCommitments)
      && (forall k :: k in e.pendingShares ==> k in d.pendingShares && e.pendingShares[k] == d.pendingShares[k])
  {
    hide ShareFits;
  }

  lemma TakeChanges(d: Dkg, i: Input)
    requires Usable(d)
    ensures Changes(d, i, Take(d, i).0)
  {
    match i
    case Phase1(e) =>
      hide Apply, Changes;
      Phase1Changes(d, e);
    case GeneratingPub => GeneratingChanges(d);
    case PubCommitments(from, comms) => hide PubShareFits;
    case Complaint2(_, _, _) => hide PubShareFits, ShareFits;
    case BuildPubKey => BuildChanges(d);
  }

  lemma GeneratingChanges(d: Dkg)
    requires Usable(d)
    ensures Changes(d, GeneratingPub, OnGeneratingPub(d).0)
    ensures OnGeneratingPub(d).0.pubCommitments
            == d.pubCommitments[d.self := Feldman(d.params, Values(d.f.coefficients))]
    ensures |Feldman(d.params, Values(d.f.coefficients))| == d.t + 1
  {
    hide Kept, Total, Collected, Parts, Unanswered, Missing;
  }

  lemma BuildChanges(d: Dkg)
    ensures Changes(d, BuildPubKey, OnBuildPubKey(d).0)
  {
    hide Product;
  }

  predicate SameProcess(d: Dkg, e: Dkg) {
    e.self == d.self && e.processes == d.processes && e.t == d.t && e.params == d.params && e.f == d.f
        && e.fMask == d.fMask
  }

  lemma TakeSame(d: Dkg, i: Input)
    requires Usable(d)
    ensures SameProcess(d, Take(d, i).0)
  {
    hide Take;
    TakeChanges(d, i);
  }

  lemma {:induction false} Same(d: Dkg, log: seq<Input>)
    requires Usable(d)
    ensures SameProcess(d, After(d, log))
  {
    if log != [] {
      Same(d, log[..|log| - 1]);
      TakeSame(After(d, log[..|log| - 1]), log[|log| - 1]);
    }
  }

  lemma {:induction false} FirstsIn(log: seq<Input>, e: Event)
    ensures e in Firsts(log) <==> Phase1(e) in log
  {
    if log != [] {
      var n := |log| - 1;
      FirstsIn(log[..n], e);
      assert log == log[..n] + [log[n]];
    }
  }

  /** Who has complained about k. */
  function Complainers(log: seq<Input>, k: Id): set<Id> {
    set i | i in log && i.Phase1? && i.e.Complaint1? && i.e.dealer == k :: i.e.from
  }

  lemma MoreComplainers(log: seq<Input>, k: Id)
    requires log != []
    ensures var i := log[|log| - 1];
      Complainers(log, k) == Complainers(log[..|log| - 1], k) + if i.Phase1? && i.e.Complaint1? && i.e.dealer == k
          then {i.e.from} else {}
  {
    assert log == log[..|log| - 1] + [log[|log| - 1]];
  }

  lemma TakeComplaint(d: Dkg, i: Input, k: Id)
    requires Usable(d)
    ensures Lookup(Take(d, i).0.complaints1, k)
            == Lookup(d.complaints1, k) + if i.Phase1? && i.e.Complaint1? && i.e.dealer == k then {i.e.from} else {}
  {
    if i.Phase1? && i.e.Complaint1? {
      hide OnComplaint1, Lookup;
      NewComplaint(d, i.e.from, i.e.dealer, k);
    } else {
      hide Take;
      SameComplaints(d, i);
    }
  }

  lemma NewComplaint(d: Dkg, from: Id, dealer: Id, k: Id)
    requires Usable(d)
    ensures Lookup(OnComplaint1(d, from, dealer).0.complaints1, k) == Lookup(d.complaints1, k) + if dealer == k
              then {from} else {}
  {
    hide At;
    var before := Lookup(d.complaints1, dealer);
    assert from in before ==> before + {from} == before;
  }

  /** A new complaint about oneself, within the limit, is answered with the share that was dealt. */
  lemma FirstAnswered(d: Dkg, from: Id)
    requires Usable(d) && from !in Lookup(d.complaints1, d.self)
    ensures var cs := Lookup(d.complaints1, d.self);
      && |cs + {from}| == |cs| + 1
      && (|cs| < d.t ==>
            OnComplaint1(d, from, d.self).1 == Some(RevealShareMsg(from, Share(At(d.f, from), At(d.fMask, from)))))
  {
    hide At, Lookup;
  }

  lemma SameComplaints(d: Dkg, i: Input)
    requires Usable(d) && !(i.Phase1? && i.e.Complaint1?)
    ensures Take(d, i).0.complaints1 == d.complaints1
  {
    if i.Phase1? {
      hide OnCommitments, OnShare, OnReveal;
      match i.e
      case ReceivedCommitments(from, comms) => CommitmentsChange(d, from, comms);
      case ReceivedShare(from, s) => ShareChanges(d, from, s);
      case RevealShare(from, target, s) => RevealChanges(d, from, target, s);
    } else {
      hide Take;
      TakeChanges(d, i);
    }
  }

  /** Every complaint is recorded. */
  lemma {:induction false} ComplaintsRecorded(d: Dkg, log: seq<Input>, k: Id)
    requires Started(d)
    ensures Lookup(After(d, log).complaints1, k) == Complainers(log, k)
  {
    hide Take, Complainers;
    if log == [] {
      assert Complainers(log, k) == {} by { NoComplainers(k); }
    } else {
      ComplaintsRecorded(d, log[..|log| - 1], k);
      MoreComplainers(log, k);
      TakeComplaint(After(d, log[..|log| - 1]), log[|log| - 1], k);
    }
  }

  lemma NoComplainers(k: Id)
    ensures Complainers([], k) == {}
  {
  }

  // ---- Before and after the end of phase 1 ----

  predicate Idle(d: Dkg) {
    d.qual == [] && d.inQual == {} && d.pkShare == None && d.pubCommitments == map[] && d.noqual2 == {}
        && d.pubKey == None
  }

  lemma TakeIdle(d: Dkg, i: Input)
    requires Usable(d) && Idle(d) && i != GeneratingPub
    ensures Idle(Take(d, i).0)
    ensures Take(d, i).0 == if i.Phase1? then Apply(d, i.e).0 else d
  {
    hide Apply, OnPubCommitments, OnComplaint2, OnBuildPubKey, OnGeneratingPub;
    TakeChanges(d, i);
  }

  /** Before the timer fires only phase-1 events have an effect. */
  lemma {:induction false} BeforeGenerating(d: Dkg, log: seq<Input>)
    requires Started(d) && GeneratingPub !in log
    ensures Idle(After(d, log)) && After(d, log) == Run(d, Firsts(log))
  {
    if log != [] {
      var n := |log| - 1;
      BeforeGenerating(d, log[..n]);
      TakeIdle(After(d, log[..n]), log[n]);
      if log[n].Phase1? {
        assert (Firsts(log[..n]) + [log[n].e])[..|Firsts(log[..n])|] == Firsts(log[..n]);
      } else {
        assert Firsts(log) == Firsts(log[..n]);
      }
    }
  }

  lemma UpTo(log: seq<Input>, g: nat)
    requires Generated(log, g)
    ensures GeneratingPub !in log[..g]
  {
  }

  predicate SameResult(d: Dkg, e: Dkg) {
    e.qual == d.qual && e.inQual == d.inQual && e.pkShare == d.pkShare
  }

  lemma TakeSameResult(d: Dkg, i: Input)
    requires Usable(d) && i != GeneratingPub
    ensures SameResult(d, Take(d, i).0)
  {
    hide Take;
    TakeChanges(d, i);
  }

  /** The end of phase 1 fixes QUAL and the private share for good. */
  lemma {:induction false} Fixed(d: Dkg, log: seq<Input>, g: nat)
    requires Usable(d) && Generated(log, g)
    ensures SameResult(OnGeneratingPub(After(d, log[..g])).0, After(d, log))
    decreases |log|
  {
    var n := |log| - 1;
    if g < n {
      assert log[..n][..g] == log[..g];
      Fixed(d, log[..n], g);
      TakeSameResult(After(d, log[..n]), log[n]);
    }
  }

  /** QUAL of a run is that of its phase-1 events before the timer. */
  lemma RunQual(d: Dkg, log: seq<Input>, g: nat)
    requires Started(d) && Generated(log, g)
    ensures After(d, log[..g]) == Run(d, Firsts(log[..g]))
    ensures After(d, log).qual == OnGeneratingPub(Run(d, Firsts(log[..g]))).0.qual
  {
    UpTo(log, g);
    BeforeGenerating(d, log[..g]);
    Fixed(d, log, g);
  }

  // ---- Shares ----

  predicate Replaces(i: Input, self: Id, k: Id) {
    i.Phase1? && i.e.RevealShare? && i.e.from == k && i.e.target == self
  }

  predicate SharesCommitted(d: Dkg) {
    forall k | k in d.shares :: k in d.polyCommitments
  }

  /** A share gets in from its dealer, with commitments: as the first, as the one that waited, or as an answer. */
  lemma SharesChange(d: Dkg, ev: Event)
    requires Usable(d)
    ensures var e := Apply(d, ev).0;
      && e.self == d.self
      && (forall k :: k in d.polyCommitments ==> k in e.polyCommitments)
      && (e.shares == d.shares
          || (ev.from in e.polyCommitments && e.shares.Keys == d.shares.Keys + {ev.from}
              && e.shares == d.shares[ev.from := e.shares[ev.from]] && Source(d, ev, e.shares[ev.from])))
      && (forall k :: k in e.pendingShares ==>
            (k in d.pendingShares && e.pendingShares[k] == d.pendingShares[k])
            || (ev.ReceivedShare? && k == ev.from && e.pendingShares[k] == ev.share))
  {
    hide OnCommitments, OnShare, OnComplaint1, OnReveal;
    match ev
    case ReceivedCommitments(from, comms) => CommitmentsChange(d, from, comms);
    case ReceivedShare(from, s) => ShareChanges(d, from, s);
    case Complaint1(from, dealer) => ComplaintChanges(d, from, dealer);
    case RevealShare(from, target, s) => RevealChanges(d, from, target, s);
  }

  predicate Source(d: Dkg, ev: Event, s: Share) {
    match ev
    case ReceivedCommitments(from, _) =>
      from !in d.polyCommitments && from in d.pendingShares && s == d.pendingShares[from]
    case ReceivedShare(from, share) => from !in d.shares && s == share
    case Complaint1(_, _) => false
    case RevealShare(_, target, share) => target == d.self && s == share
  }

  lemma TakeCommitted(d: Dkg, i: Input)
    requires Usable(d) && SharesCommitted(d)
    ensures SharesCommitted(Take(d, i).0)
  {
    if i.Phase1? {
      SharesChange(d, i.e);
      hide Apply;
    } else {
      hide Take;
      TakeChanges(d, i);
    }
  }

  lemma {:induction false} AfterCommitted(d: Dkg, log: seq<Input>)
    requires Started(d)
    ensures SharesCommitted(After(d, log))
  {
    if log != [] {
      AfterCommitted(d, log[..|log| - 1]);
      TakeCommitted(After(d, log[..|log| - 1]), log[|log| - 1]);
    }
  }

  predicate SameShare(d: Dkg, e: Dkg, k: Id) {
    k in d.shares && k in e.shares && e.shares[k] == d.shares[k]
  }

  lemma TakeSameShare(d: Dkg, i: Input, k: Id)
    requires Usable(d) && SharesCommitted(d) && k in d.shares && !Replaces(i, d.self, k)
    ensures SameShare(d, Take(d, i).0, k)
  {
    if i.Phase1? {
      SharesChange(d, i.e);
      hide Apply;
    } else {
      hide Take;
      TakeChanges(d, i);
    }
  }

  /** Only an answer to the process's own complaint replaces a stored share. */
  lemma {:induction false} SharesStay(d: Dkg, log: seq<Input>, j: nat, k: Id)
    requires Started(d) && j <= |log| && k in After(d, log[..j]).shares
    requires forall i | j <= i < |log| :: !Replaces(log[i], d.self, k)
    ensures SameShare(After(d, log[..j]), After(d, log), k)
    decreases |log|
  {
    hide Take, After, SharesCommitted, Started;
    StartedUsable(d);
    var n := |log| - 1;
    if j <= n {
      assert log[..n][..j] == log[..j];
      Unfold(d, log);
      SharesStay(d, log[..n], j, k);
      AfterCommitted(d, log[..n]);
      Same(d, log[..n]);
      TakeSameShare(After(d, log[..n]), log[n], k);
    } else {
      assert log[..j] == log;
    }
  }

  /** All that came from k for this process are shares whose first part is s. */
  predicate GivesOnly(i: Input, self: Id, k: Id, s: Element) {
    i.Phase1? && i.e.from == k ==>
      && (i.e.ReceivedShare? ==> i.e.share.s == s)
      && (i.e.RevealShare? && i.e.target == self ==> i.e.share.s == s)
  }

  predicate HoldsOnly(d: Dkg, k: Id, s: Element) {
    && (k in d.shares ==> d.shares[k].s == s)
    && (k in d.pendingShares ==> d.pendingShares[k].s == s)
  }

  lemma TakeGiven(d: Dkg, i: Input, k: Id, s: Element)
    requires Usable(d) && HoldsOnly(d, k, s) && GivesOnly(i, d.self, k, s)
    ensures HoldsOnly(Take(d, i).0, k, s)
  {
    if i.Phase1? {
      SharesChange(d, i.e);
      hide Apply;
    } else {
      hide Take;
      TakeChanges(d, i);
    }
  }

  lemma {:induction false} Given(d: Dkg, log: seq<Input>, k: Id, s: Element)
    requires Started(d) && forall j | 0 <= j < |log| :: GivesOnly(log[j], d.self, k, s)
    ensures HoldsOnly(After(d, log), k, s)
  {
    if log != [] {
      var n := |log| - 1;
      Given(d, log[..n], k, s);
      Same(d, log[..n]);
      TakeGiven(After(d, log[..n]), log[n], k, s);
    }
  }

  // ---- Public commitments and the key ----

  lemma TakePub(d: Dkg, i: Input, k: Id)
    requires Usable(d) && i != GeneratingPub && k in d.pubCommitments
    ensures k in Take(d, i).0.pubCommitments && Take(d, i).0.pubCommitments[k] == d.pubCommitments[k]
  {
    hide Take;
    TakeChanges(d, i);
  }

  predicate LongEnough(d: Dkg) {
    forall k | k in d.pubCommitments :: |d.pubCommitments[k]| == d.t + 1
  }

  lemma TakeLong(d: Dkg, i: Input)
    requires Usable(d) && LongEnough(d)
    ensures LongEnough(Take(d, i).0)
  {
    hide Take, Feldman;
    TakeChanges(d, i);
    if i.GeneratingPub? { GeneratingLong(d); }
  }

  lemma {:induction false} AfterLong(d: Dkg, log: seq<Input>)
    requires Started(d)
    ensures LongEnough(After(d, log))
  {
    if log != [] {
      AfterLong(d, log[..|log| - 1]);
      TakeLong(After(d, log[..|log| - 1]), log[|log| - 1]);
    }
  }

  lemma GeneratingLong(d: Dkg)
    requires Usable(d) && LongEnough(d)
    ensures LongEnough(Take(d, GeneratingPub).0)
  {
    hide OnGeneratingPub, Feldman;
    GeneratingChanges(d);
  }

  /** The process's own public commitments are those of its polynomial. */
  lemma {:induction false} OwnPub(d: Dkg, log: seq<Input>, g: nat)
    requires Started(d) && Generated(log, g)
    ensures d.self in After(d, log).pubCommitments
    ensures After(d, log).pubCommitments[d.self] == Feldman(d.params, Values(d.f.coefficients))
    decreases |log|
  {
    var n := |log| - 1;
    Same(d, log[..n]);
    if g < n {
      OwnPub(d, log[..n], g);
      TakePub(After(d, log[..n]), log[n], d.self);
    }
  }

  lemma TakeOthersPub(d: Dkg, i: Input, k: Id, comms: seq<Element>)
    requires Usable(d) && k != d.self && (k in d.pubCommitments ==> d.pubCommitments[k] == comms)
    requires i.PubCommitments? && i.from == k ==> i.comms == comms
    ensures k in Take(d, i).0.pubCommitments ==> Take(d, i).0.pubCommitments[k] == comms
  {
    hide Take, Feldman;
    TakeChanges(d, i);
    if i.GeneratingPub? { GeneratingPubs(d); }
  }

  lemma GeneratingPubs(d: Dkg)
    requires Usable(d)
    ensures Take(d, GeneratingPub).0.pubCommitments
            == d.pubCommitments[d.self := Feldman(d.params, Values(d.f.coefficients))]
  {
    hide OnGeneratingPub, Feldman;
    GeneratingChanges(d);
  }

  /** Public commitments of another process are those it has sent. */
  lemma {:induction false} OthersPub(d: Dkg, log: seq<Input>, k: Id, comms: seq<Element>)
    requires Started(d) && k != d.self
    requires forall i | i in log && i.PubCommitments? && i.from == k :: i.comms == comms
    ensures k in After(d, log).pubCommitments ==> After(d, log).pubCommitments[k] == comms
  {
    if log != [] {
      hide Take;
      var n := |log| - 1;
      Same(d, log[..n]);
      OthersPub(d, log[..n], k, comms);
      TakeOthersPub(After(d, log[..n]), log[n], k, comms);
    }
  }

  /** What a key that was built is. */
  predicate KeyBuilt(d: Dkg) {
    d.pubKey.Some? ==>
      var ys := FreeTerms(d.qual, d.pubCommitments);
      ys.Some? && ys.value != [] && d.pubKey.value == Product(ys.value)
  }

  lemma {:induction false} FreeTermsStay(qual: seq<Id>, pub: map<Id, seq<Element>>, pub': map<Id, seq<Element>>)
    requires FreeTerms(qual, pub).Some?
    requires forall k | k in pub :: k in pub' && pub'[k] == pub[k]
    ensures FreeTerms(qual, pub') == FreeTerms(qual, pub)
  {
    if qual != [] { FreeTermsStay(qual[..|qual| - 1], pub, pub'); }
  }

  lemma TakeBuilt(d: Dkg, i: Input)
    requires Usable(d) && KeyBuilt(d) && i != GeneratingPub
    ensures KeyBuilt(Take(d, i).0)
  {
    hide FreeTerms, Product, Apply, OnPubCommitments, OnComplaint2, OnGeneratingPub;
    var e := Take(d, i).0;
    TakeChanges(d, i);
    if d.pubKey.Some? && !i.BuildPubKey? {
      forall k | k in d.pubCommitments ensures k in e.pubCommitments && e.pubCommitments[k] == d.pubCommitments[k] {
        TakePub(d, i, k);
      }
      FreeTermsStay(d.qual, d.pubCommitments, e.pubCommitments);
    }
  }

  lemma {:induction false} AfterBuilt(d: Dkg, log: seq<Input>, g: nat)
    requires Started(d) && Generated(log, g)
    ensures KeyBuilt(After(d, log))
    decreases |log|
  {
    var n := |log| - 1;
    if g < n {
      AfterBuilt(d, log[..n], g);
      TakeBuilt(After(d, log[..n]), log[n]);
    } else {
      UpTo(log, g);
      BeforeGenerating(d, log[..n]);
    }
  }

  lemma {:induction false} AllThere(qual: seq<Id>, pub: map<Id, seq<Element>>)
    requires FreeTerms(qual, pub).Some?
    ensures forall k | k in qual :: k in pub
    ensures |FreeTerms(qual, pub).value| == |qual|
  {
    if qual != [] {
      AllThere(qual[..|qual| - 1], pub);
      assert qual == qual[..|qual| - 1] + [qual[|qual| - 1]];
    }
  }

  /** A key that was built: the public commitments of all of QUAL are there, the key is their combined constant term,
      and the private share is the sum of what was stored when the timer fired. */
  lemma Assembled(d: Dkg, log: seq<Input>, g: nat)
    requires Started(d) && Generated(log, g) && After(d, log).pubKey.Some?
    ensures var n := After(d, log);
      && n.qual != [] && n.pkShare.Some?
      && (forall i | 0 <= i < |n.qual| :: n.qual[i] in n.pubCommitments && |n.pubCommitments[n.qual[i]]| == d.t + 1)
      && n.pubKey == Some(Combined(PubOf(n.qual, n.pubCommitments))[0])
      && n.pkShare.value.s == Total(d.params.q, Parts(Collected(n.qual, After(d, log[..g]).shares)).0)
  {
    hide FreeTerms, Product, Combined, Total, Parts, Collected;
    AfterBuilt(d, log, g);
    AfterLong(d, log);
    Fixed(d, log, g);
    Same(d, log);
    Same(d, log[..g]);
    var n := After(d, log);
    AllThere(n.qual, n.pubCommitments);
    ProductIsConstant(n.qual, n.pubCommitments, d.t + 1);
  }

  // ---- Key correctness ----

  /** Shares that fit the public commitments of the members of QUAL. */
  predicate Due(d: Dkg, n: Dkg, due: seq<Element>)
    requires Usable(d)
  {
    && |due| == |n.qual|
    && forall i | 0 <= i < |due| ::
      && n.qual[i] in n.pubCommitments && |n.pubCommitments[n.qual[i]]| == d.t + 1
      && Over(n.pubCommitments[n.qual[i]], d.params.p)
      && PubShareFits(d.params, n.pubCommitments[n.qual[i]], d.self, due[i])
  }

  /** The private share fits the public key's commitments, whose constant term is the public key. */
  predicate KeyFits(d: Dkg, n: Dkg)
    requires d.params.p > 0
  {
    && n.qual != [] && n.pkShare.Some?
    && (forall i | 0 <= i < |n.qual| :: n.qual[i] in n.pubCommitments && |n.pubCommitments[n.qual[i]]| == d.t + 1)
    && var c := Combined(PubOf(n.qual, n.pubCommitments));
       && PubShareFits(d.params, c, d.self, n.pkShare.value.s)
       && n.pubKey == Some(c[0])
  }

  /** Exactly when the keys fit: once a key is built, g to the private share is the line of the combined commitments if
      and only if what the shares stored at the end of phase 1 lack of the shares that fit is 0 modulo the order of
      g. */
  lemma KeyFitsExactly(d: Dkg, log: seq<Input>, g: nat, due: seq<Element>)
    requires Started(d) && ValidParams(d.params) && Generated(log, g) && After(d, log).pubKey.Some?
    requires Due(d, After(d, log), due)
    ensures KeyFits(d, After(d, log)) <==>
              Lacking(After(d, log).qual, due, After(d, log[..g]).shares) % Ord(d.params) == 0
  {
    hide Combined, Total, Parts, Collected, PubShareFits, Lacking, After, Over;
    var n := After(d, log);
    Assembled(d, log, g);
    ShareFitsExactly(d.params, d.self, n.qual, n.pubCommitments, d.t + 1, due, After(d, log[..g]).shares);
  }

  /** In time: every share from QUAL was stored when the timer fired, and none is replaced afterwards. */
  predicate InTime(d: Dkg, log: seq<Input>, g: nat)
    requires Usable(d) && g < |log|
  {
    forall k | k in After(d, log).qual ::
      k in After(d, log[..g]).shares && forall j | g <= j < |log| :: !Replaces(log[j], d.self, k)
  }

  predicate NoComplaint2(d: Dkg, log: seq<Input>)
    requires Usable(d)
  {
    forall j | 0 <= j < |log| :: !(Sent(d, log, j).Some? && Sent(d, log, j).value.Complaint2Msg?)
  }

  lemma TakeChecked(d: Dkg, i: Input, k: Id)
    requires Usable(d) && k != d.self && k in d.shares && k !in d.pubCommitments && k in Take(d, i).0.pubCommitments
    requires i != GeneratingPub && !(Take(d, i).1.Some? && Take(d, i).1.value.Complaint2Msg?)
    ensures |Take(d, i).0.pubCommitments[k]| == d.t + 1
    ensures PubShareFits(d.params, Take(d, i).0.pubCommitments[k], d.self, d.shares[k].s)
  {
    hide PubShareFits, Exp, Apply, OnComplaint2, OnBuildPubKey;
    TakeChanges(d, i);
  }

  lemma NoComplaint2Before(d: Dkg, log: seq<Input>)
    requires Usable(d) && log != [] && NoComplaint2(d, log)
    ensures NoComplaint2(d, log[..|log| - 1])
    ensures !(Sent(d, log, |log| - 1).Some? && Sent(d, log, |log| - 1).value.Complaint2Msg?)
  {
    var n := |log| - 1;
    forall j | 0 <= j < n ensures Sent(d, log[..n], j) == Sent(d, log, j) {
      assert log[..n][..j] == log[..j];
    }
  }

  /** A share that was stored in time has passed its public check, if nothing was complained about. */
  lemma {:induction false} Checked(d: Dkg, log: seq<Input>, g: nat, k: Id)
    requires Started(d) && Generated(log, g) && k != d.self && k in After(d, log[..g]).shares
    requires forall j | g <= j < |log| :: !Replaces(log[j], d.self, k)
    requires NoComplaint2(d, log) && k in After(d, log).pubCommitments
    ensures |After(d, log).pubCommitments[k]| == d.t + 1
    ensures PubShareFits(d.params, After(d, log).pubCommitments[k], d.self, After(d, log[..g]).shares[k].s)
    decreases |log|
  {
    hide After, Take, PubShareFits, Idle, Firsts, Run;
    var n := |log| - 1;
    if g < n {
      var a := After(d, log[..n]);
      assert log[..n][..g] == log[..g];
      NoComplaint2Before(d, log);
      Unfold(d, log);
      Same(d, log[..n]);
      AfterLong(d, log);
      if k in a.pubCommitments {
        Checked(d, log[..n], g, k);
        TakePub(a, log[n], k);
      } else {
        SharesStay(d, log[..n], g, k);
        TakeChecked(a, log[n], k);
      }
    } else {
      UpTo(log, g);
      GeneratesOwn(d, log);
    }
  }

  lemma GeneratesOwn(d: Dkg, log: seq<Input>)
    requires Started(d) && log != [] && log[|log| - 1] == GeneratingPub && GeneratingPub !in log[..|log| - 1]
    ensures After(d, log).pubCommitments.Keys == {d.self}
  {
    BeforeGenerating(d, log[..|log| - 1]);
    Same(d, log[..|log| - 1]);
  }

  /** The process's own share reaches it as it was dealt. */
  predicate OwnShareDealt(d: Dkg, log: seq<Input>)
    requires Usable(d)
  {
    && Valid(d.f) && d.f.q == d.params.q
    && forall j | 0 <= j < |log| :: GivesOnly(log[j], d.self, d.self, At(d.f, d.self))
  }

  lemma OwnFits(d: Dkg, log: seq<Input>, g: nat)
    requires Started(d) && ValidParams(d.params) && Generated(log, g) && OwnShareDealt(d, log)
    requires d.self in After(d, log[..g]).shares
    ensures d.self in After(d, log).pubCommitments && |After(d, log).pubCommitments[d.self]| == d.t + 1
    ensures PubShareFits(d.params, After(d, log).pubCommitments[d.self], d.self, After(d, log[..g]).shares[d.self].s)
  {
    Given(d, log[..g], d.self, At(d.f, d.self));
    OwnPub(d, log, g);
    ModMod(Sum(Values(d.f.coefficients), d.self), d.params.q);
    FeldmanComplete(d.params, d.f, d.self, At(d.f, d.self));
  }

  /** Key correctness of a run: if the shares of QUAL are in time, the process complains about none, and a key is built,
      then the private share fits the commitments whose constant term is the key. */
  lemma KeyCorrectness(d: Dkg, log: seq<Input>, g: nat)
    requires Started(d) && ValidParams(d.params) && Generated(log, g) && After(d, log).pubKey.Some?
    requires InTime(d, log, g) && NoComplaint2(d, log) && OwnShareDealt(d, log)
    requires forall k | k in After(d, log).qual && k in After(d, log).pubCommitments ::
               Over(After(d, log).pubCommitments[k], d.params.p)
    ensures KeyFits(d, After(d, log))
  {
    hide After, Combined, PubShareFits, Lacking, Over, NoComplaint2, OwnShareDealt, Started, Generated, KeyFits,
        Total, Parts, Collected;
    StartedUsable(d);
    assert g < |log| by { GeneratedIn(log, g); }
    var n, at := After(d, log), After(d, log[..g]).shares;
    Assembled(d, log, g);
    forall i | 0 <= i < |n.qual|
      ensures n.qual[i] in at && PubShareFits(d.params, n.pubCommitments[n.qual[i]], d.self, at[n.qual[i]].s)
      ensures Over(n.pubCommitments[n.qual[i]], d.params.p)
    {
      var k := n.qual[i];
      assert k in n.qual;
      if k == d.self { OwnFits(d, log, g); } else { Checked(d, log, g, k); }
    }
    var due := seq(|n.qual|, i requires 0 <= i < |n.qual| => at[n.qual[i]].s);
    NothingLacking(n.qual, due, at);
    KeyFitsExactly(d, log, g, due);
  }

  lemma StartedUsable(d: Dkg)
    requires Started(d)
    ensures Usable(d) && d.params.p > 0
  {
  }

  lemma GeneratedIn(log: seq<Input>, g: nat)
    requires Generated(log, g)
    ensures g < |log|
  {
  }

  // ---- A share that comes too late ----

  function Constant(c: nat): Polynomial { Polynomial([Zp(c, 11)], 11) }

  function Small(): Params { Params(23, 11, 2, 3) }

  /** Process 2 of a group of 1 and 2 with t = 0. */
  function Second(): Dkg { NewDkg(2, [1, 2], 0, Small(), Constant(1), Constant(0)) }

  /** All is honest; the share from 1, whose polynomial is 5, comes after the timer. */
  function Late(): seq<Input> {
    [Phase1(ReceivedCommitments(1, [Zp(9, 23)])), Phase1(ReceivedCommitments(2, [Zp(2, 23)])),
     Phase1(ReceivedShare(2, Share(Zp(1, 11), Zp(0, 11)))), GeneratingPub,
     Phase1(ReceivedShare(1, Share(Zp(5, 11), Zp(0, 11)))), PubCommitments(1, [Zp(9, 23)]), BuildPubKey]
  }

  lemma SmallPowers()
    ensures ValidParams(Small())
    ensures Pow(2, 5) == 32 && Pow(2, 1) == 2 && Pow(3, 0) == 1 && Pow(2, 0) == 1
  {
    assert Pow(2, 5) == 32;
    assert Pow(2, 10) == 1024;
    assert Pow(2, 11) == 2048;
    assert Pow(3, 5) == 243;
    assert Pow(3, 10) == 59049;
    assert Pow(3, 11) == 177147;
  }

  lemma Then(d: Dkg, log: seq<Input>, j: nat, before: Dkg, i: Input, after: Dkg, out: Option<Message>)
    requires Usable(d) && j < |log| && log[j] == i && After(d, log[..j]) == before && Usable(before)
    requires Take(before, i) == (after, out)
    ensures After(d, log[..j + 1]) == after && Sent(d, log, j) == out
  {
    hide Take, After, Usable;
    assert log[..j + 1][..j] == log[..j];
    Unfold(d, log[..j + 1]);
  }

  function OwnShare(): Share { Share(Zp(1, 11), Zp(0, 11)) }

  function LateOne(): Share { Share(Zp(5, 11), Zp(0, 11)) }

  /** The states that Late goes through. */
  function LateState(j: nat): Dkg {
    var d := Second();
    if j == 0 then d
    else if j == 1 then d.(polyCommitments := map[1 := [Zp(9, 23)]])
    else
      var e := d.(polyCommitments := map[1 := [Zp(9, 23)], 2 := [Zp(2, 23)]]);
      if j == 2 then e
      else if j == 3 then e.(shares := map[2 := OwnShare()])
      else
        var k := e.(shares := map[2 := OwnShare()], qual := [1, 2], inQual := {1, 2}, pkShare := Some(OwnShare()),
                    pubCommitments := map[2 := [Zp(2, 23)]]);
        if j == 4 then k
        else if j == 5 then k.(shares := map[1 := LateOne(), 2 := OwnShare()])
        else
          k.(shares := map[1 := LateOne(), 2 := OwnShare()], pubCommitments := map[1 := [Zp(9, 23)], 2 := [Zp(2, 23)]],
             pubKey := if j == 6 then None else Some(Zp(18, 23)))
  }

  lemma LateStart()
    ensures After(Second(), Late()[..3]) == LateState(3)
    ensures forall j | 0 <= j < 3 :: Sent(Second(), Late(), j) == None
  {
    hide ShareFits;
    assert Late()[..0] == [];
    Then(Second(), Late(), 0, LateState(0), Phase1(ReceivedCommitments(1, [Zp(9, 23)])), LateState(1), None);
    Then(Second(), Late(), 1, LateState(1), Phase1(ReceivedCommitments(2, [Zp(2, 23)])), LateState(2), None);
    assert ShareFits(Small(), [Zp(2, 23)], 2, OwnShare()) by { SmallFits(); }
    Then(Second(), Late(), 2, LateState(2), Phase1(ReceivedShare(2, OwnShare())), LateState(3), None);
  }

  lemma SmallFits()
    ensures ShareFits(Small(), [Zp(2, 23)], 2, OwnShare()) && ShareFits(Small(), [Zp(9, 23)], 2, LateOne())
    ensures PubShareFits(Small(), [Zp(9, 23)], 2, LateOne().s)
    ensures Feldman(Small(), Values(Constant(1).coefficients)) == [Zp(2, 23)]
  {
    SmallPowers();
  }

  lemma LateGenerates()
    ensures OnGeneratingPub(LateState(3)) == (LateState(4), PubCommitmentsMsg([Zp(2, 23)]))
  {
    hide Feldman, Kept, Collected, Total, Parts, Unanswered, Missing;
    SmallFits();
    LateQual();
    LateCollected();
    assert (set k | k in [1, 2]) == {1, 2};
    assert LateState(3).inQual + (set k | k in [1, 2]) == {1, 2};
  }

  lemma LateQual()
    ensures Kept([1, 2], {}) == [1, 2] && Unanswered(LateState(3)) == {} && Missing(LateState(3)) == {}
  {
    assert [1, 2][..1] == [1] && [1][..0] == [];
    assert Kept([1], {}) == [1];
  }

  lemma LateCollected()
    ensures Collected([1, 2], map[2 := OwnShare()]) == [OwnShare()]
    ensures Total(11, Parts([OwnShare()]).0) == Zp(1, 11) && Total(11, Parts([OwnShare()]).1) == Zp(0, 11)
  {
    assert [1, 2][..1] == [1] && [1][..0] == [];
    var m := map[2 := OwnShare()];
    assert Collected([1], m) == [];
    assert Parts([OwnShare()]).0 == [Zp(1, 11)] && Parts([OwnShare()]).1 == [Zp(0, 11)];
    assert [Zp(1, 11)][..0] == [] && [Zp(0, 11)][..0] == [];
    assert Total(11, [Zp(1, 11)]) == Add(Zp(0, 11), Zp(1, 11));
    assert Total(11, [Zp(0, 11)]) == Add(Zp(0, 11), Zp(0, 11));
  }

  lemma LateArrives()
    ensures OnShare(LateState(4), 1, LateOne()) == (LateState(5), None)
    ensures OnPubCommitments(LateState(5), 1, [Zp(9, 23)]) == (LateState(6), None)
  {
    hide ShareFits, PubShareFits, Pow, Feldman;
    SmallFits();
    var d, e := LateState(4), LateState(5);
    assert d.polyCommitments[1] == [Zp(9, 23)] && d.params == Small() && d.self == 2;
    assert e.shares[1] == LateOne() && e.params == Small() && e.self == 2;
    assert OnShare(d, 1, LateOne()) == (d.(shares := d.shares[1 := LateOne()]), None);
    assert d.(shares := d.shares[1 := LateOne()]) == e;
    assert PubShareFits(e.params, [Zp(9, 23)], e.self, e.shares[1].s);
    assert OnPubCommitments(e, 1, [Zp(9, 23)]) == (e.(pubCommitments := e.pubCommitments[1 := [Zp(9, 23)]]), None);
    assert e.(pubCommitments := e.pubCommitments[1 := [Zp(9, 23)]]) == LateState(6);
  }

  lemma LateEnd()
    ensures After(Second(), Late()) == LateState(7)
    ensures forall j | 3 <= j < 7 :: Sent(Second(), Late(), j) == if j == 3 then Some(PubCommitmentsMsg([Zp(2, 23)]))
              else None
  {
    hide OnShare, OnPubCommitments, OnGeneratingPub, OnBuildPubKey, After, Sent, Feldman, Pow;
    LateStart();
    LateGenerates();
    SmallFits();
    Then(Second(), Late(), 3, LateState(3), GeneratingPub, LateState(4), Some(PubCommitmentsMsg([Zp(2, 23)])));
    LateArrives();
    Then(Second(), Late(), 4, LateState(4), Phase1(ReceivedShare(1, LateOne())), LateState(5), None);
    Then(Second(), Late(), 5, LateState(5), PubCommitments(1, [Zp(9, 23)]), LateState(6), None);
    LateKey();
    Then(Second(), Late(), 6, LateState(6), BuildPubKey, LateState(7), None);
    assert Late()[..7] == Late();
  }

  lemma LateKey()
    ensures OnBuildPubKey(LateState(6)) == (LateState(7), true)
  {
    var pub: map<Id, seq<Element>> := map[2 := [Zp(2, 23)]][1 := [Zp(9, 23)]];
    assert [1, 2][..1] == [1] && [1][..0] == [];
    var none: seq<Element> := [];
    assert none + [Zp(9, 23)] == [Zp(9, 23)];
    assert FreeTerms([1], pub) == Some([Zp(9, 23)]);
    assert [Zp(9, 23)] + [Zp(2, 23)] == [Zp(9, 23), Zp(2, 23)];
    assert FreeTerms([1, 2], pub) == Some([Zp(9, 23), Zp(2, 23)]);
    assert [Zp(9, 23), Zp(2, 23)][..1] == [Zp(9, 23)];
    assert Product([Zp(9, 23), Zp(2, 23)]) == Zp(18, 23);
  }

  /** A share that comes after the timer is stored, fits, and is complained about by nobody, but it is not part of the
      private share: the key is built and does not fit. */
  lemma LateShare()
    ensures Started(Second()) && ValidParams(Small()) && Generated(Late(), 3)
    ensures NoComplaint2(Second(), Late()) && OwnShareDealt(Second(), Late())
    ensures var n := After(Second(), Late());
      && n.qual == [1, 2] && n.shares == map[1 := LateOne(), 2 := OwnShare()]
      && n.pubCommitments == map[1 := [Zp(9, 23)], 2 := [Zp(2, 23)]]
          && PubShareFits(Small(), [Zp(9, 23)], 2, LateOne().s)
      && n.pubKey == Some(Zp(18, 23)) && n.pkShare == Some(OwnShare())
      && !KeyFits(Second(), n)
  {
    hide After, Sent, PubShareFits, Take;
    SmallPowers();
    LateStart();
    LateEnd();
    SmallFits();
    assert At(Constant(1), 2) == Zp(1, 11) by { LateAt(); }
    LateMisses();
  }

  lemma LateAt()
    ensures At(Constant(1), 2) == Zp(1, 11) && At(Constant(5), 2) == Zp(5, 11) && At(Constant(0), 2) == Zp(0, 11)
  {
    forall c: nat | c < 11 ensures Sum(Values(Constant(c).coefficients), 2) == c {
      assert Values(Constant(c).coefficients) == [c];
      assert [c][..0] == [] && Pow(2, 0) == 1;
    }
  }

  lemma LateMisses()
    ensures !KeyFits(Second(), LateState(7))
  {
    SmallPowers();
    var n := LateState(7);
    var pubs := PubOf(n.qual, n.pubCommitments);
    assert pubs == [[Zp(9, 23)], [Zp(2, 23)]];
    assert pubs[..1] == [[Zp(9, 23)]];
    assert Combined([[Zp(9, 23)]]) == [Zp(9, 23)];
    assert Times([Zp(9, 23)], [Zp(2, 23)]) == [Zp(18, 23)];
    assert Combined(pubs) == [Zp(18, 23)];
    assert !PubShareFits(Small(), [Zp(18, 23)], 2, Zp(1, 11));
  }
}

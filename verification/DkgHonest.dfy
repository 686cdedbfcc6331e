/** Exactly when an honest dealer is in QUAL, for events in any order. */
module DkgHonest {
  import opened Common
  import opened Zp
  import opened Polynomials
  import opened Commitments
  import opened DkgSpec
  import opened DkgQual
  import opened DkgRun

  /** The polynomials of a dealer fit the group. */
  predicate Drawn(t: nat, m: Params, f: Polynomial, fMask: Polynomial) {
    Valid(f) && Valid(fMask) && f.q == fMask.q == m.q && |f.coefficients| == |fMask.coefficients| == t + 1
  }

  function Dealt(f: Polynomial, fMask: Polynomial, to: Id): Share
    requires f.q > 0 && fMask.q > 0
  {
    Share(At(f, to), At(fMask, to))
  }

  /** Whatever comes from k is what an honest dealer publishes. */
  predicate FromHonest(e: Event, k: Id, m: Params, f: Polynomial, fMask: Polynomial)
    requires m.p > 0 && f.q > 0 && fMask.q > 0 && |f.coefficients| == |fMask.coefficients|
  {
    && (e.ReceivedCommitments? && e.from == k ==>
        e.comms == Pedersen(m, Values(f.coefficients), Values(fMask.coefficients)))
    && (e.RevealShare? && e.from == k ==> e.share == Dealt(f, fMask, e.target))
  }

  // ---- What has happened, by position ----

  predicate IsCommitment(e: Event, k: Id) { e.ReceivedCommitments? && e.from == k }

  predicate Arrived(es: seq<Event>, k: Id) { exists e :: e in es && IsCommitment(e, k) }

  predicate IsAnswer(es: seq<Event>, k: Id, j: nat) {
    j < |es| && es[j].RevealShare? && es[j].from == k && es[j].target in Complainants(Events(es[..j]), k)
  }

  /** An answer that comes after its complaint and after the commitments. */
  predicate Answers(es: seq<Event>, k: Id, c: Id, j: nat) {
    IsAnswer(es, k, j) && es[j].target == c && Arrived(es[..j], k)
  }

  /** An answer that overtakes the commitments. */
  predicate TooEarly(es: seq<Event>, k: Id, j: nat) {
    IsAnswer(es, k, j) && !Arrived(es[..j], k)
  }

  ghost predicate AnsweredInOrder(es: seq<Event>, k: Id, c: Id) { exists j :: Answers(es, k, c, j) }

  ghost predicate Overtaken(es: seq<Event>, k: Id) { exists j :: TooEarly(es, k, j) }

  lemma Earlier(es: seq<Event>, k: Id, c: Id, j: nat)
    requires es != [] && j < |es| - 1
    ensures IsAnswer(es[..|es| - 1], k, j) <==> IsAnswer(es, k, j)
    ensures Answers(es[..|es| - 1], k, c, j) <==> Answers(es, k, c, j)
    ensures TooEarly(es[..|es| - 1], k, j) <==> TooEarly(es, k, j)
  {
    assert es[..|es| - 1][..j] == es[..j];
  }

  lemma Longer(es: seq<Event>, k: Id)
    requires es != []
    ensures forall c :: AnsweredInOrder(es, k, c) <==>
              AnsweredInOrder(es[..|es| - 1], k, c) || Answers(es, k, c, |es| - 1)
    ensures Overtaken(es, k) <==> Overtaken(es[..|es| - 1], k) || TooEarly(es, k, |es| - 1)
    ensures Arrived(es, k) <==> Arrived(es[..|es| - 1], k) || IsCommitment(es[|es| - 1], k)
  {
    var n := |es| - 1;
    assert es == es[..n] + [es[n]];
    assert forall e :: e in es <==> e in es[..n] || e == es[n];
    forall c ensures AnsweredInOrder(es, k, c) <==> AnsweredInOrder(es[..n], k, c) || Answers(es, k, c, n) {
      forall j: nat | j < n ensures Answers(es[..n], k, c, j) <==> Answers(es, k, c, j) { Earlier(es, k, c, j); }
      hide IsAnswer, Arrived;
      if AnsweredInOrder(es, k, c) {
        var j: nat :| Answers(es, k, c, j);
        assert j < n ==> Answers(es[..n], k, c, j);
        assert j < |es| by { InRange(es, k, j); }
      }
      if AnsweredInOrder(es[..n], k, c) {
        var j: nat :| Answers(es[..n], k, c, j);
        assert j < n by { InRange(es[..n], k, j); }
        assert Answers(es, k, c, j);
      }
    }
    assert Overtaken(es, k) <==> Overtaken(es[..n], k) || TooEarly(es, k, n) by { LongerOvertaken(es, k); }
  }

  lemma InRange(es: seq<Event>, k: Id, j: nat)
    requires IsAnswer(es, k, j)
    ensures j < |es|
  {
  }

  lemma LongerOvertaken(es: seq<Event>, k: Id)
    requires es != []
    ensures Overtaken(es, k) <==> Overtaken(es[..|es| - 1], k) || TooEarly(es, k, |es| - 1)
  {
    var n := |es| - 1;
    forall j: nat | j < n ensures TooEarly(es[..n], k, j) <==> TooEarly(es, k, j) { Earlier(es, k, 0, j); }
    hide IsAnswer, Arrived;
    if Overtaken(es, k) {
      var j: nat :| TooEarly(es, k, j);
      InRange(es, k, j);
      assert j < n ==> TooEarly(es[..n], k, j);
    }
    if Overtaken(es[..n], k) {
      var j: nat :| TooEarly(es[..n], k, j);
      InRange(es[..n], k, j);
      assert TooEarly(es, k, j);
    }
  }

  lemma NoAnswer(es: seq<Event>, k: Id)
    requires es != [] && !es[|es| - 1].RevealShare?
    ensures forall c :: AnsweredInOrder(es, k, c) <==> AnsweredInOrder(es[..|es| - 1], k, c)
    ensures Overtaken(es, k) <==> Overtaken(es[..|es| - 1], k)
    ensures Arrived(es, k) <==> Arrived(es[..|es| - 1], k) || IsCommitment(es[|es| - 1], k)
  {
    hide AnsweredInOrder, Overtaken, Arrived;
    Longer(es, k);
    forall c ensures AnsweredInOrder(es, k, c) <==> AnsweredInOrder(es[..|es| - 1], k, c) {
      assert !Answers(es, k, c, |es| - 1);
    }
  }

  // ---- What a process knows about the dealer ----

  ghost predicate Tracks(d: Dkg, es: seq<Event>, k: Id, comms: seq<Element>) {
    && Usable(d)
    && (k in d.polyCommitments <==> Arrived(es, k))
    && (k in d.polyCommitments ==> d.polyCommitments[k] == comms)
    && Lookup(d.complaints1, k) == Complainants(Events(es), k)
    && (forall c :: c in Lookup(d.revealed, k) <==> AnsweredInOrder(es, k, c))
    && (k in d.noqual <==> |Complainants(Events(es), k)| > d.t || Overtaken(es, k))
  }

  lemma EventsLast(es: seq<Event>)
    requires es != []
    ensures Events(es) == Events(es[..|es| - 1]) + {es[|es| - 1]}
  {
    assert es == es[..|es| - 1] + [es[|es| - 1]];
  }

  /** The next event changes only what it concerns. */
  lemma TracksNext(d: Dkg, es: seq<Event>, k: Id, f: Polynomial, fMask: Polynomial)
    requires es != [] && Usable(d) && ValidParams(d.params) && Drawn(d.t, d.params, f, fMask)
    requires FromHonest(es[|es| - 1], k, d.params, f, fMask)
    requires Tracks(d, es[..|es| - 1], k, Pedersen(d.params, Values(f.coefficients), Values(fMask.coefficients)))
    ensures Tracks(Apply(d, es[|es| - 1]).0, es, k,
                   Pedersen(d.params, Values(f.coefficients), Values(fMask.coefficients)))
  {
    hide AnsweredInOrder, Overtaken, Arrived, Complainants, Events, Pedersen, ShareFits, At;
    var n := |es| - 1;
    var e, comms := es[n], Pedersen(d.params, Values(f.coefficients), Values(fMask.coefficients));
    Longer(es, k);
    EventsLast(es);
    assert |comms| == d.t + 1 by { PedersenSize(d.t, d.params, f, fMask); }
    match e
    case ReceivedCommitments(_, _) => TracksCommitment(d, es, k, comms);
    case ReceivedShare(_, _) => TracksShare(d, es, k, comms);
    case Complaint1(_, _) => TracksComplaint(d, es, k, comms);
    case RevealShare(_, target, s) =>
      if e.from == k { PedersenComplete(d.params, f, fMask, target); }
      TracksReveal(d, es, k, comms);
  }

  lemma PedersenSize(t: nat, m: Params, f: Polynomial, fMask: Polynomial)
    requires m.p > 0 && Drawn(t, m, f, fMask)
    ensures |Pedersen(m, Values(f.coefficients), Values(fMask.coefficients))| == t + 1
  {
  }

  lemma SameComplainants(es: set<Event>, e: Event, k: Id)
    requires !e.Complaint1? || e.dealer != k
    ensures Complainants(es + {e}, k) == Complainants(es, k)
  {
  }

  lemma TracksCommitment(d: Dkg, es: seq<Event>, k: Id, comms: seq<Element>)
    requires es != [] && Tracks(d, es[..|es| - 1], k, comms) && es[|es| - 1].ReceivedCommitments? && |comms| == d.t + 1
    requires es[|es| - 1].from == k ==> es[|es| - 1].comms == comms
    ensures Tracks(Apply(d, es[|es| - 1]).0, es, k, comms)
  {
    hide AnsweredInOrder, Overtaken, Arrived, Complainants, Events, ProcessShare, Lookup;
    var e := es[|es| - 1];
    if e.from !in d.polyCommitments && |e.comms| == d.t + 1 { OnlyShares(d, e); }
    NoAnswer(es, k);
    EventsLast(es);
    SameComplainants(Events(es[..|es| - 1]), es[|es| - 1], k);
  }

  lemma TracksShare(d: Dkg, es: seq<Event>, k: Id, comms: seq<Element>)
    requires es != [] && Tracks(d, es[..|es| - 1], k, comms) && es[|es| - 1].ReceivedShare?
    ensures Tracks(Apply(d, es[|es| - 1]).0, es, k, comms)
  {
    hide AnsweredInOrder, Overtaken, Arrived, Complainants, Events, ShareFits, Lookup;
    NoAnswer(es, k);
    EventsLast(es);
    SameComplainants(Events(es[..|es| - 1]), es[|es| - 1], k);
  }

  lemma TracksComplaint(d: Dkg, es: seq<Event>, k: Id, comms: seq<Element>)
    requires es != [] && Tracks(d, es[..|es| - 1], k, comms) && es[|es| - 1].Complaint1?
    ensures Tracks(Apply(d, es[|es| - 1]).0, es, k, comms)
  {
    hide AnsweredInOrder, Overtaken, Arrived, Complainants, Events;
    var e, before := es[|es| - 1], Events(es[..|es| - 1]);
    NoAnswer(es, k);
    EventsLast(es);
    MoreComplainants(before, e, k);
    ComplaintCounts(d, e, k);
  }

  lemma ComplaintCounts(d: Dkg, e: Event, k: Id)
    requires Usable(d) && e.Complaint1?
    ensures var r, cs := Apply(d, e).0, Lookup(d.complaints1, k);
      && Usable(r) && r.t == d.t && r.polyCommitments == d.polyCommitments && r.revealed == d.revealed
      && Lookup(r.complaints1, k) == (if k == e.dealer then cs + {e.from} else cs)
      && (k in r.noqual <==> k in d.noqual || (k == e.dealer && e.from !in cs && |cs + {e.from}| > d.t))
  {
    hide At;
    var cs := Lookup(d.complaints1, e.dealer);
    assert e.from !in cs ==> |cs + {e.from}| == |cs| + 1;
    NewComplaint(d, e.from, e.dealer, k);
    hide Lookup;
  }

  lemma TracksReveal(d: Dkg, es: seq<Event>, k: Id, comms: seq<Element>)
    requires es != [] && Tracks(d, es[..|es| - 1], k, comms) && es[|es| - 1].RevealShare? && comms != []
    requires es[|es| - 1].from == k ==> ShareFits(d.params, comms, es[|es| - 1].target, es[|es| - 1].share)
    ensures Tracks(Apply(d, es[|es| - 1]).0, es, k, comms)
  {
    hide AnsweredInOrder, Overtaken, Arrived, Complainants, Events, ShareFits;
    Longer(es, k);
    EventsLast(es);
    SameComplainants(Events(es[..|es| - 1]), es[|es| - 1], k);
  }

  lemma {:induction false} RunTracks(d: Dkg, es: seq<Event>, k: Id, f: Polynomial, fMask: Polynomial)
    requires Fresh(d) && ValidParams(d.params) && Drawn(d.t, d.params, f, fMask)
    requires forall e | e in es :: FromHonest(e, k, d.params, f, fMask)
    ensures Run(d, es).t == d.t && Run(d, es).params == d.params && Run(d, es).processes == d.processes
    ensures Tracks(Run(d, es), es, k, Pedersen(d.params, Values(f.coefficients), Values(fMask.coefficients)))
  {
    hide Tracks, Apply, FromHonest, Pedersen;
    if es == [] {
      TracksFresh(d, k, Pedersen(d.params, Values(f.coefficients), Values(fMask.coefficients)));
    } else {
      RunTracks(d, es[..|es| - 1], k, f, fMask);
      TracksNext(Run(d, es[..|es| - 1]), es, k, f, fMask);
      Keeps(Run(d, es[..|es| - 1]), es[|es| - 1]);
    }
  }

  lemma TracksFresh(d: Dkg, k: Id, comms: seq<Element>)
    requires Fresh(d)
    ensures Tracks(d, [], k, comms)
  {
    assert Complainants(Events([]), k) == {};
  }

  /** An honest dealer is in QUAL exactly if its commitments have come, at most t processes have complained, no answer
      came between a complaint and the commitments, and every complaint was answered afterwards. Nothing is assumed
      about other dealers or about the order of events. */
  lemma HonestDealerExactly(d: Dkg, es: seq<Event>, k: Id, f: Polynomial, fMask: Polynomial)
    requires Fresh(d) && ValidParams(d.params) && Drawn(d.t, d.params, f, fMask) && k in d.processes
    requires forall e | e in es :: FromHonest(e, k, d.params, f, fMask)
    ensures k in OnGeneratingPub(Run(d, es)).0.qual <==>
              && Arrived(es, k) && |Complainants(Events(es), k)| <= d.t && !Overtaken(es, k)
              && forall c | c in Complainants(Events(es), k) :: AnsweredInOrder(es, k, c)
  {
    hide Fresh, Apply, FromHonest, Pedersen, Arrived, Overtaken, AnsweredInOrder, Complainants, Events, Kept,
        Unanswered, Missing;
    hide OnGeneratingPub, Tracks, Drawn;
    FreshUsable(d);
    RunTracks(d, es, k, f, fMask);
    var r := Run(d, es);
    InKept(d.processes, r.noqual + Unanswered(r) + Missing(r), k);
    QualIs(r);
    LeftOutExactly(r, es, k, Pedersen(d.params, Values(f.coefficients), Values(fMask.coefficients)))
    by { DrawnSame(d.t, d.params, f, fMask); }
  }

  lemma DrawnSame(t: nat, m: Params, f: Polynomial, fMask: Polynomial)
    requires Drawn(t, m, f, fMask)
    ensures |f.coefficients| == |fMask.coefficients|
  {
  }

  lemma LeftOutExactly(d: Dkg, es: seq<Event>, k: Id, comms: seq<Element>)
    requires Tracks(d, es, k, comms) && k in d.processes
    ensures k in d.noqual + Unanswered(d) + Missing(d) <==>
              || !Arrived(es, k) || |Complainants(Events(es), k)| > d.t || Overtaken(es, k)
              || exists c :: c in Complainants(Events(es), k) && !AnsweredInOrder(es, k, c)
  {
    hide Arrived, Overtaken, AnsweredInOrder, Complainants, Events;
  }

  lemma QualIs(d: Dkg)
    requires Usable(d)
    ensures OnGeneratingPub(d).0.qual == Kept(d.processes, d.noqual + Unanswered(d) + Missing(d))
  {
  }
}

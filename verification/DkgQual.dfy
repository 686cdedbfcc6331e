/** QUAL does not depend on the order of phase-1 events: it is described here by the set of events alone. */
module DkgQual {
  import opened Common
  import opened Zp
  import opened Polynomials
  import opened Commitments
  import opened DkgSpec

  // ---- QUAL as a property of the set of events ----

  function Complainants(es: set<Event>, dealer: Id): set<Id> {
    set e | e in es && e.Complaint1? && e.dealer == dealer :: e.from
  }

  predicate Committed(es: set<Event>, t: nat, dealer: Id, comms: seq<Element>) {
    ReceivedCommitments(dealer, comms) in es && |comms| == t + 1
  }

  /** The dealer revealed s to a complainant, and s fits its commitments. */
  predicate GoodReveal(es: set<Event>, t: nat, m: Params, dealer: Id, target: Id, s: Share, comms: seq<Element>)
    requires m.p > 0
  {
    && RevealShare(dealer, target, s) in es && Complaint1(target, dealer) in es
    && Committed(es, t, dealer, comms) && comms != [] && ShareFits(m, comms, target, s)
  }

  ghost predicate Answered(es: set<Event>, t: nat, m: Params, dealer: Id, target: Id)
    requires m.p > 0
  {
    exists s, comms :: GoodReveal(es, t, m, dealer, target, s, comms)
  }

  ghost predicate HasCommitted(es: set<Event>, t: nat, dealer: Id) {
    exists comms :: Committed(es, t, dealer, comms)
  }

  /** A reveal to a complainant that does not fit, or comes from a dealer without commitments. */
  ghost predicate Unfit(es: set<Event>, t: nat, m: Params, dealer: Id, target: Id, s: Share)
    requires m.p > 0
  {
    && RevealShare(dealer, target, s) in es && Complaint1(target, dealer) in es
    && forall comms :: !GoodReveal(es, t, m, dealer, target, s, comms)
  }

  ghost predicate BadReveal(es: set<Event>, t: nat, m: Params, dealer: Id)
    requires m.p > 0
  {
    exists target, s :: Unfit(es, t, m, dealer, target, s)
  }

  /** Marked while events arrive. */
  ghost predicate Marked(es: set<Event>, t: nat, m: Params, dealer: Id)
    requires m.p > 0
  {
    |Complainants(es, dealer)| > t || BadReveal(es, t, m, dealer)
  }

  /** Left out of QUAL. */
  ghost predicate Disqualified(es: set<Event>, t: nat, m: Params, dealer: Id)
    requires m.p > 0
  {
    || Marked(es, t, m, dealer)
    || !HasCommitted(es, t, dealer)
    || exists c :: c in Complainants(es, dealer) && !Answered(es, t, m, dealer, c)
  }

  // ---- Runs of one process ----

  function Run(d: Dkg, es: seq<Event>): (r: Dkg)
    requires Usable(d)
    ensures Usable(r)
  {
    if es == [] then d else Apply(Run(d, es[..|es| - 1]), es[|es| - 1]).0
  }

  function Events(es: seq<Event>): set<Event> { set e | e in es }

  /** A dealer's valid commitments and a complaint come before the reveals they concern. */
  predicate Precedes(e: Event, r: Event, t: nat) {
    && r.RevealShare?
    && ((e.ReceivedCommitments? && e.from == r.from && |e.comms| == t + 1)
        || (e.Complaint1? && e.dealer == r.from && e.from == r.target))
  }

  ghost predicate Causal(es: seq<Event>, t: nat) {
    forall i, j | 0 <= i < |es| && 0 <= j < |es| && Precedes(es[j], es[i], t) :: es[j] in es[..i]
  }

  /** Each dealer publishes one commitment message of valid length. */
  predicate OneCommitment(es: set<Event>, t: nat) {
    forall a, b | a in es && b in es && a.ReceivedCommitments? && b.ReceivedCommitments? && a.from == b.from
                  && |a.comms| == t + 1 && |b.comms| == t + 1 :: a == b
  }

  // ---- What a state knows ----

  ghost predicate KnowsCommitments(d: Dkg, es: set<Event>) {
    forall k, comms :: (k in d.polyCommitments && d.polyCommitments[k] == comms) <==> Committed(es, d.t, k, comms)
  }

  ghost predicate KnowsComplaints(d: Dkg, es: set<Event>) {
    forall k :: Lookup(d.complaints1, k) == Complainants(es, k)
  }

  ghost predicate KnowsReveals(d: Dkg, es: set<Event>)
    requires d.params.p > 0
  {
    forall k, c :: c in Lookup(d.revealed, k) <==> Answered(es, d.t, d.params, k, c)
  }

  ghost predicate KnowsMarks(d: Dkg, es: set<Event>)
    requires d.params.p > 0
  {
    forall k :: k in d.noqual <==> Marked(es, d.t, d.params, k)
  }

  ghost predicate Knows(d: Dkg, es: set<Event>) {
    && Usable(d)
    && KnowsCommitments(d, es) && KnowsComplaints(d, es) && KnowsReveals(d, es) && KnowsMarks(d, es)
  }

  /** Fresh: nothing has happened yet. */
  predicate Fresh(d: Dkg) {
    Usable(d) && d.polyCommitments == map[] && d.complaints1 == map[] && d.revealed == map[] && d.noqual == {}
  }

  lemma FreshKnows(d: Dkg)
    requires Fresh(d)
    ensures Knows(d, {})
  {
    forall k ensures Complainants({}, k) == {} {}
  }

  // ---- One event ----

  /** The four facts are the same for both event sets. */
  ghost predicate SameFacts(es: set<Event>, es': set<Event>, t: nat, m: Params)
    requires m.p > 0
  {
    && (forall k, comms :: Committed(es', t, k, comms) <==> Committed(es, t, k, comms))
    && (forall k :: Complainants(es', k) == Complainants(es, k))
    && (forall k, c :: Answered(es', t, m, k, c) <==> Answered(es, t, m, k, c))
    && (forall k :: Marked(es', t, m, k) <==> Marked(es, t, m, k))
  }

  /** What matters for QUAL. */
  predicate SameMarks(d: Dkg, d': Dkg) {
    && d'.t == d.t && d'.params == d.params && d'.polyCommitments == d.polyCommitments
    && d'.complaints1 == d.complaints1 && d'.revealed == d.revealed && d'.noqual == d.noqual
  }

  lemma Transfer(d: Dkg, d': Dkg, es: set<Event>, es': set<Event>)
    requires Knows(d, es) && Usable(d') && SameMarks(d, d') && SameFacts(es, es', d.t, d.params)
    ensures Knows(d', es')
  {
    hide Complainants, Committed, Answered, Marked;
  }

  /** An event that is no public phase-1 event, or was seen before, or is malformed, adds nothing. */
  lemma NothingNew(es: set<Event>, e: Event, t: nat, m: Params)
    requires m.p > 0 && (e.ReceivedShare? || e in es || (e.ReceivedCommitments? && |e.comms| != t + 1))
    ensures SameFacts(es, es + {e}, t, m)
  {
    assert forall k :: Complainants(es + {e}, k) == Complainants(es, k);
    SameReveals(es, es + {e}, t, m);
  }

  /** Equal good reveals, equal reveals to complainants and equal complaints: equal facts. */
  lemma SameReveals(es: set<Event>, es': set<Event>, t: nat, m: Params)
    requires m.p > 0
    requires forall k :: Complainants(es', k) == Complainants(es, k)
    requires forall k, c, s, comms :: GoodReveal(es', t, m, k, c, s, comms) <==> GoodReveal(es, t, m, k, c, s, comms)
    requires forall k, c, s :: (RevealShare(k, c, s) in es' && Complaint1(c, k) in es') <==>
               (RevealShare(k, c, s) in es && Complaint1(c, k) in es)
    ensures forall k, c :: Answered(es', t, m, k, c) <==> Answered(es, t, m, k, c)
    ensures forall k :: Marked(es', t, m, k) <==> Marked(es, t, m, k)
  {
    hide GoodReveal, Complainants;
    assert forall k, c, s :: Unfit(es', t, m, k, c, s) <==> Unfit(es, t, m, k, c, s);
    hide Unfit;
    forall k ensures BadReveal(es', t, m, k) <==> BadReveal(es, t, m, k) {
    }
  }

  lemma ShareLearns(d: Dkg, es: set<Event>, e: Event)
    requires Knows(d, es) && e.ReceivedShare?
    ensures Knows(Apply(d, e).0, es + {e})
  {
    hide Knows, SameFacts;
    KnowsUsable(d, es);
    NothingNew(es, e, d.t, d.params);
    Transfer(d, Apply(d, e).0, es, es + {e});
  }

  lemma KnowsUsable(d: Dkg, es: set<Event>)
    requires Knows(d, es)
    ensures Usable(d)
  {
  }

  // ---- Commitments ----

  lemma CommitmentsLearn(d: Dkg, es: set<Event>, e: Event)
    requires Knows(d, es) && e.ReceivedCommitments? && OneCommitment(es + {e}, d.t)
    requires |e.comms| == d.t + 1 && e !in es ==> forall r | r in es && r.RevealShare? :: r.from != e.from
    ensures Knows(Apply(d, e).0, es + {e})
  {
    var d' := Apply(d, e).0;
    if e.from in d.polyCommitments || |e.comms| != d.t + 1 {
      if |e.comms| == d.t + 1 {
        assert Committed(es, d.t, e.from, d.polyCommitments[e.from]);
        assert e in es;
      }
      hide Knows, SameFacts;
      NothingNew(es, e, d.t, d.params);
      Transfer(d, d', es, es + {e});
    } else {
      assert e !in es by { assert e in es ==> Committed(es, d.t, e.from, e.comms); }
      FirstCommitments(d, es, e);
      OnlyShares(d, e);
      hide Knows, SameFacts;
      Transfer(d.(polyCommitments := d.polyCommitments[e.from := e.comms]), d', es + {e}, es + {e}) by {
        SameAsItself(es + {e}, d.t, d.params);
      }
    }
  }

  lemma SameAsItself(es: set<Event>, t: nat, m: Params)
    requires m.p > 0
    ensures SameFacts(es, es, t, m)
  {
  }

  /** Accepting commitments may also settle a pending share, which QUAL does not depend on. */
  lemma OnlyShares(d: Dkg, e: Event)
    requires Usable(d) && e.ReceivedCommitments? && e.from !in d.polyCommitments && |e.comms| == d.t + 1
    ensures SameMarks(d.(polyCommitments := d.polyCommitments[e.from := e.comms]), Apply(d, e).0)
  {
  }

  lemma FirstCommitments(d: Dkg, es: set<Event>, e: Event)
    requires Knows(d, es) && e.ReceivedCommitments? && e !in es && e.from !in d.polyCommitments && |e.comms| == d.t + 1
    requires forall r | r in es && r.RevealShare? :: r.from != e.from
    ensures Knows(d.(polyCommitments := d.polyCommitments[e.from := e.comms]), es + {e})
  {
    var es' := es + {e};
    var d' := d.(polyCommitments := d.polyCommitments[e.from := e.comms]);
    assert forall k :: Complainants(es', k) == Complainants(es, k);
    forall k, c, s, comms ensures GoodReveal(es', d.t, d.params, k, c, s, comms) <==>
        GoodReveal(es, d.t, d.params, k, c, s, comms) {
    }
    SameReveals(es, es', d.t, d.params);
    assert KnowsCommitments(d', es') by { NewCommitted(d, es, e); }
    hide Complainants, Committed, Answered, Marked, GoodReveal;
  }

  lemma NewCommitted(d: Dkg, es: set<Event>, e: Event)
    requires Usable(d) && KnowsCommitments(d, es) && e.ReceivedCommitments? && e !in es
    requires e.from !in d.polyCommitments && |e.comms| == d.t + 1
    ensures KnowsCommitments(d.(polyCommitments := d.polyCommitments[e.from := e.comms]), es + {e})
  {
    var d' := d.(polyCommitments := d.polyCommitments[e.from := e.comms]);
    forall k, comms
      ensures (k in d'.polyCommitments && d'.polyCommitments[k] == comms) <==> Committed(es + {e}, d.t, k, comms)
    {
      assert (k in d.polyCommitments && d.polyCommitments[k] == comms) <==> Committed(es, d.t, k, comms);
    }
  }

  // ---- Complaints ----

  lemma ComplaintLearns(d: Dkg, es: set<Event>, e: Event)
    requires Knows(d, es) && e.Complaint1?
    requires e !in es ==> forall r | r in es && r.RevealShare? && r.from == e.dealer :: r.target != e.from
    ensures Knows(Apply(d, e).0, es + {e})
  {
    var d' := Apply(d, e).0;
    if e.from in Lookup(d.complaints1, e.dealer) {
      assert e in es by { assert e.from in Complainants(es, e.dealer); }
      hide Knows, SameFacts;
      NothingNew(es, e, d.t, d.params);
      Transfer(d, d', es, es + {e});
    } else {
      assert e !in es by { assert e in es ==> e.from in Complainants(es, e.dealer); }
      FirstComplaint(d, es, e);
    }
  }

  lemma MoreComplainants(es: set<Event>, e: Event, k: Id)
    requires e.Complaint1?
    ensures Complainants(es + {e}, k) == if k == e.dealer then Complainants(es, k) + {e.from} else Complainants(es, k)
  {
  }

  lemma FirstComplaint(d: Dkg, es: set<Event>, e: Event)
    requires Knows(d, es) && e.Complaint1? && e !in es && e.from !in Lookup(d.complaints1, e.dealer)
    requires forall r | r in es && r.RevealShare? && r.from == e.dealer :: r.target != e.from
    ensures Knows(Apply(d, e).0, es + {e})
  {
    var es', d' := es + {e}, Apply(d, e).0;
    ComplaintFacts(es, e, d.t, d.params);
    hide Complainants, Committed, Answered, BadReveal;
    ComplaintMarks(d, es, e);
    ComplaintRecorded(d, es, e);
  }

  lemma ComplaintFacts(es: set<Event>, e: Event, t: nat, m: Params)
    requires m.p > 0 && e.Complaint1? && e !in es
    requires forall r | r in es && r.RevealShare? && r.from == e.dealer :: r.target != e.from
    ensures forall k :: Complainants(es + {e}, k) == if k == e.dealer then Complainants(es, k) + {e.from}
              else Complainants(es, k)
    ensures forall k, comms :: Committed(es + {e}, t, k, comms) <==> Committed(es, t, k, comms)
    ensures forall k, c :: Answered(es + {e}, t, m, k, c) <==> Answered(es, t, m, k, c)
    ensures forall k :: BadReveal(es + {e}, t, m, k) <==> BadReveal(es, t, m, k)
  {
    forall k ensures Complainants(es + {e}, k) == if k == e.dealer then Complainants(es, k) + {e.from}
        else Complainants(es, k) {
      MoreComplainants(es, e, k);
    }
    assert forall k, c, s, comms :: GoodReveal(es + {e}, t, m, k, c, s, comms) <==>
        GoodReveal(es, t, m, k, c, s, comms);
    SameBad(es, e, t, m);
    hide GoodReveal, Complainants, BadReveal;
    forall k, c ensures Answered(es + {e}, t, m, k, c) <==> Answered(es, t, m, k, c) {
    }
  }

  lemma SameBad(es: set<Event>, e: Event, t: nat, m: Params)
    requires m.p > 0 && e.Complaint1? && e !in es
    requires forall r | r in es && r.RevealShare? && r.from == e.dealer :: r.target != e.from
    ensures forall k :: BadReveal(es + {e}, t, m, k) <==> BadReveal(es, t, m, k)
  {
    assert forall k, c, s, comms :: GoodReveal(es + {e}, t, m, k, c, s, comms) <==>
        GoodReveal(es, t, m, k, c, s, comms);
    assert forall k, c, s :: (RevealShare(k, c, s) in es + {e} && Complaint1(c, k) in es + {e}) <==>
        (RevealShare(k, c, s) in es && Complaint1(c, k) in es);
    hide GoodReveal;
    assert forall k, c, s :: Unfit(es + {e}, t, m, k, c, s) <==> Unfit(es, t, m, k, c, s);
    hide Unfit;
    forall k ensures BadReveal(es + {e}, t, m, k) <==> BadReveal(es, t, m, k) {
    }
  }

  lemma ComplaintRecorded(d: Dkg, es: set<Event>, e: Event)
    requires Knows(d, es) && e.Complaint1? && e.from !in Lookup(d.complaints1, e.dealer)
    requires forall k :: Complainants(es + {e}, k) == if k == e.dealer then Complainants(es, k) + {e.from}
               else Complainants(es, k)
    ensures KnowsComplaints(Apply(d, e).0, es + {e})
  {
    hide Complainants, KnowsCommitments, KnowsReveals, KnowsMarks;
    var d' := Apply(d, e).0;
    forall k ensures Lookup(d'.complaints1, k) == Complainants(es + {e}, k) {
      assert Lookup(d.complaints1, k) == Complainants(es, k);
    }
  }

  lemma ComplaintMarks(d: Dkg, es: set<Event>, e: Event)
    requires Knows(d, es) && e.Complaint1? && e.from !in Lookup(d.complaints1, e.dealer)
    requires forall k :: Complainants(es + {e}, k) == if k == e.dealer then Complainants(es, k) + {e.from}
               else Complainants(es, k)
    requires forall k :: BadReveal(es + {e}, d.t, d.params, k) <==> BadReveal(es, d.t, d.params, k)
    ensures KnowsMarks(Apply(d, e).0, es + {e})
  {
    hide Complainants, BadReveal, KnowsCommitments, KnowsReveals;
    var d' := Apply(d, e).0;
    var c := Complainants(es, e.dealer);
    assert Lookup(d.complaints1, e.dealer) == c && |c + {e.from}| == |c| + 1;
    forall k ensures k in d'.noqual <==> Marked(es + {e}, d.t, d.params, k) {
      assert k in d.noqual <==> Marked(es, d.t, d.params, k);
    }
  }

  // ---- Reveals ----

  lemma RevealLearns(d: Dkg, es: set<Event>, e: Event)
    requires Knows(d, es) && e.RevealShare? && OneCommitment(es, d.t)
    ensures Knows(Apply(d, e).0, es + {e})
  {
    var es', d' := es + {e}, Apply(d, e).0;
    assert forall k :: Complainants(es', k) == Complainants(es, k);
    assert forall k, comms :: Committed(es', d.t, k, comms) <==> Committed(es, d.t, k, comms);
    assert e.target in Lookup(d.complaints1, e.from) <==> Complaint1(e.target, e.from) in es by {
      assert Lookup(d.complaints1, e.from) == Complainants(es, e.from);
    }
    if e.target !in Lookup(d.complaints1, e.from) {
      assert forall k, c, s, comms :: GoodReveal(es', d.t, d.params, k, c, s, comms) <==>
          GoodReveal(es, d.t, d.params, k, c, s, comms);
      SameReveals(es, es', d.t, d.params);
      hide Knows, GoodReveal;
      Transfer(d, d', es, es');
    } else {
      RevealFacts(d, es, e);
      RevealState(d, es, e);
    }
  }

  /** The one reveal is good exactly if the code's check passes. */
  ghost predicate Passes(d: Dkg, e: Event)
    requires Usable(d) && e.RevealShare?
  {
    e.from in d.polyCommitments && ShareFits(d.params, d.polyCommitments[e.from], e.target, e.share)
  }

  lemma RevealFacts(d: Dkg, es: set<Event>, e: Event)
    requires Knows(d, es) && e.RevealShare? && Complaint1(e.target, e.from) in es
    ensures forall k, c :: Answered(es + {e}, d.t, d.params, k, c) <==>
                           Answered(es, d.t, d.params, k, c) || (Passes(d, e) && k == e.from && c == e.target)
    ensures forall k :: BadReveal(es + {e}, d.t, d.params, k) <==>
              BadReveal(es, d.t, d.params, k) || (!Passes(d, e) && k == e.from)
  {
    hide Complainants, GoodReveal, ShareFits;
    forall k, c, s, comms ensures GoodReveal(es + {e}, d.t, d.params, k, c, s, comms) <==>
      GoodReveal(es, d.t, d.params, k, c, s, comms)
      || (RevealShare(k, c, s) == e && Passes(d, e) && comms == d.polyCommitments[e.from])
    {
      GoodOrNew(d, es, e, k, c, s, comms);
    }
    hide Knows;
    RevealAnswers(d, es, e);
    RevealBads(d, es, e);
  }

  lemma GoodOrNew(d: Dkg, es: set<Event>, e: Event, k: Id, c: Id, s: Share, comms: seq<Element>)
    requires Usable(d) && KnowsCommitments(d, es) && e.RevealShare? && Complaint1(e.target, e.from) in es
    ensures Passes(d, e) ==> e.from in d.polyCommitments
    ensures GoodReveal(es + {e}, d.t, d.params, k, c, s, comms) <==>
      GoodReveal(es, d.t, d.params, k, c, s, comms)
      || (RevealShare(k, c, s) == e && Passes(d, e) && comms == d.polyCommitments[e.from])
    ensures RevealShare(k, c, s) == e && GoodReveal(es, d.t, d.params, k, c, s, comms) ==> Passes(d, e)
    ensures RevealShare(k, c, s) == e && e in es && Passes(d, e) ==>
              GoodReveal(es, d.t, d.params, k, c, s, d.polyCommitments[e.from])
  {
    assert (k in d.polyCommitments && d.polyCommitments[k] == comms) <==> Committed(es, d.t, k, comms);
    assert k in d.polyCommitments ==> Committed(es, d.t, k, d.polyCommitments[k]);
  }

  lemma RevealAnswers(d: Dkg, es: set<Event>, e: Event)
    requires Usable(d) && e.RevealShare?
    requires forall k, c, s, comms :: GoodReveal(es + {e}, d.t, d.params, k, c, s, comms) <==>
      GoodReveal(es, d.t, d.params, k, c, s, comms)
      || (RevealShare(k, c, s) == e && Passes(d, e) && comms == d.polyCommitments[e.from])
    ensures forall k, c :: Answered(es + {e}, d.t, d.params, k, c) <==>
                           Answered(es, d.t, d.params, k, c) || (Passes(d, e) && k == e.from && c == e.target)
  {
    hide GoodReveal;
    if Passes(d, e) {
      assert GoodReveal(es + {e}, d.t, d.params, e.from, e.target, e.share, d.polyCommitments[e.from]);
    }
  }

  lemma RevealBads(d: Dkg, es: set<Event>, e: Event)
    requires Knows(d, es) && e.RevealShare? && Complaint1(e.target, e.from) in es
    ensures forall k :: BadReveal(es + {e}, d.t, d.params, k) <==>
              BadReveal(es, d.t, d.params, k) || (!Passes(d, e) && k == e.from)
  {
    forall k, c, s
      ensures Unfit(es + {e}, d.t, d.params, k, c, s) <==>
              Unfit(es, d.t, d.params, k, c, s) || (RevealShare(k, c, s) == e && !Passes(d, e))
    {
      UnfitOrNew(d, es, e, k, c, s);
    }
    hide Unfit, Passes, Knows;
    if !Passes(d, e) {
      assert Unfit(es + {e}, d.t, d.params, e.from, e.target, e.share);
    }
  }

  lemma UnfitOrNew(d: Dkg, es: set<Event>, e: Event, k: Id, c: Id, s: Share)
    requires Usable(d) && KnowsCommitments(d, es) && e.RevealShare? && Complaint1(e.target, e.from) in es
    ensures Unfit(es + {e}, d.t, d.params, k, c, s) <==>
            Unfit(es, d.t, d.params, k, c, s) || (RevealShare(k, c, s) == e && !Passes(d, e))
  {
    hide GoodReveal, ShareFits;
    forall comms
      ensures GoodReveal(es + {e}, d.t, d.params, k, c, s, comms) <==>
        GoodReveal(es, d.t, d.params, k, c, s, comms)
        || (RevealShare(k, c, s) == e && Passes(d, e) && comms == d.polyCommitments[e.from])
      ensures RevealShare(k, c, s) == e && GoodReveal(es, d.t, d.params, k, c, s, comms) ==> Passes(d, e)
    {
      GoodOrNew(d, es, e, k, c, s, comms);
    }
    if RevealShare(k, c, s) == e && Passes(d, e) {
      GoodOrNew(d, es, e, k, c, s, d.polyCommitments[e.from]);
      assert GoodReveal(es + {e}, d.t, d.params, k, c, s, d.polyCommitments[e.from]);
    }
  }

  lemma RevealState(d: Dkg, es: set<Event>, e: Event)
    requires Knows(d, es) && e.RevealShare? && e.target in Lookup(d.complaints1, e.from)
    requires forall k :: Complainants(es + {e}, k) == Complainants(es, k)
    requires forall k, comms :: Committed(es + {e}, d.t, k, comms) <==> Committed(es, d.t, k, comms)
    requires forall k, c :: Answered(es + {e}, d.t, d.params, k, c) <==>
                            Answered(es, d.t, d.params, k, c) || (Passes(d, e) && k == e.from && c == e.target)
    requires forall k :: BadReveal(es + {e}, d.t, d.params, k) <==>
               BadReveal(es, d.t, d.params, k) || (!Passes(d, e) && k == e.from)
    ensures Knows(Apply(d, e).0, es + {e})
  {
    hide Complainants, Committed, Answered, BadReveal, ShareFits;
    var es', d' := es + {e}, Apply(d, e).0;
    assert d'.polyCommitments == d.polyCommitments && d'.complaints1 == d.complaints1;
    assert KnowsMarks(d', es') by {
      hide KnowsCommitments, KnowsComplaints, KnowsReveals;
      forall k ensures k in d'.noqual <==> Marked(es', d.t, d.params, k) {
        assert k in d.noqual <==> Marked(es, d.t, d.params, k);
      }
    }
    assert KnowsReveals(d', es') by { hide KnowsCommitments, KnowsComplaints, KnowsMarks; }
    hide KnowsMarks, KnowsReveals;
  }

  // ---- Runs ----

  lemma CausalPrefix(es: seq<Event>, t: nat)
    requires Causal(es, t) && es != []
    ensures Causal(es[..|es| - 1], t)
  {
    var n := |es| - 1;
    forall i, j | 0 <= i < n && 0 <= j < n && Precedes(es[..n][j], es[..n][i], t) ensures es[..n][j] in es[..n][..i] {
      assert Precedes(es[j], es[i], t);
      assert es[..n][..i] == es[..i];
    }
  }

  /** What the last event must precede has not come before it, unless it has itself. */
  lemma LastIsFirst(es: seq<Event>, t: nat, r: Event)
    requires Causal(es, t) && es != [] && r in es[..|es| - 1] && Precedes(es[|es| - 1], r, t)
    ensures es[|es| - 1] in es[..|es| - 1]
  {
    var n := |es| - 1;
    var i :| 0 <= i < n && es[i] == r;
    assert es[n] in es[..i];
    assert forall k | 0 <= k < i :: es[..i][k] == es[..n][k];
  }

  lemma Learns(d: Dkg, es: seq<Event>, t: nat)
    requires es != [] && Knows(d, Events(es[..|es| - 1])) && t == d.t && Causal(es, t) && OneCommitment(Events(es), t)
    ensures Knows(Apply(d, es[|es| - 1]).0, Events(es))
  {
    hide Knows, Causal;
    var n := |es| - 1;
    var e, before := es[n], Events(es[..n]);
    assert es == es[..n] + [e];
    assert Events(es) == before + {e};
    match e
    case ReceivedShare(_, _) => ShareLearns(d, before, e);
    case ReceivedCommitments(_, _) =>
      if |e.comms| == t + 1 && e !in before {
        forall r | r in before && r.RevealShare? ensures r.from != e.from {
          if r.from == e.from { LastIsFirst(es, t, r); }
        }
      }
      CommitmentsLearn(d, before, e);
    case Complaint1(_, _) =>
      if e !in before {
        forall r | r in before && r.RevealShare? && r.from == e.dealer ensures r.target != e.from {
          if r.target == e.from { LastIsFirst(es, t, r); }
        }
      }
      ComplaintLearns(d, before, e);
    case RevealShare(_, _, _) => RevealLearns(d, before, e);
  }

  lemma {:induction false} RunKnows(d: Dkg, es: seq<Event>)
    requires Fresh(d) && Causal(es, d.t) && OneCommitment(Events(es), d.t)
    ensures Knows(Run(d, es), Events(es)) && Run(d, es).t == d.t && Run(d, es).params == d.params
    ensures Run(d, es).processes == d.processes
  {
    hide Knows, Fresh, Causal;
    FreshUsable(d);
    if es == [] {
      FreshKnows(d);
      assert Events(es) == {};
    } else {
      CausalPrefix(es, d.t);
      assert Events(es[..|es| - 1]) <= Events(es);
      RunKnows(d, es[..|es| - 1]);
      Learns(Run(d, es[..|es| - 1]), es, d.t);
      Keeps(Run(d, es[..|es| - 1]), es[|es| - 1]);
    }
  }

  lemma Keeps(d: Dkg, e: Event)
    requires Usable(d)
    ensures Apply(d, e).0.t == d.t && Apply(d, e).0.params == d.params && Apply(d, e).0.processes == d.processes
  {
    hide ShareFits, Lookup, At;
  }

  // ---- QUAL ----

  lemma {:induction false} KeptExactly(ps: seq<Id>, a: set<Id>, b: set<Id>)
    requires forall k | k in ps :: k in a <==> k in b
    ensures Kept(ps, a) == Kept(ps, b)
  {
    if ps != [] { KeptExactly(ps[..|ps| - 1], a, b); }
  }

  /** Who generatingPub leaves out, by the events alone. */
  lemma LeftOut(d: Dkg, es: set<Event>, k: Id)
    requires Knows(d, es) && k in d.processes
    ensures k in d.noqual + Unanswered(d) + Missing(d) <==> Disqualified(es, d.t, d.params, k)
  {
    assert k in d.noqual <==> Marked(es, d.t, d.params, k);
    assert Lookup(d.complaints1, k) == Complainants(es, k);
    hide Complainants, Marked, Answered;
    CommittedOrMissing(d, es, k);
    assert forall c :: c in Lookup(d.revealed, k) <==> Answered(es, d.t, d.params, k, c);
  }

  lemma CommittedOrMissing(d: Dkg, es: set<Event>, k: Id)
    requires KnowsCommitments(d, es) && k in d.processes
    ensures k in Missing(d) <==> !HasCommitted(es, d.t, k)
  {
    if k in d.polyCommitments {
      assert Committed(es, d.t, k, d.polyCommitments[k]);
    }
  }

  /** QUAL is the processes that the set of events does not disqualify, in the order of the process list. */
  lemma QualByEvents(d: Dkg, es: seq<Event>, bad: set<Id>)
    requires Fresh(d) && Causal(es, d.t) && OneCommitment(Events(es), d.t)
    requires forall k | k in d.processes :: k in bad <==> Disqualified(Events(es), d.t, d.params, k)
    ensures OnGeneratingPub(Run(d, es)).0.qual == Kept(d.processes, bad)
  {
    hide Knows, Disqualified, Unanswered, Missing;
    RunKnows(d, es);
    var r := Run(d, es);
    forall k | k in d.processes ensures k in r.noqual + Unanswered(r) + Missing(r) <==> k in bad {
      LeftOut(r, Events(es), k);
    }
    KeptExactly(d.processes, r.noqual + Unanswered(r) + Missing(r), bad);
  }

  predicate Public(e: Event) { !e.ReceivedShare? }

  function PublicEvents(es: seq<Event>): set<Event> { set e | e in es && Public(e) }

  /** Private shares play no part. */
  lemma PublicDecides(es: seq<Event>, t: nat, m: Params, k: Id)
    requires m.p > 0
    ensures Disqualified(Events(es), t, m, k) <==> Disqualified(PublicEvents(es), t, m, k)
  {
    var a, b := Events(es), PublicEvents(es);
    assert forall j :: Complainants(a, j) == Complainants(b, j);
    assert forall j, c, s, comms :: GoodReveal(a, t, m, j, c, s, comms) <==> GoodReveal(b, t, m, j, c, s, comms);
    assert forall j, comms :: Committed(a, t, j, comms) <==> Committed(b, t, j, comms);
    SameReveals(b, a, t, m);
    hide GoodReveal, Committed, Complainants, Marked;
  }

  /** QUAL confluence: two processes of the same group that handled the same public events, each in its own order and
      with its own private shares, end phase 1 with the same QUAL. */
  lemma QualConfluence(d: Dkg, d': Dkg, es: seq<Event>, es': seq<Event>)
    requires Fresh(d) && Fresh(d') && d.t == d'.t && d.params == d'.params && d.processes == d'.processes
    requires Causal(es, d.t) && Causal(es', d.t) && PublicEvents(es) == PublicEvents(es')
    requires OneCommitment(PublicEvents(es), d.t)
    ensures OnGeneratingPub(Run(d, es)).0.qual == OnGeneratingPub(Run(d', es')).0.qual
  {
    hide Fresh, Causal, Disqualified;
    var bad := BadAmong(d.processes, PublicEvents(es), d.t, d.params)
    by { assert d.params.p > 0 by { FreshUsable(d); } }
    FreshUsable(d);
    forall k | k in d.processes
      ensures k in bad <==> Disqualified(Events(es), d.t, d.params, k)
      ensures k in bad <==> Disqualified(Events(es'), d.t, d.params, k)
    {
      PublicDecides(es, d.t, d.params, k);
      PublicDecides(es', d.t, d.params, k);
    }
    assert OneCommitment(Events(es), d.t) && OneCommitment(Events(es'), d.t)
    by { AllPublic(es, d.t); AllPublic(es', d.t); }
    QualByEvents(d, es, bad);
    QualByEvents(d', es', bad);
  }

  lemma AllPublic(es: seq<Event>, t: nat)
    requires OneCommitment(PublicEvents(es), t)
    ensures OneCommitment(Events(es), t)
  {
    forall e | e in Events(es) && e.ReceivedCommitments? ensures e in PublicEvents(es) {}
  }

  lemma FreshUsable(d: Dkg)
    requires Fresh(d)
    ensures Usable(d) && d.params.p > 0
  {
  }

  ghost function BadAmong(ps: seq<Id>, es: set<Event>, t: nat, m: Params): set<Id>
    requires m.p > 0
  {
    set k | k in ps && Disqualified(es, t, m, k)
  }

  // ---- Honest dealers ----

  lemma {:induction false} InKept(ps: seq<Id>, bad: set<Id>, k: Id)
    ensures k in Kept(ps, bad) <==> k in ps && k !in bad
  {
    if ps != [] {
      InKept(ps[..|ps| - 1], bad, k);
      assert ps == ps[..|ps| - 1] + [ps[|ps| - 1]];
    }
  }

  /** complaint2 can mark an honest dealer only with an opening of its commitment line whose first part is not
      f(complainant) modulo q. */
  lemma Complaint2NeedsAnotherOpening(d: Dkg, from: Id, dealer: Id, s: Share, f: Polynomial, fMask: Polynomial)
    requires Usable(d) && ValidParams(d.params) && Valid(f) && Valid(fMask) && f.q == fMask.q == d.params.q
    requires |f.coefficients| == |fMask.coefficients| == d.t + 1
    requires dealer in d.polyCommitments ==>
               d.polyCommitments[dealer] == Pedersen(d.params, Values(f.coefficients), Values(fMask.coefficients))
    requires dealer in d.pubCommitments ==> d.pubCommitments[dealer] == Feldman(d.params, Values(f.coefficients))
    requires dealer !in d.noqual2 && dealer in OnComplaint2(d, from, dealer, s).noqual2
    ensures dealer in d.polyCommitments && ShareFits(d.params, d.polyCommitments[dealer], from, s)
    ensures s.s.value % d.params.q != Sum(Values(f.coefficients), from) % d.params.q
  {
    hide ShareFits, Sum;
    if s.s.value % d.params.q == Sum(Values(f.coefficients), from) % d.params.q {
      FeldmanComplete(d.params, f, from, s.s);
      assert false;
    }
  }
}

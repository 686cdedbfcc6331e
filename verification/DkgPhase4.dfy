/** Answers, public commitments, second complaints and the key, read off the inputs of a process: which share a process
    ends up with, which public complaint it makes, whom it marks, and when it has a key. */
module DkgPhase4 {
  import opened Common
  import opened Zp
  import opened Polynomials
  import opened Commitments
  import opened DkgSpec
  import opened DkgQual
  import opened DkgKeys
  import opened DkgRun
  import opened DkgSystem
  import opened DkgComplaints

  /** g^s is the product of the public commitments to the process's powers. */
  predicate OnLine(m: Params, comms: seq<Element>, at: Id, s: Element)
    requires m.p > 0 && comms != []
  {
    Exp(G(m), s.value) == Line(comms, at)
  }

  // ---- Stored shares ----

  /** Every stored share opens its dealer's commitments. */
  predicate StoredOpen(d: Dkg) {
    d.params.p > 0 && forall k | k in d.shares ::
      k in d.polyCommitments && d.polyCommitments[k] != [] && Opens(d.params, d.polyCommitments[k], d.self, d.shares[k])
  }

  lemma TakeStoredOpen(d: Dkg, i: Input)
    requires Usable(d) && StoredOpen(d)
    ensures StoredOpen(Take(d, i).0)
  {
    hide Line, Exp;
    if i.Phase1? {
      match i.e
      case ReceivedCommitments(from, comms) => CommitmentsOpen(d, from, comms);
      case ReceivedShare(from, s) => ShareOpen(d, from, s);
      case Complaint1(from, dealer) =>
        hide OnComplaint1;
        ComplaintChanges(d, from, dealer);
      case RevealShare(from, target, s) => RevealOpen(d, from, target, s);
    } else {
      hide Take;
      TakeChanges(d, i);
    }
  }

  lemma CommitmentsOpen(d: Dkg, from: Id, comms: seq<Element>)
    requires Usable(d) && StoredOpen(d)
    ensures StoredOpen(OnCommitments(d, from, comms).0)
  {
    hide Line, Exp;
  }

  lemma ShareOpen(d: Dkg, from: Id, s: Share)
    requires Usable(d) && StoredOpen(d)
    ensures StoredOpen(OnShare(d, from, s).0)
  {
    hide Line, Exp;
  }

  lemma RevealOpen(d: Dkg, from: Id, target: Id, s: Share)
    requires Usable(d) && StoredOpen(d)
    ensures StoredOpen(OnReveal(d, from, target, s))
  {
    hide Line, Exp, Lookup;
  }

  /** Every share a process holds opens the first commitments that came from its dealer. */
  lemma {:induction false} SharesOpen(d: Dkg, log: seq<Input>)
    requires Started(d)
    ensures StoredOpen(After(d, log))
  {
    if log != [] {
      hide Take, StoredOpen;
      SharesOpen(d, log[..|log| - 1]);
      TakeStoredOpen(After(d, log[..|log| - 1]), log[|log| - 1]);
    } else {
      StartedUsable(d);
    }
  }

  /** An answer to the process's own complaint that opens the dealer's commitments becomes its share from that dealer;
      one that does not leaves it as it is and marks the dealer. */
  lemma AnswerTaken(d: Dkg, log: seq<Input>, j: nat, k: Id, s: Share)
    requires Started(d) && j < |log| && log[j] == Phase1(RevealShare(k, d.self, s))
    requires Phase1(Complaint1(d.self, k)) in log[..j] && FirstComms(log[..j], k, d.t).Some?
    ensures |FirstComms(log[..j], k, d.t).value| == d.t + 1
    ensures var opens := Opens(d.params, FirstComms(log[..j], k, d.t).value, d.self, s);
      && After(d, log[..j + 1]).shares
          == (if opens then After(d, log[..j]).shares[k := s] else After(d, log[..j]).shares)
      && (!opens ==> k in After(d, log[..j + 1]).noqual)
  {
    AfterTracked(d, log[..j], k);
    Same(d, log[..j]);
    ComplaintsRecorded(d, log[..j], k);
    assert Phase1(Complaint1(d.self, k)).e.from in Complainers(log[..j], k);
    assert log[..j + 1][..j] == log[..j];
    hide Line, Exp, After, FirstComms, LastShare, Complainers;
    Unfold(d, log[..j + 1]);
  }

  // ---- Public commitments and second complaints ----

  /** k's public commitments of valid length come for the first time, and k is in QUAL. */
  predicate FirstPublic(d: Dkg, log: seq<Input>, j: nat, k: Id, comms: seq<Element>)
    requires Usable(d)
  {
    && j < |log| && log[j] == PubCommitments(k, comms) && |comms| == d.t + 1
    && k in After(d, log[..j]).inQual && k !in After(d, log[..j]).pubCommitments
  }

  /** The first public commitments of a member of QUAL are recorded; if the share from it misses their line, the process
      publishes that very share, which opens the dealer's first commitments, and otherwise it sends nothing. */
  lemma PublicJudged(d: Dkg, log: seq<Input>, j: nat, k: Id, comms: seq<Element>)
    requires Started(d) && FirstPublic(d, log, j, k, comms)
    ensures After(d, log[..j + 1]).pubCommitments == After(d, log[..j]).pubCommitments[k := comms]
    ensures var a := After(d, log[..j]);
      if k != d.self && k in a.shares && !OnLine(d.params, comms, d.self, a.shares[k].s) then
        && Sent(d, log, j) == Some(Complaint2Msg(k, a.shares[k], Exp(G(d.params), a.shares[k].s.value)))
        && k in a.polyCommitments && a.polyCommitments[k] != []
        && Opens(d.params, a.polyCommitments[k], d.self, a.shares[k])
      else Sent(d, log, j) == None
  {
    Same(d, log[..j]);
    SharesOpen(d, log[..j]);
    assert log[..j + 1][..j] == log[..j];
    hide Line, Exp, After, Opens;
    Unfold(d, log[..j + 1]);
  }

  /** A second complaint with a share that opens k's first commitments at the complainant and misses its public line. */
  predicate Exposes(d: Dkg, log: seq<Input>, j: nat, k: Id)
    requires Usable(d)
  {
    && j < |log| && log[j].Complaint2? && log[j].dealer == k
    && var a := After(d, log[..j]);
    && k in a.inQual && k in a.pubCommitments && k in a.polyCommitments
    && a.params.p > 0 && a.polyCommitments[k] != [] && a.pubCommitments[k] != []
    && Opens(a.params, a.polyCommitments[k], log[j].from, log[j].share)
    && !OnLine(a.params, a.pubCommitments[k], log[j].from, log[j].share.s)
  }

  lemma TakeMarks(d: Dkg, log: seq<Input>, k: Id)
    requires Started(d) && log != []
    ensures var n := |log| - 1;
      k in After(d, log).noqual2 <==> k in After(d, log[..n]).noqual2 || Exposes(d, log, n, k)
  {
    var n := |log| - 1;
    var a := After(d, log[..n]);
    Unfold(d, log);
    AfterLong(d, log[..n]);
    TakeIs(a, log[n]);
    hide After, Take, OnComplaint2, OnBuildPubKey, Opens, OnLine, Usable, LongEnough, Started;
    if log[n].Complaint2? {
      MarkStep(a, log[n].from, log[n].dealer, log[n].share, k);
    } else {
      TakeOther(a, log[n]);
    }
  }

  lemma TakeOther(d: Dkg, i: Input)
    requires Usable(d)
    ensures !i.Complaint2? ==> Take(d, i).0.noqual2 == d.noqual2
    ensures !i.BuildPubKey? ==> Take(d, i).0.pubKey == d.pubKey
  {
    hide Take;
    TakeChanges(d, i);
  }

  lemma TakeIs(d: Dkg, i: Input)
    requires Usable(d)
    ensures i.Complaint2? ==> Take(d, i).0 == OnComplaint2(d, i.from, i.dealer, i.share)
    ensures i.BuildPubKey? ==> Take(d, i).0 == OnBuildPubKey(d).0
  {
    hide Apply, OnComplaint2, OnBuildPubKey, OnPubCommitments, OnGeneratingPub;
  }

  lemma MarkStep(d: Dkg, from: Id, dealer: Id, s: Share, k: Id)
    requires Usable(d) && LongEnough(d)
    ensures k in OnComplaint2(d, from, dealer, s).noqual2 <==>
              || k in d.noqual2
              || (k == dealer && k in d.inQual && k in d.pubCommitments && k in d.polyCommitments
                  && d.polyCommitments[k] != [] && d.pubCommitments[k] != []
                  && Opens(d.params, d.polyCommitments[k], from, s)
                      && !OnLine(d.params, d.pubCommitments[k], from, s.s))
  {
    hide Line, Exp;
  }

  lemma ExposesBefore(d: Dkg, log: seq<Input>, j: nat, k: Id)
    requires Usable(d) && log != [] && j < |log| - 1
    ensures Exposes(d, log[..|log| - 1], j, k) <==> Exposes(d, log, j, k)
  {
    assert log[..|log| - 1][..j] == log[..j];
  }

  /** A process marks k in phase 4 exactly if it has handled a second complaint that exposes k. */
  lemma {:induction false} MarkedExactly(d: Dkg, log: seq<Input>, k: Id)
    requires Started(d)
    ensures k in After(d, log).noqual2 <==> exists j: nat :: Exposes(d, log, j, k)
  {
    hide Exposes, After;
    StartedUsable(d);
    if log == [] {
      NothingMarked(d, k);
    } else {
      var n := |log| - 1;
      MarkedExactly(d, log[..n], k);
      TakeMarks(d, log, k);
      if k in After(d, log[..n]).noqual2 {
        var j: nat :| Exposes(d, log[..n], j, k);
        ExposesIn(d, log[..n], j, k);
        ExposesBefore(d, log, j, k);
      }
      if j: nat :| Exposes(d, log, j, k) {
        ExposesIn(d, log, j, k);
        if j < n { ExposesBefore(d, log, j, k); }
      }
    }
  }

  lemma NothingMarked(d: Dkg, k: Id)
    requires Started(d)
    ensures k !in After(d, []).noqual2 && forall j: nat :: !Exposes(d, [], j, k)
  {
  }

  lemma ExposesIn(d: Dkg, log: seq<Input>, j: nat, k: Id)
    requires Usable(d) && Exposes(d, log, j, k)
    ensures j < |log|
  {
  }

  // ---- The key ----

  /** The last timer fires when nobody is marked and the public commitments of all of a non-empty QUAL are there. */
  predicate Ready(d: Dkg, log: seq<Input>, j: nat)
    requires Usable(d)
  {
    && j < |log| && log[j] == BuildPubKey
    && var a := After(d, log[..j]);
       a.noqual2 == {} && a.qual != [] && forall k | k in a.qual :: k in a.pubCommitments
  }

  lemma {:induction false} TermsThere(qual: seq<Id>, pub: map<Id, seq<Element>>)
    requires forall k | k in pub :: pub[k] != []
    ensures FreeTerms(qual, pub).Some? <==> forall k | k in qual :: k in pub
    ensures FreeTerms(qual, pub).Some? ==> |FreeTerms(qual, pub).value| == |qual|
  {
    if qual != [] {
      var n := |qual| - 1;
      TermsThere(qual[..n], pub);
      assert qual == qual[..n] + [qual[n]];
    }
  }

  lemma TakeBuilds(d: Dkg, log: seq<Input>)
    requires Started(d) && log != []
    ensures var n := |log| - 1; After(d, log).pubKey.Some? <==> After(d, log[..n]).pubKey.Some? || Ready(d, log, n)
  {
    var n := |log| - 1;
    var a := After(d, log[..n]);
    Unfold(d, log);
    AfterLong(d, log[..n]);
    TakeIs(a, log[n]);
    hide After, Take, OnComplaint2, OnBuildPubKey, Usable, LongEnough, Started;
    if log[n].BuildPubKey? {
      BuildStep(a);
    } else {
      TakeOther(a, log[n]);
    }
  }

  lemma BuildStep(d: Dkg)
    requires LongEnough(d)
    ensures OnBuildPubKey(d).0.pubKey.Some? <==>
              d.pubKey.Some? || (d.noqual2 == {} && d.qual != [] && forall k | k in d.qual :: k in d.pubCommitments)
  {
    hide Product, FreeTerms;
    TermsThere(d.qual, d.pubCommitments);
  }

  lemma ReadyBefore(d: Dkg, log: seq<Input>, j: nat)
    requires Usable(d) && log != [] && j < |log| - 1
    ensures Ready(d, log[..|log| - 1], j) <==> Ready(d, log, j)
  {
    assert log[..|log| - 1][..j] == log[..j];
  }

  /** A process has a public key exactly if its last timer has fired when it had marked nobody and had the public
      commitments of all of QUAL. */
  lemma {:induction false} KeyExactly(d: Dkg, log: seq<Input>)
    requires Started(d)
    ensures After(d, log).pubKey.Some? <==> exists j: nat :: Ready(d, log, j)
  {
    hide Ready, After;
    StartedUsable(d);
    if log == [] {
      NoKey(d);
    } else {
      var n := |log| - 1;
      KeyExactly(d, log[..n]);
      TakeBuilds(d, log);
      if After(d, log[..n]).pubKey.Some? {
        var j: nat :| Ready(d, log[..n], j);
        ReadyIn(d, log[..n], j);
        ReadyBefore(d, log, j);
      }
      if j: nat :| Ready(d, log, j) {
        ReadyIn(d, log, j);
        if j < n { ReadyBefore(d, log, j); }
      }
    }
  }

  lemma NoKey(d: Dkg)
    requires Started(d)
    ensures After(d, []).pubKey.None? && forall j: nat :: !Ready(d, [], j)
  {
  }

  lemma SameReady(d: Dkg, log: seq<Input>, j: nat, i: nat)
    requires Usable(d) && i < j <= |log|
    ensures Ready(d, log[..j], i) <==> Ready(d, log, i)
  {
    assert log[..j][..i] == log[..i];
  }

  lemma ReadyIn(d: Dkg, log: seq<Input>, j: nat)
    requires Usable(d) && Ready(d, log, j)
    ensures j < |log|
  {
  }

  // ---- Two processes ----

  /** A second complaint works: what one process publishes about k makes every process mark k that handles it with k in
      its QUAL and the same commitments and public commitments of k. It then builds no key any more. */
  lemma PublishedShareExposes(d: Dkg, log: seq<Input>, j: nat, d': Dkg, log': seq<Input>, j': nat, k: Id,
                              comms: seq<Element>)
    requires Started(d) && Started(d') && d'.params == d.params && d'.t == d.t && FirstPublic(d, log, j, k, comms)
    requires Sent(d, log, j).Some? && Sent(d, log, j).value.Complaint2Msg?
    requires j' < |log'| && log'[j'] == Complaint2(d.self, k, Sent(d, log, j).value.initShare)
    requires k in After(d', log'[..j']).inQual && k in After(d', log'[..j']).pubCommitments
    requires k in After(d', log'[..j']).polyCommitments
    requires After(d', log'[..j']).pubCommitments[k] == comms
    requires k in After(d, log[..j]).polyCommitments
             ==> After(d', log'[..j']).polyCommitments[k] == After(d, log[..j]).polyCommitments[k]
    ensures k in After(d', log').noqual2
    ensures After(d', log'[..j']).pubKey.None? ==> After(d', log').pubKey.None?
  {
    hide Line, Exp, After, Opens;
    PublicJudged(d, log, j, k, comms);
    Same(d', log'[..j']);
    assert Exposes(d', log', j', k);
    MarkedExactly(d', log', k);
    if After(d', log'[..j']).pubKey.None? { NoKeyAfterwards(d', log', j', k); }
  }

  lemma {:induction false} NoKeyAfterwards(d: Dkg, log: seq<Input>, j: nat, k: Id)
    requires Started(d) && Exposes(d, log, j, k) && After(d, log[..j]).pubKey.None?
    ensures After(d, log).pubKey.None?
  {
    hide After, Line, Exp, Opens, OnLine;
    KeyExactly(d, log);
    KeyExactly(d, log[..j]);
    forall i: nat ensures !Ready(d, log, i) {
      if i < |log| && i <= j {
        if i < j { SameReady(d, log, j, i); }
      } else if i < |log| {
        assert log[..i][..j] == log[..j];
        assert Exposes(d, log[..i], j, k);
        MarkedExactly(d, log[..i], k);
      }
    }
  }
}

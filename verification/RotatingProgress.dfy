/** When a correct member complains and when it leaves a round, in terms of what it was told and what it has
    received. */
module RotatingProgress {
  import opened Common
  import opened RotatingDetector

  /** The reasons to complain in round r: told to, or more than f others have. */
  predicate Moved(c: Config, s: Sys, p: PID, r: nat) {
    (p, r) in s.genuine || |Heard(s, p, r)| > c.f
  }

  predicate SentToAll(c: Config, s: Sys, p: PID, r: nat) {
    ToAll(c.procs, p, r) <= s.sent
  }

  predicate SentNone(s: Sys, p: PID, r: nat) {
    forall k | k in s.sent :: !(k.from == p && k.round == r)
  }

  predicate Complains(c: Config, s: Sys, p: PID, r: nat) {
    if Moved(c, s, p, r) then SentToAll(c, s, p, r) else SentNone(s, p, r)
  }

  /** A group without tolerated faults leaves a round with the second complaint at the latest, any other with number
      2f + 1. */
  function Limit(c: Config): nat { if c.f == 0 then 1 else 2 * c.f }

  ghost predicate Tracks(c: Config, s: Sys, p: PID)
    requires p in s.nodes
  {
    var d := s.nodes[p];
    && d.faults == c.f && d.round >= 1 && d.complains == Heard(s, p, d.round)
    && (d.complained <==> Moved(c, s, p, d.round))
    && (forall r: nat | r > d.round :: Heard(s, p, r) == {} && (p, r) !in s.genuine)
    && (forall r: nat :: Complains(c, s, p, r))
    && (forall r: nat | 1 <= r < d.round :: |Heard(s, p, r)| > 2 * c.f)
    && |d.complains| <= Limit(c)
  }

  ghost predicate AllTrack(c: Config, s: Sys) {
    s.nodes.Keys == Correct(c) && forall p | p in s.nodes :: Tracks(c, s, p)
  }

  /** What others do is of no concern. */
  lemma OthersTrack(c: Config, s: Sys, s': Sys, p: PID)
    requires p in s.nodes && p in s'.nodes && Tracks(c, s, p) && s'.nodes[p] == s.nodes[p]
    requires forall r: nat :: Heard(s', p, r) == Heard(s, p, r) && ((p, r) in s'.genuine <==> (p, r) in s.genuine)
    requires s.sent <= s'.sent && forall k | k in s'.sent && k !in s.sent :: k.from != p
    ensures Tracks(c, s', p)
  {
    forall r: nat ensures Complains(c, s', p, r) {
      assert Complains(c, s, p, r);
    }
  }

  lemma ComplainTracks(c: Config, s: Sys, t: Step)
    requires AllTrack(c, s) && Enabled(c, s, t) && t.Complain?
    ensures Tracks(c, Do(c, s, t), t.p)
  {
    var s', p, r := Do(c, s, t), t.p, s.nodes[t.p].round;
    assert Tracks(c, s, p);
    forall r': nat ensures Heard(s', p, r') == Heard(s, p, r') {}
    forall r': nat ensures Complains(c, s', p, r') {
      assert Complains(c, s, p, r');
      assert Complains(c, s, p, r);
      forall k | k in s'.sent && k !in s.sent ensures k.from == p && k.round == r {}
    }
  }

  lemma HeardAfter(c: Config, s: Sys, k: Complaint, p: PID, r: nat)
    requires Enabled(c, s, Receive(k))
    ensures Heard(Do(c, s, Receive(k)), p, r)
            == if p == k.to && r == k.round == s.nodes[k.to].round then Heard(s, p, r) + {k.from} else Heard(s, p, r)
  {
  }

  lemma ReceiveTracks(c: Config, s: Sys, k: Complaint)
    requires AllTrack(c, s) && Enabled(c, s, Receive(k))
    ensures Tracks(c, Do(c, s, Receive(k)), k.to)
  {
    var s', p, d := Do(c, s, Receive(k)), k.to, s.nodes[k.to];
    assert Tracks(c, s, p);
    forall r: nat ensures Heard(s', p, r) == if r == k.round == d.round then Heard(s, p, r) + {k.from}
        else Heard(s, p, r) {
      HeardAfter(c, s, k, p, r);
    }
    if d.round != k.round || k.from in d.complains {
      assert Heard(s, p, d.round) + {k.from} == Heard(s, p, d.round) || d.round != k.round;
      assert forall r: nat :: Heard(s', p, r) == Heard(s, p, r);
      assert s'.nodes[p] == d && s'.sent == s.sent;
      OthersTrack(c, s, s', p);
    } else {
      NewComplaint(c, s, k);
    }
  }

  lemma NewComplaint(c: Config, s: Sys, k: Complaint)
    requires AllTrack(c, s) && Enabled(c, s, Receive(k))
    requires s.nodes[k.to].round == k.round && k.from !in s.nodes[k.to].complains
    ensures Tracks(c, Do(c, s, Receive(k)), k.to)
  {
    var s', p, d := Do(c, s, Receive(k)), k.to, s.nodes[k.to];
    assert Tracks(c, s, p);
    forall r: nat ensures Heard(s', p, r) == if r == d.round then Heard(s, p, r) + {k.from} else Heard(s, p, r) {
      HeardAfter(c, s, k, p, r);
    }
    assert |d.complains + {k.from}| == |d.complains| + 1;
    hide Heard, Leads;
    forall r: nat ensures Complains(c, s', p, r) {
      assert Complains(c, s, p, r);
      forall x | x in s'.sent && x !in s.sent ensures x.from == p && x.round == d.round {}
    }
  }

  lemma StepTracks(c: Config, s: Sys, t: Step)
    requires AllTrack(c, s) && Enabled(c, s, t) && c.byz <= c.procs
    ensures AllTrack(c, Do(c, s, t))
  {
    hide Tracks;
    var s' := Do(c, s, t);
    forall p | p in s'.nodes ensures Tracks(c, s', p) {
      if t.Complain? && p == t.p {
        ComplainTracks(c, s, t);
      } else if t.Receive? && p == t.k.to {
        ReceiveTracks(c, s, t.k);
      } else {
        if t.Receive? {
          forall r: nat ensures Heard(s', p, r) == Heard(s, p, r) { HeardAfter(c, s, t.k, p, r); }
        }
        OthersTrack(c, s, s', p);
      }
    }
  }

  lemma {:induction false} RunTracks(c: Config, run: seq<Sys>, i: nat)
    requires ValidConfig(c) && IsRun(c, run) && i < |run|
    ensures AllTrack(c, run[i])
  {
    hide AllTrack, Do, Enabled;
    if i == 0 {
      StartTracks(c);
    } else {
      RunTracks(c, run, i - 1);
      assert Next(c, run[i - 1], run[i - 1 + 1]);
      var t :| Enabled(c, run[i - 1], t) && run[i] == Do(c, run[i - 1], t);
      StepTracks(c, run[i - 1], t);
    }
  }

  lemma StartTracks(c: Config)
    ensures AllTrack(c, Start(c))
  {
  }

  /** In every run a correct member has complained about a round, to everybody, exactly if it was told to while in it or
      more than f members have told it that they complain; otherwise it has complained to nobody. */
  lemma ComplainsExactly(c: Config, run: seq<Sys>, i: nat, p: PID, r: nat)
    requires ValidConfig(c) && IsRun(c, run) && i < |run| && p in Correct(c)
    ensures (p, r) in run[i].genuine || |Heard(run[i], p, r)| > c.f ==>
              forall q | q in c.procs :: Complaint(p, q, r) in run[i].sent
    ensures !((p, r) in run[i].genuine || |Heard(run[i], p, r)| > c.f) ==>
              forall q :: Complaint(p, q, r) !in run[i].sent
  {
    hide IsRun;
    RunTracks(c, run, i);
    assert Tracks(c, run[i], p);
    assert Complains(c, run[i], p, r);
    if Moved(c, run[i], p, r) {
      forall q | q in c.procs ensures Complaint(p, q, r) in run[i].sent {
        assert Complaint(p, q, r) in ToAll(c.procs, p, r);
      }
    }
  }

  /** In every run a correct member has left a round exactly if it has received complaints of more than 2f members about
      it while in it; where no fault is tolerated, the second complaint suffices and one is needed. */
  lemma LeavesExactly(c: Config, run: seq<Sys>, i: nat, p: PID, r: nat)
    requires ValidConfig(c) && IsRun(c, run) && i < |run| && p in Correct(c) && r >= 1
    ensures p in run[i].nodes
    ensures c.f >= 1 ==> (r < run[i].nodes[p].round <==> |Heard(run[i], p, r)| > 2 * c.f)
    ensures c.f == 0 ==> (|Heard(run[i], p, r)| > 1 ==> r < run[i].nodes[p].round)
                         && (r < run[i].nodes[p].round ==> |Heard(run[i], p, r)| > 0)
  {
    hide IsRun;
    RunTracks(c, run, i);
    assert Tracks(c, run[i], p);
  }
}

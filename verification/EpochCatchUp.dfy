/** What the epoch changers tell each other, read off the log of packets and the list of started epochs: catch-up with a
    lagging follower, refusals and what they bring about. */
module EpochCatchUp {
  import opened Common
  import opened ModArith
  import opened EpochChange

  ghost predicate Reach(c: Config, s: Sys) {
    exists run :: IsRun(c, run) && run[|run| - 1] == s
  }

  lemma RunTo(c: Config, s: Sys) returns (run: seq<Sys>)
    requires Reach(c, s)
    ensures IsRun(c, run) && run != [] && run[|run| - 1] == s
  {
    run :| IsRun(c, run) && run[|run| - 1] == s;
  }

  lemma ReachInv(c: Config, s: Sys)
    requires ValidConfig(c) && Reach(c, s)
    ensures Inv(c, s)
  {
    hide IsRun, Inv;
    var run := RunTo(c, s);
    RunInv(c, run, |run| - 1);
  }

  lemma Go(c: Config, s: Sys, t: Step)
    requires Reach(c, s) && Enabled(c, s, t)
    ensures Reach(c, Do(c, s, t))
  {
    hide Do, Enabled, Init;
    var run := RunTo(c, s);
    assert Next(c, s, Do(c, s, t));
    hide Next;
    assert IsRun(c, run + [Do(c, s, t)]);
  }

  /** The packet that the step from s to s' has sent; nothing else was sent. */
  ghost predicate Sends(s: Sys, s': Sys, k: ChangePacket) { s'.log == s.log + [k] }

  /** ts is what l announces next: in its own residue class, above what the follower has, and the least such value. */
  ghost predicate IsNext(c: Config, l: PID, above: int, ts: int)
    requires l in c.ranks
  {
    && above < ts && Congruent(ts, c.ranks[l], |c.ranks|)
    && forall x :: Congruent(x, c.ranks[l], |c.ranks|) && above < x ==> ts <= x
  }

  /** A leader that trusts itself and handles a subscription with a timestamp that it has not passed announces to all
      the least value of its own class above it; one that has passed it has nothing to say. Nobody starts anything
      yet. */
  lemma CatchUp(c: Config, s: Sys, l: PID, id: nat)
    requires ValidConfig(c) && Reach(c, s) && Enabled(c, s, Deliver(l, id)) && s.log[id].msg.SubscribeMsg?
    requires s.changers[l].trusted == l
    ensures var s', other := Do(c, s, Deliver(l, id)), s.log[id].msg.currentTs;
      && s'.started == s.started
      && (s.changers[l].ts <= other ==>
            && |s'.log| == |s.log| + 1 && s'.log[|s.log|].msg.NewEpochMsg?
            && Sends(s, s', ChangePacket(l, None, s'.log[|s.log|].msg))
            && IsNext(c, l, other, s'.log[|s.log|].msg.ts))
      && (s.changers[l].ts > other ==> s'.log == s.log)
  {
    hide Reach;
    ReachInv(c, s);
    var a, other := s.changers[l], s.log[id].msg.currentTs;
    assert InvChanger(c, l, a);
    if a.ts <= other {
      LeastAboveIsLeast(a.ts, a.n, other);
      SameClassBoth(LeastAbove(a.ts, a.n, other), a.ts, c.ranks[l], a.n);
    }
  }

  lemma SameClassBoth(x: int, a: int, r: int, n: nat)
    requires Congruent(x, a, n) && Congruent(a, r, n)
    ensures Congruent(x, r, n) && forall y :: Congruent(y, r, n) ==> Congruent(y, a, n)
  {
    var k: int :| a == r + n * k;
    var j: int :| x == a + n * j;
    MulSplit(n, j, k);
    assert x == r + n * (j + k);
    forall y | Congruent(y, r, n) ensures Congruent(y, a, n) {
      var i: int :| y == r + n * i;
      MulSplit(n, i, k);
      assert y == a + n * (i - k);
    }
  }

  /** A process starts an announced epoch exactly if the announcer is the leader it trusts and the timestamp is newer
      than any it has started; otherwise it answers with a refusal, and only then. */
  lemma StartsOrRefuses(c: Config, s: Sys, p: PID, id: nat)
    requires Enabled(c, s, Deliver(p, id)) && s.log[id].msg.NewEpochMsg?
    ensures var s', l, ts := Do(c, s, Deliver(p, id)), s.log[id].from, s.log[id].msg.ts;
      if s.changers[p].trusted == l && s.changers[p].lastTs < ts then
        s'.started == s.started + [(p, Started(ts, l))] && s'.log == s.log && s'.changers[p].lastTs == ts
      else
        && s'.started == s.started && s'.changers == s.changers
        && Sends(s, s', ChangePacket(s.changers[p].self, Some(l), NAckMsg))
  {
  }

  /** What a follower that subscribed is offered by CatchUp it starts, if its timestamp and trust are what they were. */
  lemma CaughtUp(c: Config, s: Sys, l: PID, id: nat, later: Sys, p: PID)
    requires ValidConfig(c) && Reach(c, s) && Enabled(c, s, Deliver(l, id)) && s.log[id].msg.SubscribeMsg?
    requires s.changers[l].trusted == l && s.changers[l].ts <= s.log[id].msg.currentTs
    requires Do(c, s, Deliver(l, id)).log <= later.log && Enabled(c, later, Deliver(p, |s.log|))
    requires later.changers[p].trusted == l && later.changers[p].lastTs == s.log[id].msg.currentTs
    ensures var after := Do(c, later, Deliver(p, |s.log|));
      && after.started != [] && var (q, start) := after.started[|after.started| - 1];
      && after.started == later.started + [(q, start)] && q == p && start.leader == l
      && IsNext(c, l, s.log[id].msg.currentTs, start.ts)
  {
    hide Reach, IsNext;
    CatchUp(c, s, l, id);
    NextAbove(c, l, s.log[id].msg.currentTs, Do(c, s, Deliver(l, id)).log[|s.log|].msg.ts);
    assert later.log[|s.log|] == Do(c, s, Deliver(l, id)).log[|s.log|];
    hide Do;
    StartsOrRefuses(c, later, p, |s.log|);
  }

  lemma NextAbove(c: Config, l: PID, above: int, ts: int)
    requires l in c.ranks && IsNext(c, l, above, ts)
    ensures above < ts
  {
  }

  /** A process that comes to trust itself announces its next timestamp to all; one that comes to trust another tells
      that process which epoch it has started last. */
  lemma TrustChanges(c: Config, s: Sys, p: PID, l: PID)
    requires ValidConfig(c) && Reach(c, s) && Enabled(c, s, NewLeader(p, l))
    ensures var s', a := Do(c, s, NewLeader(p, l)), s.changers[p];
      && s'.started == s.started && s'.changers[p].trusted == l
      && Sends(s, s', if l == p then ChangePacket(p, None, NewEpochMsg(a.ts + |c.ranks|))
                      else ChangePacket(p, Some(l), SubscribeMsg(a.lastTs)))
  {
    hide Reach;
    ReachInv(c, s);
    assert InvChanger(c, p, s.changers[p]);
  }

  /** A refusal, or a request, makes a process that trusts itself announce its next timestamp, and nobody else. */
  lemma Reannounces(c: Config, s: Sys, t: Step)
    requires ValidConfig(c) && Reach(c, s) && Enabled(c, s, t)
    requires t.Request? || (t.Deliver? && s.log[t.id].msg.NAckMsg?)
    ensures var s', a := Do(c, s, t), s.changers[t.p];
      && s'.started == s.started
      && if a.trusted == t.p then
           s'.changers[t.p].ts == a.ts + |c.ranks|
           && Sends(s, s', ChangePacket(t.p, None, NewEpochMsg(a.ts + |c.ranks|)))
         else s'.log == s.log && s'.changers == s.changers
  {
    hide Reach;
    ReachInv(c, s);
    assert InvChanger(c, t.p, s.changers[t.p]);
    assert s.changers[t.p := s.changers[t.p]] == s.changers;
  }

  // ---- Refusals lead to an epoch that is accepted ----

  predicate Follows(s: Sys, l: PID, p: PID) {
    && l in s.changers && p in s.changers
    && s.changers[l].trusted == l && s.changers[p].trusted == l
  }

  /** From any reachable state, if p trusts l and l trusts itself, announcements and refusals between the two lead to an
      epoch that p starts: it is led by l and newer than all that p has started. */
  lemma Converges(c: Config, s: Sys, l: PID, p: PID) returns (s': Sys)
    requires ValidConfig(c) && Reach(c, s) && Follows(s, l, p)
    ensures Reach(c, s') && |s'.started| == |s.started| + 1 && s.started <= s'.started
    ensures s'.started[|s.started|].0 == p && s'.started[|s.started|].1.leader == l
    ensures p in s.changers && s.changers[p].lastTs < s'.started[|s.started|].1.ts
  {
    hide Reach, Do;
    CanRequest(c, s, l);
    Reannounces(c, s, Request(l));
    Go(c, s, Request(l));
    OnlyAnnouncer(c, s, Request(l));
    s' := Insist(c, Do(c, s, Request(l)), l, p, |s.log|);
  }

  lemma CanRequest(c: Config, s: Sys, l: PID)
    requires ValidConfig(c) && Reach(c, s) && l in s.changers
    ensures Enabled(c, s, Request(l))
  {
    hide Reach;
    ReachInv(c, s);
    assert InvChanger(c, l, s.changers[l]);
  }

  lemma CanDeliver(c: Config, s: Sys, p: PID, id: nat)
    requires ValidConfig(c) && Reach(c, s) && p in s.changers && id < |s.log|
    requires s.log[id].to == None || s.log[id].to == Some(p)
    ensures Enabled(c, s, Deliver(p, id)) && s.changers[p].self == p
  {
    hide Reach;
    ReachInv(c, s);
    assert InvChanger(c, p, s.changers[p]);
  }

  /** Requests and refusals change nothing but the counter of the process they come to. */
  lemma OnlyAnnouncer(c: Config, s: Sys, t: Step)
    requires Enabled(c, s, t) && (t.Request? || (t.Deliver? && s.log[t.id].msg.NAckMsg?))
    ensures Do(c, s, t).changers == s.changers[t.p := s.changers[t.p].(ts := Do(c, s, t).changers[t.p].ts)]
    ensures t.p in Do(c, s, t).changers
  {
  }

  lemma {:induction false} Insist(c: Config, s: Sys, l: PID, p: PID, id: nat) returns (s': Sys)
    requires ValidConfig(c) && Reach(c, s) && Follows(s, l, p) && id < |s.log|
    requires s.log[id] == ChangePacket(l, None, NewEpochMsg(s.changers[l].ts))
    ensures Reach(c, s') && |s'.started| == |s.started| + 1 && s.started <= s'.started
    ensures s'.started[|s.started|].0 == p && s'.started[|s.started|].1.leader == l
    ensures p in s.changers && s.changers[p].lastTs < s'.started[|s.started|].1.ts
    decreases s.changers[p].lastTs - s.changers[l].ts + 1
  {
    hide Reach, Do;
    CanDeliver(c, s, p, id);
    StartsOrRefuses(c, s, p, id);
    Go(c, s, Deliver(p, id));
    var s1 := Do(c, s, Deliver(p, id));
    if s.changers[p].lastTs < s.changers[l].ts {
      s' := s1;
    } else {
      var n := |s.log|;
      assert s1.log[n] == ChangePacket(p, Some(l), NAckMsg);
      CanDeliver(c, s1, l, n);
      Reannounces(c, s1, Deliver(l, n));
      OnlyAnnouncer(c, s1, Deliver(l, n));
      Go(c, s1, Deliver(l, n));
      var s2 := Do(c, s1, Deliver(l, n));
      assert |c.ranks| > 0;
      s' := Insist(c, s2, l, p, |s1.log|);
    }
  }
}

/** The leader-based epoch changer: partitioned timestamps, catch-up with a lagging follower, and all changers
    together. */
module EpochChange {
  import opened Common
  import opened ModArith

  datatype ChangeMsg = NewEpochMsg(ts: int) | NAckMsg | SubscribeMsg(currentTs: int)

  /** A message and, unless it is broadcast, its addressee. */
  datatype ChangePacket = ChangePacket(from: PID, to: Option<PID>, msg: ChangeMsg)

  datatype Changer = Changer(self: PID, n: nat, trusted: PID, lastTs: int, ts: int)

  /** An epoch handed to the node above. */
  datatype Started = Started(ts: int, leader: PID)

  // ---- One changer ----

  function Announce(c: Changer): (Changer, seq<ChangePacket>) {
    var c1 := c.(ts := c.ts + c.n);
    (c1, [ChangePacket(c.self, None, NewEpochMsg(c1.ts))])
  }

  /** NewEpoch and handleNAck: a trusted process announces its next timestamp. */
  function OnRequest(c: Changer): (Changer, seq<ChangePacket>) {
    if c.trusted != c.self then (c, []) else Announce(c)
  }

  function OnNewLeader(c: Changer, leader: PID): (Changer, seq<ChangePacket>) {
    var c1 := c.(trusted := leader);
    if leader != c.self then (c1, [ChangePacket(c.self, Some(leader), SubscribeMsg(c.lastTs))])
    else Announce(c1)
  }

  function HandleNewEpoch(c: Changer, leader: PID, ts: int): (Changer, seq<ChangePacket>, Option<Started>) {
    if leader == c.trusted && ts > c.lastTs then (c.(lastTs := ts), [], Some(Started(ts, leader)))
    else (c, [ChangePacket(c.self, Some(leader), NAckMsg)], None)
  }

  /** The least number above other that ts reaches in steps of n. */
  function LeastAbove(ts: int, n: nat, other: int): int
    requires 0 < n && ts <= other
  {
    ts + n * ((other - ts) / n + 1)
  }

  function HandleSubscribe(c: Changer, otherTs: int): (Changer, seq<ChangePacket>)
    requires 0 < c.n
  {
    if c.trusted != c.self || c.ts > otherTs then (c, [])
    else
      var c1 := c.(ts := LeastAbove(c.ts, c.n, otherTs));
      (c1, [ChangePacket(c.self, None, NewEpochMsg(c1.ts))])
  }

  /** Go's and Dafny's remainders agree here: congruence is stated without either. */
  ghost predicate Congruent(a: int, b: int, n: nat) { exists k: int :: a == b + n * k }

  lemma CongruentStep(a: int, b: int, n: nat, j: int)
    requires Congruent(a, b, n)
    ensures Congruent(a + n * j, b, n)
  {
    var k: int :| a == b + n * k;
    assert a + n * j == b + n * (k + j);
  }

  lemma CongruentSame(a: int, b: int, n: nat)
    requires Congruent(a, b, n) && 0 < n
    ensures a % n == b % n
  {
    var k: int :| a == b + n * k;
    ModShift(b, k, n);
  }

  /** The catch-up target is the least value of the leader's own residue class above the follower's timestamp. */
  lemma LeastAboveIsLeast(ts: int, n: nat, other: int)
    requires 0 < n && ts <= other
    ensures other < LeastAbove(ts, n, other) <= other + n
    ensures Congruent(LeastAbove(ts, n, other), ts, n)
    ensures forall x :: Congruent(x, ts, n) && other < x ==> LeastAbove(ts, n, other) <= x
  {
    var q, r := (other - ts) / n, (other - ts) % n;
    assert other - ts == n * q + r && 0 <= r < n;
    assert LeastAbove(ts, n, other) == ts + n * (q + 1) == ts + n * q + n;
    forall x | Congruent(x, ts, n) && other < x ensures LeastAbove(ts, n, other) <= x {
      var k: int :| x == ts + n * k;
      MulMono(n, k, q);
      MulMono(n, q + 1, k);
    }
  }

  // ---- The changer as the object it is ----

  class LeaderBasedEpochChanger {
    const self: PID
    const processesCount: nat
    var trusted: PID
    var lastTs: int
    var ts: int

    function Abs(): Changer
      reads this
    {
      Changer(self, processesCount, trusted, lastTs, ts)
    }

    constructor (self: PID, rank: int, processesCount: nat, leader: PID)
      ensures Abs() == Changer(self, processesCount, leader, 0, rank)
    {
      this.self, this.processesCount := self, processesCount;
      trusted, lastTs, ts := leader, 0, rank;
    }

    method IncTs()
      modifies this`ts
      ensures ts == old(ts) + processesCount
    {
      ts := ts + processesCount;
    }

    method Request() returns (out: seq<ChangePacket>)
      modifies this
      ensures (Abs(), out) == OnRequest(old(Abs()))
    {
      if trusted != self {
        return [];
      }
      IncTs();
      out := [ChangePacket(self, None, NewEpochMsg(ts))];
    }

    method NewLeader(leader: PID) returns (out: seq<ChangePacket>)
      modifies this
      ensures (Abs(), out) == OnNewLeader(old(Abs()), leader)
    {
      trusted := leader;
      if trusted != self {
        return [ChangePacket(self, Some(leader), SubscribeMsg(lastTs))];
      }
      IncTs();
      out := [ChangePacket(self, None, NewEpochMsg(ts))];
    }

    method NewEpochArrived(leader: PID, newTs: int) returns (out: seq<ChangePacket>, started: Option<Started>)
      modifies this
      ensures (Abs(), out, started) == HandleNewEpoch(old(Abs()), leader, newTs)
    {
      if leader == trusted && newTs > lastTs {
        lastTs := newTs;
        return [], Some(Started(newTs, leader));
      }
      return [ChangePacket(self, Some(leader), NAckMsg)], None;
    }

    /** handleSubscribe: the loop stops at the least congruent value above the follower's. */
    method Subscribed(otherTs: int) returns (out: seq<ChangePacket>)
      requires 0 < processesCount
      modifies this
      ensures (Abs(), out) == HandleSubscribe(old(Abs()), otherTs)
    {
      if trusted != self || ts > otherTs {
        return [];
      }
      ghost var k := 0;
      LeastAboveIsLeast(ts, processesCount, otherTs);
      while ts <= otherTs
        invariant trusted == old(trusted) && lastTs == old(lastTs)
        invariant ts == old(ts) + processesCount * k
        invariant ts <= LeastAbove(old(ts), processesCount, otherTs)
        decreases otherTs - ts
      {
        IncTs();
        k := k + 1;
        assert ts == old(ts) + processesCount * k;
        ReachesOnlyTarget(old(ts), processesCount, otherTs, k);
      }
      assert Congruent(ts, old(ts), processesCount);
      out := [ChangePacket(self, None, NewEpochMsg(ts))];
    }
  }

  /** A step taken at or below the follower's timestamp does not overshoot the target. */
  lemma ReachesOnlyTarget(ts: int, n: nat, other: int, k: int)
    requires 0 < n && ts <= other && ts + n * k - n <= other
    ensures ts + n * k <= LeastAbove(ts, n, other)
  {
    LeastAboveIsLeast(ts, n, other);
    var q := (other - ts) / n;
    assert LeastAbove(ts, n, other) == ts + n * (q + 1);
    assert n * (k - 1) == n * k - n;
    MulMono(n, k, q + 1);
    MulMono(n, q + 1, k - 1);
  }

  /** Node.Init: the leader of epoch 0 is a process of lowest rank. */
  method LowestRanked(self: PID, processes: map<PID, int>) returns (leader: PID)
    requires self in processes
    ensures leader in processes && forall p | p in processes :: processes[leader] <= processes[p]
  {
    leader := self;
    var leaderRank := processes[self];
    var left := processes.Keys;
    while left != {}
      invariant left <= processes.Keys
      invariant leader in processes && leaderRank == processes[leader]
      invariant forall p | p in processes && p !in left :: leaderRank <= processes[p]
      decreases left
    {
      var p := PickAny(left);
      if leaderRank >= processes[p] {
        leaderRank := processes[p];
        leader := p;
      }
      left := left - {p};
    }
  }

  // ---- All changers together ----

  datatype Config = Config(ranks: map<PID, int>)

  ghost predicate ValidConfig(c: Config) {
    && c.ranks != map[]
    && forall p, q | p in c.ranks && q in c.ranks && p != q :: c.ranks[p] % |c.ranks| != c.ranks[q] % |c.ranks|
  }

  /** log holds every packet ever made; any of them may be dropped, delayed or overtaken (the announcement timer
      keeps only the latest), so delivery picks any of them any number of times. */
  datatype Sys = Sys(changers: map<PID, Changer>, log: seq<ChangePacket>, started: seq<(PID, Started)>)

  datatype Step =
    | Request(p: PID)
    | NewLeader(p: PID, leader: PID)
    | Deliver(p: PID, id: nat)

  ghost predicate Init(c: Config, s: Sys) {
    && s.changers.Keys == c.ranks.Keys && s.log == [] && s.started == []
    && forall p | p in c.ranks ::
         s.changers[p].self == p && s.changers[p].n == |c.ranks| && s.changers[p].lastTs == 0
         && s.changers[p].ts == c.ranks[p]
  }

  predicate Enabled(c: Config, s: Sys, t: Step) {
    && t.p in c.ranks && t.p in s.changers && 0 < s.changers[t.p].n
    && match t
       case Request(_) => true
       case NewLeader(_, leader) => leader in c.ranks
       case Deliver(p, id) => id < |s.log| && (s.log[id].to == None || s.log[id].to == Some(p))
  }

  /** What a step makes of the stepping changer, what it sends and what it starts. */
  function Local(s: Sys, t: Step): (Changer, seq<ChangePacket>, Option<Started>)
    requires t.p in s.changers && 0 < s.changers[t.p].n
    requires t.Deliver? ==> t.id < |s.log|
  {
    var c := s.changers[t.p];
    match t
    case Request(_) => var (c1, out) := OnRequest(c); (c1, out, None)
    case NewLeader(_, leader) => var (c1, out) := OnNewLeader(c, leader); (c1, out, None)
    case Deliver(_, id) =>
      match s.log[id].msg
      case NewEpochMsg(ts) => HandleNewEpoch(c, s.log[id].from, ts)
      case NAckMsg => var (c1, out) := OnRequest(c); (c1, out, None)
      case SubscribeMsg(other) => var (c1, out) := HandleSubscribe(c, other); (c1, out, None)
  }

  function Do(c: Config, s: Sys, t: Step): Sys
    requires Enabled(c, s, t)
  {
    var (c1, out, start) := Local(s, t);
    Sys(s.changers[t.p := c1], s.log + out, if start.Some? then s.started + [(t.p, start.value)] else s.started)
  }

  ghost predicate IsRun(c: Config, run: seq<Sys>) {
    && run != [] && Init(c, run[0])
    && forall k | 0 <= k < |run| - 1 :: Next(c, run[k], run[k + 1])
  }

  ghost predicate Next(c: Config, s: Sys, s': Sys) {
    exists t :: Enabled(c, s, t) && s' == Do(c, s, t)
  }

  ghost predicate InvChanger(c: Config, p: PID, a: Changer) {
    p in c.ranks && a.self == p && a.n == |c.ranks| && 0 <= a.lastTs && Congruent(a.ts, c.ranks[p], |c.ranks|)
  }

  /** An announcement carries the announcer's residue class and lies below its counter. */
  ghost predicate InvAnnounced(c: Config, s: Sys, k: ChangePacket) {
    k.msg.NewEpochMsg? ==>
      k.from in c.ranks && k.from in s.changers && k.msg.ts <= s.changers[k.from].ts
      && Congruent(k.msg.ts, c.ranks[k.from], |c.ranks|)
  }

  ghost predicate Inv(c: Config, s: Sys) {
    && s.changers.Keys == c.ranks.Keys
    && (forall p | p in s.changers :: InvChanger(c, p, s.changers[p]))
    && (forall i | 0 <= i < |s.log| :: InvAnnounced(c, s, s.log[i]))
    && (forall i, j | 0 <= i < j < |s.log| ::
          s.log[i].msg.NewEpochMsg? && s.log[j].msg.NewEpochMsg? && s.log[i].from == s.log[j].from ==>
            s.log[i].msg.ts < s.log[j].msg.ts)
    && (forall i | 0 <= i < |s.started| ::
          s.started[i].0 in s.changers && 0 < s.started[i].1.ts <= s.changers[s.started[i].0].lastTs
          && s.started[i].1.leader in c.ranks
              && Congruent(s.started[i].1.ts, c.ranks[s.started[i].1.leader], |c.ranks|))
    && (forall i, j | 0 <= i < j < |s.started| && s.started[i].0 == s.started[j].0 ::
        s.started[i].1.ts < s.started[j].1.ts)
  }

  /** What one step does to the stepping changer. */
  lemma LocalStep(c: Config, s: Sys, t: Step)
    requires Inv(c, s) && Enabled(c, s, t)
    ensures var a := s.changers[t.p]; var (a1, out, start) := Local(s, t);
            && InvChanger(c, t.p, a1) && a.ts <= a1.ts && a.lastTs <= a1.lastTs && |out| <= 1
            && (forall i | 0 <= i < |out| :: out[i].from == t.p
                  && (out[i].msg.NewEpochMsg? ==> out[i].msg.ts == a1.ts && a.ts < a1.ts))
            && (start.Some? ==>
                  (a.lastTs < start.value.ts == a1.lastTs && start.value.leader in c.ranks
                   && Congruent(start.value.ts, c.ranks[start.value.leader], |c.ranks|)))
  {
    var a := s.changers[t.p];
    var rank := c.ranks[t.p];
    assert InvChanger(c, t.p, a);
    CongruentStep(a.ts, rank, |c.ranks|, 1);
    assert a.ts + |c.ranks| * 1 == a.ts + a.n;
    if t.Deliver? {
      assert InvAnnounced(c, s, s.log[t.id]);
      if s.log[t.id].msg.SubscribeMsg? && a.ts <= s.log[t.id].msg.currentTs {
        var other := s.log[t.id].msg.currentTs;
        LeastAboveIsLeast(a.ts, a.n, other);
        CongruentStep(a.ts, rank, |c.ranks|, (other - a.ts) / a.n + 1);
      }
    }
    hide Congruent;
  }

  lemma StepInv(c: Config, s: Sys, t: Step)
    requires Inv(c, s) && Enabled(c, s, t)
    ensures Inv(c, Do(c, s, t))
  {
    var s' := Do(c, s, t);
    LocalStep(c, s, t);
    hide Local, Congruent;
    forall i | 0 <= i < |s'.log| ensures InvAnnounced(c, s', s'.log[i]) {
      if i < |s.log| { assert InvAnnounced(c, s, s.log[i]); }
    }
    assert InvChanger(c, t.p, s'.changers[t.p]);
    forall i, j | 0 <= i < j < |s'.log| && s'.log[i].msg.NewEpochMsg? && s'.log[j].msg.NewEpochMsg?
        && s'.log[i].from == s'.log[j].from
      ensures s'.log[i].msg.ts < s'.log[j].msg.ts
    {
      assert InvAnnounced(c, s, s.log[i]);
    }
  }

  lemma {:induction false} RunInv(c: Config, run: seq<Sys>, k: nat)
    requires ValidConfig(c) && IsRun(c, run) && k < |run|
    ensures Inv(c, run[k])
  {
    if k == 0 {
      forall p | p in c.ranks ensures Congruent(c.ranks[p], c.ranks[p], |c.ranks|) {
        assert c.ranks[p] == c.ranks[p] + |c.ranks| * 0;
      }
    } else {
      RunInv(c, run, k - 1);
      assert Next(c, run[k - 1], run[k - 1 + 1]);
      var t :| Enabled(c, run[k - 1], t) && run[k] == Do(c, run[k - 1], t);
      StepInv(c, run[k - 1], t);
    }
  }

  lemma SameClass(c: Config, ts: int, p: PID, q: PID)
    requires ValidConfig(c) && p in c.ranks && q in c.ranks
    requires Congruent(ts, c.ranks[p], |c.ranks|) && Congruent(ts, c.ranks[q], |c.ranks|)
    ensures p == q
  {
    CongruentSame(ts, c.ranks[p], |c.ranks|);
    CongruentSame(ts, c.ranks[q], |c.ranks|);
  }

  /** All timestamps ever announced in the system are distinct, whoever announces them. */
  lemma AnnouncementsDistinct(c: Config, run: seq<Sys>, k: nat, i: nat, j: nat)
    requires ValidConfig(c) && IsRun(c, run) && k < |run| && i < |run[k].log| && j < |run[k].log| && i != j
    requires run[k].log[i].msg.NewEpochMsg? && run[k].log[j].msg.NewEpochMsg?
    ensures run[k].log[i].msg.ts != run[k].log[j].msg.ts
  {
    var s := run[k];
    RunInv(c, run, k);
    assert InvAnnounced(c, s, s.log[i]) && InvAnnounced(c, s, s.log[j]);
    hide IsRun, Congruent;
    if s.log[i].msg.ts == s.log[j].msg.ts {
      SameClass(c, s.log[i].msg.ts, s.log[i].from, s.log[j].from);
    }
  }

  /** All processes that start an epoch agree on its leader, and no process starts an epoch twice or out of order. */
  lemma EpochHasOneLeader(c: Config, run: seq<Sys>, k: nat, i: nat, j: nat)
    requires ValidConfig(c) && IsRun(c, run) && k < |run| && i < j < |run[k].started|
    ensures run[k].started[i].1.ts == run[k].started[j].1.ts ==>
              run[k].started[i].1.leader == run[k].started[j].1.leader
    ensures run[k].started[i].0 == run[k].started[j].0 ==> run[k].started[i].1.ts < run[k].started[j].1.ts
  {
    var s := run[k];
    RunInv(c, run, k);
    if s.started[i].1.ts == s.started[j].1.ts {
      SameClass(c, s.started[i].1.ts, s.started[i].1.leader, s.started[j].1.leader);
    }
  }

  /** Counters and accepted timestamps never fall, and what is announced later lies above the earlier counter. */
  lemma {:induction false} CountersGrow(c: Config, run: seq<Sys>, i: nat, j: nat, p: PID)
    requires ValidConfig(c) && IsRun(c, run) && i <= j < |run| && p in c.ranks
    ensures p in run[i].changers && p in run[j].changers && |run[i].log| <= |run[j].log|
    ensures run[i].changers[p].ts <= run[j].changers[p].ts && run[i].changers[p].lastTs <= run[j].changers[p].lastTs
    ensures forall id | |run[i].log| <= id < |run[j].log| ::
              run[j].log[id].from == p && run[j].log[id].msg.NewEpochMsg? ==>
                  run[i].changers[p].ts < run[j].log[id].msg.ts
    decreases j - i
  {
    hide Inv, Local, Do, Enabled;
    RunInv(c, run, i);
    ProcessesStay(c, run[i], p);
    if i < j {
      CountersGrow(c, run, i, j - 1, p);
      RunInv(c, run, j - 1);
      assert Next(c, run[j - 1], run[j - 1 + 1]);
      var t :| Enabled(c, run[j - 1], t) && run[j] == Do(c, run[j - 1], t);
      GrowStep(c, run[j - 1], t, p);
    }
  }

  lemma ProcessesStay(c: Config, s: Sys, p: PID)
    requires Inv(c, s) && p in c.ranks
    ensures p in s.changers
  {
    hide Local;
  }

  lemma GrowStep(c: Config, s: Sys, t: Step, p: PID)
    requires Inv(c, s) && Enabled(c, s, t) && p in c.ranks
    ensures var s' := Do(c, s, t);
            && p in s.changers && p in s'.changers && s.log <= s'.log
            && s.changers[p].ts <= s'.changers[p].ts && s.changers[p].lastTs <= s'.changers[p].lastTs
            && forall id | |s.log| <= id < |s'.log| ::
                 s'.log[id].from == p && s'.log[id].msg.NewEpochMsg? ==>
                   s.changers[p].ts < s'.log[id].msg.ts == s'.changers[p].ts
  {
    LocalStep(c, s, t);
    hide Local, InvChanger, InvAnnounced;
  }

  /** After the leader has handled a follower's subscription, none of its later announcements is refused by that
      follower as long as the follower's accepted timestamp and trust are what they were. */
  lemma SubscriptionAvoidsNack(c: Config, run: seq<Sys>, i: nat, j: nat, t: Step, id: nat, follower: Changer)
    requires ValidConfig(c) && IsRun(c, run) && i + 1 <= j < |run|
    requires Enabled(c, run[i], t) && run[i + 1] == Do(c, run[i], t) && t.Deliver?
    requires run[i].log[t.id].msg == SubscribeMsg(follower.lastTs)
    requires run[i].changers[t.p].trusted == t.p && follower.trusted == t.p
    requires |run[i].log| <= id < |run[j].log| && run[j].log[id].from == t.p && run[j].log[id].msg.NewEpochMsg?
    ensures var ts := run[j].log[id].msg.ts;
            HandleNewEpoch(follower, t.p, ts) == (follower.(lastTs := ts), [], Some(Started(ts, t.p)))
  {
    var a := run[i].changers[t.p];
    RunInv(c, run, i);
    hide IsRun;
    SubscriptionCatchesUp(c, run[i], t, follower.lastTs);
    GrowStep(c, run[i], t, t.p);
    LogGrows(c, run, i + 1, j);
    CountersGrow(c, run, i + 1, j, t.p);
    hide Inv, Do, Enabled;
    assert follower.lastTs < run[j].log[id].msg.ts;
  }

  lemma SubscriptionCatchesUp(c: Config, s: Sys, t: Step, other: int)
    requires Inv(c, s) && Enabled(c, s, t) && t.Deliver? && s.log[t.id].msg == SubscribeMsg(other)
    requires s.changers[t.p].trusted == t.p
    ensures t.p in Do(c, s, t).changers && other < Do(c, s, t).changers[t.p].ts
  {
    var a := s.changers[t.p];
    assert InvChanger(c, t.p, a);
    if a.ts <= other { LeastAboveIsLeast(a.ts, a.n, other); }
  }

  lemma {:induction false} LogGrows(c: Config, run: seq<Sys>, i: nat, j: nat)
    requires ValidConfig(c) && IsRun(c, run) && i <= j < |run|
    ensures run[i].log <= run[j].log
    decreases j - i
  {
    if i < j {
      LogGrows(c, run, i, j - 1);
      assert Next(c, run[j - 1], run[j - 1 + 1]);
    }
  }
}

/** The rotating Byzantine leader detector: rotation, the complaint machine as a value and as an object, and accuracy
    of the group: nobody leaves a round in which no correct member complained of its own accord. */
module RotatingDetector {
  import opened Common
  import opened ModArith

  type Ranks = map<PID, int>

  // ---- Rotation ----

  function TargetRank(n: nat, ts: nat): int
    requires n > 0 && ts >= 1
  {
    (ts - 1) % n + 1
  }

  ghost predicate Held(ranks: Ranks, k: int) {
    exists p :: p in ranks && ranks[p] == k
  }

  /** The ranks are 1..n, each held by one process. */
  ghost predicate Bijective(ranks: Ranks) {
    && ranks != map[]
    && (forall p | p in ranks :: 1 <= ranks[p] <= |ranks|)
    && (forall p, q | p in ranks && q in ranks && ranks[p] == ranks[q] :: p == q)
    && forall k | 1 <= k <= |ranks| :: Held(ranks, k)
  }

  /** leader is a process of the rank that round ts asks for; 0 where there is none. */
  ghost predicate Leads(ranks: Ranks, ts: nat, leader: PID)
    requires ranks != map[] && ts >= 1
  {
    if Held(ranks, TargetRank(|ranks|, ts)) then leader in ranks && ranks[leader] == TargetRank(|ranks|, ts)
    else leader == 0
  }

  /** selectLeader's loop over the process map, in any order. */
  method SelectLeader(ranks: Ranks, ts: nat) returns (result: PID)
    requires ranks != map[] && ts >= 1
    ensures Leads(ranks, ts, result)
  {
    var targetRank := (ts - 1) % |ranks| + 1;
    result := 0;
    var left := ranks.Keys;
    while left != {}
      invariant left <= ranks.Keys
      invariant if exists p :: p in ranks.Keys - left && ranks[p] == targetRank
                then result in ranks && ranks[result] == targetRank else result == 0
      decreases |left|
    {
      var pid := PickAny(left);
      if ranks[pid] == targetRank { result := pid; }
      left := left - {pid};
      assert pid in ranks.Keys - left;
    }
  }

  /** With bijective ranks the leader of a round is determined. */
  lemma LeaderUnique(ranks: Ranks, ts: nat, a: PID, b: PID)
    requires Bijective(ranks) && ts >= 1 && Leads(ranks, ts, a) && Leads(ranks, ts, b)
    ensures a == b && a in ranks
  {
    TargetInRange(|ranks|, ts);
    assert Held(ranks, TargetRank(|ranks|, ts));
  }

  /** The leaders of the rounds 1, 2, ... in turn. */
  ghost predicate InTurn(ranks: Ranks, leaders: seq<PID>)
    requires ranks != map[]
  {
    forall i | 0 <= i < |leaders| :: Leads(ranks, i + 1, leaders[i])
  }

  /** Of what two detectors of one group have announced, one sequence is a prefix of the other: each round has one
      leader, and all hear of the rounds in the same order. */
  lemma OneSuccession(ranks: Ranks, a: seq<PID>, b: seq<PID>)
    requires Bijective(ranks) && InTurn(ranks, a) && InTurn(ranks, b) && |a| <= |b|
    ensures a <= b
    ensures forall i | 0 <= i < |a| :: a[i] in ranks
  {
    forall i | 0 <= i < |a| ensures a[i] == b[i] && a[i] in ranks {
      LeaderUnique(ranks, i + 1, a[i], b[i]);
    }
  }

  lemma TargetInRange(n: nat, ts: nat)
    requires n > 0 && ts >= 1
    ensures 1 <= TargetRank(n, ts) <= n
  {
  }

  /** Of n consecutive numbers from a on, one leaves remainder r. */
  lemma SomeResidue(a: nat, n: nat, r: nat) returns (x: nat)
    requires r < n
    ensures a <= x < a + n && x % n == r
  {
    var k := a / n;
    assert a == n * k + a % n;
    MulSplit(n, k, 1);
    if r >= a % n {
      x := n * k + r;
      ModUnique(x, k, r, n);
    } else {
      x := n * (k + 1) + r;
      ModUnique(x, k + 1, r, n);
    }
  }

  /** Two numbers less than n apart with the same remainder are equal. */
  lemma SameResidue(x: nat, y: nat, n: nat)
    requires n > 0 && x % n == y % n && -(n as int) < x - y < n
    ensures x == y
  {
    assert x == n * (x / n) + x % n && y == n * (y / n) + y % n;
    MulSplit(n, x / n, y / n);
    MulBound(n, x / n - y / n);
  }

  /** Any n consecutive rounds elect each process exactly once. */
  lemma EachLeadsOnce(ranks: Ranks, a: nat, p: PID) returns (ts: nat)
    requires Bijective(ranks) && a >= 1 && p in ranks
    ensures a <= ts < a + |ranks| && Leads(ranks, ts, p)
    ensures forall u: nat | a <= u < a + |ranks| && Leads(ranks, u, p) :: u == ts
  {
    var x := SomeResidue(a - 1, |ranks|, ranks[p] - 1);
    ts := x + 1;
    assert Held(ranks, TargetRank(|ranks|, ts));
    forall u: nat | a <= u < a + |ranks| && Leads(ranks, u, p) ensures u == ts {
      TargetInRange(|ranks|, u);
      assert Held(ranks, TargetRank(|ranks|, u));
      SameResidue(u - 1, x, |ranks|);
    }
  }

  // ---- The complaint machine ----

  datatype Detector = Detector(round: nat, complains: set<PID>, complained: bool, faults: nat)

  function NewDetector(faults: nat): Detector { Detector(1, {}, false, faults) }

  /** OnComplain about pid, where leader is the current leader; the result says whether a complaint is broadcast. */
  function OnComplain(d: Detector, pid: PID, leader: PID): (Detector, bool) {
    if pid != leader || d.complained then (d, false) else (d.(complained := true), true)
  }

  /** Joining returns at once: that complaint is not compared with 2f. */
  function OnComplaint(d: Detector, from: PID, round: nat): (Detector, bool) {
    if d.round != round || from in d.complains then (d, false)
    else
      var d1 := d.(complains := d.complains + {from});
      var count := |d1.complains|;
      if count > d.faults && !d.complained then (d1.(complained := true), true)
      else if count > 2 * d.faults then (d1.(round := d.round + 1, complains := {}, complained := false), false)
      else (d1, false)
  }

  class RotatingByzantineLeaderDetector {
    const ranks: Ranks
    const faults: nat
    var round: nat
    var complains: set<PID>
    var complained: bool
    /** The leaders announced to the receiver. */
    var announced: seq<PID>

    ghost function View(): Detector
      reads this
    {
      Detector(round, complains, complained, faults)
    }

    /** Every round up to the current one has been announced. */
    ghost predicate Announces()
      reads this
    {
      ranks != map[] && |announced| == round && InTurn(ranks, announced)
    }

    /** Init also announces the leader of round 1. */
    constructor (ranks: Ranks, faults: nat)
      requires ranks != map[]
      ensures this.ranks == ranks && View() == NewDetector(faults)
      ensures |announced| == 1 && Leads(ranks, 1, announced[0]) && Announces()
    {
      this.ranks, this.faults := ranks, faults;
      round, complains, complained, announced := 1, {}, false, [];
      new;
      var leader := SelectLeader(ranks, 1);
      announced := [leader];
    }

    /** The broadcast carries the current round. */
    method Complain(pid: PID) returns (out: Option<nat>, ghost leader: PID)
      requires ranks != map[] && round >= 1
      modifies this`complained
      ensures Leads(ranks, round, leader)
      ensures (View(), out.Some?) == OnComplain(old(View()), pid, leader) && (out.Some? ==> out.value == round)
    {
      var currentLeader := SelectLeader(ranks, round);
      leader := currentLeader;
      if pid != currentLeader { return None, leader; }
      if complained { return None, leader; }
      complained := true;
      out := Some(round);
    }

    method HandleComplaint(from: PID, r: nat) returns (out: Option<nat>)
      requires ranks != map[] && round >= 1
      modifies this
      ensures (View(), out.Some?) == OnComplaint(old(View()), from, r) && (out.Some? ==> out.value == old(round))
      ensures if round == old(round) then announced == old(announced)
              else |announced| == |old(announced)| + 1 && old(announced) <= announced
      ensures round != old(round) ==> announced != [] && Leads(ranks, round, announced[|announced| - 1])
      ensures old(Announces()) ==> Announces()
    {
      out := None;
      if round != r { return; }
      if from in complains { return; }
      complains := complains + {from};
      var complainCount := |complains|;
      if complainCount > faults && !complained {
        complained := true;
        return Some(round);
      }
      if complainCount > 2 * faults {
        round := round + 1;
        complains, complained := {}, false;
        var leader := SelectLeader(ranks, round);
        announced := announced + [leader];
      }
    }
  }

  // ---- The group ----

  datatype Config = Config(procs: set<PID>, byz: set<PID>, f: nat, ranks: Ranks)

  ghost predicate ValidConfig(c: Config) {
    c.byz <= c.procs && |c.byz| <= c.f && c.ranks != map[]
  }

  function Correct(c: Config): set<PID> { c.procs - c.byz }

  datatype Complaint = Complaint(from: PID, to: PID, round: nat)

  /** Histories: genuine, the correct members that were told to complain about their current leader, with the round they
      were in; heard, whose complaints about a round a member has received while it was in that round. */
  datatype Sys = Sys(nodes: map<PID, Detector>, sent: set<Complaint>, genuine: set<(PID, nat)>,
                     heard: map<(PID, nat), set<PID>>)

  function Heard(s: Sys, p: PID, r: nat): set<PID> {
    if (p, r) in s.heard then s.heard[(p, r)] else {}
  }

  datatype Step =
    | Complain(p: PID, pid: PID, leader: PID)
    | Forge(k: Complaint)
    | Receive(k: Complaint)

  ghost function Start(c: Config): Sys {
    Sys(map p | p in Correct(c) :: NewDetector(c.f), {}, {}, map[])
  }

  function ToAll(procs: set<PID>, from: PID, round: nat): set<Complaint> {
    set p | p in procs :: Complaint(from, p, round)
  }

  ghost predicate Enabled(c: Config, s: Sys, t: Step) {
    match t
    case Complain(p, _, leader) =>
      p in s.nodes && c.ranks != map[] && s.nodes[p].round >= 1 && Leads(c.ranks, s.nodes[p].round, leader)
    case Forge(k) => k.from in c.byz && k.to in c.procs
    case Receive(k) => k in s.sent && k.to in s.nodes
  }

  ghost function Do(c: Config, s: Sys, t: Step): Sys
    requires Enabled(c, s, t)
  {
    match t
    case Complain(p, pid, leader) =>
      var (d, out) := OnComplain(s.nodes[p], pid, leader);
      s.(nodes := s.nodes[p := d], sent := if out then s.sent + ToAll(c.procs, p, d.round) else s.sent,
         genuine := if pid == leader then s.genuine + {(p, s.nodes[p].round)} else s.genuine)
    case Forge(k) => s.(sent := s.sent + {k})
    case Receive(k) =>
      var d0 := s.nodes[k.to];
      var (d, out) := OnComplaint(d0, k.from, k.round);
      s.(nodes := s.nodes[k.to := d], sent := if out then s.sent + ToAll(c.procs, k.to, d0.round) else s.sent,
         heard := if k.round == d0.round then s.heard[(k.to, k.round) := Heard(s, k.to, k.round) + {k.from}]
                  else s.heard)
  }

  ghost predicate Next(c: Config, s: Sys, s': Sys) {
    exists t :: Enabled(c, s, t) && s' == Do(c, s, t)
  }

  ghost predicate IsRun(c: Config, run: seq<Sys>) {
    && run != [] && run[0] == Start(c)
    && forall i | 0 <= i < |run| - 1 :: Next(c, run[i], run[i + 1])
  }

  /** Some correct member was told to complain about its leader in round r. */
  ghost predicate Genuine(c: Config, s: Sys, r: nat) {
    exists g :: g in Correct(c) && (g, r) in s.genuine
  }

  ghost predicate NodeOk(c: Config, s: Sys, p: PID)
    requires p in s.nodes
  {
    var d := s.nodes[p];
    && d.faults == c.f && d.round >= 1
    && (forall q | q in d.complains :: Complaint(q, p, d.round) in s.sent)
    && forall r: nat | 1 <= r < d.round :: Genuine(c, s, r)
  }

  ghost predicate Inv(c: Config, s: Sys) {
    && s.nodes.Keys == Correct(c)
    && (forall k | k in s.sent && k.from in Correct(c) :: Genuine(c, s, k.round))
    && forall p | p in s.nodes :: NodeOk(c, s, p)
  }

  /** More than f complaints in a round: a correct member is among the senders, so there was a genuine one. */
  lemma ManyMeansGenuine(c: Config, s: Sys, p: PID, from: set<PID>, r: nat)
    requires ValidConfig(c) && Inv(c, s) && |from| > c.f && from <= c.procs
    requires forall q | q in from :: Complaint(q, p, r) in s.sent
    ensures Genuine(c, s, r)
  {
    var q := OneOutside(from, c.byz);
    assert Complaint(q, p, r) in s.sent;
  }

  ghost predicate Members(c: Config, s: Sys) {
    forall k | k in s.sent :: k.from in c.procs
  }

  lemma OldNode(c: Config, s: Sys, s': Sys, p: PID)
    requires p in s.nodes && p in s'.nodes && NodeOk(c, s, p)
    requires s'.nodes[p] == s.nodes[p].(complained := s'.nodes[p].complained)
    requires s.sent <= s'.sent && s.genuine <= s'.genuine
    ensures NodeOk(c, s', p)
  {
    forall r: nat | 1 <= r < s.nodes[p].round ensures Genuine(c, s', r) {
      GenuineStays(c, s, s', r);
    }
  }

  lemma GenuineStays(c: Config, s: Sys, s': Sys, r: nat)
    requires Genuine(c, s, r) && s.genuine <= s'.genuine
    ensures Genuine(c, s', r)
  {
    var g :| g in Correct(c) && (g, r) in s.genuine;
    assert (g, r) in s'.genuine;
  }

  lemma ComplainKeeps(c: Config, s: Sys, t: Step)
    requires ValidConfig(c) && Inv(c, s) && Members(c, s) && Enabled(c, s, t) && t.Complain?
    ensures Inv(c, Do(c, s, t)) && Members(c, Do(c, s, t))
  {
    hide NodeOk;
    var s' := Do(c, s, t);
    forall p | p in s'.nodes ensures NodeOk(c, s', p) { OldNode(c, s, s', p); }
    forall k | k in s'.sent && k.from in Correct(c) ensures Genuine(c, s', k.round) {
      if k in s.sent {
        GenuineStays(c, s, s', k.round);
      } else {
        assert (t.p, k.round) in s'.genuine;
      }
    }
  }

  /** Received complaints, the new one included, are complaints of this round. */
  lemma Collected(c: Config, s: Sys, k: Complaint)
    requires Inv(c, s) && Members(c, s) && k in s.sent && k.to in s.nodes && k.round == s.nodes[k.to].round
    ensures s.nodes[k.to].complains + {k.from} <= c.procs
    ensures forall q | q in s.nodes[k.to].complains + {k.from} :: Complaint(q, k.to, k.round) in s.sent
  {
    assert NodeOk(c, s, k.to);
    forall q | q in s.nodes[k.to].complains + {k.from} ensures q in c.procs {
      assert Complaint(q, k.to, k.round) in s.sent;
    }
  }

  lemma ReceiveKeeps(c: Config, s: Sys, t: Step)
    requires ValidConfig(c) && Inv(c, s) && Members(c, s) && Enabled(c, s, t) && t.Receive?
    ensures Inv(c, Do(c, s, t)) && Members(c, Do(c, s, t))
  {
    hide Genuine;
    var s', k, d := Do(c, s, t), t.k, s.nodes[t.k.to];
    assert NodeOk(c, s, k.to);
    if d.round == k.round && k.from !in d.complains {
      Collected(c, s, k);
      if |d.complains + {k.from}| > c.f { ManyMeansGenuine(c, s, k.to, d.complains + {k.from}, d.round); }
    }
    forall r ensures Genuine(c, s, r) ==> Genuine(c, s', r) {
      if Genuine(c, s, r) { GenuineStays(c, s, s', r); }
    }
    forall p | p in s'.nodes ensures NodeOk(c, s', p) {
      if p != k.to { OldNode(c, s, s', p); }
    }
  }

  lemma StepInv(c: Config, s: Sys, t: Step)
    requires ValidConfig(c) && Inv(c, s) && Members(c, s) && Enabled(c, s, t)
    ensures Inv(c, Do(c, s, t)) && Members(c, Do(c, s, t))
  {
    hide NodeOk;
    match t
    case Complain(_, _, _) => ComplainKeeps(c, s, t);
    case Receive(_) => ReceiveKeeps(c, s, t);
    case Forge(k) =>
      var s' := Do(c, s, t);
      forall p | p in s'.nodes ensures NodeOk(c, s', p) { OldNode(c, s, s', p); }
      forall x | x in s'.sent && x.from in Correct(c)
        ensures Genuine(c, s', x.round) { GenuineStays(c, s, s', x.round); }
  }

  lemma {:induction false} RunInv(c: Config, run: seq<Sys>, i: nat)
    requires ValidConfig(c) && IsRun(c, run) && i < |run|
    ensures Inv(c, run[i]) && Members(c, run[i])
  {
    hide Inv, Do, Enabled, Members;
    if i == 0 {
      StartInv(c);
    } else {
      RunInv(c, run, i - 1);
      assert Next(c, run[i - 1], run[i - 1 + 1]);
      var t :| Enabled(c, run[i - 1], t) && run[i] == Do(c, run[i - 1], t);
      StepInv(c, run[i - 1], t);
    }
  }

  lemma StartInv(c: Config)
    ensures Inv(c, Start(c)) && Members(c, Start(c))
  {
  }

  /** Accuracy: whatever the Byzantine members send, a correct member has left round r only if some correct member
      complained about the leader of r of its own accord. */
  lemma Accuracy(c: Config, run: seq<Sys>, i: nat, p: PID, r: nat)
    requires ValidConfig(c) && IsRun(c, run) && i < |run| && p in Correct(c) && p in run[i].nodes
    requires 1 <= r < run[i].nodes[p].round
    ensures exists g :: g in Correct(c) && (g, r) in run[i].genuine
  {
    hide IsRun;
    RunInv(c, run, i);
    assert NodeOk(c, run[i], p);
    assert Genuine(c, run[i], r);
  }

  /** Rounds advance one at a time. */
  lemma RoundsByOne(c: Config, run: seq<Sys>, i: nat, p: PID)
    requires ValidConfig(c) && IsRun(c, run) && i + 1 < |run| && p in Correct(c)
    ensures p in run[i].nodes && p in run[i + 1].nodes
    ensures run[i].nodes[p].round <= run[i + 1].nodes[p].round <= run[i].nodes[p].round + 1
  {
    RunInv(c, run, i);
    assert Next(c, run[i], run[i + 1]);
  }
}

/** Epoch changers and consensus nodes running together: the consensus part of every joint run is a run of the
    consensus system, so its assumption about epoch leaders is discharged by the changers. */
module UniformComposed {
  import opened Common
  import EC = EpochChange
  import I = EpochInstance
  import N = UniformNode
  import U = UniformSystem
  import A = UniformAgreement
  import Z = UniformEpochZero

  /** The leader epoch ts can have: by residue class, or the lowest-ranked process for epoch 0. */
  ghost function EpochLeader(ranks: map<PID, int>, ts: int): PID
    requires ranks != map[]
  {
    if 0 < ts && exists p :: p in ranks && EC.Congruent(ts, ranks[p], |ranks|) then
      var p :| p in ranks && EC.Congruent(ts, ranks[p], |ranks|); p
    else
      Lowest(ranks)
  }

  ghost function Lowest(ranks: map<PID, int>): (p: PID)
    requires ranks != map[]
    ensures p in ranks && forall q | q in ranks :: ranks[p] <= ranks[q]
  {
    LowestExists(ranks, ranks.Keys);
    var p :| p in ranks && forall q | q in ranks :: ranks[p] <= ranks[q];
    p
  }

  lemma LowestExists(ranks: map<PID, int>, s: set<PID>)
    requires s != {} && s <= ranks.Keys
    ensures exists p :: p in s && forall q | q in s :: ranks[p] <= ranks[q]
  {
    var x := OneOutside(s, {});
    if s == {x} {
      assert forall q | q in s :: ranks[x] <= ranks[q];
    } else {
      LowestExists(ranks, s - {x});
      var p :| p in s - {x} && forall q | q in s - {x} :: ranks[p] <= ranks[q];
      var m := if ranks[x] <= ranks[p] then x else p;
      assert m in s && forall q | q in s :: ranks[m] <= ranks[q];
    }
  }

  ghost function ConsensusConfig(c: EC.Config): U.Config
    requires c.ranks != map[]
  {
    U.Config(c.ranks.Keys, ts => EpochLeader(c.ranks, ts))
  }

  /** passed: which of the started epochs (positions in changers.started) have reached their node. */
  datatype Sys = Sys(changers: EC.Sys, passed: set<nat>, consensus: U.Sys)

  datatype Step = ChangerStep(change: EC.Step) | Pass(i: nat) | ConsensusStep(move: U.Step)

  ghost predicate Init(c: EC.Config, s: Sys)
    requires c.ranks != map[]
  {
    EC.Init(c, s.changers) && s.passed == {} && s.consensus == U.Init(ConsensusConfig(c))
  }

  /** The epoch comes to stand last on p's channel. */
  function Put(u: U.Sys, p: PID, epoch: N.Epoch): U.Sys
    requires p in u.chans
  {
    u.(chans := u.chans[p := u.chans[p].(epochs := u.chans[p].epochs + [epoch])])
  }

  /** A changer gives up its lock before it tells its node of an epoch that it starts: the epochs a changer has started
      reach the node later and in any order, each once. Epochs from elsewhere would have no origin. */
  ghost predicate Takes(c: EC.Config, s: Sys, t: Step, s': Sys)
    requires c.ranks != map[]
  {
    match t
    case ChangerStep(change) =>
      EC.Enabled(c, s.changers, change) && s' == s.(changers := EC.Do(c, s.changers, change))
    case Pass(i) =>
      && i < |s.changers.started| && i !in s.passed
      && var (p, start) := s.changers.started[i];
      && p in s.consensus.chans
      && s' == s.(passed := s.passed + {i}, consensus := Put(s.consensus, p, N.Epoch(start.ts, start.leader)))
    case ConsensusStep(move) =>
      && !move.EpochArrives? && U.Enabled(ConsensusConfig(c), s.consensus, move)
      && s' == s.(consensus := U.Do(ConsensusConfig(c), s.consensus, move))
  }

  ghost predicate Next(c: EC.Config, s: Sys, s': Sys)
    requires c.ranks != map[]
  {
    exists t :: Takes(c, s, t, s')
  }

  ghost predicate IsRun(c: EC.Config, run: seq<Sys>)
    requires c.ranks != map[]
  {
    && run != [] && Init(c, run[0])
    && forall k | 0 <= k < |run| - 1 :: Next(c, run[k], run[k + 1])
  }

  lemma LeaderIsAnnouncer(c: EC.Config, ts: int, leader: PID)
    requires EC.ValidConfig(c) && leader in c.ranks && 0 < ts && EC.Congruent(ts, c.ranks[leader], |c.ranks|)
    ensures ConsensusConfig(c).leaderOf(ts) == leader
  {
    var p := EpochLeader(c.ranks, ts);
    EC.SameClass(c, ts, p, leader);
  }

  lemma ConfigValid(c: EC.Config)
    requires EC.ValidConfig(c)
    ensures U.ValidConfig(ConsensusConfig(c))
  {
    var cc := ConsensusConfig(c);
    forall e ensures cc.leaderOf(e) in cc.procs {
      assert cc.leaderOf(e) == EpochLeader(c.ranks, e);
    }
  }

  /** The changers' invariant is what makes a passed epoch one that the nodes can expect. */
  lemma PassIsArrival(c: EC.Config, s: Sys, i: nat, s': Sys)
    requires EC.ValidConfig(c) && EC.Inv(c, s.changers) && Takes(c, s, Pass(i), s')
    requires s.consensus.nodes.Keys == c.ranks.Keys
    ensures U.Next(ConsensusConfig(c), s.consensus, s'.consensus) && s'.changers == s.changers
  {
    var (p, start) := s.changers.started[i];
    assert p in c.ranks && 0 < start.ts;
    LeaderIsAnnouncer(c, start.ts, start.leader);
    hide EC.Inv, EC.Congruent, EpochLeader;
    var move := U.EpochArrives(p, N.Epoch(start.ts, start.leader));
    assert U.Enabled(ConsensusConfig(c), s.consensus, move);
    assert s'.consensus == U.Do(ConsensusConfig(c), s.consensus, move);
  }

  lemma MoveIsNext(c: EC.Config, s: Sys, t: Step, s': Sys)
    requires c.ranks != map[] && t.ConsensusStep? && Takes(c, s, t, s')
    ensures U.Next(ConsensusConfig(c), s.consensus, s'.consensus) && s'.changers == s.changers
  {
    hide U.Do, U.Enabled, ConsensusConfig;
  }

  lemma JointStep(c: EC.Config, s: Sys, s': Sys)
    requires EC.ValidConfig(c) && EC.Inv(c, s.changers) && s.consensus.nodes.Keys == c.ranks.Keys && Next(c, s, s')
    ensures s'.consensus == s.consensus || U.Next(ConsensusConfig(c), s.consensus, s'.consensus)
    ensures EC.Inv(c, s'.changers)
  {
    hide EC.Inv, EC.Do, U.Do, U.Enabled, U.Next, EC.Enabled, EC.Local, ConsensusConfig;
    var t :| Takes(c, s, t, s');
    match t
    case ChangerStep(change) => EC.StepInv(c, s.changers, change);
    case Pass(i) =>
      hide Takes;
      PassIsArrival(c, s, i, s');
    case ConsensusStep(_) =>
      hide Takes;
      MoveIsNext(c, s, t, s');
  }

  /** Refinement: the consensus part of a joint run, without stuttering, is a run of the consensus system. */
  lemma {:induction false} ConsensusRun(c: EC.Config, run: seq<Sys>, k: nat) returns (ur: seq<U.Sys>)
    requires EC.ValidConfig(c) && IsRun(c, run) && k < |run|
    ensures U.IsRun(ConsensusConfig(c), ur) && ur[|ur| - 1] == run[k].consensus
    ensures EC.Inv(c, run[k].changers)
  {
    hide EC.Inv, EC.Init, U.Init, U.Next, ConsensusConfig;
    if k == 0 {
      ur := [run[0].consensus];
      InitChangers(c, run[0].changers);
    } else {
      var ur0 := ConsensusRun(c, run, k - 1);
      assert Next(c, run[k - 1], run[k - 1 + 1]);
      NodesOf(c, ur0);
      hide Next, U.IsRun;
      JointStep(c, run[k - 1], run[k]);
      if run[k].consensus == run[k - 1].consensus {
        ur := ur0;
      } else {
        Z.Extend(ConsensusConfig(c), ur0, run[k].consensus);
        ur := ur0 + [run[k].consensus];
      }
    }
  }

  lemma NodesOf(c: EC.Config, ur: seq<U.Sys>)
    requires EC.ValidConfig(c) && U.IsRun(ConsensusConfig(c), ur)
    ensures ur[|ur| - 1].nodes.Keys == c.ranks.Keys
  {
    hide U.Init, U.Next;
    ConfigValid(c);
    A.RunProcesses(ConsensusConfig(c), ur, |ur| - 1);
  }

  lemma InitChangers(c: EC.Config, s: EC.Sys)
    requires EC.ValidConfig(c) && EC.Init(c, s)
    ensures EC.Inv(c, s)
  {
    EC.RunInv(c, [s], 0);
  }

  /** A decision stays, whatever changers and nodes do afterwards. */
  lemma {:induction false} DecisionStays(c: EC.Config, run: seq<Sys>, i: nat, j: nat, p: PID)
    requires EC.ValidConfig(c) && IsRun(c, run) && i <= j < |run| && p in c.ranks
    requires p in run[i].consensus.nodes && run[i].consensus.nodes[p].decided.Some?
    ensures p in run[j].consensus.nodes && run[j].consensus.nodes[p].decided == run[i].consensus.nodes[p].decided
    decreases j - i
  {
    hide U.IsRun, U.Next, U.Init, EC.Inv, EC.Init, ConsensusConfig, EC.ValidConfig;
    if i < j {
      DecisionStays(c, run, i, j - 1, p);
      var ur := ConsensusRun(c, run, j - 1);
      assert Next(c, run[j - 1], run[j - 1 + 1]);
      hide IsRun, Next;
      NodesOf(c, ur);
      JointStep(c, run[j - 1], run[j]);
      ConfigValid(c);
      ProcsAre(c);
      if run[j].consensus != run[j - 1].consensus {
        NextKeeps(ConsensusConfig(c), ur, run[j].consensus, p);
      }
    }
  }

  lemma NextKeeps(cc: U.Config, ur: seq<U.Sys>, s: U.Sys, p: PID)
    requires U.ValidConfig(cc) && U.IsRun(cc, ur) && U.Next(cc, ur[|ur| - 1], s) && p in cc.procs
    requires p in ur[|ur| - 1].nodes && ur[|ur| - 1].nodes[p].decided.Some?
    ensures p in s.nodes && s.nodes[p].decided == ur[|ur| - 1].nodes[p].decided
  {
    hide U.Init, U.Next, U.ValidConfig;
    Z.Extend(cc, ur, s);
    A.Integrity(cc, ur + [s], |ur| - 1, |ur|, p);
  }

  /** Uniform agreement of the whole stack: whatever the changers announce and whoever they trust, no two decisions of a
      run differ, at whatever moments, unless a node decided in epoch 0 among three or more processes. */
  lemma StackAgreement(c: EC.Config, run: seq<Sys>, i: nat, j: nat, p: PID, q: PID)
    requires EC.ValidConfig(c) && IsRun(c, run) && i < |run| && j < |run| && p in c.ranks && q in c.ranks
    requires |c.ranks| <= 2 || 0 !in run[|run| - 1].consensus.taken
    requires p in run[i].consensus.nodes && run[i].consensus.nodes[p].decided.Some?
    requires q in run[j].consensus.nodes && run[j].consensus.nodes[q].decided.Some?
    ensures run[i].consensus.nodes[p].decided == run[j].consensus.nodes[q].decided
  {
    hide U.IsRun;
    var k := |run| - 1;
    DecisionStays(c, run, i, k, p);
    DecisionStays(c, run, j, k, q);
    var ur := ConsensusRun(c, run, k);
    ConfigValid(c);
    assert |c.ranks.Keys| == |c.ranks|;
    assert ur != [] by { RunNotEmpty(ConsensusConfig(c), ur); }
    hide IsRun;
    A.Agreement(ConsensusConfig(c), ur, |ur| - 1, |ur| - 1, p, q);
  }

  lemma RunNotEmpty(cc: U.Config, ur: seq<U.Sys>)
    requires U.IsRun(cc, ur)
    ensures ur != []
  {
  }

  // ---- A joint run that disagrees ----

  ghost predicate Reach(c: EC.Config, s: Sys)
    requires c.ranks != map[]
  {
    exists run :: IsRun(c, run) && run[|run| - 1] == s
  }

  lemma RunTo(c: EC.Config, s: Sys) returns (run: seq<Sys>)
    requires c.ranks != map[] && Reach(c, s)
    ensures IsRun(c, run) && run[|run| - 1] == s
  {
    run :| IsRun(c, run) && run[|run| - 1] == s;
  }

  lemma Go(c: EC.Config, s: Sys, t: Step, s': Sys)
    requires c.ranks != map[] && Reach(c, s) && Takes(c, s, t, s')
    ensures Reach(c, s')
  {
    hide Takes, Init, Reach;
    var run := RunTo(c, s);
    assert Next(c, s, s');
    hide Next;
    assert IsRun(c, run + [s']) && (run + [s'])[|run + [s']| - 1] == s';
    Reached(c, run + [s']);
  }

  lemma Reached(c: EC.Config, run: seq<Sys>)
    requires c.ranks != map[] && IsRun(c, run)
    ensures Reach(c, run[|run| - 1])
  {
    hide Init, Next;
  }

  ghost function Begin(c: EC.Config): Sys
    requires c.ranks != map[]
  {
    Sys(EC.Sys(map p | p in c.ranks :: EC.Changer(p, |c.ranks|, Lowest(c.ranks), 0, c.ranks[p]), [], []), {},
        U.Init(ConsensusConfig(c)))
  }

  /** m, which trusts itself, has announced epoch e as packet id; the members of todo have started no epoch yet. */
  predicate Announced(c: EC.Config, s: EC.Sys, m: PID, e: int, id: nat, todo: set<PID>) {
    && m in c.ranks && s.changers.Keys == c.ranks.Keys && |c.ranks| > 0
    && (forall p | p in c.ranks :: s.changers[p].self == p && s.changers[p].n == |c.ranks|)
    && s.changers[m].trusted == m
    && id < |s.log| && s.log[id] == EC.ChangePacket(m, None, EC.NewEpochMsg(e))
    && forall p | p in todo :: p in c.ranks && s.changers[p].lastTs == 0
  }

  lemma Changes(c: EC.Config, s: Sys, t: EC.Step) returns (s': Sys)
    requires c.ranks != map[] && Reach(c, s) && EC.Enabled(c, s.changers, t)
    ensures Reach(c, s') && s' == s.(changers := EC.Do(c, s.changers, t))
  {
    hide Reach;
    s' := s.(changers := EC.Do(c, s.changers, t));
    Go(c, s, ChangerStep(t), s');
  }

  /** m announces until its timestamp is positive; ranks may be negative. */
  lemma {:induction false} Raise(c: EC.Config, s: Sys, m: PID, e: int, id: nat, todo: set<PID>)
    returns (s': Sys, e': int, id': nat)
    requires c.ranks != map[] && Reach(c, s) && Announced(c, s.changers, m, e, id, todo)
    requires s.changers.changers[m].ts == e
    ensures Reach(c, s') && Announced(c, s'.changers, m, e', id', todo) && s'.consensus == s.consensus && 0 < e'
    decreases -e + 1
  {
    hide Reach;
    if 0 < e {
      s', e', id' := s, e, id;
    } else {
      var next := Changes(c, s, EC.Request(m));
      s', e', id' := Raise(c, next, m, e + |c.ranks|, |s.changers.log|, todo);
    }
  }

  lemma BeginReached(c: EC.Config)
    requires c.ranks != map[]
    ensures Reach(c, Begin(c))
  {
    hide U.Init;
    assert IsRun(c, [Begin(c)]);
  }

  lemma Announcing(c: EC.Config, m: PID) returns (s: Sys, e: int, id: nat)
    requires EC.ValidConfig(c) && m in c.ranks
    ensures Reach(c, s) && Announced(c, s.changers, m, e, id, c.ranks.Keys)
    ensures s.consensus == U.Init(ConsensusConfig(c)) && 0 < e
  {
    hide Reach;
    BeginReached(c);
    var s0 := Begin(c);
    var s1 := Changes(c, s0, EC.NewLeader(m, m));
    hide U.Init;
    s, e, id := Raise(c, s1, m, c.ranks[m] + |c.ranks|, 0, c.ranks.Keys);
  }

  /** p comes to trust m; m itself does already. */
  lemma Trusts(c: EC.Config, s: Sys, m: PID, e: int, id: nat, todo: set<PID>, p: PID) returns (s': Sys)
    requires c.ranks != map[] && Reach(c, s) && Announced(c, s.changers, m, e, id, todo) && p in todo
    ensures Reach(c, s') && Announced(c, s'.changers, m, e, id, todo) && s'.consensus == s.consensus
    ensures s'.changers.changers[p].trusted == m
  {
    hide Reach;
    if p == m {
      s' := s;
    } else {
      s' := Changes(c, s, EC.NewLeader(p, m));
    }
  }

  /** Only started epochs have been passed on. */
  lemma {:induction false} PassedStarted(c: EC.Config, run: seq<Sys>, k: nat)
    requires c.ranks != map[] && IsRun(c, run) && k < |run|
    ensures forall i | i in run[k].passed :: i < |run[k].changers.started|
  {
    hide U.Do, U.Enabled, EC.Local, EC.Enabled, ConsensusConfig, U.Init, EC.Init;
    if k > 0 {
      PassedStarted(c, run, k - 1);
      assert Next(c, run[k - 1], run[k - 1 + 1]);
    }
  }

  /** p trusts m, and takes m's announcement, which its node then gets. */
  lemma Follows(c: EC.Config, s: Sys, m: PID, e: int, id: nat, todo: set<PID>, p: PID) returns (s': Sys)
    requires c.ranks != map[] && Reach(c, s) && Announced(c, s.changers, m, e, id, todo) && 0 < e && p in todo
    requires p in s.consensus.chans
    ensures Reach(c, s') && Announced(c, s'.changers, m, e, id, todo - {p})
    ensures s'.consensus == Put(s.consensus, p, N.Epoch(e, m))
  {
    hide Reach;
    var s1 := Trusts(c, s, m, e, id, todo, p);
    var t := EC.Deliver(p, id);
    assert EC.Local(s1.changers, t).2 == Some(EC.Started(e, m));
    var s2 := Changes(c, s1, t);
    s' := PassLast(c, s1, s2, p, EC.Started(e, m));
  }

  /** What was started last has not been passed on before. */
  lemma PassLast(c: EC.Config, s1: Sys, s2: Sys, p: PID, start: EC.Started) returns (s': Sys)
    requires c.ranks != map[] && Reach(c, s1) && Reach(c, s2) && s2 == s1.(changers := s2.changers)
    requires s2.changers.started == s1.changers.started + [(p, start)] && p in s2.consensus.chans
    ensures Reach(c, s')
    ensures s'.changers == s2.changers && s'.consensus == Put(s2.consensus, p, N.Epoch(start.ts, start.leader))
  {
    hide Reach, IsRun;
    var i := |s1.changers.started|;
    var run := RunTo(c, s1);
    assert run != [] by { NotEmpty(c, run); }
    PassedStarted(c, run, |run| - 1);
    assert s2.changers.started[i] == (p, start);
    s' := s2.(passed := s2.passed + {i}, consensus := Put(s2.consensus, p, N.Epoch(start.ts, start.leader)));
    Go(c, s2, Pass(i), s');
  }

  /** All of ps get epoch e. */
  lemma {:induction false} AllFollow(c: EC.Config, s: Sys, m: PID, e: int, id: nat, ps: set<PID>) returns (s': Sys)
    requires EC.ValidConfig(c) && ps <= c.ranks.Keys && 0 < e && ConsensusConfig(c).leaderOf(e) == m
    requires Reach(c, s) && Announced(c, s.changers, m, e, id, c.ranks.Keys)
    requires s.consensus == U.Init(ConsensusConfig(c))
    ensures Reach(c, s') && Announced(c, s'.changers, m, e, id, c.ranks.Keys - ps)
    ensures s'.consensus == Z.Waiting(ConsensusConfig(c), ps, e)
    decreases |ps|
  {
    hide Reach, Announced, ConsensusConfig, EC.ValidConfig, U.Init, Z.Waiting;
    SomeRanks(c);
    var cc := ConsensusConfig(c);
    ConfigValid(c);
    if ps == {} {
      Z.WaitingNone(cc, e);
      assert c.ranks.Keys - ps == c.ranks.Keys;
      s' := s;
    } else {
      var p := OneOutside(ps, {});
      assert |ps - {p}| == |ps| - 1 && ps - {p} + {p} == ps;
      var s1 := AllFollow(c, s, m, e, id, ps - {p});
      assert cc.procs == c.ranks.Keys by { ProcsAre(c); }
      Z.WaitingNext(cc, ps - {p}, p, e);
      ArrivalPuts(c, s1, p, e);
      s' := Follows(c, s1, m, e, id, c.ranks.Keys - (ps - {p}), p);
      assert c.ranks.Keys - (ps - {p}) - {p} == c.ranks.Keys - ps;
    }
  }

  lemma SomeRanks(c: EC.Config)
    requires EC.ValidConfig(c)
    ensures c.ranks != map[]
  {
  }

  lemma ProcsAre(c: EC.Config)
    requires c.ranks != map[]
    ensures ConsensusConfig(c).procs == c.ranks.Keys
  {
  }

  /** What an arriving epoch does to the channels. */
  lemma ArrivalPuts(c: EC.Config, s: Sys, p: PID, e: int)
    requires c.ranks != map[]
    requires var t := U.EpochArrives(p, N.Epoch(e, ConsensusConfig(c).leaderOf(e)));
             U.Enabled(ConsensusConfig(c), s.consensus, t)
    ensures var t := U.EpochArrives(p, N.Epoch(e, ConsensusConfig(c).leaderOf(e)));
            p in s.consensus.chans && U.Do(ConsensusConfig(c), s.consensus, t) == Put(s.consensus, p, t.epoch)
  {
  }

  /** What the nodes do by themselves they can do beside the changers. */
  lemma {:induction false} Beside(c: EC.Config, s: Sys, moves: seq<U.Sys>, k: nat)
    requires c.ranks != map[] && Reach(c, s) && Z.IsMoves(ConsensusConfig(c), s.consensus, moves) && k < |moves|
    ensures Reach(c, s.(consensus := moves[k]))
  {
    hide Reach, U.Do, U.Enabled, ConsensusConfig;
    if k > 0 {
      Beside(c, s, moves, k - 1);
      assert Z.Move(ConsensusConfig(c), moves[k - 1], moves[k - 1 + 1]);
      OneBeside(c, s.(consensus := moves[k - 1]), moves[k]);
    } else {
      assert s.(consensus := moves[0]) == s;
    }
  }

  lemma OneBeside(c: EC.Config, s: Sys, u: U.Sys)
    requires c.ranks != map[] && Reach(c, s) && Z.Move(ConsensusConfig(c), s.consensus, u)
    ensures Reach(c, s.(consensus := u))
  {
    hide Reach, U.Do, U.Enabled, ConsensusConfig;
    var t: U.Step :| !t.EpochArrives? && U.Enabled(ConsensusConfig(c), s.consensus, t)
        && u == U.Do(ConsensusConfig(c), s.consensus, t);
    Go(c, s, ConsensusStep(t), s.(consensus := u));
  }

  lemma AnnouncerLeads(c: EC.Config, s: Sys, m: PID, e: int, id: nat, todo: set<PID>)
    requires EC.ValidConfig(c) && Reach(c, s) && Announced(c, s.changers, m, e, id, todo) && 0 < e
    ensures ConsensusConfig(c).leaderOf(e) == m
  {
    hide EC.Inv, Reach, IsRun, ConsensusConfig, EC.Congruent, U.IsRun;
    var run := RunTo(c, s);
    assert run != [] by { NotEmpty(c, run); }
    var ur := ConsensusRun(c, run, |run| - 1);
    assert EC.InvAnnounced(c, s.changers, s.changers.log[id]) by { LogAt(c, s.changers, id); }
    LeaderIsAnnouncer(c, e, m);
  }

  lemma NotEmpty(c: EC.Config, run: seq<Sys>)
    requires c.ranks != map[] && IsRun(c, run)
    ensures run != []
  {
  }

  lemma LogAt(c: EC.Config, s: EC.Sys, id: nat)
    requires EC.Inv(c, s) && id < |s.log|
    ensures EC.InvAnnounced(c, s, s.log[id])
  {
  }

  /** With three or more processes, whatever their ranks, the changers themselves can announce what it takes: m trusts
      itself, a majority comes to trust m, and two nodes decide differently. */
  lemma JointDisagreement(c: EC.Config, m: PID) returns (s: Sys, d: PID)
    requires EC.ValidConfig(c) && 3 <= |c.ranks| && m in c.ranks
    ensures Reach(c, s) && d in s.consensus.nodes && m in s.consensus.nodes
    ensures s.consensus.nodes[d].decided == Some(1) && s.consensus.nodes[m].decided == Some(2)
  {
    hide Reach, EC.ValidConfig, ConsensusConfig, Announced, U.Init, Z.Waiting, Z.Reach, U.IsRun, Z.IsMoves,
        U.ValidConfig;
    SomeRanks(c);
    var cc := ConsensusConfig(c);
    ConfigValid(c);
    ProcsAre(c);
    assert |c.ranks.Keys| == |c.ranks|;
    var s0, e, id := Announcing(c, m);
    AnnouncerLeads(c, s0, m, e, id, c.ranks.Keys);
    var first, second;
    d, first, second := Z.Majorities(cc, m);
    var s1 := AllFollow(c, s0, m, e, id, second);
    var u := Z.Disagreement(cc, e, d, m, first, second);
    var pre, moves := Z.RunTo(cc, s1.consensus, u);
    assert moves != [] by { MovesNotEmpty(cc, s1.consensus, moves); }
    Beside(c, s1, moves, |moves| - 1);
    s := s1.(consensus := u);
  }

  lemma MovesNotEmpty(cc: U.Config, b: U.Sys, moves: seq<U.Sys>)
    requires Z.IsMoves(cc, b, moves)
    ensures moves != []
  {
  }

  // ---- The exact condition ----

  ghost predicate DecidesAt(run: seq<Sys>, i: nat, p: PID, v: I.Value) {
    i < |run| && p in run[i].consensus.nodes && run[i].consensus.nodes[p].decided == Some(v)
  }

  /** No joint run ever shows two different decisions. */
  ghost predicate AlwaysAgrees(c: EC.Config)
    requires c.ranks != map[]
  {
    forall run: seq<Sys>, i, j, p, q, v, w ::
      (IsRun(c, run) && DecidesAt(run, i, p, v) && DecidesAt(run, j, q, w)) ==> v == w
  }

  /** The stack of changers and nodes agrees in all its runs if and only if there are at most two processes. */
  lemma StackAgreesExactly(c: EC.Config)
    requires EC.ValidConfig(c)
    ensures AlwaysAgrees(c) <==> |c.ranks| <= 2
  {
    hide IsRun, Reach;
    if |c.ranks| <= 2 {
      forall run: seq<Sys>, i, j, p, q, v, w | IsRun(c, run) && DecidesAt(run, i, p, v) && DecidesAt(run, j, q, w)
        ensures v == w
      {
        MemberAt(c, run, i, p);
        MemberAt(c, run, j, q);
        StackAgreement(c, run, i, j, p, q);
      }
    } else {
      var m := Lowest(c.ranks);
      var s, d := JointDisagreement(c, m);
      var run := RunTo(c, s);
      assert run != [] by { NotEmpty(c, run); }
      assert DecidesAt(run, |run| - 1, d, 1) && DecidesAt(run, |run| - 1, m, 2);
    }
  }

  lemma MemberAt(c: EC.Config, run: seq<Sys>, i: nat, p: PID)
    requires EC.ValidConfig(c) && IsRun(c, run) && i < |run| && p in run[i].consensus.nodes
    ensures p in c.ranks
  {
    hide IsRun, U.IsRun;
    var ur := ConsensusRun(c, run, i);
    NodesOf(c, ur);
  }
}

/** All nodes of uniform consensus, their instances and the network, as a transition system. */
module UniformSystem {
  import opened Common
  import opened EpochInstance
  import opened UniformNode

  /** leaderOf is the leader the epoch changers announce for an epoch; epoch 0 has the lowest-ranked process. */
  datatype Config = Config(procs: set<PID>, leaderOf: int -> PID)

  ghost predicate ValidConfig(c: Config) {
    && c.procs != {}
    && forall e :: c.leaderOf(e) in c.procs
  }

  /** What is on its way to a node's loop: epochs from its changer, aborted states and decisions of its instances. */
  datatype Chans = Chans(epochs: seq<Epoch>, aborts: multiset<AbortedState>, decisions: multiset<Decision>)

  /** A packet's identity is its position in the log of sent packets; links hand each packet to a process at most once.
      Histories: taken, the epochs in which a node took a decision; held, the packets that came to a node while it had
      no inner instance, as long as it has not cleared their epoch. */
  datatype Sys = Sys(
    nodes: map<PID, Node>, chans: map<PID, Chans>, insts: map<(PID, int), Inst>,
    sent: seq<Packet>, delivered: set<(PID, nat)>, proposed: set<Value>, taken: set<int>,
    held: set<(PID, nat)>)

  datatype Step =
    | ClientPropose(p: PID, v: Value)
    | ProposeTick(p: PID)
    | Receive(p: PID, id: nat)
    | ApplyEvent(p: PID, e: int, h: State)
    | TakeDecision(p: PID, d: Decision)
    | EpochArrives(p: PID, epoch: Epoch)
    | TakeEpoch(p: PID)
    | FinishAbort(p: PID)
    | TakeAborted(p: PID, a: AbortedState, order: seq<nat>)

  ghost function Init(c: Config): Sys {
    var n := |c.procs|;
    Sys(map p | p in c.procs :: NewNode(p, n, c.leaderOf(0)),
        map p | p in c.procs :: Chans([], multiset{}, multiset{}),
        map k: (PID, int) | k in (set p | p in c.procs :: (p, 0)) :: Start(k.0, n, c.leaderOf(0), 0, State(0, None)),
        [], {}, {}, {}, {})
  }

  /** The messages buffered for a new epoch reach its instance in any order; some may come before its init
      event is handled and are then lost. */
  predicate IsDelivery(buffered: map<nat, Packet>, order: seq<nat>) {
    && (forall k | 0 <= k < |order| :: order[k] in buffered)
    && (forall k, l | 0 <= k < l < |order| :: order[k] != order[l])
  }

  function DeliverAll(i: Inst, buffered: map<nat, Packet>, order: seq<nat>): Inst
    requires IsDelivery(buffered, order)
  {
    if order == [] then i
    else
      var last := |order| - 1;
      var p := buffered[order[last]];
      DeliverTo(DeliverAll(i, buffered, order[..last]), p.from, p.msg)
  }

  predicate Enabled(c: Config, s: Sys, t: Step) {
    && t.p in c.procs && t.p in s.nodes && t.p in s.chans
    && var n := s.nodes[t.p];
    match t
    case ClientPropose(_, _) => true
    case ProposeTick(p) => Live(n) && (n.inner ==> (p, n.ets) in s.insts)
    case Receive(p, id) =>
      && Live(n) && id < |s.sent| && (p, id) !in s.delivered
      && (s.sent[id].dest == All || s.sent[id].dest == To(p))
      && (n.inner ==> (p, n.ets) in s.insts)
    case ApplyEvent(p, e, h) =>
      && (p, e) in s.insts
      && var i := s.insts[(p, e)];
      && (i.run.Running? || i.run.Draining?) && i.queue != []
      && (i.phase.Writing? ==> i.tempValue.Some?)
      && Resolves(i, i.queue[0], h)
    case TakeDecision(p, d) => Live(n) && d in s.chans[p].decisions
    case EpochArrives(p, epoch) => 0 < epoch.ts && epoch.leader == c.leaderOf(epoch.ts)
    case TakeEpoch(p) => Live(n) && s.chans[p].epochs != [] && (n.inner ==> (p, n.ets) in s.insts)
    case FinishAbort(p) =>
      && n.aborting && (p, n.ets) in s.insts
      && s.insts[(p, n.ets)].run.Draining? && s.insts[(p, n.ets)].queue == []
    case TakeAborted(p, a, order) =>
      && Live(n) && a in s.chans[p].aborts
      && IsDelivery(Buffered(n.inbox, n.newTs), order)
  }

  /** The epoch whose decision the node takes, if it takes d. */
  function TakenBy(n: Node, d: Decision): set<int> {
    if d.ts == n.ets && n.decided.None? then {d.ts} else {}
  }

  function CancelInner(i: Inst): Inst {
    if i.run.Running? then i.(run := Draining) else i
  }

  function DoTick(s: Sys, p: PID): Sys
    requires p in s.nodes && (s.nodes[p].inner ==> (p, s.nodes[p].ets) in s.insts)
  {
    var n := s.nodes[p];
    var (n1, v) := OnProposeTick(n);
    var s1 := s.(nodes := s.nodes[p := n1]);
    if v.None? then s1
    else s1.(insts := s.insts[(p, n.ets) := Enqueue(s.insts[(p, n.ets)], Propose(v.value))])
  }

  function DoReceive(s: Sys, p: PID, id: nat): Sys
    requires p in s.nodes && id < |s.sent| && (s.nodes[p].inner ==> (p, s.nodes[p].ets) in s.insts)
  {
    var n := s.nodes[p];
    var k := s.sent[id];
    var s1 := s.(delivered := s.delivered + {(p, id)});
    if n.inner then s1.(insts := s.insts[(p, n.ets) := DeliverTo(s.insts[(p, n.ets)], k.from, k.msg)])
    else s1.(nodes := s.nodes[p := n.(inbox := Push(n.inbox, k.msg.epoch, id, k))], held := s.held + {(p, id)})
  }

  function DoApply(s: Sys, p: PID, e: int, h: State): Sys
    requires p in s.chans && (p, e) in s.insts && s.insts[(p, e)].queue != []
    requires s.insts[(p, e)].phase.Writing? ==> s.insts[(p, e)].tempValue.Some?
  {
    var ch := s.chans[p];
    var (i1, out) := Take(s.insts[(p, e)], h);
    s.(insts := s.insts[(p, e) := i1], sent := s.sent + out.packets,
       chans := if out.decided.None? then s.chans
                else s.chans[p := ch.(decisions := ch.decisions + multiset{Decision(e, out.decided.value)})])
  }

  function DoTakeEpoch(s: Sys, p: PID): Sys
    requires p in s.nodes && p in s.chans && s.chans[p].epochs != []
    requires s.nodes[p].inner ==> (p, s.nodes[p].ets) in s.insts
  {
    var n := s.nodes[p];
    var ch := s.chans[p];
    var (n1, action) := OnEpoch(n, ch.epochs[0]);
    var ch1 := ch.(epochs := ch.epochs[1..]);
    var s1 := s.(nodes := s.nodes[p := n1]);
    match action
    case Skip => s1.(chans := s.chans[p := ch1])
    case Force(a) => s1.(chans := s.chans[p := ch1.(aborts := ch.aborts + multiset{a})])
    case AbortInner => s1.(chans := s.chans[p := ch1],
                           insts := s.insts[(p, n.ets) := CancelInner(s.insts[(p, n.ets)])])
  }

  function DoFinish(s: Sys, p: PID): Sys
    requires p in s.nodes && p in s.chans && (p, s.nodes[p].ets) in s.insts
  {
    var n := s.nodes[p];
    var ch := s.chans[p];
    var i := s.insts[(p, n.ets)];
    s.(nodes := s.nodes[p := n.(aborting := false)],
       insts := s.insts[(p, n.ets) := i.(run := Stopped)],
       chans := s.chans[p := ch.(aborts := ch.aborts + multiset{AbortedState(n.ets, i.current)})])
  }

  /** What is still held when p clears epoch e. */
  function Uncleared(s: Sys, p: PID, e: int): set<(PID, nat)> {
    set x | x in s.held && !(x.0 == p && x.1 < |s.sent| && s.sent[x.1].msg.epoch == e)
  }

  function DoTakeAborted(s: Sys, p: PID, a: AbortedState, order: seq<nat>): Sys
    requires p in s.nodes && p in s.chans && IsDelivery(Buffered(s.nodes[p].inbox, s.nodes[p].newTs), order)
  {
    var n := s.nodes[p];
    var ch := s.chans[p];
    var n1 := OnAborted(n, a);
    var s1 := s.(nodes := s.nodes[p := n1], chans := s.chans[p := ch.(aborts := ch.aborts - multiset{a})],
                 held := Uncleared(s, p, a.ts));
    if a.ts != n.ets then s1
    else
      var i := Start(p, n.n, n1.leader, n1.ets, Carried(n1));
      s1.(insts := s.insts[(p, n1.ets) := DeliverAll(i, Buffered(n.inbox, n1.ets), order)])
  }

  function Do(c: Config, s: Sys, t: Step): Sys
    requires Enabled(c, s, t)
  {
    match t
    case ClientPropose(p, v) =>
      s.(nodes := s.nodes[p := s.nodes[p].(val := Some(v))], proposed := s.proposed + {v})
    case ProposeTick(p) => DoTick(s, p)
    case Receive(p, id) => DoReceive(s, p, id)
    case ApplyEvent(p, e, h) => DoApply(s, p, e, h)
    case TakeDecision(p, d) =>
      s.(nodes := s.nodes[p := OnDecision(s.nodes[p], d)],
         chans := s.chans[p := s.chans[p].(decisions := s.chans[p].decisions - multiset{d})],
         taken := s.taken + TakenBy(s.nodes[p], d))
    case EpochArrives(p, epoch) =>
      s.(chans := s.chans[p := s.chans[p].(epochs := s.chans[p].epochs + [epoch])])
    case TakeEpoch(p) => DoTakeEpoch(s, p)
    case FinishAbort(p) => DoFinish(s, p)
    case TakeAborted(p, a, order) => DoTakeAborted(s, p, a, order)
  }

  ghost predicate Next(c: Config, s: Sys, s': Sys) {
    exists t :: Enabled(c, s, t) && s' == Do(c, s, t)
  }

  ghost predicate IsRun(c: Config, run: seq<Sys>) {
    && run != []
    && run[0] == Init(c)
    && forall k | 0 <= k < |run| - 1 :: Next(c, run[k], run[k + 1])
  }
}

/** In runs of uniform consensus nothing that belongs to the current epoch is refused: the leader guard of each kind of
    message only ever meets messages that pass it. */
module UniformDelivery {
  import opened Common
  import opened EpochInstance
  import opened UniformNode
  import opened UniformSystem
  import opened UniformInvariant
  import opened UniformNodeSteps
  import opened UniformInbox

  /** What a message asks of the instance it is meant for. */
  function Asks(k: Packet): Event {
    match k.msg
    case ReadMsg(_) => HandleRead(k.from)
    case StateMsg(st, _) => ReceivedRead(k.from, st)
    case WriteMsg(v, _) => HandleWrite(k.from, v)
    case AcceptMsg(_) => ReceivedAccept(k.from)
    case DecidedMsg(v, _) => Decided(v)
  }

  function Requests(sent: seq<Packet>, order: seq<nat>): seq<Event>
    requires forall j | 0 <= j < |order| :: order[j] < |sent|
  {
    seq(|order|, j requires 0 <= j < |order| => Asks(sent[order[j]]))
  }

  predicate Addressed(p: PID, k: Packet) { k.dest == All || k.dest == To(p) }

  lemma Passes(c: Config, s: Sys, i: Inst, p: PID, e: int, id: nat)
    requires Inv(c, s) && id < |s.sent| && Addressed(p, s.sent[id]) && s.sent[id].msg.epoch == e
    requires i.self == p && i.epochTs == e && i.leader == c.leaderOf(e)
    ensures DeliverTo(i, s.sent[id].from, s.sent[id].msg)
            == if i.run.Running? then i.(queue := i.queue + [Asks(s.sent[id])]) else i
  {
    hide Inv, Report, Chosen, WriteSeen, Written;
    PacketAt(c, s, id);
  }

  /** A message of the epoch that the node's running instance is in joins its queue, whatever its kind; one of another
      epoch changes nothing but that it has been received. */
  lemma NothingRefused(c: Config, run: seq<Sys>, i: nat, p: PID, id: nat)
    requires ValidConfig(c) && IsRun(c, run) && i < |run| && Enabled(c, run[i], Receive(p, id))
    requires run[i].nodes[p].inner
    ensures var s, s', e := run[i], Do(c, run[i], Receive(p, id)), run[i].nodes[p].ets;
      && s' == s.(insts := s'.insts, delivered := s.delivered + {(p, id)})
      && if s.insts[(p, e)].run.Running? && s.sent[id].msg.epoch == e
         then s'.insts == s.insts[(p, e) := s.insts[(p, e)].(queue := s.insts[(p, e)].queue + [Asks(s.sent[id])])]
         else s'.insts == s.insts
  {
    hide IsRun, Inv;
    RunInv(c, run, i);
    var s, e := run[i], run[i].nodes[p].ets;
    UniformInvariant.At(c, s, (p, e));
    if s.sent[id].msg.epoch == e { Passes(c, s, s.insts[(p, e)], p, e, id); }
    assert s.insts[(p, e) := s.insts[(p, e)]] == s.insts;
  }

  lemma {:induction false} AllPass(c: Config, s: Sys, i: Inst, p: PID, b: map<nat, Packet>, order: seq<nat>)
    requires Inv(c, s) && IsDelivery(b, order) && i.run.Running? && i.queue == []
    requires i.self == p && i.leader == c.leaderOf(i.epochTs)
    requires forall id | id in b ::
        id < |s.sent| && b[id] == s.sent[id] && Addressed(p, b[id]) && b[id].msg.epoch == i.epochTs
    ensures DeliverAll(i, b, order)
            == i.(queue := seq(|order|, j requires 0 <= j < |order| && order[j] in b => Asks(b[order[j]])))
  {
    hide Inv;
    if order != [] {
      var last := |order| - 1;
      AllPass(c, s, i, p, b, order[..last]);
      Passes(c, s, DeliverAll(i, b, order[..last]), p, i.epochTs, order[last]);
    }
  }

  /** An abort of the node's epoch starts the announced one with the state handed out, and the new instance's queue is
      what its leader and followers have asked of it in the meantime, in the order it reaches the instance. */
  lemma RestartQueue(c: Config, run: seq<Sys>, i: nat, p: PID, a: AbortedState, order: seq<nat>)
    requires ValidConfig(c) && IsRun(c, run) && i < |run| && Enabled(c, run[i], TakeAborted(p, a, order))
    requires a.ts == run[i].nodes[p].ets
    ensures forall j | 0 <= j < |order| ::
              order[j] < |run[i].sent| && Waits(run[i], p, run[i].nodes[p].newTs, order[j])
    ensures var s, s', e := run[i], Do(c, run[i], TakeAborted(p, a, order)), run[i].nodes[p].newTs;
      && e > s.nodes[p].ets && s'.nodes[p].ets == e && s'.nodes[p].inner && s'.sent == s.sent
      && s'.insts == s.insts[(p, e) := Start(p, |c.procs|, c.leaderOf(e), e, a.state).(
           queue := Requests(s.sent, order))]
  {
    hide IsRun, Inv, Carriable;
    RunInv(c, run, i);
    var s, n := run[i], run[i].nodes[p];
    var b := Buffered(n.inbox, n.newTs);
    SentAt(c, s);
    RestartFacts(c, s, p, a);
    forall id | id in b
      ensures id < |s.sent| && b[id] == s.sent[id] && Addressed(p, b[id]) && b[id].msg.epoch == n.newTs
    {
    }
    forall j | 0 <= j < |order| ensures Waits(s, p, n.newTs, order[j]) {
      NextEpochOffered(c, run, i, p, order[j]);
    }
    AllPass(c, s, Start(p, |c.procs|, c.leaderOf(n.newTs), n.newTs, a.state), p, b, order);
    assert seq(|order|, j requires 0 <= j < |order| && order[j] in b => Asks(b[order[j]]))
        == Requests(s.sent, order);
  }

  lemma Listing(b: map<nat, Packet>) returns (order: seq<nat>)
    ensures IsDelivery(b, order) && forall id | id in b :: id in order
    decreases |b|
  {
    order := [];
    if b != map[] {
      var id :| id in b;
      var b' := b - {id};
      order := Listing(b');
      assert forall j | 0 <= j < |order| :: order[j] in b';
      order := order + [id];
    }
  }

  /** Nothing that waits need be missed: the restart can bring all of it into the new instance's queue. */
  lemma RestartCanTakeAll(c: Config, run: seq<Sys>, i: nat, p: PID, a: AbortedState) returns (order: seq<nat>)
    requires ValidConfig(c) && IsRun(c, run) && i < |run|
    requires p in c.procs && p in run[i].nodes && p in run[i].chans && Live(run[i].nodes[p])
    requires a in run[i].chans[p].aborts && a.ts == run[i].nodes[p].ets
    ensures Enabled(c, run[i], TakeAborted(p, a, order))
    ensures forall id: nat | Waits(run[i], p, run[i].nodes[p].newTs, id) ::
              Asks(run[i].sent[id]) in Do(c, run[i], TakeAborted(p, a, order)).insts[(p, run[i].nodes[p].newTs)].queue
  {
    var s, e := run[i], run[i].nodes[p].newTs;
    order := Listing(Buffered(s.nodes[p].inbox, e));
    hide IsRun;
    RestartQueue(c, run, i, p, a, order);
    var s' := Do(c, s, TakeAborted(p, a, order));
    forall id: nat | Waits(s, p, e, id) ensures Asks(s.sent[id]) in s'.insts[(p, e)].queue {
      NextEpochOffered(c, run, i, p, id);
      var j :| 0 <= j < |order| && order[j] == id;
      assert s'.insts[(p, e)].queue[j] == Asks(s.sent[id]);
    }
  }
}

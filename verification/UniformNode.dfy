/** The uniform consensus node as a value: what each case of its background loop does to its fields. */
module UniformNode {
  import opened Common
  import opened EpochInstance

  /** newEpochEnvelope and decideEnvelope. */
  datatype Epoch = Epoch(ts: int, leader: PID)
  datatype Decision = Decision(ts: int, val: Value)

  type Inbox = map<int, map<nat, Packet>>

  /** inner: n.inner is not nil, and then it is the instance of epoch ets.
      aborting: the loop is inside inner.Abort(). halted: a nil n.inner was asked to propose. */
  datatype Node = Node(
    self: PID, n: nat,
    ets: int, leader: PID, newTs: int, newLeader: PID,
    state: Option<State>, val: Option<Value>, proposed: bool, decided: Option<Value>,
    inner: bool, aborting: bool, halted: bool, inbox: Inbox)

  function NewNode(self: PID, n: nat, leader: PID): Node {
    Node(self, n, 0, leader, 0, 0, None, None, false, None, true, false, false, map[])
  }

  /** The loop can run its next case. */
  predicate Live(n: Node) { !n.aborting && !n.halted }

  function Carried(n: Node): State {
    if n.state.Some? then n.state.value else State(0, None)
  }

  function OnDecision(n: Node, d: Decision): Node {
    if d.ts != n.ets || n.decided.Some? then n else n.(decided := Some(d.val))
  }

  datatype EpochAction = Skip | Force(a: AbortedState) | AbortInner

  function OnEpoch(n: Node, e: Epoch): (Node, EpochAction) {
    if e.ts <= n.ets then (n, Skip)
    else
      var n1 := n.(newTs := e.ts, newLeader := e.leader);
      if n.decided.Some? then (n1, Force(AbortedState(n.ets, State(n.ets, n.decided))))
      else if n.inner then (n1.(inner := false, aborting := true), AbortInner)
      else (n1, Skip)
  }

  function Clear(b: Inbox, epoch: int): Inbox { b - {epoch} }

  function Buffered(b: Inbox, epoch: int): map<nat, Packet> {
    if epoch in b then b[epoch] else map[]
  }

  /** The node after an abort of its current epoch: it starts the announced epoch with the carried state. */
  function OnAborted(n: Node, a: AbortedState): Node {
    if a.ts != n.ets then n.(inbox := Clear(n.inbox, a.ts))
    else n.(state := Some(a.state), ets := n.newTs, leader := n.newLeader, proposed := false,
            inner := true, inbox := Clear(n.inbox, a.ts))
  }

  function Push(b: Inbox, epoch: int, id: nat, p: Packet): Inbox {
    if id in Buffered(b, epoch) then b else b[epoch := Buffered(b, epoch)[id := p]]
  }

  function OnProposeTick(n: Node): (Node, Option<Value>) {
    if n.leader == n.self && !n.proposed && n.val.Some? then
      (n.(proposed := true, halted := !n.inner), if n.inner then n.val else None)
    else (n, None)
  }
}

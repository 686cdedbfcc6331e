/** Authenticated echo broadcast: one instance on values, the instance as an object, and consistency of the group. */
module EchoBroadcast {
  import opened Common
  import opened Tally

  /** messages.RawMsg: encoded bytes with their type name; only equality matters. */
  type Payload = int

  datatype Msg = Init(m: Payload) | Echo(m: Payload)

  /** output lists what was handed to the layer above. */
  datatype Node = Node(
    self: PID, sender: PID, n: nat, faults: nat,
    sentEcho: bool, delivered: bool, echos: map<PID, Payload>, output: seq<Payload>)

  function NewNode(self: PID, sender: PID, n: nat, faults: nat): Node {
    Node(self, sender, n, faults, false, false, map[], [])
  }

  function Quorum(n: nat, faults: nat): nat { (n + faults) / 2 }

  function OnInit(nd: Node, from: PID, m: Payload): (Node, Option<Msg>) {
    if nd.sentEcho || from != nd.sender then (nd, None)
    else (nd.(sentEcho := true), Some(Echo(m)))
  }

  function Record(echos: map<PID, Payload>, from: PID, m: Payload): map<PID, Payload> {
    if from in echos then echos else echos[from := m]
  }

  /** The outcomes of maybeDeliverInner. */
  ghost predicate EchoPick(nd: Node, from: PID, m: Payload, pick: Option<Payload>) {
    !nd.delivered ==> Elects(Record(nd.echos, from, m), Quorum(nd.n, nd.faults), pick)
  }

  /** A payload that does not decode uses up the delivery. */
  function OnEcho(nd: Node, from: PID, m: Payload, pick: Option<Payload>, decodes: Payload -> bool): Node {
    var nd1 := nd.(echos := Record(nd.echos, from, m));
    if nd.delivered || pick.None? then nd1
    else nd1.(delivered := true, output := if decodes(pick.value) then nd.output + [pick.value] else nd.output)
  }

  class AuthenticatedEcho {
    const self: PID
    const sender: PID
    const n: nat
    const faults: nat
    const decodes: Payload -> bool
    var sentEcho: bool
    var delivered: bool
    var echos: map<PID, Payload>
    var output: seq<Payload>

    ghost function View(): Node
      reads this
    {
      Node(self, sender, n, faults, sentEcho, delivered, echos, output)
    }

    constructor (self: PID, sender: PID, n: nat, faults: nat, decodes: Payload -> bool)
      ensures View() == NewNode(self, sender, n, faults) && this.decodes == decodes
    {
      this.self, this.sender, this.n, this.faults, this.decodes := self, sender, n, faults, decodes;
      sentEcho, delivered, echos, output := false, false, map[], [];
    }

    method DeliverInit(from: PID, m: Payload) returns (out: Option<Msg>)
      modifies this
      ensures (View(), out) == OnInit(old(View()), from, m)
    {
      if sentEcho || from != sender { return None; }
      sentEcho := true;
      out := Some(Echo(m));
    }

    method DeliverEcho(from: PID, m: Payload) returns (ghost pick: Option<Payload>)
      modifies this
      ensures EchoPick(old(View()), from, m, pick) && View() == OnEcho(old(View()), from, m, pick, decodes)
    {
      pick := None;
      if from !in echos { echos := echos[from := m]; }
      if delivered { return; }
      var quorum, _ := Elect(echos, (n + faults) / 2);
      pick := quorum;
      if quorum.Some? {
        delivered := true;
        if decodes(quorum.value) { output := output + [quorum.value]; }
      }
    }
  }
}

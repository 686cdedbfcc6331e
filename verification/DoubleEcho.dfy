/** Authenticated double-echo broadcast: one instance on values, and the instance as an object. */
module DoubleEcho {
  import opened Common
  import opened Tally

  /** messages.RawMsg: encoded bytes with their type name; only equality matters. */
  type Payload = int

  datatype Msg = Send(m: Payload) | Echo(m: Payload) | Ready(m: Payload)

  /** output lists what was handed to the layer above. */
  datatype Node = Node(
    self: PID, sender: PID, n: nat, faults: nat,
    sentEcho: bool, sentReady: bool, delivered: bool,
    echos: map<PID, Payload>, readys: map<PID, Payload>, output: seq<Payload>)

  function NewNode(self: PID, sender: PID, n: nat, faults: nat): Node {
    Node(self, sender, n, faults, false, false, false, map[], map[], [])
  }

  /** byzantineQuorum */
  function Quorum(n: nat, faults: nat): nat { (n + faults) / 2 }

  function OnSend(nd: Node, from: PID, m: Payload): (Node, Option<Msg>) {
    if from != nd.sender || nd.sentEcho then (nd, None)
    else (nd.(sentEcho := true), Some(Echo(m)))
  }

  /** The outcomes of checkReadyStage on the entries after the new echo. */
  ghost predicate EchoPick(nd: Node, from: PID, m: Payload, pick: Option<Payload>) {
    from !in nd.echos && !nd.sentReady ==> Elects(nd.echos[from := m], Quorum(nd.n, nd.faults), pick)
  }

  function OnEcho(nd: Node, from: PID, m: Payload, pick: Option<Payload>): (Node, Option<Msg>) {
    if from in nd.echos then (nd, None)
    else
      var nd1 := nd.(echos := nd.echos[from := m]);
      if nd.sentReady || pick.None? then (nd1, None)
      else (nd1.(sentReady := true), Some(Ready(pick.value)))
  }

  /** The outcomes of checkEnhanceReady and of checkDeliver on the entries after the new ready. */
  ghost predicate ReadyPicks(nd: Node, from: PID, m: Payload, enhance: Option<Payload>, deliver: Option<Payload>) {
    from !in nd.readys ==>
      && (!nd.sentReady ==> Elects(nd.readys[from := m], nd.faults, enhance))
      && (!nd.delivered ==> Elects(nd.readys[from := m], 2 * nd.faults, deliver))
  }

  function OnReady(nd: Node, from: PID, m: Payload, enhance: Option<Payload>, deliver: Option<Payload>,
                   decodes: Payload -> bool): (Node, Option<Msg>) {
    if from in nd.readys then (nd, None)
    else
      var nd1 := nd.(readys := nd.readys[from := m]);
      var enhances := !nd.sentReady && enhance.Some?;
      var delivers := !nd.delivered && deliver.Some?;
      (nd1.(sentReady := nd.sentReady || enhances, delivered := nd.delivered || delivers,
            output := if delivers && decodes(deliver.value) then nd.output + [deliver.value] else nd.output),
       if enhances then Some(Ready(enhance.value)) else None)
  }

  class AuthenticatedDoubleEcho {
    const self: PID
    const sender: PID
    const n: nat
    const faults: nat
    const decodes: Payload -> bool
    var sentEcho: bool
    var sentReady: bool
    var delivered: bool
    var echos: map<PID, Payload>
    var readys: map<PID, Payload>
    var output: seq<Payload>

    ghost function View(): Node
      reads this
    {
      Node(self, sender, n, faults, sentEcho, sentReady, delivered, echos, readys, output)
    }

    constructor (self: PID, sender: PID, n: nat, faults: nat, decodes: Payload -> bool)
      ensures View() == NewNode(self, sender, n, faults) && this.decodes == decodes
    {
      this.self, this.sender, this.n, this.faults, this.decodes := self, sender, n, faults, decodes;
      sentEcho, sentReady, delivered, echos, readys, output := false, false, false, map[], map[], [];
    }

    method HandleSendMessage(from: PID, m: Payload) returns (out: Option<Msg>)
      modifies this
      ensures (View(), out) == OnSend(old(View()), from, m)
    {
      if from != sender || sentEcho { return None; }
      sentEcho := true;
      out := Some(Echo(m));
    }

    method HandleEchoMessage(from: PID, m: Payload) returns (out: Option<Msg>, ghost pick: Option<Payload>)
      modifies this
      ensures EchoPick(old(View()), from, m, pick) && (View(), out) == OnEcho(old(View()), from, m, pick)
    {
      if from in echos { return None, None; }
      echos := echos[from := m];
      if sentReady { return None, None; }
      var quorum, _ := Elect(echos, (n + faults) / 2);
      if quorum.None? { return None, None; }
      sentReady := true;
      return Some(Ready(quorum.value)), quorum;
    }

    /** The READY that is passed on is the stored message of author, sender id and all. */
    method HandleReadyMessage(from: PID, m: Payload)
      returns (out: Option<Msg>, author: PID, ghost enhance: Option<Payload>, ghost deliver: Option<Payload>)
      modifies this
      ensures ReadyPicks(old(View()), from, m, enhance, deliver)
      ensures out.Some? ==> author in Support(old(readys)[from := m], out.value.m)
      ensures (View(), out) == OnReady(old(View()), from, m, enhance, deliver, decodes)
    {
      out, author, enhance, deliver := None, 0, None, None;
      if from in readys { return; }
      readys := readys[from := m];
      if !sentReady {
        var e, who := Elect(readys, faults);
        enhance := e;
        if e.Some? {
          sentReady := true;
          out, author := Some(Ready(e.value)), who;
        }
      }
      if !delivered {
        var d, _ := Elect(readys, 2 * faults);
        deliver := d;
        if d.Some? {
          delivered := true;
          if decodes(d.value) { output := output + [d.value]; }
        }
      }
    }
  }
}

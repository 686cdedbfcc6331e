/** The Byzantine consistent channel of one process: numbered echo-broadcast instances, one per originator at a time,
    and a queue for its own messages. On values and as an object. */
module ByzantineChannel {
  import opened Common
  import opened Tally
  import opened EchoBroadcast

  /** ByzChannelDomainMessage: the number-th message of sender. */
  datatype Domain = Domain(sender: PID, m: Payload, number: nat)

  /** bcasters holds each originator's current instance, number n[q]; retired keeps the replaced ones as they were.
      upcalls: deliveries that instances have started in the background. handed records all messages given to the
      process's own instances. */
  datatype Chan = Chan(
    self: PID, size: nat, faults: nat,
    n: map<PID, nat>, bcasters: map<PID, Node>, retired: map<(PID, nat), Node>, queue: seq<Payload>, ready: bool,
    upcalls: set<Domain>, output: seq<Domain>, handed: seq<Payload>)

  function Zeros(procs: set<PID>): map<PID, nat> { map q | q in procs :: 0 }

  function FirstNodes(self: PID, procs: set<PID>, size: nat, faults: nat): map<PID, Node> {
    map q | q in procs :: NewNode(self, q, size, faults)
  }

  lemma FirstMore(self: PID, procs: set<PID>, q: PID, size: nat, faults: nat)
    requires q !in procs
    ensures q !in Zeros(procs) && Zeros(procs + {q}) == Zeros(procs)[q := 0]
    ensures FirstNodes(self, procs + {q}, size, faults)
            == FirstNodes(self, procs, size, faults)[q := NewNode(self, q, size, faults)]
  {
  }

  function NewChan(self: PID, procs: set<PID>, faults: nat): Chan {
    Chan(self, |procs|, faults, Zeros(procs), FirstNodes(self, procs, |procs|, faults), map[],
         [], true, {}, [], [])
  }

  /** dequeueLocked; the message goes to the current instance of the process itself. */
  function Dequeue(ch: Chan): (Chan, Option<Payload>) {
    if !ch.ready || ch.queue == [] then (ch, None)
    else (ch.(queue := ch.queue[1..], ready := false, handed := ch.handed + [ch.queue[0]]), Some(ch.queue[0]))
  }

  function OnBroadcast(ch: Chan, m: Payload): (Chan, Option<Payload>) {
    Dequeue(ch.(queue := ch.queue + [m]))
  }

  /** The (Sender, Number) filter of Deliver. */
  predicate Routes(ch: Chan, sender: PID, number: nat) {
    sender in ch.n && sender in ch.bcasters && ch.n[sender] == number
  }

  function OnMessage(ch: Chan, sender: PID, number: nat, from: PID, msg: Msg, pick: Option<Payload>,
                     decodes: Payload -> bool): (Chan, Option<Msg>) {
    if !Routes(ch, sender, number) then (ch, None)
    else
      var nd := ch.bcasters[sender];
      var (nd', out) := match msg
        case Init(m) => OnInit(nd, from, m)
        case Echo(m) => (OnEcho(nd, from, m, pick, decodes), None);
      (ch.(bcasters := ch.bcasters[sender := nd'],
           upcalls := if |nd'.output| > |nd.output|
               then ch.upcalls + {Domain(sender, nd'.output[|nd.output|], number)} else ch.upcalls),
       out)
  }

  /** installBCBLocked for the next number */
  function Install(ch: Chan, q: PID): Chan
    requires q in ch.n && q in ch.bcasters
  {
    ch.(n := ch.n[q := ch.n[q] + 1], retired := ch.retired[(q, ch.n[q]) := ch.bcasters[q]],
        bcasters := ch.bcasters[q := NewNode(ch.self, q, ch.size, ch.faults)])
  }

  /** onBCBDelivered */
  function OnDelivered(ch: Chan, u: Domain): (Chan, Option<Payload>) {
    var ch1 := ch.(upcalls := ch.upcalls - {u});
    if u.sender !in ch.n || u.sender !in ch.bcasters || ch.n[u.sender] != u.number then (ch1, None)
    else
      var ch2 := Install(ch1, u.sender).(output := ch.output + [u]);
      if u.sender == ch.self then Dequeue(ch2.(ready := true)) else (ch2, None)
  }

  /** What the layer above has received from q, in order. */
  function From(output: seq<Domain>, q: PID): seq<Domain> {
    if output == [] then []
    else
      var rest := From(output[..|output| - 1], q);
      if output[|output| - 1].sender == q then rest + [output[|output| - 1]] else rest
  }

  function Payloads(ds: seq<Domain>): seq<Payload> {
    seq(|ds|, i requires 0 <= i < |ds| => ds[i].m)
  }

  // ---- The object ----

  class Channel {
    const self: PID
    const size: nat
    const faults: nat
    const decodes: Payload -> bool
    var n: map<PID, nat>
    var bcasters: map<PID, AuthenticatedEcho>
    var queue: seq<Payload>
    var ready: bool
    var output: seq<Domain>
    /** Replaced instances as they were, running deliveries, and the histories. */
    ghost var retired: map<(PID, nat), Node>
    ghost var upcalls: set<Domain>
    ghost var handed: seq<Payload>

    ghost function Objs(): set<AuthenticatedEcho>
      reads this`bcasters
      ensures forall q | q in bcasters :: bcasters[q] in Objs()
    {
      set q | q in bcasters :: bcasters[q]
    }

    ghost predicate Valid()
      reads this`n, this`bcasters
    {
      && bcasters.Keys == n.Keys
      && (forall q, r | q in bcasters && r in bcasters && bcasters[q] == bcasters[r] :: q == r)
      && forall q | q in bcasters ::
           var bc := bcasters[q];
           bc.self == self && bc.sender == q && bc.n == size && bc.faults == faults && bc.decodes == decodes
    }

    ghost function Nodes(): map<PID, Node>
      reads this`bcasters, Objs()
    {
      map q | q in bcasters :: bcasters[q].View()
    }

    ghost function View(): Chan
      reads this, Objs()
    {
      Chan(self, size, faults, n, Nodes(), retired, queue, ready, upcalls, output, handed)
    }

    constructor (self: PID, procs: set<PID>, faults: nat, decodes: Payload -> bool)
      ensures Valid() && this.decodes == decodes
      ensures View() == NewChan(self, procs, faults)
    {
      this.self, this.size, this.faults, this.decodes := self, |procs|, faults, decodes;
      n, bcasters := map[], map[];
      queue, ready, output := [], true, [];
      retired, upcalls, handed := map[], {}, [];
      new;
      InstallAll(procs);
    }

    /** Init: every process has an instance with number 0. */
    method InstallAll(procs: set<PID>)
      requires n == map[] && bcasters == map[]
      modifies this`n, this`bcasters
      ensures Valid() && n == Zeros(procs) && Nodes() == FirstNodes(self, procs, size, faults)
    {
      assert Nodes() == map[];
      hide Channel.Valid, Channel.Nodes, NewNode;
      var left := procs;
      assert procs - left == {};
      while left != {}
        invariant left <= procs && n == Zeros(procs - left)
        invariant Valid()
        invariant Nodes() == FirstNodes(self, procs - left, size, faults)
        decreases |left|
      {
        var q := PickAny(left);
        assert procs - (left - {q}) == (procs - left) + {q};
        FirstMore(self, procs - left, q, size, faults);
        left := left - {q};
        hide Zeros, FirstNodes;
        InstallFirst(q);
      }
      assert procs - left == procs;
    }

    method InstallFirst(q: PID)
      requires Valid() && q !in n
      modifies this`n, this`bcasters
      ensures Valid() && n == old(n)[q := 0]
      ensures Nodes() == old(Nodes())[q := NewNode(self, q, size, faults)]
    {
      ghost var nodes := Nodes();
      var bc := new AuthenticatedEcho(self, q, size, faults, decodes);
      bcasters := bcasters[q := bc];
      n := n[q := 0];
      assert Nodes() == nodes[q := bc.View()];
    }

    /** dequeueLocked: the message is for bcasters[self], which broadcasts it. */
    method DequeueLocked() returns (msg: Option<Payload>)
      modifies this`queue, this`ready, this`handed
      ensures (View(), msg) == Dequeue(old(View()))
    {
      assert Nodes() == old(Nodes());
      if !ready || |queue| == 0 { return None; }
      msg := Some(queue[0]);
      handed := handed + [queue[0]];
      queue := queue[1..];
      ready := false;
      assert Nodes() == old(Nodes());
    }

    method Broadcast(m: Payload) returns (msg: Option<Payload>)
      modifies this`queue, this`ready, this`handed
      ensures (View(), msg) == OnBroadcast(old(View()), m)
      ensures handed + queue == old(handed + queue) + [m]
    {
      queue := queue + [m];
      assert Nodes() == old(Nodes());
      msg := DequeueLocked();
    }

    /** The current instance of sender takes the message. */
    method Route(sender: PID, from: PID, msg: Msg) returns (out: Option<Msg>, ghost pick: Option<Payload>)
      requires Valid() && sender in bcasters
      modifies bcasters[sender]
      ensures Valid() && Nodes() == old(Nodes())[sender := bcasters[sender].View()]
      ensures msg.Echo? ==> EchoPick(old(Nodes())[sender], from, msg.m, pick)
      ensures (bcasters[sender].View(), out) == if msg.Init? then OnInit(old(Nodes())[sender], from, msg.m)
                                                else (OnEcho(old(Nodes())[sender], from, msg.m, pick, decodes), None)
    {
      hide EchoPick, OnEcho, OnInit;
      var bc := bcasters[sender];
      out, pick := None, None;
      if msg.Init? {
        out := bc.DeliverInit(from, msg.m);
      } else {
        pick := bc.DeliverEcho(from, msg.m);
      }
      forall q | q in bcasters && q != sender ensures bcasters[q].View() == old(bcasters[q].View()) {
        assert bcasters[q] != bc;
      }
    }

    /** Deliver: messages for an instance that is not current are dropped. */
    method Deliver(sender: PID, number: nat, from: PID, msg: Msg)
      returns (out: Option<Msg>, ghost pick: Option<Payload>)
      requires Valid()
      modifies this`upcalls, Objs()
      ensures Valid()
      ensures Routes(old(View()), sender, number) && msg.Echo? ==>
                EchoPick(old(View()).bcasters[sender], from, msg.m, pick)
      ensures (View(), out) == OnMessage(old(View()), sender, number, from, msg, pick, decodes)
    {
      hide EchoPick, OnEcho, OnInit;
      out, pick := None, None;
      if sender !in n || sender !in bcasters || number != n[sender] { return; }
      var bc := bcasters[sender];
      ghost var before := bc.output;
      out, pick := Route(sender, from, msg);
      ghost var nodes := Nodes();
      if |bc.output| > |before| {
        upcalls := upcalls + {Domain(sender, bc.output[|before|], number)};
      }
      assert Nodes() == nodes;
    }

    method InstallBCBLocked(sender: PID)
      requires Valid() && sender in n
      modifies this`bcasters, this`n, this`retired
      ensures Valid()
      ensures n == old(n)[sender := old(n)[sender] + 1]
      ensures retired == old(retired)[(sender, old(n)[sender]) := old(Nodes())[sender]]
      ensures Nodes() == old(Nodes())[sender := NewNode(self, sender, size, faults)]
    {
      ghost var nodes := Nodes();
      var bc := new AuthenticatedEcho(self, sender, size, faults, decodes);
      retired := retired[(sender, n[sender]) := nodes[sender]];
      bcasters := bcasters[sender := bc];
      n := n[sender := n[sender] + 1];
      assert Nodes() == nodes[sender := bc.View()];
    }

    /** The state half of onBCBDelivered. */
    method Advance(u: Domain)
      requires Valid() && u.sender in n
      modifies this`bcasters, this`n, this`retired, this`output
      ensures Valid()
      ensures View() == Install(old(View()), u.sender).(output := old(output) + [u])
    {
      hide Channel.Valid;
      InstallBCBLocked(u.sender);
      ghost var nodes := Nodes();
      output := output + [u];
      assert Nodes() == nodes;
    }

    method OnBCBDelivered(u: Domain) returns (msg: Option<Payload>)
      requires Valid()
      modifies this
      ensures Valid()
      ensures (View(), msg) == OnDelivered(old(View()), u)
    {
      msg := None;
      upcalls := upcalls - {u};
      assert Nodes() == old(Nodes());
      if u.sender !in n || n[u.sender] != u.number { return; }
      Advance(u);
      if u.sender == self {
        ghost var ch := View();
        ready := true;
        assert Nodes() == ch.bcasters;
        msg := DequeueLocked();
      }
    }
  }
}

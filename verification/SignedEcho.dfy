/** Signed echo broadcast: one instance on values, its loops, and the instance as an object. */
module SignedEcho {
  import opened Common
  import opened Tally

  type Payload = int
  type Signature = int

  /** verify(p, m, x): x is p's signature under an ECHO of m. */
  type Verifier = (PID, Payload, Signature) -> bool

  datatype Sign = Sign(pid: PID, sig: Signature)

  datatype Msg = Init(m: Payload) | SignedEcho(m: Payload, sig: Signature) | Final(m: Payload, signs: seq<Sign>)

  datatype Echo = Echo(m: Payload, sig: Signature)

  datatype Node = Node(
    self: PID, sender: PID, n: nat, faults: nat,
    sentEcho: bool, sentFinal: bool, delivered: bool, echos: map<PID, Echo>, output: seq<Payload>)

  function NewNode(self: PID, sender: PID, n: nat, faults: nat): Node {
    Node(self, sender, n, faults, false, false, false, map[], [])
  }

  function Quorum(n: nat, faults: nat): nat { (n + faults) / 2 }

  /** handleBroadcastedMsg; sig is None when signing failed. */
  function OnInit(nd: Node, from: PID, m: Payload, sig: Option<Signature>): (Node, Option<Msg>) {
    if nd.sentEcho || from != nd.sender || sig.None? then (nd, None)
    else (nd.(sentEcho := true), Some(SignedEcho(m, sig.value)))
  }

  function Inners(echos: map<PID, Echo>): map<PID, Payload> {
    map p | p in echos :: echos[p].m
  }

  predicate Counts(nd: Node, from: PID, m: Payload, sig: Signature, verify: Verifier) {
    nd.self == nd.sender && from !in nd.echos && verify(from, m, sig)
  }

  /** signs lists the signatures of all echoes of m, in some order. */
  ghost predicate Lists(echos: map<PID, Echo>, m: Payload, signs: seq<Sign>) {
    forall p :: (p in echos && echos[p].m == m) <==> p in echos && Sign(p, echos[p].sig) in signs
  }

  /** What maybeBroadcastFinal may choose. */
  ghost predicate FinalPick(nd: Node, from: PID, m: Payload, sig: Signature, verify: Verifier, pick: Option<Payload>,
                            signs: seq<Sign>) {
    Counts(nd, from, m, sig, verify) && !nd.sentFinal ==>
      var echos := nd.echos[from := Echo(m, sig)];
      && Elects(Inners(echos), Quorum(nd.n, nd.faults), pick)
      && (pick.Some? ==> Lists(echos, pick.value, signs)
                         && forall x | x in signs :: x.pid in echos && x == Sign(x.pid, echos[x.pid].sig))
  }

  /** handleEchoMsg */
  function OnEcho(nd: Node, from: PID, m: Payload, sig: Signature, verify: Verifier, pick: Option<Payload>,
                  signs: seq<Sign>): (Node, Option<Msg>) {
    if !Counts(nd, from, m, sig, verify) then (nd, None)
    else
      var nd1 := nd.(echos := nd.echos[from := Echo(m, sig)]);
      if nd.sentFinal || pick.None? then (nd1, None)
      else (nd1.(sentFinal := true), Some(Final(pick.value, signs)))
  }

  /** The distinct processes with a valid signature for m in the list. */
  function ValidSigners(verify: Verifier, m: Payload, signs: seq<Sign>): set<PID> {
    set x | x in signs && verify(x.pid, m, x.sig) :: x.pid
  }

  /** handleFinal */
  function OnFinal(nd: Node, m: Payload, signs: seq<Sign>, verify: Verifier, decodes: Payload -> bool): Node {
    if nd.delivered || |ValidSigners(verify, m, signs)| <= Quorum(nd.n, nd.faults) || !decodes(m) then nd
    else nd.(delivered := true, output := nd.output + [m])
  }

  /** Every FINAL that maybeBroadcastFinal builds is accepted by every handleFinal that has not delivered yet. */
  lemma FinalAccepted(nd: Node, from: PID, m: Payload, sig: Signature, verify: Verifier, pick: Option<Payload>,
                      signs: seq<Sign>,
                      other: Node, decodes: Payload -> bool)
    requires FinalPick(nd, from, m, sig, verify, pick, signs) && OnEcho(nd, from, m, sig, verify, pick, signs).1.Some?
    requires forall p | p in nd.echos :: verify(p, nd.echos[p].m, nd.echos[p].sig)
    requires other.n == nd.n && other.faults == nd.faults && !other.delivered
    ensures pick.Some? && OnEcho(nd, from, m, sig, verify, pick, signs).1 == Some(Final(pick.value, signs))
    ensures OnFinal(other, pick.value, signs, verify, decodes) ==
            if decodes(pick.value) then other.(delivered := true, output := other.output + [pick.value]) else other
  {
    var echos := nd.echos[from := Echo(m, sig)];
    var v := pick.value;
    forall p | p in Support(Inners(echos), v) ensures p in ValidSigners(verify, v, signs) {
      assert Sign(p, echos[p].sig) in signs;
    }
    SubsetCard(Support(Inners(echos), v), ValidSigners(verify, v, signs));
  }

  // ---- The loops ----

  /** The loop of handleFinal: an entry counts once its process has not been seen with a valid signature before. */
  method CountValid(verify: Verifier, m: Payload, signs: seq<Sign>) returns (validCount: nat)
    ensures validCount == |ValidSigners(verify, m, signs)|
  {
    var seen := {};
    validCount := 0;
    for i := 0 to |signs|
      invariant seen == ValidSigners(verify, m, signs[..i]) && validCount == |seen|
    {
      var s := signs[i];
      assert signs[..i + 1] == signs[..i] + [s];
      if s.pid in seen { continue; }
      if !verify(s.pid, m, s.sig) { continue; }
      seen := seen + {s.pid};
      validCount := validCount + 1;
    }
    assert signs[..|signs|] == signs;
  }

  /** The loop of maybeBroadcastFinal that collects the signatures. */
  method CollectSigns(echos: map<PID, Echo>, m: Payload) returns (signs: seq<Sign>)
    ensures Lists(echos, m, signs)
    ensures forall x | x in signs :: x.pid in echos && x == Sign(x.pid, echos[x.pid].sig) && echos[x.pid].m == m
    ensures |signs| == |Support(Inners(echos), m)|
  {
    signs := [];
    var left := echos.Keys;
    ghost var all := Support(Inners(echos), m);
    assert forall p :: p in all <==> p in echos && echos[p].m == m;
    hide Support, Inners;
    ghost var listed := {};
    while left != {}
      invariant left <= echos.Keys && forall p :: p in listed <==> p in all && p !in left
      invariant forall p | p in listed :: Sign(p, echos[p].sig) in signs
      invariant forall x | x in signs :: x.pid in listed && x == Sign(x.pid, echos[x.pid].sig)
      invariant |signs| == |listed|
      decreases |left|
    {
      var pid := PickAny(left);
      left := left - {pid};
      if echos[pid].m == m {
        listed := listed + {pid};
        signs := signs + [Sign(pid, echos[pid].sig)];
      }
    }
    forall p ensures p in listed <==> p in all {
      assert p in all ==> p in echos.Keys;
    }
    assert listed == all;
  }

  class SignedEchoBroadcast {
    const self: PID
    const sender: PID
    const n: nat
    const faults: nat
    const verify: Verifier
    const decodes: Payload -> bool
    var sentEcho: bool
    var sentFinal: bool
    var delivered: bool
    var echos: map<PID, Echo>
    var output: seq<Payload>

    ghost function View(): Node
      reads this
    {
      Node(self, sender, n, faults, sentEcho, sentFinal, delivered, echos, output)
    }

    constructor (self: PID, sender: PID, n: nat, faults: nat, verify: Verifier, decodes: Payload -> bool)
      ensures View() == NewNode(self, sender, n, faults) && this.verify == verify && this.decodes == decodes
    {
      this.self, this.sender, this.n, this.faults := self, sender, n, faults;
      this.verify, this.decodes := verify, decodes;
      sentEcho, sentFinal, delivered, echos, output := false, false, false, map[], [];
    }

    method HandleBroadcastedMsg(from: PID, m: Payload, sig: Option<Signature>) returns (out: Option<Msg>)
      modifies this
      ensures (View(), out) == OnInit(old(View()), from, m, sig)
    {
      if sentEcho { return None; }
      if from != sender { return None; }
      if sig.None? { return None; }
      sentEcho := true;
      out := Some(SignedEcho(m, sig.value));
    }

    method HandleEchoMsg(from: PID, m: Payload, sig: Signature)
      returns (out: Option<Msg>, ghost pick: Option<Payload>, ghost signs: seq<Sign>)
      modifies this
      ensures FinalPick(old(View()), from, m, sig, verify, pick, signs)
      ensures (View(), out) == OnEcho(old(View()), from, m, sig, verify, pick, signs)
    {
      out, pick, signs := None, None, [];
      if self != sender || from in echos || !verify(from, m, sig) { return; }
      echos := echos[from := Echo(m, sig)];
      if sentFinal { return; }
      var quorum, _ := Elect(Inners(echos), (n + faults) / 2);
      pick := quorum;
      if quorum.None? { return; }
      sentFinal := true;
      var collected := CollectSigns(echos, quorum.value);
      signs := collected;
      out := Some(Final(quorum.value, collected));
    }

    method HandleFinal(m: Payload, signs: seq<Sign>)
      modifies this
      ensures View() == OnFinal(old(View()), m, signs, verify, decodes)
    {
      if delivered { return; }
      var validCount := CountValid(verify, m, signs);
      if validCount <= (n + faults) / 2 { return; }
      if !decodes(m) { return; }
      delivered := true;
      output := output + [m];
    }
  }
}

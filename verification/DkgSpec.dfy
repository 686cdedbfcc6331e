/** The distributed key generation of one process as a value: what each event does and what it sends. */
module DkgSpec {
  import opened Common
  import opened Zp
  import opened Polynomials
  import opened Commitments

  type Id = nat

  datatype Event =
    | ReceivedCommitments(from: Id, comms: seq<Element>)
    | ReceivedShare(from: Id, share: Share)
    | Complaint1(from: Id, dealer: Id)
    | RevealShare(from: Id, target: Id, share: Share)

  datatype Message =
    | CommitmentsMsg(comms: seq<Element>)
    | ShareMsg(to: Id, share: Share)
    | Complaint1Msg(dealer: Id)
    | RevealShareMsg(target: Id, share: Share)
    | PubCommitmentsMsg(comms: seq<Element>)
    | Complaint2Msg(dealer: Id, initShare: Share, invalidShare: Element)

  datatype Dkg = Dkg(
    self: Id, processes: seq<Id>, t: nat, params: Params, f: Polynomial, fMask: Polynomial,
    polyCommitments: map<Id, seq<Element>>, shares: map<Id, Share>, pendingShares: map<Id, Share>,
    complaints1: map<Id, set<Id>>, revealed: map<Id, set<Id>>, noqual: set<Id>,
    qual: seq<Id>, inQual: set<Id>, pkShare: Option<Share>,
    pubCommitments: map<Id, seq<Element>>, noqual2: set<Id>, pubKey: Option<Element>)

  function NewDkg(self: Id, processes: seq<Id>, t: nat, params: Params, f: Polynomial, fMask: Polynomial): Dkg {
    Dkg(self, processes, t, params, f, fMask, map[], map[], map[], map[], map[], {}, [], {}, None, map[], {}, None)
  }

  /** The group parameters are usable, the own polynomials have degree t, stored commitments have t + 1 entries. */
  predicate Usable(d: Dkg) {
    && d.params.p > 0 && d.params.q > 0
    && Valid(d.f) && Valid(d.fMask) && |d.f.coefficients| == |d.fMask.coefficients| == d.t + 1
    && forall k | k in d.polyCommitments :: |d.polyCommitments[k]| == d.t + 1
  }

  function Lookup(m: map<Id, set<Id>>, k: Id): set<Id> {
    if k in m then m[k] else {}
  }

  /** processShare: accept, or complain in public. */
  function ProcessShare(d: Dkg, from: Id, s: Share): (Dkg, Option<Message>)
    requires Usable(d) && from in d.polyCommitments
  {
    if ShareFits(d.params, d.polyCommitments[from], d.self, s) then (d.(shares := d.shares[from := s]), None)
    else (d, Some(Complaint1Msg(from)))
  }

  function OnCommitments(d: Dkg, from: Id, comms: seq<Element>): (Dkg, Option<Message>)
    requires Usable(d)
  {
    if from in d.polyCommitments || |comms| != d.t + 1 then (d, None)
    else
      var d1 := d.(polyCommitments := d.polyCommitments[from := comms]);
      if from in d.pendingShares then
        ProcessShare(d1.(pendingShares := d.pendingShares - {from}), from, d.pendingShares[from])
      else (d1, None)
  }

  function OnShare(d: Dkg, from: Id, s: Share): (Dkg, Option<Message>)
    requires Usable(d)
  {
    if from in d.shares then (d, None)
    else if from !in d.polyCommitments then (d.(pendingShares := d.pendingShares[from := s]), None)
    else ProcessShare(d, from, s)
  }

  function OnComplaint1(d: Dkg, from: Id, dealer: Id): (Dkg, Option<Message>)
    requires Usable(d)
  {
    var before := Lookup(d.complaints1, dealer);
    if from in before then (d, None)
    else
      var d1 := d.(complaints1 := d.complaints1[dealer := before + {from}]);
      if |before| + 1 > d.t then (d1.(noqual := d.noqual + {dealer}), None)
      else if dealer != d.self then (d1, None)
      else (d1, Some(RevealShareMsg(from, Share(At(d.f, from), At(d.fMask, from)))))
  }

  function OnReveal(d: Dkg, from: Id, target: Id, s: Share): Dkg
    requires Usable(d)
  {
    if target !in Lookup(d.complaints1, from) then d
    else if from !in d.polyCommitments || !ShareFits(d.params, d.polyCommitments[from], target, s) then
      d.(noqual := d.noqual + {from})
    else
      d.(revealed := d.revealed[from := Lookup(d.revealed, from) + {target}],
         shares := if target == d.self then d.shares[from := s] else d.shares)
  }

  function Apply(d: Dkg, e: Event): (r: (Dkg, Option<Message>))
    requires Usable(d)
    ensures Usable(r.0)
  {
    match e
    case ReceivedCommitments(from, comms) => OnCommitments(d, from, comms)
    case ReceivedShare(from, s) => OnShare(d, from, s)
    case Complaint1(from, dealer) => OnComplaint1(d, from, dealer)
    case RevealShare(from, target, s) => (OnReveal(d, from, target, s), None)
  }

  // ---- The end of phase 1 ----

  /** Dealers with an unanswered complaint. */
  function Unanswered(d: Dkg): set<Id> {
    set k | k in d.complaints1 && k !in d.noqual && !(d.complaints1[k] <= Lookup(d.revealed, k))
  }

  /** Processes without commitments. */
  function Missing(d: Dkg): set<Id> {
    set k | k in d.processes && k !in d.polyCommitments
  }

  /** buildQUAL keeps the order of the process list. */
  function Kept(ps: seq<Id>, noqual: set<Id>): seq<Id> {
    if ps == [] then []
    else
      var last := ps[|ps| - 1];
      Kept(ps[..|ps| - 1], noqual) + if last in noqual then [] else [last]
  }

  /** The shares that buildPKShare adds up: those there are from members of QUAL. */
  function Collected(qual: seq<Id>, shares: map<Id, Share>): seq<Share> {
    if qual == [] then []
    else
      var last := qual[|qual| - 1];
      Collected(qual[..|qual| - 1], shares) + if last in shares then [shares[last]] else []
  }

  function Parts(ss: seq<Share>): (seq<Element>, seq<Element>) {
    (seq(|ss|, i requires 0 <= i < |ss| => ss[i].s), seq(|ss|, i requires 0 <= i < |ss| => ss[i].sMasked))
  }

  function OnGeneratingPub(d: Dkg): (Dkg, Message)
    requires Usable(d)
  {
    var noqual := d.noqual + Unanswered(d) + Missing(d);
    var qual := Kept(d.processes, noqual);
    var parts := Parts(Collected(qual, d.shares));
    var comms := Feldman(d.params, Values(d.f.coefficients));
    (d.(noqual := noqual, qual := qual, inQual := d.inQual + (set k | k in qual),
        pkShare := Some(Share(Total(d.params.q, parts.0), Total(d.params.q, parts.1))),
        pubCommitments := d.pubCommitments[d.self := comms]),
     PubCommitmentsMsg(comms))
  }

  // ---- Phase 4 ----

  function OnPubCommitments(d: Dkg, from: Id, comms: seq<Element>): (Dkg, Option<Message>)
    requires Usable(d)
  {
    if from !in d.inQual || from in d.pubCommitments || |comms| != d.t + 1 then (d, None)
    else
      var d1 := d.(pubCommitments := d.pubCommitments[from := comms]);
      if from == d.self || from !in d.shares || PubShareFits(d.params, comms, d.self, d.shares[from].s) then (d1, None)
      else (d1, Some(Complaint2Msg(from, d.shares[from], Exp(G(d.params), d.shares[from].s.value))))
  }

  function OnComplaint2(d: Dkg, from: Id, dealer: Id, s: Share): Dkg
    requires Usable(d)
  {
    if dealer !in d.inQual || dealer !in d.pubCommitments || dealer !in d.polyCommitments then d
    else if !ShareFits(d.params, d.polyCommitments[dealer], from, s) then d
    else if |d.pubCommitments[dealer]| == d.t + 1 && PubShareFits(d.params, d.pubCommitments[dealer], from, s.s) then d
    else d.(noqual2 := d.noqual2 + {dealer})
  }

  /** y is the product of the free-term commitments, if all are there. */
  function FreeTerms(qual: seq<Id>, pub: map<Id, seq<Element>>): Option<seq<Element>> {
    if qual == [] then Some([])
    else
      var last := qual[|qual| - 1];
      var rest := FreeTerms(qual[..|qual| - 1], pub);
      if rest.None? || last !in pub || pub[last] == [] then None else Some(rest.value + [pub[last][0]])
  }

  function Product(es: seq<Element>): Element
    requires es != []
  {
    if |es| == 1 then es[0] else Mul(Product(es[..|es| - 1]), es[|es| - 1])
  }

  function OnBuildPubKey(d: Dkg): (Dkg, bool) {
    var ys := FreeTerms(d.qual, d.pubCommitments);
    if d.noqual2 != {} || ys.None? || ys.value == [] then (d, false)
    else (d.(pubKey := Some(Product(ys.value))), true)
  }
}

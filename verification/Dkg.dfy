/** The key generation of one process as an object. */
module Dkg {
  import opened Common
  import opened ModArith
  import opened Zp
  import opened Polynomials
  import opened Commitments
  import opened DkgSpec

  class DKG {
    const self: Id
    const processes: seq<Id>
    const t: nat
    const params: Params
    const f: Polynomial
    const fMask: Polynomial
    var polyCommitments: map<Id, seq<Element>>
    var shares: map<Id, Share>
    var pendingShares: map<Id, Share>
    var complaints1: map<Id, set<Id>>
    var revealed: map<Id, set<Id>>
    var noqual: set<Id>
    var qual: seq<Id>
    var inQual: set<Id>
    var pkShare: Option<Share>
    var pubCommitments: map<Id, seq<Element>>
    var noqual2: set<Id>
    var pubKey: Option<Element>

    ghost function View(): DkgSpec.Dkg
      reads this
    {
      DkgSpec.Dkg(self, processes, t, params, f, fMask, polyCommitments, shares, pendingShares, complaints1, revealed,
                  noqual, qual, inQual, pkShare, pubCommitments, noqual2, pubKey)
    }

    /** The polynomials are those generatePolynomials has drawn. */
    constructor (self: Id, processes: seq<Id>, t: nat, params: Params, f: Polynomial, fMask: Polynomial)
      ensures View() == NewDkg(self, processes, t, params, f, fMask)
    {
      this.self, this.processes, this.t, this.params, this.f, this.fMask := self, processes, t, params, f, fMask;
      polyCommitments, shares, pendingShares, complaints1, revealed := map[], map[], map[], map[], map[];
      noqual, qual, inQual, pkShare, pubCommitments, noqual2, pubKey := {}, [], {}, None, map[], {}, None;
    }

    /** handleStart: a pair of shares for every process, and the commitments. */
    method HandleStart() returns (out: seq<Message>)
      requires Usable(View())
      ensures |out| == |processes| + 1
      ensures forall i | 0 <= i < |processes| ::
                out[i] == ShareMsg(processes[i], Share(At(f, processes[i]), At(fMask, processes[i])))
      ensures out[|processes|] == CommitmentsMsg(Pedersen(params, Values(f.coefficients), Values(fMask.coefficients)))
    {
      var comms := GenerateCommitments(params, f, fMask, t);
      out := [];
      for i := 0 to |processes|
        invariant |out| == i
        invariant forall j | 0 <= j < i ::
                    out[j] == ShareMsg(processes[j], Share(At(f, processes[j]), At(fMask, processes[j])))
      {
        var s := Evaluate(f, processes[i]);
        var sMask := Evaluate(fMask, processes[i]);
        out := out + [ShareMsg(processes[i], Share(s, sMask))];
      }
      out := out + [CommitmentsMsg(comms)];
    }

    /** checkShare; the error case is that the dealer's commitments are not there. */
    method CheckShare(dealer: Id, target: Id, s: Share) returns (r: Option<bool>)
      requires Usable(View())
      ensures r == if dealer !in polyCommitments then None
                   else Some(ShareFits(params, polyCommitments[dealer], target, s))
    {
      if dealer !in polyCommitments { return None; }
      var comms := polyCommitments[dealer];
      if |comms| != t + 1 { return None; }
      var right := EvalCommitmentLine(comms, target, t);
      var left := Mul(Exp(New(params.g, params.p), s.s.value), Exp(New(params.h, params.p), s.sMasked.value));
      r := Some(left == right);
    }

    method ProcessShare(from: Id, s: Share) returns (out: Option<Message>)
      requires Usable(View()) && from in polyCommitments
      modifies this`shares
      ensures (View(), out) == DkgSpec.ProcessShare(old(View()), from, s)
    {
      var valid := CheckShare(from, self, s);
      if valid == Some(true) {
        shares := shares[from := s];
        return None;
      }
      out := Some(Complaint1Msg(from));
    }

    method HandleReceivedCommitments(from: Id, comms: seq<Element>) returns (out: Option<Message>)
      requires Usable(View())
      modifies this`polyCommitments, this`pendingShares, this`shares
      ensures (View(), out) == OnCommitments(old(View()), from, comms) && Usable(View())
    {
      out := None;
      if from in polyCommitments || |comms| != t + 1 { return; }
      polyCommitments := polyCommitments[from := comms];
      if from in pendingShares {
        var s := pendingShares[from];
        pendingShares := pendingShares - {from};
        out := ProcessShare(from, s);
      }
    }

    method HandleShare(from: Id, s: Share) returns (out: Option<Message>)
      requires Usable(View())
      modifies this`pendingShares, this`shares
      ensures (View(), out) == OnShare(old(View()), from, s)
    {
      out := None;
      if from in shares { return; }
      if from !in polyCommitments {
        pendingShares := pendingShares[from := s];
        return;
      }
      out := ProcessShare(from, s);
    }

    method HandleComplaint1(from: Id, dealer: Id) returns (out: Option<Message>)
      requires Usable(View())
      modifies this`complaints1, this`noqual
      ensures (View(), out) == OnComplaint1(old(View()), from, dealer)
    {
      out := None;
      var before := if dealer in complaints1 then complaints1[dealer] else {};
      if from in before {
        return;
      }
      complaints1 := complaints1[dealer := before + {from}];
      assert |before + {from}| == |before| + 1;
      if |complaints1[dealer]| > t {
        noqual := noqual + {dealer};
        return;
      }
      if dealer != self { return; }
      var s := Evaluate(f, from);
      var sMask := Evaluate(fMask, from);
      out := Some(RevealShareMsg(from, Share(s, sMask)));
    }

    method HandleRevealShare(from: Id, target: Id, s: Share)
      requires Usable(View())
      modifies this`noqual, this`revealed, this`shares
      ensures View() == OnReveal(old(View()), from, target, s)
    {
      if from !in complaints1 || target !in complaints1[from] { return; }
      var valid := CheckShare(from, target, s);
      if valid != Some(true) {
        noqual := noqual + {from};
        return;
      }
      revealed := revealed[from := (if from in revealed then revealed[from] else {}) + {target}];
      if target == self { shares := shares[from := s]; }
    }

    /** The loop over complaints: dealers with an unanswered one are marked. */
    method MarkUnanswered()
      modifies this`noqual
      ensures noqual == old(noqual) + Unanswered(old(View()))
    {
      hide Unanswered;
      ghost var d := View();
      ghost var all := Unanswered(d);
      var left := complaints1.Keys;
      ghost var marked := {};
      while left != {}
        invariant left <= complaints1.Keys && forall k :: k in marked ==> k in all && k !in left
        invariant noqual == old(noqual) + marked && forall k :: k in all && k in d.complaints1 && k !in left ==>
                    k in marked
        decreases |left|
      {
        var dealer := PickAny(left);
        var answered := if dealer in revealed then revealed[dealer] else {};
        UnansweredMeans(d, dealer);
        left := left - {dealer};
        if dealer !in noqual && !(complaints1[dealer] <= answered) {
          marked := marked + {dealer};
          noqual := noqual + {dealer};
        }
      }
      assert marked == all by {
        forall k ensures k in all ==> k in d.complaints1 { UnansweredMeans(d, k); }
      }
    }

    method MarkMissing()
      modifies this`noqual
      ensures noqual == old(noqual) + Missing(old(View()))
    {
      for i := 0 to |processes|
        invariant noqual == old(noqual) + (set k | k in processes[..i] && k !in polyCommitments)
      {
        assert processes[..i + 1] == processes[..i] + [processes[i]];
        if processes[i] !in polyCommitments {
          noqual := noqual + {processes[i]};
        }
      }
      assert processes[..|processes|] == processes;
    }

    method BuildQUAL()
      modifies this`qual, this`inQual
      ensures qual == Kept(processes, noqual) && inQual == old(inQual) + (set k | k in qual)
    {
      var kept := [];
      for i := 0 to |processes|
        invariant kept == Kept(processes[..i], noqual)
        invariant inQual == old(inQual) + (set k | k in kept)
      {
        assert processes[..i + 1][..i] == processes[..i];
        if processes[i] !in noqual {
          kept := kept + [processes[i]];
          inQual := inQual + {processes[i]};
        }
      }
      assert processes[..|processes|] == processes;
      qual := kept;
    }

    method BuildPKShare()
      requires params.q > 0
      modifies this`pkShare
      ensures var parts := Parts(Collected(qual, shares));
              pkShare == Some(Share(Total(params.q, parts.0), Total(params.q, parts.1)))
    {
      var sumS, sumMasked := Zp(0, params.q), Zp(0, params.q);
      ghost var used := [];
      assert Parts(used).0 == [] && Parts(used).1 == [];
      for i := 0 to |qual|
        invariant used == Collected(qual[..i], shares)
        invariant sumS == Total(params.q, Parts(used).0) && sumMasked == Total(params.q, Parts(used).1)
      {
        assert qual[..i + 1][..i] == qual[..i];
        if qual[i] !in shares { continue; }
        var s := shares[qual[i]];
        sumS := Add(sumS, s.s);
        sumMasked := Add(sumMasked, s.sMasked);
        PartsAppend(used, s);
        used := used + [s];
      }
      assert qual[..|qual|] == qual;
      pkShare := Some(Share(sumS, sumMasked));
    }

    method HandleGeneratingPub() returns (out: Message)
      requires Usable(View())
      modifies this`noqual, this`qual, this`inQual, this`pkShare, this`pubCommitments
      ensures (View(), out) == OnGeneratingPub(old(View()))
    {
      hide Unanswered, Kept, Collected, Feldman, Parts, Total, Lookup;
      MarkUnanswered();
      MarkMissing();
      BuildQUAL();
      BuildPKShare();
      var comms := BuildPubCommitments(params, f, t);
      pubCommitments := pubCommitments[self := comms];
      out := PubCommitmentsMsg(comms);
    }

    method HandleCheckPubCommitment(from: Id, comms: seq<Element>) returns (out: Option<Message>)
      requires Usable(View())
      modifies this`pubCommitments
      ensures (View(), out) == OnPubCommitments(old(View()), from, comms)
    {
      out := None;
      if from !in inQual || from in pubCommitments || |comms| != t + 1 { return; }
      pubCommitments := pubCommitments[from := comms];
      if from == self || from !in shares { return; }
      var myShare := shares[from];
      var ok := CheckPubShare(params, t, self, myShare.s, comms);
      if ok { return; }
      out := Some(Complaint2Msg(from, myShare, Exp(New(params.g, params.p), myShare.s.value)));
    }

    method HandleComplaint2(from: Id, dealer: Id, initShare: Share)
      requires Usable(View())
      modifies this`noqual2
      ensures View() == OnComplaint2(old(View()), from, dealer, initShare)
    {
      if dealer !in inQual || dealer !in pubCommitments { return; }
      var pedersenOK := CheckShare(dealer, from, initShare);
      if pedersenOK != Some(true) { return; }
      var ok := CheckPubShare(params, t, from, initShare.s, pubCommitments[dealer]);
      if ok { return; }
      noqual2 := noqual2 + {dealer};
    }

    /** handleBuildPubKey: every stored commitment list has at least its free term. */
    method HandleBuildPubKey() returns (built: bool)
      requires forall k | k in pubCommitments :: pubCommitments[k] != []
      modifies this`pubKey
      ensures (View(), built) == OnBuildPubKey(old(View()))
    {
      if noqual2 != {} { return false; }
      var pubShares := [];
      for i := 0 to |qual|
        invariant FreeTerms(qual[..i], pubCommitments) == Some(pubShares)
      {
        assert qual[..i + 1][..i] == qual[..i];
        if qual[i] !in pubCommitments {
          OneMissing(qual, pubCommitments, i + 1);
          return false;
        }
        pubShares := pubShares + [pubCommitments[qual[i]][0]];
      }
      assert qual[..|qual|] == qual;
      if |pubShares| == 0 { return false; }
      var y := pubShares[0];
      for i := 1 to |pubShares|
        invariant y == Product(pubShares[..i])
      {
        assert pubShares[..i + 1][..i] == pubShares[..i];
        y := Mul(y, pubShares[i]);
      }
      assert pubShares[..|pubShares|] == pubShares;
      pubKey := Some(y);
      built := true;
    }
  }

  lemma UnansweredMeans(d: DkgSpec.Dkg, k: Id)
    ensures k in Unanswered(d) <==> k in d.complaints1 && k !in d.noqual && !(d.complaints1[k] <= Lookup(d.revealed, k))
  {
  }

  lemma PartsAppend(used: seq<Share>, s: Share)
    ensures Parts(used + [s]).0 == Parts(used).0 + [s.s] && Parts(used + [s]).1 == Parts(used).1 + [s.sMasked]
    ensures Parts(used + [s]).0[..|used|] == Parts(used).0 && Parts(used + [s]).1[..|used|] == Parts(used).1
  {
  }

  lemma {:induction false} OneMissing(qual: seq<Id>, pub: map<Id, seq<Element>>, i: nat)
    requires i <= |qual| && FreeTerms(qual[..i], pub).None?
    ensures FreeTerms(qual, pub).None?
    decreases |qual| - i
  {
    if i < |qual| {
      assert qual[..i + 1][..i] == qual[..i];
      OneMissing(qual, pub, i + 1);
    } else {
      assert qual[..i] == qual;
    }
  }
}

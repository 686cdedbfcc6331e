/** What assembled keys mean, and exactly when the private share fits. */
module DkgKeys {
  import opened Common
  import opened ModArith
  import opened Zp
  import opened Polynomials
  import opened Commitments
  import opened DkgSpec

  // ---- The order of g ----

  ghost function LeastPower(m: Params, e: nat): (r: nat)
    requires ValidParams(m) && 0 < e <= m.q && Exp(G(m), m.q) == New(1, m.p)
    ensures e <= r <= m.q && Exp(G(m), r) == New(1, m.p)
    ensures forall i | e <= i < r :: Exp(G(m), i) != New(1, m.p)
    decreases m.q - e
  {
    if Exp(G(m), e) == New(1, m.p) then e else LeastPower(m, e + 1)
  }

  lemma QthPower(m: Params)
    requires ValidParams(m)
    ensures Exp(G(m), m.q) == New(1, m.p)
  {
    ModMod(m.g, m.p);
    CongPow(m.g % m.p, m.g, m.q, m.p);
    ModUnique(1, 0, 1, m.p);
  }

  /** The least positive exponent that takes g to one. */
  ghost function Ord(m: Params): (r: nat)
    requires ValidParams(m)
    ensures 0 < r <= m.q && Exp(G(m), r) == New(1, m.p)
    ensures forall i | 0 < i < r :: Exp(G(m), i) != New(1, m.p)
  {
    QthPower(m);
    LeastPower(m, 1)
  }

  lemma ModDiff(a: nat, b: nat, e: nat)
    requires e > 0
    ensures (a - b) % e == 0 <==> a % e == b % e
  {
    assert a == e * (a / e) + a % e && b == e * (b / e) + b % e;
    if a % e == b % e {
      MulSplit(e, a / e, b / e);
      ModUnique(a - b, a / e - b / e, 0, e);
    }
    if (a - b) % e == 0 {
      var k := (a - b) / e;
      assert a - b == e * k;
      ModShift(b, k, e);
    }
  }

  /** Powers of g are equal exactly if the exponents are, modulo the order of g. */
  lemma SamePower(m: Params, a: nat, b: nat)
    requires ValidParams(m)
    ensures Exp(G(m), a) == Exp(G(m), b) <==> (a - b) % Ord(m) == 0
  {
    var e := Ord(m);
    ModDiff(a, b, e);
    if a % e == b % e {
      ExpReduces(G(m), e, a, b);
    } else if Exp(G(m), a) == Exp(G(m), b) {
      ModMod(a, e);
      ModMod(b, e);
      ExpReduces(G(m), e, a % e, a);
      ExpReduces(G(m), e, b % e, b);
      NoSmaller(m, if a % e < b % e then a % e else b % e, if a % e < b % e then b % e else a % e);
    }
  }

  lemma NoSmaller(m: Params, a: nat, b: nat)
    requires ValidParams(m) && a < b < Ord(m)
    ensures Exp(G(m), a) != Exp(G(m), b)
  {
    var e := Ord(m);
    ExpLaws(G(m), G(m), a, e - b);
    ExpLaws(G(m), G(m), b, e - b);
    assert b + (e - b) == e && 0 < a + (e - b) < e;
  }

  // ---- Keys of a list of dealers ----

  /** The public commitments of the members of QUAL, in its order. */
  function PubOf(qual: seq<Id>, pub: map<Id, seq<Element>>): seq<seq<Element>>
    requires forall i | 0 <= i < |qual| :: qual[i] in pub
  {
    seq(|qual|, i requires 0 <= i < |qual| => pub[qual[i]])
  }

  /** The public key is the constant term of the combined commitments. */
  lemma {:induction false} ProductIsConstant(qual: seq<Id>, pub: map<Id, seq<Element>>, size: nat)
    requires qual != [] && size > 0 && forall i | 0 <= i < |qual| :: qual[i] in pub && |pub[qual[i]]| == size
    ensures FreeTerms(qual, pub).Some? && |FreeTerms(qual, pub).value| == |qual|
    ensures Product(FreeTerms(qual, pub).value) == Combined(PubOf(qual, pub))[0]
  {
    var n := |qual| - 1;
    assert PubOf(qual, pub)[..n] == PubOf(qual[..n], pub);
    if n == 0 {
      assert FreeTerms(qual[..0], pub) == Some([]);
    } else {
      ProductIsConstant(qual[..n], pub, size);
      var rest := FreeTerms(qual[..n], pub).value;
      assert (rest + [pub[qual[n]][0]])[..n] == rest;
    }
  }

  /** What a sum of the stored shares lacks of the shares that are due from the members of QUAL. */
  function Lacking(qual: seq<Id>, due: seq<Element>, stored: map<Id, Share>): int
    requires |due| == |qual|
  {
    if qual == [] then 0
    else
      var n := |qual| - 1;
      Lacking(qual[..n], due[..n], stored) + due[n].value - if qual[n] in stored then stored[qual[n]].s.value else 0
  }

  lemma {:induction false} CollectedLacks(qual: seq<Id>, due: seq<Element>, stored: map<Id, Share>)
    requires |due| == |qual|
    ensures Added(Parts(Collected(qual, stored)).0) + Lacking(qual, due, stored) == Added(due)
  {
    if qual != [] {
      var n := |qual| - 1;
      CollectedLacks(qual[..n], due[..n], stored);
      var rest := Collected(qual[..n], stored);
      if qual[n] in stored {
        assert Parts(rest + [stored[qual[n]]]).0[..|rest|] == Parts(rest).0;
      } else {
        assert rest + [] == rest;
      }
    }
  }

  /** Nothing is left out if every share was stored as it is due. */
  lemma {:induction false} NothingLacking(qual: seq<Id>, due: seq<Element>, stored: map<Id, Share>)
    requires |due| == |qual| && forall i | 0 <= i < |qual| :: qual[i] in stored && stored[qual[i]].s == due[i]
    ensures Lacking(qual, due, stored) == 0
  {
    if qual != [] { NothingLacking(qual[..|qual| - 1], due[..|qual| - 1], stored); }
  }

  /** The shares due from the members of QUAL that have none stored. */
  function Missed(qual: seq<Id>, due: seq<Element>, stored: map<Id, Share>): nat
    requires |due| == |qual|
  {
    if qual == [] then 0
    else
      var n := |qual| - 1;
      Missed(qual[..n], due[..n], stored) + if qual[n] in stored then 0 else due[n].value
  }

  lemma {:induction false} LackingIsMissed(qual: seq<Id>, due: seq<Element>, stored: map<Id, Share>)
    requires |due| == |qual| && forall i | 0 <= i < |qual| :: qual[i] in stored ==> stored[qual[i]].s == due[i]
    ensures Lacking(qual, due, stored) == Missed(qual, due, stored)
  {
    if qual != [] { LackingIsMissed(qual[..|qual| - 1], due[..|qual| - 1], stored); }
  }

  /** The private share fits the combined commitments exactly if what is left out is 0 modulo the order of g. */
  lemma ShareFitsExactly(m: Params, self: Id, qual: seq<Id>, pub: map<Id, seq<Element>>, size: nat, due: seq<Element>,
                         stored: map<Id, Share>)
    requires ValidParams(m) && qual != [] && size > 0 && |due| == |qual|
    requires forall i | 0 <= i < |qual| :: qual[i] in pub && |pub[qual[i]]| == size && Over(pub[qual[i]], m.p)
                                           && PubShareFits(m, pub[qual[i]], self, due[i])
    ensures PubShareFits(m, Combined(PubOf(qual, pub)), self, Total(m.q, Parts(Collected(qual, stored)).0))
            <==> Lacking(qual, due, stored) % Ord(m) == 0
  {
    hide Collected, Parts, Line, Lacking, Combined, PubShareFits, Exp, Over;
    var have := Parts(Collected(qual, stored)).0;
    AddedFits(m, PubOf(qual, pub), due, self);
    TotalIsSum(m.q, have);
    Order(m, Added(have));
    SamePower(m, Added(due), Added(have));
    CollectedLacks(qual, due, stored);
    FitsIfPower(m, Combined(PubOf(qual, pub)), self, Total(m.q, have));
  }

  lemma FitsIfPower(m: Params, comms: seq<Element>, self: Id, s: Element)
    requires m.p > 0 && comms != []
    ensures PubShareFits(m, comms, self, s) <==> Exp(G(m), s.value) == Line(comms, self)
  {
  }

  /** With honest dealers the private share is F(self) modulo q exactly if what is left out is 0 modulo q. */
  lemma HonestShareExactly(m: Params, self: Id, qual: seq<Id>, fs: seq<seq<nat>>, stored: map<Id, Share>)
    requires ValidParams(m) && |fs| == |qual| > 0 && forall i | 0 <= i < |fs| :: |fs[i]| == |fs[0]|
    ensures Total(m.q, Parts(Collected(qual, stored)).0) == New(Sum(SumOf(fs), self), m.q)
            <==> Lacking(qual, HonestShares(fs, m.q, self), stored) % m.q == 0
  {
    hide Collected, Parts, Lacking, Sum, SumOf;
    var have, due := Parts(Collected(qual, stored)).0, HonestShares(fs, m.q, self);
    TotalIsSum(m.q, have);
    HonestAdded(fs, m.q, self);
    CollectedLacks(qual, due, stored);
    ModDiff(Added(due), Added(have), m.q);
  }
}

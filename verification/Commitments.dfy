/** Pedersen and Feldman commitments: generation, the share checks, and why keys fit their commitments. */
module Commitments {
  import opened ModArith
  import opened Zp
  import opened Polynomials

  /** crypto.Params */
  datatype Params = Params(p: nat, q: nat, g: nat, h: nat)

  /** g and h generate subgroups of order q. */
  predicate ValidParams(m: Params) {
    && m.p > 1 && m.q > 0
    && Pow(m.g, m.q) % m.p == 1 && Pow(m.h, m.q) % m.p == 1
  }

  function G(m: Params): Element
    requires m.p > 0
  {
    New(m.g, m.p)
  }

  function H(m: Params): Element
    requires m.p > 0
  {
    New(m.h, m.p)
  }

  datatype Share = Share(s: Element, sMasked: Element)

  // ---- Commitments ----

  /** C_k = g^(a_k) h^(b_k) */
  function Pedersen(m: Params, a: seq<nat>, b: seq<nat>): seq<Element>
    requires m.p > 0 && |a| == |b|
  {
    seq(|a|, k requires 0 <= k < |a| => Mul(Exp(G(m), a[k]), Exp(H(m), b[k])))
  }

  /** A_k = g^(a_k) */
  function Feldman(m: Params, a: seq<nat>): seq<Element>
    requires m.p > 0
  {
    seq(|a|, k requires 0 <= k < |a| => Exp(G(m), a[k]))
  }

  method GenerateCommitments(m: Params, f: Polynomial, fMask: Polynomial, t: nat) returns (comms: seq<Element>)
    requires m.p > 0 && |f.coefficients| == |fMask.coefficients| == t + 1
    ensures comms == Pedersen(m, Values(f.coefficients), Values(fMask.coefficients))
  {
    var gen, hen := New(m.g, m.p), New(m.h, m.p);
    comms := [];
    for k := 0 to t + 1
      invariant |comms| == k
      invariant forall i | 0 <= i < k ::
                  comms[i] == Mul(Exp(G(m), f.coefficients[i].value), Exp(H(m), fMask.coefficients[i].value))
    {
      var a := f.coefficients[k];
      var b := fMask.coefficients[k];
      comms := comms + [Mul(Exp(gen, a.value), Exp(hen, b.value))];
    }
  }

  method BuildPubCommitments(m: Params, f: Polynomial, t: nat) returns (out: seq<Element>)
    requires m.p > 0 && |f.coefficients| == t + 1
    ensures out == Feldman(m, Values(f.coefficients))
  {
    var gen := New(m.g, m.p);
    out := [];
    for k := 0 to t + 1
      invariant |out| == k
      invariant forall i | 0 <= i < k :: out[i] == Exp(G(m), f.coefficients[i].value)
    {
      out := out + [Exp(gen, f.coefficients[k].value)];
    }
  }

  // ---- The commitment line ----

  /** The product of C_k raised to target^k, as the code forms it: raw powers of the target as exponents. */
  function Line(comms: seq<Element>, target: nat): Element
    requires comms != []
  {
    if |comms| == 1 then comms[0]
    else
      var n := |comms| - 1;
      Mul(Line(comms[..n], target), Exp(comms[n], Pow(target, n)))
  }

  method EvalCommitmentLine(comms: seq<Element>, target: nat, t: nat) returns (res: Element)
    requires |comms| == t + 1
    ensures res == Line(comms, target)
  {
    res := comms[0];
    for k := 1 to t + 1
      invariant res == Line(comms[..k], target)
    {
      assert comms[..k + 1][..k] == comms[..k];
      var deg := Power(target, k);
      res := Mul(res, Exp(comms[k], deg));
    }
    assert comms[..t + 1] == comms;
  }

  /** big.Int.Exp without a modulus. */
  method Power(b: nat, e: nat) returns (r: nat)
    ensures r == Pow(b, e)
  {
    r := 1;
    for i := 0 to e
      invariant r == Pow(b, i)
    {
      MulComm(b, r);
      r := r * b;
    }
  }

  /** g^s h^s' == line */
  predicate ShareFits(m: Params, comms: seq<Element>, target: nat, s: Share)
    requires m.p > 0 && comms != []
  {
    Mul(Exp(G(m), s.s.value), Exp(H(m), s.sMasked.value)) == Line(comms, target)
  }

  /** g^s == line */
  predicate PubShareFits(m: Params, comms: seq<Element>, target: nat, s: Element)
    requires m.p > 0 && comms != []
  {
    Exp(G(m), s.value) == Line(comms, target)
  }

  method CheckPubShare(m: Params, t: nat, target: nat, s: Element, comms: seq<Element>) returns (ok: bool)
    requires m.p > 0
    ensures ok <==> |comms| == t + 1 && PubShareFits(m, comms, target, s)
  {
    if |comms| != t + 1 { return false; }
    var right := EvalCommitmentLine(comms, target, t);
    ok := Exp(New(m.g, m.p), s.value) == right;
  }

  // ---- Completeness ----

  /** Several elements of one modulus multiplied component by component. */
  function Times(a: seq<Element>, b: seq<Element>): seq<Element>
    requires |a| == |b|
  {
    seq(|a|, k requires 0 <= k < |a| => Mul(a[k], b[k]))
  }

  predicate Over(comms: seq<Element>, p: nat) {
    forall k | 0 <= k < |comms| :: comms[k].p == p && Reduced(comms[k])
  }

  lemma {:induction false} LineOver(comms: seq<Element>, target: nat, p: nat)
    requires comms != [] && Over(comms, p)
    ensures Line(comms, target).p == p && Reduced(Line(comms, target))
  {
    if |comms| > 1 {
      LineOver(comms[..|comms| - 1], target, p);
    }
  }

  /** The line of a product is the product of the lines. */
  lemma {:induction false} LineTimes(a: seq<Element>, b: seq<Element>, target: nat, p: nat)
    requires |a| == |b| > 0 && Over(a, p) && Over(b, p)
    ensures Line(Times(a, b), target) == Mul(Line(a, target), Line(b, target))
  {
    if |a| > 1 {
      var n := |a| - 1;
      LineTimes(a[..n], b[..n], target, p);
      LineOver(a[..n], target, p);
      LineOver(b[..n], target, p);
      assert Times(a, b)[..n] == Times(a[..n], b[..n]);
      ExpLaws(a[n], b[n], Pow(target, n), 0);
      MulSwap(Line(a[..n], target), Line(b[..n], target), Exp(a[n], Pow(target, n)), Exp(b[n], Pow(target, n)));
    }
  }

  lemma MulSwap(a: Element, b: Element, c: Element, d: Element)
    requires a.p == b.p == c.p == d.p
    ensures Mul(Mul(a, b), Mul(c, d)) == Mul(Mul(a, c), Mul(b, d))
  {
    MulAssociates(a, b, Mul(c, d));
    MulAssociates(b, c, d);
    MulCommutes(b, c);
    MulAssociates(c, b, d);
    MulAssociates(a, c, Mul(b, d));
  }

  /** Commitments to a polynomial under one base: their line is the base to the polynomial's value. */
  lemma {:induction false} LineIsPower(m: Params, a: seq<nat>, target: nat)
    requires m.p > 0 && a != []
    ensures Line(Feldman(m, a), target) == Exp(G(m), Sum(a, target))
  {
    var n := |a| - 1;
    assert Feldman(m, a)[..n] == Feldman(m, a[..n]);
    if n == 0 {
      assert a[..0] == [] && Pow(target, 0) == 1;
    } else {
      LineIsPower(m, a[..n], target);
      ExpLaws(G(m), G(m), a[n], Pow(target, n));
      ExpLaws(G(m), G(m), Sum(a[..n], target), a[n] * Pow(target, n));
    }
  }

  lemma FeldmanOver(m: Params, a: seq<nat>)
    requires m.p > 0
    ensures Over(Feldman(m, a), m.p)
  {
  }

  /** The same for a Pedersen commitment and both bases. */
  lemma PedersenLine(m: Params, a: seq<nat>, b: seq<nat>, target: nat)
    requires m.p > 0 && |a| == |b| > 0
    ensures Line(Pedersen(m, a, b), target) == Mul(Exp(G(m), Sum(a, target)), Exp(H(m), Sum(b, target)))
  {
    var m' := m.(g := m.h);
    assert Pedersen(m, a, b) == Times(Feldman(m, a), Feldman(m', b));
    FeldmanOver(m, a);
    FeldmanOver(m', b);
    LineTimes(Feldman(m, a), Feldman(m', b), target, m.p);
    LineIsPower(m, a, target);
    LineIsPower(m', b, target);
  }

  lemma BaseOrder(x: nat, q: nat, e: nat, p: nat)
    requires p > 1 && q > 0 && Pow(x, q) % p == 1
    ensures Exp(New(x, p), e % q) == Exp(New(x, p), e)
  {
    ModMod(x, p);
    CongPow(x % p, x, q, p);
    ModUnique(1, 0, 1, p);
    ModMod(e, q);
    ExpReduces(New(x, p), q, e % q, e);
  }

  lemma Order(m: Params, e: nat)
    requires ValidParams(m)
    ensures Exp(G(m), e % m.q) == Exp(G(m), e) && Exp(H(m), e % m.q) == Exp(H(m), e)
  {
    BaseOrder(m.g, m.q, e, m.p);
    BaseOrder(m.h, m.q, e, m.p);
  }

  /** Pedersen completeness: an honestly evaluated pair of shares passes the check against honest commitments, for every
      degree, coefficients and target, although one side reduces modulo q and the other uses raw powers. */
  lemma PedersenComplete(m: Params, f: Polynomial, fMask: Polynomial, target: nat)
    requires ValidParams(m) && Valid(f) && Valid(fMask) && f.q == fMask.q == m.q
    requires |f.coefficients| == |fMask.coefficients|
    ensures ShareFits(m, Pedersen(m, Values(f.coefficients), Values(fMask.coefficients)), target,
                      Share(At(f, target), At(fMask, target)))
  {
    PedersenLine(m, Values(f.coefficients), Values(fMask.coefficients), target);
    Order(m, Sum(Values(f.coefficients), target));
    Order(m, Sum(Values(fMask.coefficients), target));
  }

  /** Feldman completeness, for every share that equals f(target) modulo q. */
  lemma FeldmanComplete(m: Params, f: Polynomial, target: nat, s: Element)
    requires ValidParams(m) && Valid(f) && f.q == m.q
    requires s.value % m.q == Sum(Values(f.coefficients), target) % m.q
    ensures PubShareFits(m, Feldman(m, Values(f.coefficients)), target, s)
  {
    LineIsPower(m, Values(f.coefficients), target);
    Order(m, s.value);
    Order(m, Sum(Values(f.coefficients), target));
  }

  // ---- Keys ----

  /** The sum of the shares as buildPKShare forms it. */
  function Total(q: nat, ss: seq<Element>): Element
    requires q > 0
  {
    if ss == [] then Zp(0, q) else Add(Total(q, ss[..|ss| - 1]), ss[|ss| - 1])
  }

  function Added(ss: seq<Element>): nat {
    if ss == [] then 0 else Added(ss[..|ss| - 1]) + ss[|ss| - 1].value
  }

  lemma {:induction false} TotalIsSum(q: nat, ss: seq<Element>)
    requires q > 0
    ensures Total(q, ss) == New(Added(ss), q)
  {
    if ss != [] {
      var n := |ss| - 1;
      TotalIsSum(q, ss[..n]);
      ModMod(Added(ss[..n]), q);
      CongAdd(Total(q, ss[..n]).value, ss[n].value, Added(ss[..n]), ss[n].value, q);
    } else {
      ModUnique(0, 0, 0, q);
    }
  }

  /** All dealers' public commitments multiplied component by component. */
  function Combined(all: seq<seq<Element>>): seq<Element>
    requires all != [] && forall i | 0 <= i < |all| :: |all[i]| == |all[0]|
    ensures |Combined(all)| == |all[0]|
  {
    if |all| == 1 then all[0] else Times(Combined(all[..|all| - 1]), all[|all| - 1])
  }

  lemma {:induction false} CombinedOver(all: seq<seq<Element>>, p: nat)
    requires p > 0 && all != [] && forall i | 0 <= i < |all| :: |all[i]| == |all[0]| && Over(all[i], p)
    ensures |Combined(all)| == |all[0]| && Over(Combined(all), p)
  {
    if |all| > 1 {
      CombinedOver(all[..|all| - 1], p);
    }
  }

  /** Key correctness, share side: if the share from every dealer fits that dealer's public commitments, then g to the
      summed share is the line of the combined commitments at this process. */
  lemma {:induction false} KeyShareFits(m: Params, all: seq<seq<Element>>, ss: seq<Element>, self: nat)
    requires ValidParams(m) && all != [] && |ss| == |all| && |all[0]| > 0
    requires forall i | 0 <= i < |all| :: |all[i]| == |all[0]| && Over(all[i], m.p)
    requires forall i | 0 <= i < |all| :: PubShareFits(m, all[i], self, ss[i])
    ensures |Combined(all)| > 0 && PubShareFits(m, Combined(all), self, Total(m.q, ss))
  {
    TotalIsSum(m.q, ss);
    Order(m, Added(ss));
    AddedFits(m, all, ss, self);
  }

  lemma {:induction false} AddedFits(m: Params, all: seq<seq<Element>>, ss: seq<Element>, self: nat)
    requires ValidParams(m) && all != [] && |ss| == |all| && |all[0]| > 0
    requires forall i | 0 <= i < |all| :: |all[i]| == |all[0]| && Over(all[i], m.p)
    requires forall i | 0 <= i < |all| :: PubShareFits(m, all[i], self, ss[i])
    ensures |Combined(all)| > 0 && Exp(G(m), Added(ss)) == Line(Combined(all), self)
  {
    var n := |all| - 1;
    assert PubShareFits(m, all[n], self, ss[n]);
    if n == 0 {
      assert ss[..0] == [] && Added(ss) == ss[0].value;
    } else {
      AddedFits(m, all[..n], ss[..n], self);
      CombinedOver(all[..n], m.p);
      LineTimes(Combined(all[..n]), all[n], self, m.p);
      ExpLaws(G(m), G(m), Added(ss[..n]), ss[n].value);
    }
  }

  // ---- Honest runs ----

  /** The coefficients of F, the sum of the dealers' polynomials. */
  function SumOf(fs: seq<seq<nat>>): seq<nat>
    requires fs != [] && forall i | 0 <= i < |fs| :: |fs[i]| == |fs[0]|
    ensures |SumOf(fs)| == |fs[0]|
  {
    if |fs| == 1 then fs[0] else Plus(SumOf(fs[..|fs| - 1]), fs[|fs| - 1])
  }

  function HonestShares(fs: seq<seq<nat>>, q: nat, self: nat): seq<Element>
    requires q > 0
  {
    seq(|fs|, i requires 0 <= i < |fs| => New(Sum(fs[i], self), q))
  }

  function HonestComms(m: Params, fs: seq<seq<nat>>): seq<seq<Element>>
    requires m.p > 0
  {
    seq(|fs|, i requires 0 <= i < |fs| => Feldman(m, fs[i]))
  }

  lemma {:induction false} HonestAdded(fs: seq<seq<nat>>, q: nat, self: nat)
    requires q > 0 && fs != [] && forall i | 0 <= i < |fs| :: |fs[i]| == |fs[0]|
    ensures Added(HonestShares(fs, q, self)) % q == Sum(SumOf(fs), self) % q
  {
    var n := |fs| - 1;
    assert HonestShares(fs, q, self)[..n] == HonestShares(fs[..n], q, self);
    ModMod(Sum(fs[n], self), q);
    if n == 0 {
      assert HonestShares(fs, q, self)[..0] == [];
    } else {
      HonestAdded(fs[..n], q, self);
      SumPlus(SumOf(fs[..n]), fs[n], self);
      CongAdd(Added(HonestShares(fs[..n], q, self)), New(Sum(fs[n], self), q).value, Sum(SumOf(fs[..n]), self),
              Sum(fs[n], self), q);
    }
  }

  lemma {:induction false} HonestCombined(m: Params, fs: seq<seq<nat>>)
    requires m.p > 0 && fs != [] && forall i | 0 <= i < |fs| :: |fs[i]| == |fs[0]|
    ensures HonestComms(m, fs) != [] && forall i | 0 <= i < |fs| :: |HonestComms(m, fs)[i]| == |fs[0]|
    ensures Combined(HonestComms(m, fs)) == Feldman(m, SumOf(fs))
  {
    var n := |fs| - 1;
    assert HonestComms(m, fs)[..n] == HonestComms(m, fs[..n]);
    if n > 0 {
      HonestCombined(m, fs[..n]);
      forall k | 0 <= k < |fs[0]|
        ensures Feldman(m, SumOf(fs))[k] == Mul(Feldman(m, SumOf(fs[..n]))[k], Feldman(m, fs[n])[k])
      {
        ExpLaws(G(m), G(m), SumOf(fs[..n])[k], fs[n][k]);
      }
      assert Feldman(m, SumOf(fs)) == Times(Feldman(m, SumOf(fs[..n])), Feldman(m, fs[n]));
    }
  }

  /** Key correctness in honest runs: the private share is F(self) modulo q and the public key is g^F(0). */
  lemma HonestKeys(m: Params, fs: seq<seq<nat>>, self: nat)
    requires ValidParams(m) && fs != [] && |fs[0]| > 0 && forall i | 0 <= i < |fs| :: |fs[i]| == |fs[0]|
    ensures Total(m.q, HonestShares(fs, m.q, self)) == New(Sum(SumOf(fs), self), m.q)
    ensures HonestComms(m, fs) != [] && forall i | 0 <= i < |fs| :: |HonestComms(m, fs)[i]| == |fs[0]|
    ensures |Combined(HonestComms(m, fs))| > 0 && Combined(HonestComms(m, fs))[0] == Exp(G(m), Sum(SumOf(fs), 0))
  {
    TotalIsSum(m.q, HonestShares(fs, m.q, self));
    HonestAdded(fs, m.q, self);
    HonestCombined(m, fs);
    SumAtZero(SumOf(fs));
  }
}

/** crypto.ZpElement and its operations. */
module Zp {
  import opened ModArith

  /** Value is not reduced in elements that arrive from the network; every operation reduces modulo its receiver's P. */
  datatype Residue = Zp(value: nat, p: nat)
  type Element = z: Residue | z.p > 0 witness Zp(0, 1)

  function New(v: nat, p: nat): Element
    requires p > 0
  {
    Zp(v % p, p)
  }

  function Add(a: Element, b: Element): Element { Zp((a.value + b.value) % a.p, a.p) }

  function Mul(a: Element, b: Element): Element { Zp((a.value * b.value) % a.p, a.p) }

  function Exp(a: Element, e: nat): Element { Zp(Pow(a.value, e) % a.p, a.p) }

  predicate Reduced(a: Element) { a.value < a.p }

  /** Reductions inside a product of three make no difference. */
  lemma MulThree(a: Element, b: Element, c: Element)
    requires a.p == b.p == c.p
    ensures Mul(Mul(a, b), c) == New(a.value * b.value * c.value, a.p)
  {
    MulModLeft(a.value * b.value, c.value, a.p);
  }

  lemma MulCommutes(a: Element, b: Element)
    requires a.p == b.p
    ensures Mul(a, b) == Mul(b, a)
  {
    MulComm(a.value, b.value);
  }

  lemma MulAssociates(a: Element, b: Element, c: Element)
    requires a.p == b.p == c.p
    ensures Mul(Mul(a, b), c) == Mul(a, Mul(b, c))
  {
    MulThree(a, b, c);
    MulThree(b, c, a);
    MulCommutes(a, Mul(b, c));
    MulAssoc(a.value, b.value, c.value);
    MulComm(a.value, b.value * c.value);
  }

  /** Exp is a homomorphism on both sides: in the element and in the exponent. */
  lemma ExpLaws(a: Element, b: Element, m: nat, n: nat)
    requires a.p == b.p
    ensures Exp(Mul(a, b), m) == Mul(Exp(a, m), Exp(b, m))
    ensures Exp(a, m + n) == Mul(Exp(a, m), Exp(a, n))
    ensures m * n >= 0 && Exp(Exp(a, m), n) == Exp(a, m * n)
  {
    var p := a.p;
    ModMod(a.value * b.value, p);
    CongPow(Mul(a, b).value, a.value * b.value, m, p);
    PowProduct(a.value, b.value, m);
    ModMod(Pow(a.value, m), p);
    ModMod(Pow(b.value, m), p);
    ModMod(Pow(a.value, n), p);
    CongMul(Exp(a, m).value, Exp(b, m).value, Pow(a.value, m), Pow(b.value, m), p);
    PowAdd(a.value, m, n);
    CongMul(Exp(a, m).value, Exp(a, n).value, Pow(a.value, m), Pow(a.value, n), p);
    CongPow(Exp(a, m).value, Pow(a.value, m), n, p);
    PowMul(a.value, m, n);
  }

  /** In a subgroup of order q exponents may be reduced modulo q. */
  lemma ExpReduces(a: Element, q: nat, m: nat, n: nat)
    requires q > 0 && Exp(a, q) == New(1, a.p) && m % q == n % q
    ensures Exp(a, m) == Exp(a, n)
  {
    PowOrder(a.value, q, m, a.p);
    PowOrder(a.value, q, n, a.p);
  }
}

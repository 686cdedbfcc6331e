/** Polynomials over Z_q and their evaluation by Horner's rule. */
module Polynomials {
  import opened ModArith
  import opened Zp

  /** c[0] + c[1] x + ... + c[t] x^t, over the naturals. */
  function Sum(c: seq<nat>, x: nat): nat {
    if c == [] then 0
    else Sum(c[..|c| - 1], x) + c[|c| - 1] * Pow(x, |c| - 1)
  }

  function Values(c: seq<Element>): seq<nat> {
    seq(|c|, i requires 0 <= i < |c| => c[i].value)
  }

  datatype Polynomial = Polynomial(coefficients: seq<Element>, q: nat)

  /** What randomPolynomial builds: degree + 1 reduced coefficients. */
  predicate Valid(f: Polynomial) {
    && f.q > 0 && f.coefficients != []
    && forall i | 0 <= i < |f.coefficients| :: f.coefficients[i].p == f.q && Reduced(f.coefficients[i])
  }

  /** The value of the polynomial at x, reduced once at the end. */
  function At(f: Polynomial, x: nat): Element
    requires f.q > 0
  {
    New(Sum(Values(f.coefficients), x), f.q)
  }

  /** Horner's form of the coefficients from the first on. */
  function Horner(c: seq<nat>, x: nat): nat {
    if c == [] then 0 else c[0] + x * Horner(c[1..], x)
  }

  lemma {:induction false} HornerAppend(c: seq<nat>, a: nat, x: nat)
    ensures Horner(c + [a], x) == Horner(c, x) + a * Pow(x, |c|)
  {
    if c == [] {
      assert ([a])[1..] == [];
      assert [] + [a] == [a];
    } else {
      assert (c + [a])[1..] == c[1..] + [a];
      HornerAppend(c[1..], a, x);
      MulSplit(x, Horner(c[1..], x), a * Pow(x, |c| - 1));
      MulAssoc(x, a, Pow(x, |c| - 1));
      MulComm(x, a);
      MulAssoc(a, x, Pow(x, |c| - 1));
    }
  }

  lemma {:induction false} HornerIsSum(c: seq<nat>, x: nat)
    ensures Horner(c, x) == Sum(c, x)
  {
    if c != [] {
      var n := |c| - 1;
      HornerIsSum(c[..n], x);
      HornerAppend(c[..n], c[n], x);
      assert c[..n] + [c[n]] == c;
    }
  }

  /** One turn of the loop, on residues. */
  lemma HornerStep(r: nat, tail: nat, x: nat, a: nat, q: nat)
    requires q > 0 && r == tail % q
    ensures (((r * (x % q)) % q) + a) % q == (a + x * tail) % q
  {
    ModMod(tail, q);
    ModMod(x, q);
    CongMul(r, x % q, tail, x, q);
    MulComm(tail, x);
    ModMod(r * (x % q), q);
    CongAdd((r * (x % q)) % q, a, x * tail, a, q);
  }

  /** Evaluate: reducing at every turn of Horner's rule gives the polynomial's value modulo q. */
  method Evaluate(f: Polynomial, x: nat) returns (result: Element)
    requires Valid(f)
    ensures result == At(f, x)
  {
    var xElem := New(x, f.q);
    var degree := |f.coefficients| - 1;
    result := f.coefficients[degree];
    ghost var c := Values(f.coefficients);
    assert c[degree..] == [c[degree]] && [c[degree]][1..] == [];
    ModUnique(c[degree], 0, c[degree], f.q);
    var k := degree;
    while k > 0
      invariant 0 <= k <= degree
      invariant result == New(Horner(c[k..], x), f.q)
    {
      k := k - 1;
      assert c[k..][1..] == c[k + 1..];
      HornerStep(result.value, Horner(c[k + 1..], x), x, c[k], f.q);
      result := Mul(result, xElem);
      result := Add(result, f.coefficients[k]);
    }
    assert c[0..] == c;
    HornerIsSum(c, x);
  }

  // ---- Sums of polynomials ----

  /** Coefficientwise sum. */
  function Plus(a: seq<nat>, b: seq<nat>): seq<nat>
    requires |a| == |b|
  {
    seq(|a|, i requires 0 <= i < |a| => a[i] + b[i])
  }

  lemma {:induction false} SumPlus(a: seq<nat>, b: seq<nat>, x: nat)
    requires |a| == |b|
    ensures Sum(Plus(a, b), x) == Sum(a, x) + Sum(b, x)
  {
    if a != [] {
      var n := |a| - 1;
      SumPlus(a[..n], b[..n], x);
      assert Plus(a, b)[..n] == Plus(a[..n], b[..n]);
      MulComm(a[n] + b[n], Pow(x, n));
      MulSplit(Pow(x, n), a[n], b[n]);
      MulComm(a[n], Pow(x, n));
      MulComm(b[n], Pow(x, n));
    }
  }

  /** At zero only the free term is left. */
  lemma {:induction false} SumAtZero(c: seq<nat>)
    requires c != []
    ensures Sum(c, 0) == c[0]
  {
    if |c| > 1 {
      SumAtZero(c[..|c| - 1]);
    } else {
      assert c[..0] == [] && Pow(0, 0) == 1;
    }
  }
}

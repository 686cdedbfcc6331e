/** Powers and residues of natural numbers. */
module ModArith {
  function Pow(b: nat, e: nat): nat {
    if e == 0 then 1 else b * Pow(b, e - 1)
  }

  lemma MulSplit(p: nat, a: int, b: int)
    ensures p * (a + b) == p * a + p * b
    ensures p * (a - b) == p * a - p * b
  {
  }

  lemma MulAssoc(a: int, b: int, c: int)
    ensures a * (b * c) == (a * b) * c
  {
  }

  lemma MulComm(a: int, b: int)
    ensures a * b == b * a
  {
  }

  lemma MulBound(p: int, d: int)
    requires p > 0
    ensures -p < p * d < p ==> d == 0
  {
    if d >= 1 { MulSplit(p, d - 1, 1); }
    if d <= -1 { MulSplit(p, d + 1, -1); }
  }

  /** A remainder is unique. */
  lemma ModUnique(n: int, k: int, r: nat, p: nat)
    requires p > 0 && r < p && n == p * k + r
    ensures n % p == r
  {
    assert n == p * (n / p) + n % p;
    MulSplit(p, n / p, k);
    MulBound(p, n / p - k);
  }

  lemma ModShift(x: int, k: int, p: nat)
    requires p > 0
    ensures (x + p * k) % p == x % p
  {
    assert x == p * (x / p) + x % p;
    MulSplit(p, x / p, k);
    ModUnique(x + p * k, x / p + k, x % p, p);
  }

  lemma MulModLeft(a: nat, b: nat, p: nat)
    requires p > 0
    ensures ((a % p) * b) % p == (a * b) % p
  {
    var k, r := a / p, a % p;
    assert a * b == r * b + p * (k * b) by {
      assert a == p * k + r;
      MulComm(a, b);
      MulComm(r, b);
      MulSplit(b, p * k, r);
      MulAssoc(p, k, b);
      MulComm(b, p * k);
    }
    ModShift(r * b, k * b, p);
  }

  /** Congruences multiply and add. */
  lemma CongMul(a: nat, b: nat, c: nat, d: nat, p: nat)
    requires p > 0 && a % p == c % p && b % p == d % p
    ensures (a * b) % p == (c * d) % p
  {
    MulModLeft(a, b, p);
    MulModLeft(c, b, p);
    MulModLeft(b, c, p);
    MulModLeft(d, c, p);
    MulComm(b, c);
    MulComm(d, c);
  }

  lemma AddMod(a: nat, b: nat, p: nat)
    requires p > 0
    ensures (a + b) % p == (a % p + b % p) % p
  {
    var j, k := a / p, b / p;
    MulSplit(p, j, k);
    assert a + b == a % p + b % p + p * (j + k);
    ModShift(a % p + b % p, j + k, p);
  }

  lemma CongAdd(a: nat, b: nat, c: nat, d: nat, p: nat)
    requires p > 0 && a % p == c % p && b % p == d % p
    ensures (a + b) % p == (c + d) % p
  {
    AddMod(a, b, p);
    AddMod(c, d, p);
  }

  lemma ModMod(a: nat, p: nat)
    requires p > 0
    ensures a % p % p == a % p
  {
    ModUnique(a % p, 0, a % p, p);
  }

  lemma {:induction false} PowAdd(b: nat, m: nat, n: nat)
    ensures Pow(b, m + n) == Pow(b, m) * Pow(b, n)
  {
    if m > 0 {
      PowAdd(b, m - 1, n);
      MulAssoc(b, Pow(b, m - 1), Pow(b, n));
    }
  }

  lemma {:induction false} PowOne(n: nat)
    ensures Pow(1, n) == 1
  {
    if n > 0 { PowOne(n - 1); }
  }

  lemma {:induction false} PowMul(b: nat, m: nat, n: nat)
    ensures m * n >= 0 && Pow(Pow(b, m), n) == Pow(b, m * n)
  {
    if n > 0 {
      PowMul(b, m, n - 1);
      MulSplit(m, n - 1, 1);
      PowAdd(b, m, m * (n - 1));
    }
  }

  lemma {:induction false} PowProduct(a: nat, b: nat, e: nat)
    ensures Pow(a * b, e) == Pow(a, e) * Pow(b, e)
  {
    if e > 0 {
      PowProduct(a, b, e - 1);
      Swap(a, b, Pow(a, e - 1), Pow(b, e - 1));
    }
  }

  lemma Swap(a: nat, b: nat, c: nat, d: nat)
    ensures (a * b) * (c * d) == (a * c) * (b * d)
  {
    MulAssoc(a * b, c, d);
    MulAssoc(a, b, c);
    MulComm(b, c);
    MulAssoc(a, c, b);
    MulAssoc(a * c, b, d);
  }

  lemma {:induction false} CongPow(a: nat, b: nat, e: nat, p: nat)
    requires p > 0 && a % p == b % p
    ensures Pow(a, e) % p == Pow(b, e) % p
  {
    if e > 0 {
      CongPow(a, b, e - 1, p);
      CongMul(a, Pow(a, e - 1), b, Pow(b, e - 1), p);
    }
  }

  /** Exponents of an element whose q-th power is one count modulo q. */
  lemma PowOrder(g: nat, q: nat, e: nat, p: nat)
    requires p > 0 && q > 0 && Pow(g, q) % p == 1 % p
    ensures Pow(g, e % q) % p == Pow(g, e) % p
  {
    var k, r := e / q, e % q;
    assert e == q * k + r;
    PowAdd(g, q * k, r);
    PowMul(g, q, k);
    CongPow(Pow(g, q), 1, k, p);
    PowOne(k);
    CongMul(Pow(g, q * k), Pow(g, r), 1, Pow(g, r), p);
  }
}

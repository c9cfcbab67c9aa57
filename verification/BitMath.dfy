/** Bitwise arithmetic on naturals, as far as the address masks need it. */
module BitMath {

  function Pow2(n: nat): (r: nat)
    ensures r > 0
  {
    if n == 0 then 1 else 2 * Pow2(n - 1)
  }

  function And(a: nat, b: nat): nat {
    if a == 0 || b == 0 then 0 else 2 * And(a / 2, b / 2) + (a % 2) * (b % 2)
  }

  function Or(a: nat, b: nat): nat {
    if a == 0 then b else if b == 0 then a
    else 2 * Or(a / 2, b / 2) + (if a % 2 == 0 && b % 2 == 0 then 0 else 1)
  }

  /** The complement within `n` bits. */
  function Not(n: nat, a: nat): nat
    requires a < Pow2(n)
  {
    Pow2(n) - 1 - a
  }

  /** How many bits are set. */
  function Ones(a: nat): nat {
    if a == 0 then 0 else a % 2 + Ones(a / 2)
  }

  /** The value of bit `k`, counted from the lowest. */
  function Bit(a: nat, k: nat): nat {
    if k == 0 then a % 2 else Bit(a / 2, k - 1)
  }

  lemma Doubling(p: nat, q: nat)
    ensures (2 * p) * q == 2 * (p * q)
  {
  }

  lemma {:induction false} Pow2Sum(m: nat, n: nat)
    ensures Pow2(m + n) == Pow2(m) * Pow2(n)
  {
    if m > 0 {
      var p, q := Pow2(m - 1), Pow2(n);
      assert Pow2(m) == 2 * p && Pow2(m + n) == 2 * Pow2(m - 1 + n);
      Pow2Sum(m - 1, n);
      hide Pow2;
      Doubling(p, q);
    }
  }

  lemma Halves(a: nat)
    ensures a == 2 * (a / 2) + a % 2
  {
  }

  lemma OneBit(b: nat)
    requires b < 2
    ensures b * b == b
  {
  }

  lemma {:induction false} AndSelf(a: nat)
    ensures And(a, a) == a
  {
    if a > 0 {
      AndSelf(a / 2);
      Halves(a);
      OneBit(a % 2);
    }
  }

  lemma ClearOdd(a: nat)
    requires a % 2 == 1
    ensures And(a, a - 1) == a - 1 && Ones(a - 1) == Ones(a) - 1
  {
    AndStep(a, a - 1);
    AndSelf(a / 2);
    OnesStep(a);
    OnesStep(a - 1);
    hide And, Ones;
    assert (a - 1) / 2 == a / 2 && (a - 1) % 2 == 0;
  }

  lemma ClearEven(a: nat)
    requires a > 0 && a % 2 == 0
    ensures And(a, a - 1) == 2 * And(a / 2, a / 2 - 1)
    ensures Ones(a) == Ones(a / 2) && Ones(And(a, a - 1)) == Ones(And(a / 2, a / 2 - 1))
  {
    AndStep(a, a - 1);
    OnesStep(a);
    OnesStep(And(a, a - 1));
    hide And, Ones;
    assert (a - 1) / 2 == a / 2 - 1;
  }

  /** `a & (a - 1)` clears the lowest set bit. */
  lemma {:induction false} ClearLowest(a: nat)
    requires a > 0
    ensures And(a, a - 1) < a && Ones(And(a, a - 1)) == Ones(a) - 1
  {
    hide And, Ones;
    if a % 2 == 1 {
      ClearOdd(a);
    } else {
      ClearEven(a);
      ClearLowest(a / 2);
    }
  }

  // ------------------------------------------------------------ bit by bit

  lemma {:induction false} BitOfZero(k: nat)
    ensures Bit(0, k) == 0
  {
    if k > 0 {
      BitOfZero(k - 1);
    }
  }

  lemma AndHalf(a: nat, b: nat)
    ensures And(a, b) / 2 == And(a / 2, b / 2) && And(a, b) % 2 == (a % 2) * (b % 2)
  {
    AndStep(a, b);
    hide And;
    BitProduct(a % 2, b % 2);
  }

  lemma BitProduct(x: nat, y: nat)
    requires x < 2 && y < 2
    ensures x * y == if x == 1 then y else 0
  {
  }

  lemma {:induction false} AndBit(a: nat, b: nat, k: nat)
    ensures Bit(And(a, b), k) == Bit(a, k) * Bit(b, k)
  {
    hide And;
    AndHalf(a, b);
    if k > 0 {
      AndBit(a / 2, b / 2, k - 1);
    }
  }

  lemma {:induction false} OrBit(a: nat, b: nat, k: nat)
    ensures Bit(Or(a, b), k) == if Bit(a, k) == 0 && Bit(b, k) == 0 then 0 else 1
  {
    if a == 0 || b == 0 {
      BitOfZero(k);
      BitRange(a, k);
      BitRange(b, k);
    } else if k > 0 {
      OrBit(a / 2, b / 2, k - 1);
    }
  }

  lemma {:induction false} BitRange(a: nat, k: nat)
    ensures Bit(a, k) == 0 || Bit(a, k) == 1
  {
    if k > 0 {
      BitRange(a / 2, k - 1);
    }
  }

  lemma {:induction false} NotBit(n: nat, a: nat, k: nat)
    requires a < Pow2(n) && k < n
    ensures Bit(Not(n, a), k) == 1 - Bit(a, k)
  {
    if k > 0 {
      assert Not(n, a) / 2 == Not(n - 1, a / 2);
      NotBit(n - 1, a / 2, k - 1);
    }
  }

  /** The low `n` bits of a mask are set and no others. */
  lemma {:induction false} LowMaskBit(n: nat, k: nat)
    ensures Bit(Pow2(n) - 1, k) == if k < n then 1 else 0
  {
    if n == 0 {
      BitOfZero(k);
    } else if k > 0 {
      assert (Pow2(n) - 1) / 2 == Pow2(n - 1) - 1;
      LowMaskBit(n - 1, k - 1);
    }
  }

  lemma {:induction false} LowMaskOnes(n: nat)
    ensures Ones(Pow2(n) - 1) == n
  {
    if n > 0 {
      assert (Pow2(n) - 1) / 2 == Pow2(n - 1) - 1;
      LowMaskOnes(n - 1);
    }
  }

  lemma {:induction false} NotOnes(n: nat, a: nat)
    requires a < Pow2(n)
    ensures Ones(Not(n, a)) == n - Ones(a)
  {
    if n > 0 {
      assert Not(n, a) / 2 == Not(n - 1, a / 2);
      NotOnes(n - 1, a / 2);
    }
  }

  lemma {:induction false} OrBound(n: nat, a: nat, b: nat)
    requires a < Pow2(n) && b < Pow2(n)
    ensures Or(a, b) < Pow2(n)
  {
    if a > 0 && b > 0 {
      OrBound(n - 1, a / 2, b / 2);
    }
  }

  lemma {:induction false} AndBound(a: nat, b: nat)
    ensures And(a, b) <= a
  {
    if a > 0 && b > 0 {
      AndBound(a / 2, b / 2);
    }
  }

  // -------------------------------------------------------- low and high parts

  lemma NotStep(n: nat, m: nat)
    requires 0 < n && m < Pow2(n)
    ensures m / 2 < Pow2(n - 1)
    ensures Not(n, m) / 2 == Not(n - 1, m / 2) && Not(n, m) % 2 == 1 - m % 2
  {
  }

  /** Setting the bits of `m` is clearing them and adding `m`. */
  lemma {:induction false} OrSplit(n: nat, a: nat, m: nat)
    requires a < Pow2(n) && m < Pow2(n)
    ensures Or(a, m) == And(a, Not(n, m)) + m
  {
    if n > 0 {
      NotStep(n, m);
      NotStep(n, a);
      hide Or, And, Pow2, Not;
      OrSplit(n - 1, a / 2, m / 2);
      OrStep(a, m);
      AndStep(a, Not(n, m));
      BitProduct(a % 2, 1 - m % 2);
    }
  }

  lemma AndStep(a: nat, b: nat)
    ensures And(a, b) == 2 * And(a / 2, b / 2) + (a % 2) * (b % 2)
  {
  }

  lemma OrStep(a: nat, b: nat)
    ensures Or(a, b) == 2 * Or(a / 2, b / 2) + (if a % 2 == 0 && b % 2 == 0 then 0 else 1)
  {
  }

  lemma OnesHalf(x: nat, a: nat, more: nat)
    requires x % 2 == a % 2 && Ones(x / 2) == Ones(a / 2) + more
    ensures Ones(x) == Ones(a) + more
  {
    OnesStep(x);
    OnesStep(a);
  }

  lemma {:induction false} OnesParts(k: nat, a: nat, c: nat)
    requires a < Pow2(k)
    ensures Ones(a + Pow2(k) * c) == Ones(a) + Ones(c)
  {
    if k > 0 {
      var p := Pow2(k - 1);
      assert Pow2(k) == 2 * p;
      hide Ones, Pow2;
      Halve(a, p, c);
      OnesParts(k - 1, a / 2, c);
      OnesHalf(a + 2 * p * c, a, Ones(c));
    } else {
      assert Pow2(0) * c == c && Ones(0) == 0;
    }
  }

  lemma Halve(a: nat, p: nat, c: nat)
    ensures (a + 2 * p * c) / 2 == a / 2 + p * c && (a + 2 * p * c) % 2 == a % 2
  {
    assert 2 * p * c == 2 * (p * c);
  }

  lemma OnesStep(a: nat)
    ensures Ones(a) == a % 2 + Ones(a / 2)
  {
  }

  lemma {:induction false} BitParts(k: nat, a: nat, c: nat, j: nat)
    requires a < Pow2(k)
    ensures Bit(a + Pow2(k) * c, j) == if j < k then Bit(a, j) else Bit(c, j - k)
  {
    if k > 0 {
      Halve(a, Pow2(k - 1), c);
      if j > 0 {
        BitParts(k - 1, a / 2, c, j - 1);
      }
    }
  }
}

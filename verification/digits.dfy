/**
  Powers of ten, decimal digit counts and single decimal digits of natural
  numbers: the integer facts every decimal operation below rests on.
 */
module Digits {

  /** 10^k. */
  function Pow10(k: nat): (r: nat)
    ensures r >= 1
  {
    if k == 0 then 1 else 10 * Pow10(k - 1)
  }

  lemma MulLe(a: int, b: int, m: int)
    requires a <= b && 0 <= m
    ensures a * m <= b * m
  {
    assert b * m - a * m == (b - a) * m;
  }

  /** Multiplying by a positive number preserves and reflects the order. */
  lemma MulLeIff(a: int, b: int, m: int)
    requires 0 < m
    ensures a * m <= b * m <==> a <= b
  {
    if a <= b {
      MulLe(a, b, m);
    } else {
      MulLe(b + 1, a, m);
      assert (b + 1) * m == b * m + m;
    }
  }

  /** Euclidean division is the only way to write x as q·m + r with 0 <= r < m. */
  lemma DivModUnique(x: int, m: int, q: int, r: int)
    requires 0 < m && 0 <= r < m && x == q * m + r
    ensures x / m == q && x % m == r
  {
    var q', r' := x / m, x % m;
    assert x == q' * m + r';
    if q' < q {
      assert (q' + 1) * m == q' * m + m;
      MulLe(q' + 1, q, m);
    } else if q < q' {
      assert (q + 1) * m == q * m + m;
      MulLe(q + 1, q', m);
    }
  }

  lemma {:induction false} Pow10Add(a: nat, b: nat)
    ensures Pow10(a + b) == Pow10(a) * Pow10(b)
  {
    if b > 0 {
      Pow10Add(a, b - 1);
      calc {
        Pow10(a + b);
        10 * Pow10(a + b - 1);
        10 * (Pow10(a) * Pow10(b - 1));
        Pow10(a) * (10 * Pow10(b - 1));
        Pow10(a) * Pow10(b);
      }
    }
  }

  lemma Pow10Monotone(a: nat, b: nat)
    requires a <= b
    ensures Pow10(a) <= Pow10(b)
  {
    Pow10Add(a, b - a);
    MulLe(1, Pow10(b - a), Pow10(a));
  }

  /**
    The number of digits of a coefficient, as Python's Decimal counts them
    (zero has one digit): the unique r >= 1 with 10^(r-1) <= x < 10^r.
   */
  function NumDigits(x: nat): (r: nat)
    ensures 1 <= r
    ensures x < Pow10(r)
    ensures r == 1 || Pow10(r - 1) <= x
  {
    if x < 10 then 1 else 1 + NumDigits(x / 10)
  }

  /** A coefficient fits in p digits exactly when it is below 10^p. */
  lemma NumDigitsWithin(x: nat, p: nat)
    ensures NumDigits(x) <= p <==> 1 <= p && x < Pow10(p)
  {
    var r := NumDigits(x);
    if r <= p {
      Pow10Monotone(r, p);
    } else if 1 <= p {
      Pow10Monotone(p, r - 1);
    }
  }

  /** The digit of weight 10^k in x. */
  function DigitAt(x: nat, k: nat): (d: nat)
    ensures d < 10
  {
    (x / Pow10(k)) % 10
  }

  /** The last k+1 digits of x are its digit of weight 10^k followed by its last k digits. */
  lemma ModSplit(x: nat, k: nat)
    ensures x % Pow10(k + 1) == DigitAt(x, k) * Pow10(k) + x % Pow10(k)
  {
    var p := Pow10(k);
    var a, b := x / p, x % p;
    var c, d := a / 10, a % 10;
    assert x == a * p + b;
    assert a * p == (10 * c + d) * p;
    assert (10 * c + d) * p == c * (10 * p) + d * p;
    MulLe(d, 9, p);
    assert Pow10(k + 1) == 10 * p;
    DivModUnique(x, 10 * p, c, d * p + b);
  }

  lemma HalfOfTenUnits(r: int, d: int, b: int, p: int)
    requires 0 <= d < 10 && 0 <= b < p && r == d * p + b
    ensures 2 * r >= 10 * p <==> d >= 5
  {
    if d >= 5 {
      MulLe(5, d, p);
    } else {
      MulLe(d, 4, p);
    }
  }

  /**
    What is left below the k-th place (k >= 1) is at least half a unit of
    that place exactly when the first discarded digit is 5 or more.
   */
  lemma HalfOfPlace(x: nat, k: nat)
    requires 1 <= k
    ensures 2 * (x % Pow10(k)) >= Pow10(k) <==> DigitAt(x, k - 1) >= 5
  {
    var j := k - 1;
    var p := Pow10(j);
    ModSplit(x, j);
    assert j + 1 == k;
    var r := x % Pow10(k);
    assert r == DigitAt(x, j) * p + x % p;
    assert Pow10(k) == 10 * p;
    HalfOfTenUnits(r, DigitAt(x, j), x % p, p);
  }
}

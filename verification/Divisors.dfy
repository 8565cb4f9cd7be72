/** Greatest common divisors, as far as the period of the register needs them. */
module Divisors {
  function Gcd(a: nat, b: nat): nat
    decreases b
  {
    if b == 0 then a else Gcd(b, a % b)
  }

  lemma {:induction false} Remainder(a: nat, b: nat)
    requires b > 0
    ensures a == b * (a / b) + a % b
  {
  }

  lemma {:induction false} ProductGrows(x: nat, y: nat, a: nat, b: nat)
    ensures x >= a && y >= b ==> x * y >= a * b
  {
    if x >= a && y >= b {
      assert x * y >= a * y >= a * b;
    }
  }

  lemma {:induction false} AwayFromZero(d: nat, k: int)
    ensures (k >= 1 ==> d * k >= d) && (k <= -1 ==> d * k + d <= 0)
  {
  }

  lemma {:induction false} Distributes(d: nat, k: int, l: int)
    ensures d * (k - l) == d * k - d * l
  {
  }

  /** The greatest common divisor divides both. */
  lemma {:induction false} GcdDivides(a: nat, b: nat) returns (x: nat, y: nat)
    ensures a == x * Gcd(a, b) && b == y * Gcd(a, b)
    decreases b
  {
    if b == 0 {
      x, y := 1, 0;
    } else {
      var g, q, z := Gcd(b, a % b), a / b, 0;
      y, z := GcdDivides(b, a % b);
      x := y * q + z;
      Remainder(a, b);
      calc {
        a;
        b * q + a % b;
        (y * g) * q + z * g;
        x * g;
      }
    }
  }

  /** Every common divisor divides it. */
  lemma {:induction false} GcdGreatest(a: nat, b: nat, d: nat, x: nat, y: nat) returns (z: nat)
    requires a == x * d && b == y * d
    ensures Gcd(a, b) == z * d
    decreases b
  {
    if b == 0 {
      z := x;
    } else {
      var q := a / b;
      Remainder(a, b);
      assert a % b == (x - y * q) * d by {
        assert b * q == (y * q) * d;
      }
      AwayFromZero(d, x - y * q);
      z := GcdGreatest(b, a % b, d, y, x - y * q);
    }
  }

  lemma {:induction false} Scaled(b: nat, q: nat, r: nat, c: nat)
    ensures (b * q + r) * c == (b * c) * q + r * c
  {
    calc {
      (b * q + r) * c;
      (b * q) * c + r * c;
      (b * c) * q + r * c;
    }
  }

  lemma {:induction false} ScaledRemainder(a: nat, b: nat, c: nat)
    requires b > 0 && c > 0
    ensures b * c > 0 && (a * c) % (b * c) == (a % b) * c
  {
    var q, r := a / b, a % b;
    Remainder(a, b);
    Scaled(b, q, r, c);
    Distributes(c, b, r);
    AwayFromZero(c, b - r);
    UniqueRemainder(a * c, b * c, q, r * c);
  }

  lemma {:induction false} UniqueRemainder(n: nat, d: nat, q: nat, r: nat)
    requires n == d * q + r && r < d
    ensures n % d == r
  {
    Remainder(n, d);
    var q' := n / d;
    Distributes(d, q, q');
    AwayFromZero(d, q - q');
  }

  lemma {:induction false} GcdScales(a: nat, b: nat, c: nat)
    requires c > 0
    ensures Gcd(a * c, b * c) == Gcd(a, b) * c
    decreases b
  {
    if b == 0 {
    } else {
      ScaledRemainder(a, b, c);
      GcdScales(b, a % b, c);
    }
  }

  lemma {:induction false} CancelFactor(p: nat, m: nat, n: nat)
    requires p > 0 && p * m == p * n
    ensures m == n
  {
    Distributes(p, m, n);
    AwayFromZero(p, m - n);
  }

  /** A number prime to k that divides g * k divides g. */
  lemma {:induction false} Cancel(p: nat, m: nat, g: nat, k: nat) returns (g': nat)
    requires p > 0 && g > 0 && Gcd(p, k) == 1 && p * m == g * k
    ensures g == g' * p && m == g' * k
  {
    GcdScales(p, k, g);
    g' := GcdGreatest(p * g, k * g, p, g, m);
    Regroup(p, m, g, k, g');
    CancelFactor(p, m, g' * k);
  }

  lemma {:induction false} Regroup(p: nat, m: nat, g: nat, k: nat, g': nat)
    requires p * m == g * k && g == g' * p
    ensures p * m == p * (g' * k)
  {
    calc {
      g * k;
      (g' * p) * k;
      p * (g' * k);
    }
  }

  // ----- The factors of 2^24 - 1 -----

  lemma {:induction false} SmallPrime(p: nat, x: nat, g: nat)
    requires p in {3, 5, 7, 13, 17} && p == x * g
    ensures x == 1 || g == 1
  {
    ProductGrows(x, g, 5, 5);
    if x < 5 {
      assert x == 0 || x == 1 || x == 2 || x == 3 || x == 4;
    } else {
      assert g == 0 || g == 1 || g == 2 || g == 3 || g == 4;
    }
  }

  lemma {:induction false} PrimeTo(p: nat, k: nat)
    requires p in {3, 5, 7, 13, 17} && k % p != 0
    ensures Gcd(p, k) == 1
  {
    var x, y := GcdDivides(p, k);
    SmallPrime(p, x, Gcd(p, k));
    if x == 1 {
      UniqueRemainder(k, p, y, 0);
    }
  }

  lemma {:induction false} LargestPrime(x: nat, g: nat)
    requires 241 == x * g && x <= 15
    ensures x == 1
  {
    assert x == 0 || x == 1 || x == 2 || x == 3 || x == 4 || x == 5 || x == 6 || x == 7 || x == 8 || x == 9
        || x == 10 || x == 11 || x == 12 || x == 13 || x == 14 || x == 15;
  }

  /** 2^24 - 1 is 9 * 5 * 7 * 13 * 17 * 241: one of these primes divides any factor but one. */
  lemma {:induction false} FactorOfOrder(g: nat, k: nat) returns (q: nat)
    requires 0xff_ffff == g * k && k >= 2
    ensures q in {3, 5, 7, 13, 17, 241} && k % q == 0
  {
    if p :| p in {3, 5, 7, 13, 17} && k % p == 0 {
      q := p;
    } else {
      PrimeTo(3, k);
      PrimeTo(5, k);
      PrimeTo(7, k);
      PrimeTo(13, k);
      PrimeTo(17, k);
      var h := Cancel(3, 0x55_5555, g, k);
      h := Cancel(3, 1864135, h, k);
      h := Cancel(5, 372827, h, k);
      h := Cancel(7, 53261, h, k);
      h := Cancel(13, 4097, h, k);
      h := Cancel(17, 241, h, k);
      ProductGrows(h, k, 16, 16);
      if k <= 15 {
        LargestPrime(k, h);
      } else {
        LargestPrime(h, k);
      }
      q := 241;
    }
  }
}

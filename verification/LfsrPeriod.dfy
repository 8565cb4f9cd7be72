/** The register of peer indices goes through all 2^24 - 1 states before it returns to its seed. */
module LfsrPeriod {
  import opened IndexLfsr
  import opened LfsrField
  import opened Divisors

  const ORDER: nat := 0xff_ffff

  // ----- Steps as products -----

  /** One step of the register, n times from one. */
  function Power(n: nat): Word { if n == 0 then ONE else Step(Power(n - 1)) }

  lemma {:induction false} PowerFits(n: nat)
    ensures Fits(Power(n))
  {
    if n == 0 {
    } else {
      PowerFits(n - 1);
      StepInverts(Power(n - 1));
    }
  }

  /** n steps from any state are one product. */
  lemma {:induction false} StepsAreProduct(w: Word, n: nat)
    requires Fits(w)
    ensures Times(w, Power(0), 24) == w && Times(w, Power(n + 1), 24) == Step(Times(w, Power(n), 24))
  {
    FitsIsShort(w);
    ShortTimesOne(w, 24);
    PowerFits(n);
    TimesStep(w, Power(n), 24);
  }

  lemma {:induction false} StateIsProduct(seed: bv32, n: nat)
    requires Proper(seed)
    ensures Word(State(seed, n)) == Times(Word(seed), Power(n), 24)
    decreases n
  {
    if n == 0 {
      StepsAreProduct(Word(seed), 0);
    } else {
      StateIsProduct(seed, n - 1);
      StepsAreProduct(Word(seed), n - 1);
    }
  }

  lemma {:induction false} PowersAdd(m: nat, n: nat)
    ensures Power(m + n) == Times(Power(m), Power(n), 24)
    decreases n
  {
    PowerFits(m);
    if n == 0 {
      StepsAreProduct(Power(m), 0);
    } else {
      PowersAdd(m, n - 1);
      StepsAreProduct(Power(m), n - 1);
    }
  }

  lemma {:induction false} Sum(m: nat, n: nat, a: bv32, b: bv32, c: bv32)
    requires Power(m) == Word(a) && Power(n) == Word(b) && Mul(Word(a), Word(b)) == Word(c)
    ensures Power(m + n) == Word(c)
  {
    PowersAdd(m, n);
    MulIsTimes(Word(a), Word(b));
  }

  // ----- The powers that matter -----

  // Each line adds two exponents; the product of the two literals is what the verifier computes.  The
  // exponents wanted are 2^24 - 1 and its quotients by 3, 5, 7, 13, 17 and 241.

  lemma {:induction false} PowerOne()
    ensures Power(1) == Word(0xd80000)
  {
    assert Power(0) == ONE;
  }

  lemma {:induction false} Powers1()
    ensures Power(2) == Word(0x6c0000) && Power(4) == Word(0x1b0000) && Power(8) == Word(0x1b000)
    ensures Power(0x20) == Word(0x14500) && Power(0x40) == Word(0x4101db)
  {
    PowerOne();
    Sum(1, 1, 0xd80000, 0xd80000, 0x6c0000);
    Sum(2, 2, 0x6c0000, 0x6c0000, 0x1b0000);
    Sum(4, 4, 0x1b0000, 0x1b0000, 0x1b000);
    Sum(8, 8, 0x1b000, 0x1b000, 0x1b0);
    Sum(0x10, 0x10, 0x1b0, 0x1b0, 0x14500);
    Sum(0x20, 0x20, 0x14500, 0x14500, 0x4101db);
  }

  lemma {:induction false} Powers2()
    ensures Power(0x80) == Word(0x1d2145) && Power(0x100) == Word(0xe0bb7b) && Power(0x200) == Word(0xdfbf98)
    ensures Power(0x400) == Word(0xc95b9d) && Power(0x800) == Word(0x888797) && Power(0x1000) == Word(0x84f7bf)
  {
    Powers1();
    Sum(0x40, 0x40, 0x4101db, 0x4101db, 0x1d2145);
    Sum(0x80, 0x80, 0x1d2145, 0x1d2145, 0xe0bb7b);
    Sum(0x100, 0x100, 0xe0bb7b, 0xe0bb7b, 0xdfbf98);
    Sum(0x200, 0x200, 0xdfbf98, 0xdfbf98, 0xc95b9d);
    Sum(0x400, 0x400, 0xc95b9d, 0xc95b9d, 0x888797);
    Sum(0x800, 0x800, 0x888797, 0x888797, 0x84f7bf);
  }

  lemma {:induction false} Powers3()
    ensures Power(0x10000) == Word(0x47387d) && Power(0x10101) == Word(0xf72b4b)
  {
    Powers2();
    PowerOne();
    Sum(0x1000, 0x1000, 0x84f7bf, 0x84f7bf, 0xc49e53);
    Sum(0x2000, 0x2000, 0xc49e53, 0xc49e53, 0xd9bbdf);
    Sum(0x4000, 0x4000, 0xd9bbdf, 0xd9bbdf, 0x2950e5);
    Sum(0x8000, 0x8000, 0x2950e5, 0x2950e5, 0x47387d);
    Sum(1, 0x100, 0xd80000, 0xe0bb7b, 0xa85dbd);
    Sum(0x101, 0x10000, 0xa85dbd, 0x47387d, 0xf72b4b);
  }

  lemma {:induction false} Powers4()
    ensures Power(0x20202) == Word(0x7e675e) && Power(0x40404) == Word(0x5fd14f) && Power(0x80808) == Word(0xfccd8f)
    ensures Power(0x101010) == Word(0xca4038) && Power(0x202020) == Word(0x2dc55c) && Power(0x404040) == Word(0xe6613d)
  {
    Powers3();
    Sum(0x10101, 0x10101, 0xf72b4b, 0xf72b4b, 0x7e675e);
    Sum(0x20202, 0x20202, 0x7e675e, 0x7e675e, 0x5fd14f);
    Sum(0x40404, 0x40404, 0x5fd14f, 0x5fd14f, 0xfccd8f);
    Sum(0x80808, 0x80808, 0xfccd8f, 0xfccd8f, 0xca4038);
    Sum(0x101010, 0x101010, 0xca4038, 0xca4038, 0x2dc55c);
    Sum(0x202020, 0x202020, 0x2dc55c, 0x2dc55c, 0xe6613d);
  }

  lemma {:induction false} Powers5()
    ensures Power(0x333333) == Word(0xd77902) && Power(0xf0f0f) == Word(0xcdd5b0) && Power(0x50505) == Word(0xf6cf12)
  {
    Powers3();
    Powers4();
    Sum(0x10101, 0x20202, 0xf72b4b, 0x7e675e, 0x1d393a);
    Sum(0x101010, 0x202020, 0xca4038, 0x2dc55c, 0x205249);
    Sum(0x30303, 0x303030, 0x1d393a, 0x205249, 0xd77902);
    Sum(0x40404, 0x80808, 0x5fd14f, 0xfccd8f, 0xb5c33f);
    Sum(0x30303, 0xc0c0c, 0x1d393a, 0xb5c33f, 0xcdd5b0);
    Sum(0x10101, 0x40404, 0xf72b4b, 0x5fd14f, 0xf6cf12);
  }

  lemma {:induction false} Powers6()
    ensures Power(0x555555) == Word(0x84db00) && Power(0x1001) == Word(0x9a7bdf) && Power(0x2002) == Word(0x852794)
    ensures Power(0x8008) == Word(0x855950)
  {
    Powers2();
    Powers4();
    Powers5();
    PowerOne();
    Sum(0x101010, 0x404040, 0xca4038, 0xe6613d, 0x1cdd62);
    Sum(0x50505, 0x505050, 0xf6cf12, 0x1cdd62, 0x84db00);
    Sum(1, 0x1000, 0xd80000, 0x84f7bf, 0x9a7bdf);
    Sum(0x1001, 0x1001, 0x9a7bdf, 0x9a7bdf, 0x852794);
    Sum(0x2002, 0x2002, 0x852794, 0x852794, 0x949bbd);
    Sum(0x4004, 0x4004, 0x949bbd, 0x949bbd, 0x855950);
  }

  lemma {:induction false} Powers7()
    ensures Power(0x10010) == Word(0x20cbb7) && Power(0x20020) == Word(0x25909) && Power(0x40040) == Word(0xf10740)
    ensures Power(0x100100) == Word(0x6dc96a) && Power(0x200200) == Word(0xba15ee)
  {
    Powers6();
    Sum(0x8008, 0x8008, 0x855950, 0x855950, 0x20cbb7);
    Sum(0x10010, 0x10010, 0x20cbb7, 0x20cbb7, 0x25909);
    Sum(0x20020, 0x20020, 0x25909, 0x25909, 0xf10740);
    Sum(0x40040, 0x40040, 0xf10740, 0xf10740, 0xce7c71);
    Sum(0x80080, 0x80080, 0xce7c71, 0xce7c71, 0x6dc96a);
    Sum(0x100100, 0x100100, 0x6dc96a, 0x6dc96a, 0xba15ee);
  }

  lemma {:induction false} Powers8()
    ensures Power(0x249249) == Word(0x543021) && Power(0x1b01b) == Word(0x74cc19)
  {
    Powers6();
    Powers7();
    Sum(0x1001, 0x8008, 0x9a7bdf, 0x855950, 0x4f5bd4);
    Sum(0x40040, 0x200200, 0xf10740, 0xba15ee, 0x503011);
    Sum(0x9009, 0x240240, 0x4f5bd4, 0x503011, 0x543021);
    Sum(0x1001, 0x2002, 0x9a7bdf, 0x852794, 0x826ef5);
    Sum(0x8008, 0x10010, 0x855950, 0x20cbb7, 0x4902ec);
    Sum(0x3003, 0x18018, 0x826ef5, 0x4902ec, 0x74cc19);
  }

  lemma {:induction false} Powers9()
    ensures Power(0x13b13b) == Word(0x329b48) && Power(0xf) == Word(0x360) && Power(0xc0) == Word(0xf5f500)
  {
    Powers1();
    Powers2();
    Powers7();
    Powers8();
    PowerOne();
    Sum(0x20020, 0x100100, 0x25909, 0x6dc96a, 0x90c85);
    Sum(0x1b01b, 0x120120, 0x74cc19, 0x90c85, 0x329b48);
    Sum(1, 2, 0xd80000, 0x6c0000, 0x360000);
    Sum(4, 8, 0x1b0000, 0x1b000, 0x1b00);
    Sum(3, 0xc, 0x360000, 0x1b00, 0x360);
    Sum(0x40, 0x80, 0x4101db, 0x1d2145, 0xf5f500);
  }

  lemma {:induction false} Powers10()
    ensures Power(0xfef) == Word(0x1fc842)
  {
    Powers1();
    Powers2();
    Powers9();
    Sum(0x100, 0x200, 0xe0bb7b, 0xdfbf98, 0x77ef5);
    Sum(0xc0, 0x300, 0xf5f500, 0x77ef5, 0x21356c);
    Sum(0x400, 0x800, 0xc95b9d, 0x888797, 0xe8eeb7);
    Sum(0x3c0, 0xc00, 0x21356c, 0xe8eeb7, 0x6871ec);
    Sum(0x20, 0xfc0, 0x14500, 0x6871ec, 0x210bc0);
    Sum(0xf, 0xfe0, 0x360, 0x210bc0, 0x1fc842);
  }

  lemma {:induction false} Powers11()
    ensures Power(0x10fef) == Word(0x7cc215) && Power(0xffffff) == Word(0x1)
  {
    Powers3();
    Powers6();
    Powers10();
    Sum(0xfef, 0x10000, 0x1fc842, 0x47387d, 0x7cc215);
    Sum(0x555555, 0x555555, 0x84db00, 0x84db00, 0x84db01);
    Sum(0x555555, 0xaaaaaa, 0x84db00, 0x84db01, 0x1);
  }

  // ----- Where the register does not return -----

  lemma {:induction false} XorSelf(w: Word)
    ensures Xor(w, w) == ZERO
  {
  }

  /** A state stays where it is only under one: if c - 1 has an inverse d, only zero stays under c. */
  lemma {:induction false} OnlyZeroStays(w: Word, c: Word, d: Word)
    requires Fits(w) && Times(d, Xor(c, ONE), 24) == ONE && Times(w, c, 24) == w
    ensures w == ZERO
  {
    FitsIsShort(w);
    ShortTimesOne(w, 24);
    TimesXor(w, c, ONE, 24);
    XorSelf(w);
    TimesCommute(w, 24, d, 24, Xor(c, ONE));
    TimesZero(d, 24);
  }

  lemma {:induction false} Moves(seed: bv32, n: nat, c: bv32, d: bv32)
    requires Proper(seed) && Power(n) == Word(c) && Mul(Word(d), Xor(Word(c), ONE)) == ONE
    ensures State(seed, n) != seed
  {
    StateIsProduct(seed, n);
    MulIsTimes(Word(d), Xor(Word(c), ONE));
    if State(seed, n) == seed {
      OnlyZeroStays(Word(seed), Word(c), Word(d));
    }
  }

  lemma {:induction false} SmallCofactors(seed: bv32)
    requires Proper(seed)
    ensures State(seed, 0x555555) != seed
    ensures State(seed, 0x333333) != seed
    ensures State(seed, 0x249249) != seed
  {
    Powers5();
    Powers6();
    Powers8();
    Moves(seed, 0x555555, 0x84db00, 0x84db00);
    Moves(seed, 0x333333, 0xd77902, 0x6ec970);
    Moves(seed, 0x249249, 0x543021, 0x5daead);
  }

  lemma {:induction false} LargeCofactors(seed: bv32)
    requires Proper(seed)
    ensures State(seed, 0x13b13b) != seed
    ensures State(seed, 0xf0f0f) != seed
    ensures State(seed, 0x10fef) != seed
  {
    Powers5();
    Powers9();
    Powers11();
    Moves(seed, 0x13b13b, 0x329b48, 0x783c39);
    Moves(seed, 0xf0f0f, 0xcdd5b0, 0x79f2d7);
    Moves(seed, 0x10fef, 0x7cc215, 0xb7f062);
  }

  /** Of all proper divisors of 2^24 - 1 it is enough to look at the largest. */
  lemma {:induction false} CofactorsMove(seed: bv32, q: nat)
    requires Proper(seed) && q in {3, 5, 7, 13, 17, 241}
    ensures State(seed, ORDER / q) != seed
  {
    SmallCofactors(seed);
    LargeCofactors(seed);
  }

  lemma {:induction false} OrderReturns(seed: bv32)
    requires Proper(seed)
    ensures State(seed, ORDER) == seed
  {
    Powers11();
    StateIsProduct(seed, ORDER);
    StepsAreProduct(Word(seed), 0);
  }

  // ----- The steps after which a state returns -----

  lemma {:induction false} StatesAdd(seed: bv32, m: nat, n: nat)
    requires Proper(seed)
    ensures State(seed, m + n) == State(State(seed, m), n)
    decreases n
  {
    if n == 0 {
    } else {
      StatesAdd(seed, m, n - 1);
    }
  }

  lemma {:induction false} RoundsDoNotCount(seed: bv32, m: nat, k: nat, r: nat)
    requires Proper(seed) && State(seed, m) == seed
    ensures State(seed, k * m + r) == State(seed, r)
    decreases k
  {
    if k == 0 {
    } else {
      RoundsDoNotCount(seed, m, k - 1, r);
      StatesAdd(seed, m, (k - 1) * m + r);
      assert k * m + r == m + ((k - 1) * m + r);
    }
  }

  lemma {:induction false} ReturnsModulo(seed: bv32, m: nat, n: nat)
    requires Proper(seed) && m > 0 && State(seed, m) == seed
    ensures State(seed, n) == State(seed, n % m)
  {
    var k, r := n / m, n % m;
    Remainder(n, m);
    RoundsDoNotCount(seed, m, k, r);
  }

  lemma {:induction false} ReturnsGcd(seed: bv32, m: nat, n: nat)
    requires Proper(seed) && State(seed, m) == seed && State(seed, n) == seed
    ensures State(seed, Gcd(m, n)) == seed
    decreases n
  {
    if n == 0 {
    } else {
      ReturnsModulo(seed, n, m);
      ReturnsGcd(seed, n, m % n);
    }
  }

  // ----- The period -----

  lemma {:induction false} NotThere(seed: bv32, g: nat, k: nat, q: nat)
    requires Proper(seed) && q in {3, 5, 7, 13, 17, 241} && ORDER == g * k && k % q == 0
    ensures State(seed, g) != seed
  {
    var j := k / q;
    assert ORDER / q == j * g by {
      assert k == q * j;
      assert ORDER == q * (j * g);
    }
    CofactorsMove(seed, q);
    if State(seed, g) == seed {
      RoundsDoNotCount(seed, g, j, 0);
    }
  }

  /** The register returns to its seed after 2^24 - 1 steps and not before. */
  lemma {:induction false} ReturnsIff(seed: bv32, n: nat)
    requires Proper(seed)
    ensures State(seed, n) == seed <==> n % ORDER == 0
  {
    OrderReturns(seed);
    ReturnsModulo(seed, ORDER, n);
    var r := n % ORDER;
    if r > 0 && State(seed, r) == seed {
      ReturnsGcd(seed, ORDER, r);
      var g := Gcd(ORDER, r);
      var k, y := GcdDivides(ORDER, r);
      assert k >= 2 by {
        assert g <= r by { AwayFromZero(g, y); }
      }
      var q := FactorOfOrder(g, k);
      NotThere(seed, g, k, q);
    }
  }

  /** So the assertion of the generator, that it has not returned, holds for 2^24 - 2 indices and fails at
      the next one, whatever seed and mask are. */
  lemma {:induction false} ExhaustedIff(l: IndexLfsr)
    requires l.Valid()
    ensures Shift(l.lfsr) == l.initial <==> |l.issued| == 0xff_fffe
  {
    var n := |l.issued|;
    ReturnsIff(l.initial, n + 1);
    if n >= ORDER {
      ReturnsIff(l.initial, ORDER);
    }
  }
}

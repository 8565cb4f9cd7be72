/** The register of peer indices as a field of 2^24 elements: a step multiplies by a fixed element, so any
    number of steps is one product. */
module LfsrField {
  import opened IndexLfsr

  /** A polynomial over two elements, bit i the coefficient of x^i, modulo x^24 + x^23 + x^21 + x^20 + 1. */
  datatype Word = Word(bits: bv32)

  const ZERO := Word(0)
  const ONE := Word(1)

  predicate Fits(w: Word) { w.bits <= LFSR_MAX }

  function Xor(a: Word, b: Word): Word { Word(a.bits ^ b.bits) }

  /** A step of the register: division by x. */
  function Step(w: Word): Word { Word(Shift(w.bits)) }

  /** Multiplication by x. */
  function Grow(w: Word): Word { Word((w.bits << 1) ^ ((0 - ((w.bits >> 23) & 1)) & 0x1b00001)) }

  function Half(w: Word): Word { Word(w.bits >> 1) }

  /** One step of Horner's rule. */
  function Acc(a: Word, s: Word, r: Word): Word {
    Word(((0 - (a.bits & 1)) & s.bits) ^ (r.bits << 1) ^ ((0 - ((r.bits >> 23) & 1)) & 0x1b00001))
  }

  /** The product of the lowest n coefficients of a with s. */
  function Times(a: Word, s: Word, n: nat): Word
    decreases n
  {
    if n == 0 then ZERO else Acc(a, s, Times(Half(a), s, n - 1))
  }

  // ----- The product written out -----

  function Six(a: Word, s: Word, r: Word): Word {
    var a1 := Half(a); var a2 := Half(a1); var a3 := Half(a2); var a4 := Half(a3); var a5 := Half(a4);
    Acc(a, s, Acc(a1, s, Acc(a2, s, Acc(a3, s, Acc(a4, s, Acc(a5, s, r))))))
  }

  function Drop(a: Word): Word { Half(Half(Half(Half(Half(Half(a)))))) }

  function Mul(a: Word, s: Word): Word {
    Six(a, s, Six(Drop(a), s, Six(Drop(Drop(a)), s, Six(Drop(Drop(Drop(a))), s, ZERO))))
  }

  lemma {:induction false} TimesOnce(a: Word, s: Word, n: nat)
    ensures Times(a, s, n + 1) == Acc(a, s, Times(Half(a), s, n))
  {
  }

  lemma {:induction false} TimesSix(a: Word, s: Word, n: nat)
    ensures Times(a, s, n + 6) == Six(a, s, Times(Drop(a), s, n))
  {
    var a1 := Half(a);
    var a2 := Half(a1);
    var a3 := Half(a2);
    var a4 := Half(a3);
    TimesOnce(a, s, n + 5);
    TimesOnce(a1, s, n + 4);
    TimesOnce(a2, s, n + 3);
    TimesOnce(a3, s, n + 2);
    TimesOnce(a4, s, n + 1);
    TimesOnce(Half(a4), s, n);
  }

  lemma {:induction false} MulIsTimes(a: Word, s: Word)
    ensures Mul(a, s) == Times(a, s, 24)
  {
    TimesSix(Drop(Drop(Drop(a))), s, 0);
    TimesSix(Drop(Drop(a)), s, 6);
    TimesSix(Drop(a), s, 12);
    TimesSix(a, s, 18);
  }

  // ----- Laws -----

  lemma {:induction false} StepInverts(w: Word)
    requires Fits(w)
    ensures Fits(Step(w)) && Grow(Step(w)) == w
  {
  }

  lemma {:induction false} GrowInverts(w: Word)
    requires Fits(w)
    ensures Fits(Grow(w)) && Step(Grow(w)) == w
  {
  }

  lemma {:induction false} GrowXor(a: Word, b: Word)
    ensures Grow(Xor(a, b)) == Xor(Grow(a), Grow(b))
  {
  }

  lemma {:induction false} AccForm(a: Word, s: Word, r: Word)
    ensures Acc(a, s, r) == if a.bits & 1 == 1 then Xor(s, Grow(r)) else Grow(r)
  {
  }

  lemma {:induction false} XorSwaps(a: Word, b: Word, c: Word, d: Word)
    ensures Xor(Xor(a, b), Xor(c, d)) == Xor(Xor(a, c), Xor(b, d))
  {
  }

  lemma {:induction false} AccFits(a: Word, s: Word, r: Word)
    requires Fits(s) && Fits(r)
    ensures Fits(Acc(a, s, r))
  {
  }

  lemma {:induction false} AccXor(a: Word, s: Word, r: Word, s': Word, r': Word)
    ensures Acc(a, Xor(s, s'), Xor(r, r')) == Xor(Acc(a, s, r), Acc(a, s', r'))
  {
    AccForm(a, Xor(s, s'), Xor(r, r'));
    AccForm(a, s, r);
    AccForm(a, s', r');
    GrowXor(r, r');
    XorSwaps(s, s', Grow(r), Grow(r'));
  }

  lemma {:induction false} AccGrow(a: Word, s: Word, r: Word)
    ensures Acc(a, Grow(s), Grow(r)) == Grow(Acc(a, s, r))
  {
    AccForm(a, Grow(s), Grow(r));
    AccForm(a, s, r);
    GrowXor(s, Grow(r));
  }

  lemma {:induction false} TimesFits(a: Word, s: Word, n: nat)
    requires Fits(s)
    ensures Fits(Times(a, s, n))
    decreases n
  {
    if n == 0 {
    } else {
      TimesFits(Half(a), s, n - 1);
      AccFits(a, s, Times(Half(a), s, n - 1));
    }
  }

  lemma {:induction false} TimesXor(a: Word, s: Word, t: Word, n: nat)
    ensures Times(a, Xor(s, t), n) == Xor(Times(a, s, n), Times(a, t, n))
    decreases n
  {
    if n == 0 {
    } else {
      TimesXor(Half(a), s, t, n - 1);
      AccXor(a, s, Times(Half(a), s, n - 1), t, Times(Half(a), t, n - 1));
    }
  }

  lemma {:induction false} TimesGrow(a: Word, s: Word, n: nat)
    ensures Times(a, Grow(s), n) == Grow(Times(a, s, n))
    decreases n
  {
    if n == 0 {
    } else {
      TimesGrow(Half(a), s, n - 1);
      AccGrow(a, s, Times(Half(a), s, n - 1));
    }
  }

  lemma {:induction false} TimesStep(a: Word, s: Word, n: nat)
    requires Fits(s)
    ensures Times(a, Step(s), n) == Step(Times(a, s, n))
  {
    StepInverts(s);
    TimesGrow(a, Step(s), n);
    TimesFits(a, Step(s), n);
    GrowInverts(Times(a, Step(s), n));
  }

  /** Products commute with each other. */
  lemma {:induction false} TimesCommute(a: Word, n: nat, b: Word, m: nat, c: Word)
    ensures Times(a, Times(b, c, m), n) == Times(b, Times(a, c, n), m)
    decreases m
  {
    if m == 0 {
      TimesZero(a, n);
    } else {
      var rest := Times(Half(b), c, m - 1);
      TimesCommute(a, n, Half(b), m - 1, c);
      AccForm(b, c, rest);
      AccForm(b, Times(a, c, n), Times(a, rest, n));
      TimesGrow(a, rest, n);
      TimesXor(a, c, Grow(rest), n);
    }
  }

  lemma {:induction false} TimesZero(a: Word, n: nat)
    ensures Times(a, ZERO, n) == ZERO
    decreases n
  {
    if n == 0 {
    } else {
      TimesZero(Half(a), n - 1);
    }
  }

  /** All coefficients from n on are zero. */
  predicate Short(w: Word, n: nat)
    decreases n
  {
    if n == 0 then w == ZERO else Short(Half(w), n - 1)
  }

  lemma {:induction false} ShortBySix(w: Word, n: nat)
    requires Short(Drop(w), n)
    ensures Short(w, n + 6)
  {
    var w1 := Half(w);
    var w2 := Half(w1);
    var w3 := Half(w2);
    var w4 := Half(w3);
    var w5 := Half(w4);
    assert Short(w5, n + 1) && Short(w4, n + 2) && Short(w3, n + 3) && Short(w2, n + 4) && Short(w1, n + 5);
  }

  lemma {:induction false} DropIsShift(w: Word)
    ensures Drop(w).bits == w.bits >> 6
  {
  }

  lemma {:induction false} FourDrops(w: Word)
    requires Fits(w)
    ensures Drop(Drop(Drop(Drop(w)))) == ZERO
  {
    var w1, w2 := Drop(w), Drop(Drop(w));
    DropIsShift(w);
    DropIsShift(w1);
    DropIsShift(w2);
    DropIsShift(Drop(w2));
  }

  lemma {:induction false} FitsIsShort(w: Word)
    requires Fits(w)
    ensures Short(w, 24)
  {
    FourDrops(w);
    ShortBySix(Drop(Drop(Drop(w))), 0);
    ShortBySix(Drop(Drop(w)), 6);
    ShortBySix(Drop(w), 12);
    ShortBySix(w, 18);
  }

  lemma {:induction false} AccOne(w: Word)
    requires Fits(w)
    ensures Fits(Half(w)) && Acc(w, ONE, Half(w)) == w
  {
  }

  lemma {:induction false} ShortTimesOne(w: Word, n: nat)
    requires Fits(w) && Short(w, n)
    ensures Times(w, ONE, n) == w
    decreases n
  {
    if n == 0 {
    } else {
      AccOne(w);
      ShortTimesOne(Half(w), n - 1);
    }
  }
}

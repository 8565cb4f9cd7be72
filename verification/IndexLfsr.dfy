/** The generator of peer indices (boringtun/src/device/mod.rs, `IndexLfsr`). */
module IndexLfsr {

  const LFSR_MAX: bv32 := 0xffffff
  const LFSR_POLY: bv32 := 0xd80000

  /** A state the register can be in: 24 bits, not all zero. */
  predicate Proper(x: bv32) { 0 < x <= LFSR_MAX }

  function Shift(x: bv32): bv32 {
    (x >> 1) ^ ((0 - (x & 1)) & LFSR_POLY)
  }

  /** The state before: bit 23 tells whether the polynomial was applied. */
  function Unshift(y: bv32): bv32 {
    if y & 0x800000 != 0 then ((y ^ LFSR_POLY) << 1) | 1 else y << 1
  }

  /** One step keeps the register proper and loses nothing. */
  lemma {:induction false} ShiftInverts(x: bv32)
    requires Proper(x)
    ensures Proper(Shift(x)) && Unshift(Shift(x)) == x
  {
  }

  /** The register after n steps. */
  function State(seed: bv32, n: nat): (x: bv32)
    requires Proper(seed)
    ensures Proper(x)
  {
    if n == 0 then seed
    else
      ShiftInverts(State(seed, n - 1));
      Shift(State(seed, n - 1))
  }

  /** The first `n` steps have not come back to the seed. */
  predicate NoReturn(seed: bv32, n: nat)
    requires Proper(seed)
  {
    forall k | 0 < k <= n :: State(seed, k) != seed
  }

  /** Two equal states can be walked back in step until the earlier one is the seed. */
  lemma {:induction false} WalkBack(seed: bv32, i: nat, j: nat)
    requires Proper(seed) && i <= j && State(seed, i) == State(seed, j)
    ensures State(seed, j - i) == seed
  {
    if i == 0 {
    } else {
      ShiftInverts(State(seed, i - 1));
      ShiftInverts(State(seed, j - 1));
      WalkBack(seed, i - 1, j - 1);
    }
  }

  lemma {:induction false} StatesDistinct(seed: bv32, n: nat, i: nat, j: nat)
    requires Proper(seed) && NoReturn(seed, n) && i < j <= n
    ensures State(seed, i) != State(seed, j)
  {
    assert State(seed, j - i) != seed;
    if State(seed, i) == State(seed, j) {
      WalkBack(seed, i, j);
    }
  }

  /** What is handed out for a register state. */
  function Masked(x: bv32, mask: bv32): bv32 { (x - 1) ^ mask }

  lemma {:induction false} XorInjective(a: bv32, b: bv32, m: bv32)
    requires a ^ m == b ^ m
    ensures a == b
  {
  }

  lemma {:induction false} DecrementInjective(x: bv32, y: bv32)
    requires x - 1 == y - 1
    ensures x == y
  {
  }

  lemma {:induction false} XorFits(a: bv32, m: bv32)
    requires a <= LFSR_MAX && m <= LFSR_MAX
    ensures a ^ m <= LFSR_MAX
  {
  }

  lemma {:induction false} MaskInjective(x: bv32, y: bv32, mask: bv32)
    requires Masked(x, mask) == Masked(y, mask)
    ensures x == y
  {
    XorInjective(x - 1, y - 1, mask);
    DecrementInjective(x, y);
  }

  lemma {:induction false} MaskFits(x: bv32, mask: bv32)
    requires Proper(x) && mask <= LFSR_MAX
    ensures Masked(x, mask) <= LFSR_MAX
  {
    var a := x - 1;
    assert a <= LFSR_MAX;
    XorFits(a, mask);
  }

  /** The indices are all 24-bit values but the complement of the mask, each from one state. */
  lemma {:induction false} MaskReachesAllButOne(v: bv32, mask: bv32)
    requires v <= LFSR_MAX && mask <= LFSR_MAX
    ensures v != mask ^ 0xff_ffff ==> exists x :: Proper(x) && Masked(x, mask) == v
    ensures forall x | Proper(x) :: Masked(x, mask) != mask ^ 0xff_ffff
  {
    if v != mask ^ 0xff_ffff {
      MaskUndone(v, mask);
    }
    forall x | Proper(x)
      ensures Masked(x, mask) != mask ^ 0xff_ffff
    {
      MaskMisses(x, mask);
    }
  }

  lemma {:induction false} MaskUndone(v: bv32, mask: bv32)
    requires v <= LFSR_MAX && mask <= LFSR_MAX && v != mask ^ 0xff_ffff
    ensures
      var x := (v ^ mask) + 1;
      Proper(x) && Masked(x, mask) == v
  {
    XorFits(v, mask);
    assert v ^ mask != 0xff_ffff by {
      XorUndone(v, mask);
    }
    XorUndone(v, mask);
  }

  lemma {:induction false} XorUndone(v: bv32, mask: bv32)
    ensures (v ^ mask) ^ mask == v && mask ^ (v ^ mask) == v
  {
  }

  lemma {:induction false} MaskMisses(x: bv32, mask: bv32)
    requires Proper(x) && mask <= LFSR_MAX
    ensures Masked(x, mask) != mask ^ 0xff_ffff
  {
    if (x - 1) ^ mask == mask ^ 0xff_ffff {
      XorUndone(x - 1, mask);
      XorUndone(0xff_ffff, mask);
    }
  }

  function Narrow(a: bv32): bv24
    requires a <= 0xffffff
  {
    a as bv24
  }

  lemma {:induction false} NarrowInjective(a: bv32, b: bv32)
    requires a <= 0xffffff && b <= 0xffffff && Narrow(a) == Narrow(b)
    ensures a == b
  {
  }

  function Number(a: bv24): (n: nat)
    ensures n < 0x100_0000
  {
    a as nat
  }

  lemma {:induction false} FromNumber(a: bv24, n: nat)
    requires n == Number(a)
    ensures n as bv24 == a
  {
  }

  lemma {:induction false} NumberInjective(a: bv24, b: bv24, n: nat)
    requires Number(a) == Number(b) == n
    ensures a == b
  {
    FromNumber(a, n);
    FromNumber(b, n);
  }

  /** The same index as a number; it has 24 bits. */
  function Key(x: bv32, mask: bv32): (n: nat)
    requires Proper(x) && mask <= LFSR_MAX
    ensures n < 0x100_0000
  {
    MaskFits(x, mask);
    Number(Narrow(Masked(x, mask)))
  }

  lemma {:induction false} KeyInjective(x: bv32, y: bv32, mask: bv32)
    requires Proper(x) && Proper(y) && mask <= LFSR_MAX && Key(x, mask) == Key(y, mask)
    ensures x == y
  {
    MaskFits(x, mask);
    MaskFits(y, mask);
    var a, b := Masked(x, mask), Masked(y, mask);
    NumberInjective(Narrow(a), Narrow(b), Key(x, mask));
    NarrowInjective(a, b);
    MaskInjective(x, y, mask);
  }

  predicate Distinct(s: seq<nat>) {
    forall i, j | 0 <= i < j < |s| :: s[i] != s[j]
  }

  class IndexLfsr {
    const initial: bv32
    const mask: bv32
    var lfsr: bv32
    ghost var issued: seq<nat>

    ghost predicate Valid()
      reads this
    {
      && Proper(initial) && mask <= LFSR_MAX
      && lfsr == State(initial, |issued|) && NoReturn(initial, |issued|)
      && forall i | 0 <= i < |issued| :: issued[i] == Key(State(initial, i), mask)
    }

    /** Both arguments come from `random_index`: 24 bits, not zero. */
    constructor (seed: bv32, mask: bv32)
      requires Proper(seed) && Proper(mask)
      ensures Valid() && issued == []
    {
      initial, lfsr, this.mask, issued := seed, seed, mask, [];
    }

    /** The next index; the source panics instead when the register would return to its seed. */
    method Next() returns (index: nat)
      requires Valid() && Shift(lfsr) != initial
      modifies this
      ensures Valid() && issued == old(issued) + [index]
      ensures index < 0x100_0000 && index !in old(issued)
    {
      ShiftInverts(lfsr);
      FreshIndex();
      index := Key(lfsr, mask);
      lfsr := Shift(lfsr);
      issued := issued + [index];
    }

    /** Every two indices issued so far differ, whatever the seed and the mask. */
    lemma {:induction false} AllDistinct()
      requires Valid()
      ensures Distinct(issued)
    {
      forall i, j | 0 <= i < j < |issued|
        ensures issued[i] != issued[j]
      {
        StatesDistinct(initial, |issued|, i, j);
        if issued[i] == issued[j] {
          KeyInjective(State(initial, i), State(initial, j), mask);
        }
      }
    }

    lemma {:induction false} FreshIndex()
      requires Valid()
      ensures Key(lfsr, mask) !in issued
    {
      forall i | 0 <= i < |issued|
        ensures issued[i] != Key(lfsr, mask)
      {
        StatesDistinct(initial, |issued|, i, |issued|);
        if issued[i] == Key(lfsr, mask) {
          KeyInjective(State(initial, i), lfsr, mask);
        }
      }
    }
  }
}

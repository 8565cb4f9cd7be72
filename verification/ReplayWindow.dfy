/** The anti-replay counter validator of boringtun/src/noise/session.rs.

    `Window` is the simple view: the set of counters ever accepted and the first counter
    above all of them.  `CounterValidator` is the shipped form: sixteen 64-bit words used
    as a ring, cleared by three loops when the window slides.  Every method of the class is
    proved to act on `Window` as `WillAccept` and `Mark` do. */
module ReplayWindow {
  import opened Wrappers

  const WORD_SIZE: nat := 64
  const N_WORDS: nat := 16
  const N_BITS: nat := 1024
  const U64_LIMIT: nat := 0x1_0000_0000_0000_0000

  // ----- The set view -----

  datatype Window = Window(next: nat, accepted: set<nat>)

  predicate Coherent(w: Window) {
    forall c | c in w.accepted :: c < w.next
  }

  /** Not too far back: what both the quick check and the mark test first. */
  predicate InReach(w: Window, c: nat) {
    w.next <= c + N_BITS
  }

  function WillAccept(w: Window, c: nat): (r: Result<()>)
  {
    if c < w.next && !InReach(w, c) then Err(InvalidCounter)
    else if c in w.accepted then Err(DuplicateCounter)
    else Ok(())
  }

  function Mark(w: Window, c: nat): (r: (Window, Result<()>))
  {
    if !InReach(w, c) || c in w.accepted then (w, Err(InvalidCounter))
    else (Window(if w.next <= c then c + 1 else w.next, w.accepted + {c}), Ok(()))
  }

  /** A sequence of marks, in the order the mutex serialises them. */
  function MarkAll(w: Window, cs: seq<nat>): Window
    decreases |cs|
  {
    if cs == [] then w else MarkAll(Mark(w, cs[0]).0, cs[1..])
  }

  /** The window only ever moves forward and only ever remembers more. */
  lemma {:induction false} MarkAllMonotone(w: Window, cs: seq<nat>)
    ensures w.next <= MarkAll(w, cs).next
    ensures w.accepted <= MarkAll(w, cs).accepted
    ensures Coherent(w) ==> Coherent(MarkAll(w, cs))
    decreases |cs|
  {
    if cs == [] {
    } else {
      MarkAllMonotone(Mark(w, cs[0]).0, cs[1..]);
    }
  }

  /** A counter the quick check rejects is rejected by the mark in every later state, so the
      early exit before decryption never loses a packet the mark would have taken. */
  lemma {:induction false} QuickCheckIsSound(w: Window, cs: seq<nat>, c: nat)
    requires Coherent(w)
    requires WillAccept(w, c).Err?
    ensures Mark(MarkAll(w, cs), c) == (MarkAll(w, cs), Err(InvalidCounter))
  {
    MarkAllMonotone(w, cs);
  }

  /** Conversely, with no mark in between the quick check predicts the mark exactly. */
  lemma {:induction false} QuickCheckIsExact(w: Window, c: nat)
    requires Coherent(w)
    ensures WillAccept(w, c).Ok? <==> Mark(w, c).1.Ok?
    ensures Mark(w, c).1.Ok? <==> c !in w.accepted && w.next <= c + N_BITS
  {
  }

  /** How often `c` was accepted along a sequence of marks. */
  function Successes(w: Window, cs: seq<nat>, c: nat): nat
    decreases |cs|
  {
    if cs == [] then 0
    else (if cs[0] == c && Mark(w, c).1.Ok? then 1 else 0) + Successes(Mark(w, cs[0]).0, cs[1..], c)
  }

  /** At most one mark per counter ever succeeds, in any order of any number of marks. */
  lemma {:induction false} AtMostOneSuccess(w: Window, cs: seq<nat>, c: nat)
    ensures Successes(w, cs, c) <= 1
    ensures c in w.accepted ==> Successes(w, cs, c) == 0
    decreases |cs|
  {
    if cs == [] {
    } else {
      AtMostOneSuccess(Mark(w, cs[0]).0, cs[1..], c);
    }
  }

  /** Coherent windows never hold more counters than lie below `next`. */
  lemma {:induction false} AcceptedFits(w: Window)
    requires Coherent(w)
    ensures |w.accepted| <= w.next
  {
    BelowSize(w.accepted, w.next);
  }

  lemma {:induction false} BelowSize(s: set<nat>, n: nat)
    requires forall c | c in s :: c < n
    ensures |s| <= n
  {
    if n == 0 {
      assert s == {};
    } else {
      BelowSize(s - {n - 1}, n - 1);
    }
  }

  // ----- Bits of one word -----

  /** The source's test of one bit: a shift and a mask. */
  predicate Test(word: bv64, bit: nat)
    requires bit < WORD_SIZE
  {
    (word >> bit) & 1 == 1
  }

  method WithBit(word: bv64, bit: nat) returns (r: bv64)
    requires bit < WORD_SIZE
    ensures forall k: nat | k < WORD_SIZE :: Test(r, k) <==> k == bit || Test(word, k)
  {
    r := word | (1 << bit);
    forall k: nat | k < WORD_SIZE
      ensures Test(r, k) <==> k == bit || Test(word, k)
    {
      OrTest(word, bit, k);
    }
  }

  method WithoutBit(word: bv64, bit: nat) returns (r: bv64)
    requires bit < WORD_SIZE
    ensures forall k: nat | k < WORD_SIZE :: Test(r, k) <==> k != bit && Test(word, k)
  {
    r := word & !(1 << bit);
    AndNotIsFlip(word, 1 << bit);
    forall k: nat | k < WORD_SIZE
      ensures Test(r, k) <==> k != bit && Test(word, k)
    {
      ClearedTest(word, bit, k, r);
    }
  }

  lemma {:induction false} OrTest(word: bv64, bit: nat, k: nat)
    requires bit < WORD_SIZE && k < WORD_SIZE
    ensures Test(word | (1 << bit), k) <==> k == bit || Test(word, k)
  {
    ShiftsApart(bit, k);
    OrTestBv(word, bit as bv7, k as bv7);
  }

  lemma {:induction false} OrTestBv(word: bv64, bit: bv7, k: bv7)
    requires bit < 64 && k < 64
    ensures ((word | (1 << bit)) >> k) & 1 == 1 <==> k == bit || (word >> k) & 1 == 1
  {
  }

  lemma {:induction false} AndNotIsFlip(word: bv64, m: bv64)
    ensures word & !m == (word | m) ^ m
  {
  }

  lemma {:induction false} FlipTest(word: bv64, bit: nat, k: nat)
    requires bit < WORD_SIZE && k < WORD_SIZE
    ensures Test((word | (1 << bit)) ^ (1 << bit), k) <==> k != bit && Test(word, k)
  {
    ShiftsApart(bit, k);
    FlipTestBv(word, bit as bv7, k as bv7);
  }

  lemma {:induction false} ClearedTest(word: bv64, bit: nat, k: nat, r: bv64)
    requires bit < WORD_SIZE && k < WORD_SIZE
    requires r == (word | (1 << bit)) ^ (1 << bit)
    ensures Test(r, k) <==> k != bit && Test(word, k)
  {
    FlipTest(word, bit, k);
  }

  lemma {:induction false} FlipTestBv(word: bv64, bit: bv7, k: bv7)
    requires bit < 64 && k < 64
    ensures (((word | (1 << bit)) ^ (1 << bit)) >> k) & 1 == 1 <==> k != bit && (word >> k) & 1 == 1
  {
  }

  lemma {:induction false} ZeroTest(k: nat)
    requires k < WORD_SIZE
    ensures !Test(0, k)
  {
    ShiftsApart(k, k);
    ZeroTestBv(k as bv7);
  }

  lemma {:induction false} ZeroTestBv(k: bv7)
    requires k < 64
    ensures ((0 as bv64) >> k) & 1 == 0
  {
  }

  /** Shift amounts below 64 keep their identity as 7-bit vectors. */
  lemma {:induction false} ShiftsApart(i: nat, j: nat)
    requires i < WORD_SIZE && j < WORD_SIZE
    ensures (i as bv7) < 64 && (j as bv7) < 64
    ensures i as bv7 == j as bv7 <==> i == j
  {
    ShiftFits(i);
    ShiftFits(j);
    ShiftSmall(i as bv7);
    ShiftSmall(j as bv7);
  }

  lemma {:induction false} ShiftFits(i: nat)
    requires i < WORD_SIZE
    ensures (i as bv7) as int == i
  {
  }

  lemma {:induction false} ShiftSmall(i: bv7)
    requires i as int < 64
    ensures i < 64
  {
  }

  // ----- Positions of the ring -----

  /** Marks a ring position; it only controls when the verifier opens the word-level fact. */
  predicate At(p: nat) { true }

  /** Position `p` belongs to some counter of [lo, hi), for spans of at most one turn. */
  predicate Covered(p: nat, lo: nat, hi: nat) {
    (p - lo) % N_BITS < hi - lo
  }

  lemma {:induction false} CoverOne(lo: nat, i: nat)
    requires lo <= i < lo + N_BITS
    ensures forall p: nat | p < N_BITS ::
              Covered(p, lo, i + 1) <==> Covered(p, lo, i) || p == i % N_BITS
  {
  }

  lemma {:induction false} TurnsCancel(y: int, q: int)
    ensures (y - N_BITS * q) % N_BITS == y % N_BITS
  {
  }

  lemma {:induction false} AroundTheRing(y: int)
    requires 0 <= y + N_BITS && y < 2 * N_BITS
    ensures y % N_BITS == if y < 0 then y + N_BITS else if y < N_BITS then y else y - N_BITS
  {
  }

  lemma {:induction false} WordStart(b: nat)
    requires b < N_BITS && b % WORD_SIZE == 0
    ensures b <= N_BITS - WORD_SIZE
    ensures forall p: nat | p < N_BITS :: p / WORD_SIZE == b / WORD_SIZE <==> b <= p < b + WORD_SIZE
  {
  }

  lemma {:induction false} RingWord(i: nat)
    requires i % WORD_SIZE == 0
    ensures i % N_BITS % WORD_SIZE == 0
  {
    var q, k := i / N_BITS, i / WORD_SIZE;
    assert i % N_BITS == WORD_SIZE * (k - N_WORDS * q);
    WholeWords(k - N_WORDS * q);
  }

  lemma {:induction false} WholeWords(k: int)
    ensures WORD_SIZE * k % WORD_SIZE == 0
  {
  }

  lemma {:induction false} CoverWord(lo: nat, i: nat, p: nat)
    requires lo <= i && i + WORD_SIZE <= lo + N_BITS
    requires i % WORD_SIZE == 0 && p < N_BITS
    ensures Covered(p, lo, i + WORD_SIZE) <==>
            Covered(p, lo, i) || p / WORD_SIZE == i % N_BITS / WORD_SIZE
  {
    var q, b, d := i / N_BITS, i % N_BITS, i - lo;
    var y := p - b + d;
    assert p - lo == y - N_BITS * q;
    TurnsCancel(y, q);
    AroundTheRing(y);
    RingWord(i);
    WordStart(b);
  }

  /** `bits` is `was` with the positions of [lo, hi) cleared. */
  predicate Cleared(bits: seq<bool>, was: seq<bool>, lo: nat, hi: nat) {
    && |bits| == |was| == N_BITS
    && forall p: nat | p < N_BITS :: bits[p] <==> !Covered(p, lo, hi) && was[p]
  }

  lemma {:induction false} ClearedNone(was: seq<bool>, lo: nat)
    requires |was| == N_BITS
    ensures Cleared(was, was, lo, lo)
  {
  }

  lemma {:induction false} ClearedOne(bits: seq<bool>, was: seq<bool>, lo: nat, i: nat)
    requires Cleared(bits, was, lo, i) && lo <= i < lo + N_BITS
    ensures Cleared(bits[i % N_BITS := false], was, lo, i + 1)
  {
    CoverOne(lo, i);
  }

  lemma {:induction false} ClearedWord(bits: seq<bool>, after: seq<bool>, was: seq<bool>, lo: nat, i: nat)
    requires Cleared(bits, was, lo, i) && lo <= i && i + WORD_SIZE <= lo + N_BITS && i % WORD_SIZE == 0
    requires |after| == N_BITS
    requires forall p: nat | p < N_BITS :: after[p] <==> p / WORD_SIZE != i % N_BITS / WORD_SIZE && bits[p]
    ensures Cleared(after, was, lo, i + WORD_SIZE)
  {
    forall p: nat | p < N_BITS
      ensures after[p] <==> !Covered(p, lo, i + WORD_SIZE) && was[p]
    {
      CoverWord(lo, i, p);
    }
  }

  /** The source masks with the two's complement of WORD_SIZE. */
  function NextWord(i: nat): nat { i + WORD_SIZE - (i + WORD_SIZE) % WORD_SIZE }

  lemma {:induction false} NextWordAligned(i: nat)
    requires i % WORD_SIZE == 0
    ensures NextWord(i) == i + WORD_SIZE && NextWord(i) % WORD_SIZE == 0
  {
  }

  /** Inside one window every counter has a ring position of its own. */
  lemma {:induction false} PositionsApart(counter: nat, top: nat)
    requires counter <= top < counter + N_BITS
    ensures forall c: nat | c <= top < c + N_BITS ::
              c % N_BITS == counter % N_BITS <==> c == counter
  {
  }

  /** Sliding from `next` to `counter` reuses exactly the positions that leave the window. */
  lemma {:induction false} SlideReuses(next: nat, counter: nat)
    requires next <= counter < next + N_BITS
    ensures forall c: nat | c <= counter < c + N_BITS ::
              Covered(c % N_BITS, next, counter) <==> next <= c < counter
  {
  }

  // ----- The shipped validator -----

  class CounterValidator {
    var next: nat
    var receiveCnt: nat
    const bitmap: array<bv64>
    ghost var bits: seq<bool>
    ghost var accepted: set<nat>

    /** The words hold exactly the ring `bits`. */
    ghost predicate Holds()
      reads this, bitmap
    {
      && bitmap.Length == N_WORDS
      && |bits| == N_BITS
      && forall p: nat {:trigger At(p)} | p < N_BITS && At(p) ::
           bits[p] <==> Test(bitmap[p / WORD_SIZE], p % WORD_SIZE)
    }

    /** Inside the window the ring is the characteristic function of the accepted counters. */
    ghost predicate Valid()
      reads this, bitmap
    {
      && Holds()
      && Coherent(Abs())
      && forall c: nat | c < next <= c + N_BITS :: bits[c % N_BITS] <==> c in accepted
    }

    ghost function Abs(): Window
      reads this
    {
      Window(next, accepted)
    }

    constructor ()
      ensures Valid() && fresh(bitmap)
      ensures Abs() == Window(0, {}) && receiveCnt == 0
    {
      next, receiveCnt, accepted := 0, 0, {};
      bitmap := new bv64[N_WORDS](_ => 0);
      bits := seq(N_BITS, _ => false);
      new;
      forall p: nat | p < N_BITS && At(p)
        ensures !Test(bitmap[p / WORD_SIZE], p % WORD_SIZE)
      {
        ZeroTest(p % WORD_SIZE);
      }
    }

    method SetBit(idx: nat)
      requires Holds()
      modifies bitmap, this`bits
      ensures Holds()
      ensures bits == old(bits)[idx % N_BITS := true]
    {
      var bitIdx := idx % N_BITS;
      var word, bit := bitIdx / WORD_SIZE, bitIdx % WORD_SIZE;
      var w := WithBit(bitmap[word], bit);
      bitmap[word] := w;
      bits := bits[bitIdx := true];
    }

    method ClearBit(idx: nat)
      requires Holds()
      modifies bitmap, this`bits
      ensures Holds()
      ensures bits == old(bits)[idx % N_BITS := false]
    {
      var bitIdx := idx % N_BITS;
      var word, bit := bitIdx / WORD_SIZE, bitIdx % WORD_SIZE;
      var w := WithoutBit(bitmap[word], bit);
      bitmap[word] := w;
      bits := bits[bitIdx := false];
    }

    method ClearWord(idx: nat)
      requires Holds()
      modifies bitmap, this`bits
      ensures Holds()
      ensures forall p: nat | p < N_BITS ::
                bits[p] <==> p / WORD_SIZE != idx % N_BITS / WORD_SIZE && old(bits)[p]
    {
      var word := idx % N_BITS / WORD_SIZE;
      bitmap[word] := 0;
      ghost var was := bits;
      bits := seq(N_BITS, p requires 0 <= p < N_BITS => p / WORD_SIZE != word && was[p]);
      forall p: nat | p < N_BITS && At(p)
        ensures bits[p] <==> Test(bitmap[p / WORD_SIZE], p % WORD_SIZE)
      {
        if p / WORD_SIZE == word {
          ZeroTest(p % WORD_SIZE);
        }
      }
    }

    method CheckBit(idx: nat) returns (r: bool)
      requires Holds()
      ensures r <==> bits[idx % N_BITS]
    {
      var bitIdx := idx % N_BITS;
      var word, bit := bitIdx / WORD_SIZE, bitIdx % WORD_SIZE;
      assert At(bitIdx);
      r := Test(bitmap[word], bit);
    }

    method QuickCheck(counter: nat) returns (r: Result<()>)
      requires Valid()
      requires counter + N_BITS < U64_LIMIT
      ensures r == WillAccept(Abs(), counter)
    {
      if counter >= next {
        return Ok(());
      }
      if counter + N_BITS < next {
        return Err(InvalidCounter);
      }
      var seen := CheckBit(counter);
      if seen {
        return Err(DuplicateCounter);
      }
      return Ok(());
    }

    /** Clears the ring positions of [next, counter): bit by bit up to a word boundary, then
        word by word, then bit by bit again. */
    method ClearSkipped(counter: nat)
      requires Holds()
      requires next <= counter < next + N_BITS
      modifies bitmap, this`bits
      ensures Holds()
      ensures Cleared(bits, old(bits), next, counter)
    {
      var i := next;
      ClearedNone(bits, next);
      while i % WORD_SIZE != 0 && i < counter
        invariant next <= i <= counter
        invariant Holds() && Cleared(bits, old(bits), next, i)
        decreases counter - i
      {
        ClearedOne(bits, old(bits), next, i);
        ClearBit(i);
        i := i + 1;
      }
      while i + WORD_SIZE < counter
        invariant next <= i <= counter
        invariant i % WORD_SIZE == 0 || i == counter
        invariant Holds() && Cleared(bits, old(bits), next, i)
      {
        ghost var before := bits;
        ClearWord(i);
        ClearedWord(before, bits, old(bits), next, i);
        NextWordAligned(i);
        i := NextWord(i);
      }
      while i < counter
        invariant next <= i <= counter
        invariant Holds() && Cleared(bits, old(bits), next, i)
      {
        ClearedOne(bits, old(bits), next, i);
        ClearBit(i);
        i := i + 1;
      }
    }

    method ClearAll()
      requires Holds()
      modifies bitmap, this`bits
      ensures Holds()
      ensures forall p: nat | p < N_BITS :: !bits[p]
    {
      var k := 0;
      while k < bitmap.Length
        invariant k <= bitmap.Length
        invariant forall j | 0 <= j < k :: bitmap[j] == 0
      {
        bitmap[k] := 0;
        k := k + 1;
      }
      bits := seq(N_BITS, _ => false);
      forall p: nat | p < N_BITS && At(p)
        ensures !Test(bitmap[p / WORD_SIZE], p % WORD_SIZE)
      {
        ZeroTest(p % WORD_SIZE);
      }
    }

    method MarkDidReceive(counter: nat) returns (r: Result<()>)
      requires Valid()
      requires counter + N_BITS < U64_LIMIT
      modifies this`next, this`accepted, this`bits, bitmap
      ensures Valid()
      ensures (Abs(), r) == Mark(old(Abs()), counter)
    {
      if counter + N_BITS < next {
        return Err(InvalidCounter);
      }
      if counter == next {
        SetBit(counter);
        PositionsApart(counter, counter);
        next, accepted := next + 1, accepted + {counter};
        return Ok(());
      }
      if counter < next {
        var seen := CheckBit(counter);
        if seen {
          return Err(InvalidCounter);
        }
        SetBit(counter);
        PositionsApart(counter, next - 1);
        accepted := accepted + {counter};
        return Ok(());
      }
      if counter - next >= N_BITS {
        ClearAll();
      } else {
        ClearSkipped(counter);
        SlideReuses(next, counter);
      }
      SetBit(counter);
      PositionsApart(counter, counter);
      next, accepted := counter + 1, accepted + {counter};
      return Ok(());
    }
  }
}

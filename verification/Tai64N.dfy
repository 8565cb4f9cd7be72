/** Handshake timestamps (boringtun/src/noise/handshake.rs): TAI64N labels, written big-endian
    and compared as pairs of integers. */
module Tai64N {
  import opened Clock
  import opened Wrappers
  import opened Terms

  const TAI64_BASE: nat := 0x4000_0000_0000_0000 + 37

  datatype Stamp = Stamp(secs: nat, nano: nat)

  const ZERO_STAMP := Stamp(0, 0)

  predicate After(a: Stamp, b: Stamp) {
    a.secs > b.secs || (a.secs == b.secs && a.nano > b.nano)
  }

  function Power256(n: nat): (p: nat)
    ensures p > 0
  {
    if n == 0 then 1 else 256 * Power256(n - 1)
  }

  /** `n` bytes, most significant first. */
  function ToBigEndian(v: nat, n: nat): (b: Bytes)
    ensures |b| == n
  {
    if n == 0 then [] else ToBigEndian(v / 256, n - 1) + [v % 256]
  }

  function FromBigEndian(b: Bytes): nat {
    if b == [] then 0 else 256 * FromBigEndian(b[..|b| - 1]) + b[|b| - 1]
  }

  lemma {:induction false} BigEndianRoundTrip(v: nat, n: nat)
    requires v < Power256(n)
    ensures FromBigEndian(ToBigEndian(v, n)) == v
  {
    if n == 0 {
    } else {
      BigEndianRoundTrip(v / 256, n - 1);
      var b := ToBigEndian(v, n);
      assert b[..|b| - 1] == ToBigEndian(v / 256, n - 1);
    }
  }

  lemma {:induction false} WordSizes()
    ensures Power256(8) == 0x1_0000_0000_0000_0000 && Power256(4) == 0x1_0000_0000
  {
    assert Power256(1) == 256;
    assert Power256(2) == 0x1_0000;
    assert Power256(3) == 0x100_0000;
    assert Power256(4) == 0x1_0000_0000;
    assert Power256(5) == 0x100_0000_0000;
    assert Power256(6) == 0x1_0000_0000_0000;
    assert Power256(7) == 0x100_0000_0000_0000;
  }

  /** The twelve bytes for a reading of `t` nanoseconds since the epoch. */
  function StampBytes(t: nat): (b: Bytes)
    ensures |b| == 12
  {
    ToBigEndian(t / SEC + TAI64_BASE, 8) + ToBigEndian(t % SEC, 4)
  }

  function Parse(b: Bytes): Result<Stamp> {
    if |b| < 12 then Err(InvalidTai64nTimestamp)
    else Ok(Stamp(FromBigEndian(b[..8]), FromBigEndian(b[8..])))
  }

  /** Clock readings whose label fits the eight bytes the source writes. */
  predicate Representable(t: nat) {
    t / SEC + TAI64_BASE < 0x1_0000_0000_0000_0000
  }

  function StampOf(t: nat): Stamp {
    Stamp(t / SEC + TAI64_BASE, t % SEC)
  }

  /** What is written is what is parsed, for every representable reading. */
  lemma {:induction false} StampRoundTrip(t: nat)
    requires Representable(t)
    ensures Parse(StampBytes(t)) == Ok(StampOf(t))
  {
    WordSizes();
    BigEndianRoundTrip(t / SEC + TAI64_BASE, 8);
    BigEndianRoundTrip(t % SEC, 4);
    assert StampBytes(t)[..8] == ToBigEndian(t / SEC + TAI64_BASE, 8);
    assert StampBytes(t)[8..] == ToBigEndian(t % SEC, 4);
  }

  /** The epoch as a TAI64N label: 2^62 plus the 37 leap seconds of the source, and no nanoseconds. */
  lemma {:induction false} EpochLabel()
    ensures StampOf(0) == Stamp(0x4000_0000_0000_0025, 0) && StampOf(SEC + 7) == Stamp(0x4000_0000_0000_0026, 7)
  {
  }

  /** A later clock reading gives a later timestamp, an equal or earlier one does not, and
      every reading is later than the zero timestamp a new handshake starts with. */
  lemma {:induction false} StampsKeepClockOrder(t: nat, u: nat)
    requires Representable(t) && Representable(u)
    ensures After(Parse(StampBytes(t)).value, Parse(StampBytes(u)).value) <==> t > u
    ensures After(Parse(StampBytes(t)).value, ZERO_STAMP)
  {
    StampRoundTrip(t);
    StampRoundTrip(u);
  }
}

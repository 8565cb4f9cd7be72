/** The rate limiter (boringtun/src/noise/rate_limiter.rs) on values, and its rate bound.  Its counters are atomics and
    `last_reset` sits behind a mutex; the runs here are sequences of calls in the order of their clock
    readings. */
module RateLimiterSpec {
  import opened Clock
  import opened Wrappers
  import opened Terms
  import HandshakeSpec

  const COOKIE_REFRESH: nat := 128
  const RESET_PERIOD: nat := 1
  const COOKIE_REPLY_SZ: nat := 64

  datatype IpAddr = V4(octets: Bytes) | V6(octets: Bytes) {
    predicate Valid() { |octets| == if V4? then 4 else 16 }
  }

  /** 16 bytes: an IPv4 address is padded with zeros. */
  function AddrBytes(a: IpAddr): Bytes {
    if a.V4? then a.octets + seq(12, _ => 0) else a.octets
  }

  /** Handshake messages carry the two macs; other packets are not limited. */
  datatype Incoming =
    | Handshake(sender: nat, body: Term, macs: HandshakeSpec.Macs)
    | Other

  datatype Verdict =
    | Accept
    | Refuse(error: WireGuardError)
    | SendCookie(reply: HandshakeSpec.CookieReply)

  datatype Limiter = Limiter(
    nonceKey: Term,
    secretKey: Term,
    startTime: nat,
    mac1Key: Term,
    cookieKey: Term,
    limit: nat,
    nonceCtr: nat,
    count: nat,
    lastReset: nat)

  function New(publicKey: Term, limit: nat, nonceKey: Term, secretKey: Term, now: nat): Limiter {
    Limiter(nonceKey, secretKey, now,
            Hash(HandshakeSpec.LABEL_MAC1, publicKey), Hash(HandshakeSpec.LABEL_COOKIE, publicKey),
            limit, 0, 0, now)
  }

  predicate Past(l: Limiter, now: nat) { l.startTime <= l.lastReset <= now }

  function ResetCount(l: Limiter, now: nat): Limiter
    requires Past(l, now)
  {
    if (now - l.lastReset) / SEC >= RESET_PERIOD then l.(count := 0, lastReset := now) else l
  }

  function Epoch(l: Limiter, now: nat): nat
    requires Past(l, now)
  {
    (now - l.startTime) / SEC / COOKIE_REFRESH
  }

  function CurrentCookie(l: Limiter, now: nat, a: IpAddr): Term
    requires Past(l, now)
  {
    Mac(l.secretKey, Pair(Tag(Epoch(l, now)), Data(AddrBytes(a))))
  }

  function FormatCookieReply(l: Limiter, idx: nat, cookie: Term, mac1: Term, dstLen: nat)
    : (Limiter, Result<HandshakeSpec.CookieReply>)
  {
    if dstLen < COOKIE_REPLY_SZ then (l, Err(DestinationBufferTooSmall))
    else
      var nonce := Mac(l.nonceKey, Tag(l.nonceCtr));
      (l.(nonceCtr := l.nonceCtr + 1),
       Ok(HandshakeSpec.CookieReply(idx, nonce, XSeal(l.cookieKey, nonce, cookie, mac1))))
  }

  predicate Mac1Fits(l: Limiter, m: Incoming)
    requires m.Handshake?
  {
    m.macs.mac1 == Mac(l.mac1Key, m.body)
  }

  predicate Mac2Fits(l: Limiter, now: nat, a: IpAddr, m: Incoming)
    requires m.Handshake? && Past(l, now)
  {
    m.macs.mac2 == Mac(CurrentCookie(l, now, a), Pair(m.body, m.macs.mac1))
  }

  function VerifyPacket(l: Limiter, now: nat, a: Option<IpAddr>, m: Incoming, dstLen: nat): (Limiter, Verdict)
    requires Past(l, now)
  {
    if m.Other? then (l, Accept)
    else if !Mac1Fits(l, m) then (l, Refuse(InvalidMac))
    else
      var l1 := l.(count := l.count + 1);
      if l.count < l.limit then (l1, Accept)
      else if a.None? then (l1, Refuse(UnderLoad))
      else if Mac2Fits(l, now, a.value, m) then (l1, Accept)
      else
        match FormatCookieReply(l1, m.sender, CurrentCookie(l, now, a.value), m.macs.mac1, dstLen)
        case (l2, Ok(reply)) => (l2, SendCookie(reply))
        case (l2, Err(e)) => (l2, Refuse(e))
  }

  // ----- What is verified -----

  /** The mac2 of the message is valid for the address it came from. */
  predicate HasMac2(l: Limiter, now: nat, a: Option<IpAddr>, m: Incoming)
    requires m.Handshake? && Past(l, now)
  {
    a.Some? && m.macs.mac2 == Mac(CurrentCookie(l, now, a.value), Pair(m.body, m.macs.mac1))
  }

  /** A handshake message with a wrong mac1 is refused at any load, and not even counted. */
  lemma {:induction false} WrongMac1IsRefused(l: Limiter, now: nat, a: Option<IpAddr>, m: Incoming, dstLen: nat)
    requires Past(l, now) && m.Handshake? && m.macs.mac1 != Mac(l.mac1Key, m.body)
    ensures VerifyPacket(l, now, a, m, dstLen) == (l, Refuse(InvalidMac))
  {
  }

  /** One with the right mac1 is counted, and passes exactly if the limit is not used up or its mac2 is
      valid; otherwise it gets a cookie, or an error if there is no address or no space for one. */
  lemma {:induction false} RightMac1IsLimited(l: Limiter, now: nat, a: Option<IpAddr>, m: Incoming, dstLen: nat)
    requires Past(l, now) && m.Handshake? && m.macs.mac1 == Mac(l.mac1Key, m.body)
    ensures
      var (l', v) := VerifyPacket(l, now, a, m, dstLen);
      && l'.count == l.count + 1 && l'.lastReset == l.lastReset
      && (v.Accept? <==> l.count < l.limit || HasMac2(l, now, a, m))
      && (v.SendCookie? <==> !v.Accept? && a.Some? && dstLen >= COOKIE_REPLY_SZ)
      && (v.Refuse? ==> v.error == if a.None? then UnderLoad else DestinationBufferTooSmall)
  {
  }

  /** A reset a second or more after the last one clears the count; an earlier one does nothing. */
  lemma {:induction false} ResetsAfterSecond(l: Limiter, now: nat)
    requires Past(l, now)
    ensures
      var l' := ResetCount(l, now);
      if l.lastReset + SEC <= now then l' == l.(count := 0, lastReset := now) else l' == l
  {
  }

  // ----- The rate bound -----

  datatype Request = Reset | Check(addr: Option<IpAddr>, msg: Incoming, dstLen: nat)

  type Call = Timed<Request>

  predicate CallsFrom(calls: seq<Call>, start: nat) {
    forall i | 0 <= i < |calls| :: start <= calls[i].now
  }

  function Apply(l: Limiter, c: Call): (l': Limiter)
    requires Past(l, c.now)
    ensures Past(l', c.now) && l'.limit == l.limit
  {
    match c.event
    case Reset => ResetCount(l, c.now)
    case Check(a, m, dstLen) => VerifyPacket(l, c.now, a, m, dstLen).0
  }

  /** The limiter after any calls in clock order. */
  function Run(l: Limiter, calls: seq<Call>): (l': Limiter)
    requires l.startTime <= l.lastReset && CallsFrom(calls, l.lastReset) && InOrder(calls)
    ensures l'.limit == l.limit
    ensures Past(l', if calls == [] then l.lastReset else calls[|calls| - 1].now)
    decreases |calls|
  {
    if calls == [] then l
    else Apply(Run(l, calls[..|calls| - 1]), calls[|calls| - 1])
  }

  /** A handshake message without a valid mac2 that is let through. */
  predicate PassesUnchecked(l: Limiter, c: Call)
    requires Past(l, c.now)
  {
    && c.event.Check? && c.event.msg.Handshake?
    && VerifyPacket(l, c.now, c.event.addr, c.event.msg, c.event.dstLen).1.Accept?
    && !HasMac2(l, c.now, c.event.addr, c.event.msg)
  }

  /** How many pass unchecked between two clock readings. */
  function Unchecked(l: Limiter, calls: seq<Call>, from: nat, to: nat): nat
    requires l.startTime <= l.lastReset && CallsFrom(calls, l.lastReset) && InOrder(calls)
    decreases |calls|
  {
    if calls == [] then 0
    else
      var before, last := calls[..|calls| - 1], calls[|calls| - 1];
      Unchecked(l, before, from, to)
      + if from <= last.now <= to && PassesUnchecked(Run(l, before), last) then 1 else 0
  }

  /** After r resets since `from`, with n unchecked passes so far. */
  predicate Counted(l: Limiter, n: nat, r: nat, from: nat) {
    && n <= l.limit * r + (if l.count < l.limit then l.count else l.limit)
    && (r > 0 ==> from + (r - 1) * SEC <= l.lastReset)
  }

  lemma {:induction false} CountedBound(l: Limiter, n: nat, r: nat, from: nat, span: nat)
    requires Counted(l, n, r, from) && l.lastReset <= from + span
    ensures n <= l.limit * (span / SEC + 2)
  {
    assert r <= span / SEC + 1;
    MulMonotone(l.limit, r + 1, span / SEC + 2);
  }

  lemma {:induction false} MulMonotone(k: nat, a: nat, b: nat)
    requires a <= b
    ensures k * a <= k * b
  {
  }

  lemma {:induction false} ResetCounted(l: Limiter, n: nat, r: nat, from: nat, now: nat)
    requires Past(l, now) && Counted(l, n, r, from) && from <= now
    ensures Counted(ResetCount(l, now), n, if ResetCount(l, now) != l then r + 1 else r, from)
  {
    assert l.limit * (r + 1) == l.limit * r + l.limit;
  }

  lemma {:induction false} CheckCounted(l: Limiter, n: nat, r: nat, from: nat, c: Call)
    requires c.event.Check? && Past(l, c.now) && Counted(l, n, r, from)
    ensures Counted(Apply(l, c), if PassesUnchecked(l, c) then n + 1 else n, r, from)
  {
  }

  lemma {:induction false} CountsInWindow(l: Limiter, calls: seq<Call>, from: nat, to: nat) returns (r: nat)
    requires l.startTime <= l.lastReset && CallsFrom(calls, l.lastReset) && InOrder(calls)
    requires calls != [] ==> calls[|calls| - 1].now <= to
    ensures Counted(Run(l, calls), Unchecked(l, calls, from, to), r, from)
    decreases |calls|
  {
    if calls == [] {
      return 0;
    }
    var before, last := calls[..|calls| - 1], calls[|calls| - 1];
    r := CountsInWindow(l, before, from, to);
    var w, n := Run(l, before), Unchecked(l, before, from, to);
    if last.now < from {
      NoneBefore(l, calls, from, to);
      return 0;
    }
    if last.event.Reset? {
      ResetCounted(w, n, r, from, last.now);
      r := if ResetCount(w, last.now) != w then r + 1 else r;
    } else {
      CheckCounted(w, n, r, from, last);
    }
  }

  lemma {:induction false} NoneBefore(l: Limiter, calls: seq<Call>, from: nat, to: nat)
    requires l.startTime <= l.lastReset && CallsFrom(calls, l.lastReset) && InOrder(calls)
    requires calls != [] ==> calls[|calls| - 1].now < from
    ensures Unchecked(l, calls, from, to) == 0
    decreases |calls|
  {
    if calls == [] {
    } else {
      NoneBefore(l, calls[..|calls| - 1], from, to);
    }
  }

  /** In any `span` nanoseconds of any run, at most limit * (whole seconds + 2) handshake messages
      without a valid mac2 are accepted. */
  lemma {:induction false} RateBound(l: Limiter, calls: seq<Call>, from: nat, span: nat)
    requires l.startTime <= l.lastReset && CallsFrom(calls, l.lastReset) && InOrder(calls)
    ensures Unchecked(l, calls, from, from + span) <= l.limit * (span / SEC + 2)
    decreases |calls|
  {
    if calls == [] {
    } else {
      if calls[|calls| - 1].now <= from + span {
        var r := CountsInWindow(l, calls, from, from + span);
        CountedBound(Run(l, calls), Unchecked(l, calls, from, from + span), r, from, span);
      } else {
        RateBound(l, calls[..|calls| - 1], from, span);
      }
    }
  }

  // ----- What the limit admits -----

  /** A handshake message with the right mac1. */
  predicate Genuine(l: Limiter, x: Request) {
    x.Check? && x.msg.Handshake? && x.msg.macs.mac1 == Mac(l.mac1Key, x.msg.body)
  }

  predicate AllGenuine(l: Limiter, calls: seq<Call>) {
    forall i | 0 <= i < |calls| :: Genuine(l, calls[i].event)
  }

  lemma {:induction false} GenuineAreCounted(l: Limiter, calls: seq<Call>)
    requires l.startTime <= l.lastReset && CallsFrom(calls, l.lastReset) && InOrder(calls) && AllGenuine(l, calls)
    ensures
      var l' := Run(l, calls);
      l'.count == l.count + |calls| && l'.mac1Key == l.mac1Key
    decreases |calls|
  {
    if calls == [] {
    } else {
      GenuineAreCounted(l, calls[..|calls| - 1]);
    }
  }

  /** After a reset the next `limit` messages with the right mac1 pass, whoever sends them. */
  lemma {:induction false} LimitIsAdmitted(l: Limiter, calls: seq<Call>, c: Call)
    requires l.startTime <= l.lastReset && CallsFrom(calls, l.lastReset) && InOrder(calls)
    requires AllGenuine(l, calls) && Genuine(l, c.event) && l.count == 0 && |calls| < l.limit
    requires Past(Run(l, calls), c.now)
    ensures VerifyPacket(Run(l, calls), c.now, c.event.addr, c.event.msg, c.event.dstLen).1 == Accept
  {
    GenuineAreCounted(l, calls);
  }

  // ----- Nonces -----

  lemma {:induction false} NonceMoves(l: Limiter, c: Call)
    requires Past(l, c.now)
    ensures
      var l' := Apply(l, c);
      l'.nonceKey == l.nonceKey && l.nonceCtr <= l'.nonceCtr && (Replies(l, c).Some? ==> l.nonceCtr < l'.nonceCtr)
  {
  }

  /** The cookie reply that this call makes, if any. */
  function Replies(l: Limiter, c: Call): Option<HandshakeSpec.CookieReply>
    requires Past(l, c.now)
  {
    match c.event
    case Reset => None
    case Check(a, m, dstLen) =>
      match VerifyPacket(l, c.now, a, m, dstLen).1
      case SendCookie(reply) => Some(reply)
      case _ => None
  }

  lemma {:induction false} NoncesGrow(l: Limiter, calls: seq<Call>)
    requires l.startTime <= l.lastReset && CallsFrom(calls, l.lastReset) && InOrder(calls)
    ensures Run(l, calls).nonceKey == l.nonceKey && l.nonceCtr <= Run(l, calls).nonceCtr
    decreases |calls|
  {
    if calls == [] {
    } else {
      NoncesGrow(l, calls[..|calls| - 1]);
      NonceMoves(Run(l, calls[..|calls| - 1]), calls[|calls| - 1]);
    }
  }

  /** No nonce is used for two cookie replies, over any run: one made now differs from any made after
      any further calls. */
  lemma {:induction false} NoNonceTwice(l: Limiter, c: Call, calls: seq<Call>, d: Call)
    requires l.startTime <= l.lastReset && Past(l, c.now)
    requires CallsFrom(calls, Apply(l, c).lastReset) && InOrder(calls)
    requires Past(Run(Apply(l, c), calls), d.now)
    requires Replies(l, c).Some? && Replies(Run(Apply(l, c), calls), d).Some?
    ensures Replies(l, c).value.nonce != Replies(Run(Apply(l, c), calls), d).value.nonce
  {
    NonceMoves(l, c);
    NoncesGrow(Apply(l, c), calls);
  }

  // ----- Epochs -----

  const EPOCH: nat := COOKIE_REFRESH * SEC

  /** The k-th epoch is the k-th span of COOKIE_REFRESH seconds since the start. */
  lemma {:induction false} EpochSpans(l: Limiter, now: nat)
    requires Past(l, now)
    ensures l.startTime + Epoch(l, now) * EPOCH <= now < l.startTime + (Epoch(l, now) + 1) * EPOCH
  {
    var q := (now - l.startTime) / SEC;
    assert Epoch(l, now) * COOKIE_REFRESH <= q < (Epoch(l, now) + 1) * COOKIE_REFRESH;
  }
}

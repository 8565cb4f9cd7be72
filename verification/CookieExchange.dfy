/** The cookie exchange between a handshake (boringtun/src/noise/handshake.rs) and the rate
    limiter of its peer (boringtun/src/noise/rate_limiter.rs). */
module CookieExchange {
  import opened Clock
  import opened Wrappers
  import opened Terms
  import opened HandshakeSpec
  import opened RateLimiterSpec
  import opened Agreement

  /** The limiter was built from the public key that the handshake holds for its peer. */
  predicate GuardsPeerOf(l: Limiter, h: HandshakeSpec.Handshake) {
    && l.mac1Key == Hash(LABEL_MAC1, h.params.peerPublic)
    && l.cookieKey == Hash(LABEL_COOKIE, h.params.peerPublic)
  }

  lemma {:induction false} NewGuards(h: HandshakeSpec.Handshake, limit: nat, nonceKey: Term, secretKey: Term, now: nat)
    ensures GuardsPeerOf(RateLimiterSpec.New(h.params.peerPublic, limit, nonceKey, secretKey, now), h)
  {
  }

  /** The handshake message that goes out. */
  function Message(h: HandshakeSpec.Handshake, x: Event): Option<Incoming> {
    match x
    case Initiates(hybrid, e, dk, stamp, now, dstLen) =>
      (match FormatInit(h, hybrid, e, dk, stamp, now, dstLen).1
       case Ok(i) => Some(RateLimiterSpec.Handshake(i.msg.sender, InitBody(i.msg), i.macs))
       case Err(_) => None)
    case GotInit(m, e, coins, dstLen) =>
      (match ReceiveInit(h, m, e, coins, dstLen).1
       case Ok(r) => Some(RateLimiterSpec.Handshake(r.msg.sender, RespBody(r.msg), r.macs))
       case Err(_) => None)
    case _ => None
  }

  /** How every message of the handshake is marked: mac1 under the peer's key, mac2 under the
      cookie held, if any. */
  predicate Marked(h: HandshakeSpec.Handshake, m: Incoming) {
    && m.Handshake?
    && m.macs.mac1 == Mac(Hash(LABEL_MAC1, h.params.peerPublic), m.body)
    && m.macs.mac2 == match h.cookies.writeCookie
                      case Some(cookie) => Mac(cookie, Pair(m.body, m.macs.mac1))
                      case None => ZeroKey
  }

  lemma {:induction false} MessagesAreMarked(h: HandshakeSpec.Handshake, x: Event)
    ensures Message(h, x).Some? ==> Marked(h, Message(h, x).value)
  {
  }

  /** The handshake remembers its latest message for the cookie reply to it. */
  predicate Latest(h: HandshakeSpec.Handshake, m: Incoming) {
    m.Handshake? && h.cookies.lastMac1 == Some(m.macs.mac1) && h.cookies.index == m.sender
  }

  lemma {:induction false} MessageIsLatest(h: HandshakeSpec.Handshake, x: Event)
    ensures Message(h, x).Some? ==> Latest(Feed(h, x), Message(h, x).value)
    ensures Message(h, x).None? ==>
              && Feed(h, x).cookies.lastMac1 == h.cookies.lastMac1 && Feed(h, x).cookies.index == h.cookies.index
  {
  }

  /** Not the expiry of the cookie, nor a cookie reply that is accepted. */
  predicate SparesCookie(h: HandshakeSpec.Handshake, x: Event) {
    !x.CookieExpires? && (x.GotCookie? ==> ReceiveCookie(h, x.reply).1.Err?)
  }

  predicate AllSpareCookie(h: HandshakeSpec.Handshake, xs: seq<Event>)
    decreases |xs|
  {
    xs == [] || (SparesCookie(h, xs[0]) && AllSpareCookie(Feed(h, xs[0]), xs[1..]))
  }

  lemma {:induction false} CookieIsKept(h: HandshakeSpec.Handshake, x: Event)
    ensures SparesCookie(h, x) ==> Feed(h, x).cookies.writeCookie == h.cookies.writeCookie
    ensures Feed(h, x).params.peerPublic == h.params.peerPublic
  {
  }

  /** Only an accepted cookie reply or its expiry changes the cookie held; nothing changes the peer. */
  lemma {:induction false} CookieStays(h: HandshakeSpec.Handshake, xs: seq<Event>)
    ensures AllSpareCookie(h, xs) ==> FeedAll(h, xs).cookies.writeCookie == h.cookies.writeCookie
    ensures FeedAll(h, xs).params.peerPublic == h.params.peerPublic
    decreases |xs|
  {
    if xs == [] {
    } else {
      CookieIsKept(h, xs[0]);
      CookieStays(Feed(h, xs[0]), xs[1..]);
    }
  }

  /** mac1 of every message verifies at the peer's limiter: it is never refused for its mac, and
      passes while the limiter is not under load. */
  lemma {:induction false} Mac1Verifies(
    h: HandshakeSpec.Handshake, m: Incoming, l: Limiter, now: nat, a: Option<IpAddr>, dstLen: nat)
    requires GuardsPeerOf(l, h) && RateLimiterSpec.Past(l, now) && Marked(h, m)
    ensures VerifyPacket(l, now, a, m, dstLen).1 != Refuse(InvalidMac)
    ensures l.count < l.limit ==> VerifyPacket(l, now, a, m, dstLen).1 == Accept
  {
  }

  /** The cookie reply to the latest message is accepted and hands over the current cookie. */
  lemma {:induction false} CookieArrives(
    h: HandshakeSpec.Handshake, m: Incoming, l: Limiter, now: nat, a: IpAddr, dstLen: nat)
    requires GuardsPeerOf(l, h) && RateLimiterSpec.Past(l, now) && Latest(h, m)
    requires VerifyPacket(l, now, Some(a), m, dstLen).1.SendCookie?
    ensures
      var reply := VerifyPacket(l, now, Some(a), m, dstLen).1.reply;
      ReceiveCookie(h, reply)
      == (h.(cookies := h.cookies.(writeCookie := Some(CurrentCookie(l, now, a)))), Ok(()))
  {
  }

  predicate Unsent(h: HandshakeSpec.Handshake, xs: seq<Event>)
    decreases |xs|
  {
    xs == [] || (Message(h, xs[0]).None? && Unsent(Feed(h, xs[0]), xs[1..]))
  }

  lemma {:induction false} LatestStays(h: HandshakeSpec.Handshake, xs: seq<Event>)
    requires Unsent(h, xs)
    ensures
      var g := FeedAll(h, xs);
      && g.cookies.lastMac1 == h.cookies.lastMac1 && g.cookies.index == h.cookies.index
      && g.params.peerPublic == h.params.peerPublic
    decreases |xs|
  {
    if xs == [] {
    } else {
      MessageIsLatest(h, xs[0]);
      CookieIsKept(h, xs[0]);
      LatestStays(Feed(h, xs[0]), xs[1..]);
    }
  }

  /** Until the handshake sends again, it accepts a cookie reply exactly if the reply names the sender index
      of its latest message and its box holds a cookie, sealed under the peer's cookie key for that
      message's mac1; an initiation and a response count alike. */
  lemma {:induction false} CookieAnswersLatest(
    h: HandshakeSpec.Handshake, x: Event, xs: seq<Event>, reply: CookieReply)
    requires Message(h, x).Some? && Unsent(Feed(h, x), xs)
    ensures
      var m := Message(h, x).value;
      ReceiveCookie(FeedAll(Feed(h, x), xs), reply).1.Ok?
      <==> && reply.receiver == m.sender && reply.box.XSeal? && IsCookie(reply.box.plain)
           && reply.box == XSeal(Hash(LABEL_COOKIE, h.params.peerPublic), reply.nonce, reply.box.plain, m.macs.mac1)
  {
    MessageIsLatest(h, x);
    CookieIsKept(h, x);
    LatestStays(Feed(h, x), xs);
  }

  /** A handshake that has sent nothing yet accepts no cookie. */
  lemma {:induction false} NoCookieUnasked(params: Params, index: nat, xs: seq<Event>, reply: CookieReply)
    requires Unsent(HandshakeSpec.New(params, index), xs)
    ensures ReceiveCookie(FeedAll(HandshakeSpec.New(params, index), xs), reply).1 == Err(UnexpectedPacket)
  {
    LatestStays(HandshakeSpec.New(params, index), xs);
  }

  predicate SameSecrets(l: Limiter, l': Limiter) {
    l'.secretKey == l.secretKey && l'.startTime == l.startTime && l'.mac1Key == l.mac1Key && l'.cookieKey == l.cookieKey
  }

  lemma {:induction false} RunKeepsSecrets(l: Limiter, calls: seq<Call>)
    requires l.startTime <= l.lastReset && RateLimiterSpec.CallsFrom(calls, l.lastReset) && InOrder(calls)
    ensures SameSecrets(l, RateLimiterSpec.Run(l, calls))
    decreases |calls|
  {
    if calls == [] {
    } else {
      RunKeepsSecrets(l, calls[..|calls| - 1]);
    }
  }

  /** A limiter made for the peer, after any calls, never refuses a message of the handshake for its
      mac, whatever the handshake has been through. */
  lemma {:induction false} MessagesAlwaysVerify(
    h: HandshakeSpec.Handshake, xs: seq<Event>, x: Event,
    limit: nat, nonceKey: Term, secretKey: Term, start: nat, calls: seq<Call>, now: nat, a: Option<IpAddr>, dstLen: nat)
    requires RateLimiterSpec.CallsFrom(calls, start) && InOrder(calls) && start <= now
    requires calls != [] ==> calls[|calls| - 1].now <= now
    requires Message(FeedAll(h, xs), x).Some?
    ensures
      var l := RateLimiterSpec.Run(RateLimiterSpec.New(h.params.peerPublic, limit, nonceKey, secretKey, start), calls);
      && RateLimiterSpec.Past(l, now)
      && var verdict := VerifyPacket(l, now, a, Message(FeedAll(h, xs), x).value, dstLen).1;
         verdict != Refuse(InvalidMac) && (l.count < limit ==> verdict == Accept)
  {
    var l := RateLimiterSpec.New(h.params.peerPublic, limit, nonceKey, secretKey, start);
    NewGuards(h, limit, nonceKey, secretKey, start);
    RunKeepsSecrets(l, calls);
    CookieStays(h, xs);
    MessagesAreMarked(FeedAll(h, xs), x);
    Mac1Verifies(FeedAll(h, xs), Message(FeedAll(h, xs), x).value, RateLimiterSpec.Run(l, calls), now, a, dstLen);
  }

  /** With a cookie given out at time `since` to address b, a message passes a loaded limiter exactly if
      it comes in the same epoch from the same (padded) address. */
  lemma {:induction false} Mac2PassesIff(
    h: HandshakeSpec.Handshake, m: Incoming, l: Limiter, since: nat, b: IpAddr,
    l': Limiter, now: nat, a: IpAddr, dstLen: nat)
    requires GuardsPeerOf(l, h) && SameSecrets(l, l') && RateLimiterSpec.Past(l, since) && RateLimiterSpec.Past(l', now)
    requires h.cookies.writeCookie == Some(CurrentCookie(l, since, b)) && Marked(h, m)
    requires l'.limit <= l'.count
    ensures
      VerifyPacket(l', now, Some(a), m, dstLen).1.Accept?
      <==> Epoch(l', now) == Epoch(l, since) && AddrBytes(a) == AddrBytes(b)
  {
    assert Mac2Fits(l', now, a, m) <==> CurrentCookie(l', now, a) == CurrentCookie(l, since, b);
  }

  lemma {:induction false} LaterEpoch(l: Limiter, since: nat, l': Limiter, now: nat)
    requires RateLimiterSpec.Past(l, since) && RateLimiterSpec.Past(l', now) && l'.startTime == l.startTime
    requires since + EPOCH <= now
    ensures Epoch(l, since) < Epoch(l', now)
  {
    EpochSpans(l, since);
    EpochSpans(l', now);
  }

  /** A cookie lapses: once COOKIE_REFRESH seconds have gone by, a message marked with it no longer
      passes a loaded limiter, from any address. */
  lemma {:induction false} CookieLapses(
    h: HandshakeSpec.Handshake, m: Incoming, l: Limiter, since: nat, b: IpAddr,
    l': Limiter, now: nat, a: IpAddr, dstLen: nat)
    requires GuardsPeerOf(l, h) && SameSecrets(l, l') && RateLimiterSpec.Past(l, since) && RateLimiterSpec.Past(l', now)
    requires h.cookies.writeCookie == Some(CurrentCookie(l, since, b)) && Marked(h, m)
    requires l'.limit <= l'.count && since + EPOCH <= now
    ensures !VerifyPacket(l', now, Some(a), m, dstLen).1.Accept?
  {
    LaterEpoch(l, since, l', now);
    Mac2PassesIff(h, m, l, since, b, l', now, a, dstLen);
  }

  /** Two different addresses share their cookies exactly if they are an IPv4 address and the IPv6
      address that starts with the same four octets and ends in zeros. */
  lemma {:induction false} SharedCookies(a: IpAddr, b: IpAddr)
    requires a.Valid() && b.Valid() && a != b
    ensures AddrBytes(a) == AddrBytes(b) <==>
            || (a.V4? && b.V6? && b.octets == a.octets + seq(12, _ => 0))
            || (a.V6? && b.V4? && a.octets == b.octets + seq(12, _ => 0))
  {
    if a.V4? && b.V4? {
      assert AddrBytes(a)[..4] == a.octets && AddrBytes(b)[..4] == b.octets;
    }
  }

  /** The round trip: the peer's loaded limiter answers a message with a cookie; from then on,
      whatever the handshake does while it holds this cookie and whatever else the limiter is asked,
      each of its messages passes from the same address in the same epoch. */
  lemma {:induction false} CookieRoundTrip(
    h: HandshakeSpec.Handshake, first: Event, l: Limiter, since: nat, a: IpAddr, space: nat,
    xs: seq<Event>, later: Event, calls: seq<Call>, now: nat, dstLen: nat)
    requires GuardsPeerOf(l, h) && RateLimiterSpec.Past(l, since) && Message(h, first).Some?
    requires VerifyPacket(l, since, Some(a), Message(h, first).value, space).1.SendCookie?
    requires l.startTime <= l.lastReset && RateLimiterSpec.CallsFrom(calls, l.lastReset) && InOrder(calls)
    requires RateLimiterSpec.Past(RateLimiterSpec.Run(l, calls), now)
    requires Epoch(RateLimiterSpec.Run(l, calls), now) == Epoch(l, since)
    ensures
      var reply := VerifyPacket(l, since, Some(a), Message(h, first).value, space).1.reply;
      var (h1, r) := ReceiveCookie(Feed(h, first), reply);
      var h2 := FeedAll(h1, xs);
      && r.Ok?
      && (AllSpareCookie(h1, xs) && Message(h2, later).Some? ==>
            VerifyPacket(RateLimiterSpec.Run(l, calls), now, Some(a), Message(h2, later).value, dstLen).1 == Accept)
  {
    var m := Message(h, first).value;
    MessageIsLatest(h, first);
    CookieIsKept(h, first);
    CookieArrives(Feed(h, first), m, l, since, a, space);
    var reply := VerifyPacket(l, since, Some(a), m, space).1.reply;
    var h1 := ReceiveCookie(Feed(h, first), reply).0;
    CookieStays(h1, xs);
    RunKeepsSecrets(l, calls);
    var h2, l2 := FeedAll(h1, xs), RateLimiterSpec.Run(l, calls);
    if AllSpareCookie(h1, xs) && Message(h2, later).Some? {
      MessagesAreMarked(h2, later);
      if l2.limit <= l2.count {
        Mac2PassesIff(h2, Message(h2, later).value, l, since, a, l2, now, a, dstLen);
      } else {
        Mac1Verifies(h2, Message(h2, later).value, l2, now, Some(a), dstLen);
      }
    }
  }
}

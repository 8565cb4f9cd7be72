/** The `RateLimiter` object of boringtun/src/noise/rate_limiter.rs. */
module RateLimiter {
  import opened Clock
  import opened Wrappers
  import opened Terms
  import opened RateLimiterSpec
  import HandshakeSpec

  class RateLimiter {
    const nonceKey: Term
    const secretKey: Term
    const startTime: nat
    const mac1Key: Term
    const cookieKey: Term
    const limit: nat
    var nonceCtr: nat
    var count: nat
    var lastReset: nat

    function Val(): Limiter
      reads this
    {
      Limiter(nonceKey, secretKey, startTime, mac1Key, cookieKey, limit, nonceCtr, count, lastReset)
    }

    constructor (publicKey: Term, limit: nat, nonceKey: Term, secretKey: Term, now: nat)
      ensures Val() == New(publicKey, limit, nonceKey, secretKey, now)
    {
      this.nonceKey, this.secretKey, this.startTime, this.limit := nonceKey, secretKey, now, limit;
      mac1Key := Hash(HandshakeSpec.LABEL_MAC1, publicKey);
      cookieKey := Hash(HandshakeSpec.LABEL_COOKIE, publicKey);
      nonceCtr, count, lastReset := 0, 0, now;
    }

    method ResetCount(now: nat)
      requires Past(Val(), now)
      modifies this`count, this`lastReset
      ensures Val() == RateLimiterSpec.ResetCount(old(Val()), now)
    {
      if (now - lastReset) / SEC >= RESET_PERIOD {
        count := 0;
        lastReset := now;
      }
    }

    method Nonce() returns (nonce: Term)
      modifies this`nonceCtr
      ensures nonce == Mac(nonceKey, Tag(old(nonceCtr))) && nonceCtr == old(nonceCtr) + 1
    {
      nonce := Mac(nonceKey, Tag(nonceCtr));
      nonceCtr := nonceCtr + 1;
    }

    method IsUnderLoad() returns (loaded: bool)
      modifies this`count
      ensures count == old(count) + 1 && loaded == (old(count) >= limit)
    {
      loaded := count >= limit;
      count := count + 1;
    }

    method FormatCookieReply(idx: nat, cookie: Term, mac1: Term, dstLen: nat)
      returns (r: Result<HandshakeSpec.CookieReply>)
      modifies this`nonceCtr
      ensures (Val(), r) == RateLimiterSpec.FormatCookieReply(old(Val()), idx, cookie, mac1, dstLen)
    {
      if dstLen < COOKIE_REPLY_SZ {
        return Err(DestinationBufferTooSmall);
      }
      var nonce := Nonce();
      r := Ok(HandshakeSpec.CookieReply(idx, nonce, XSeal(cookieKey, nonce, cookie, mac1)));
    }

    method VerifyPacket(now: nat, a: Option<IpAddr>, m: Incoming, dstLen: nat) returns (v: Verdict)
      requires Past(Val(), now)
      modifies this`count, this`nonceCtr
      ensures (Val(), v) == RateLimiterSpec.VerifyPacket(old(Val()), now, a, m, dstLen)
    {
      if m.Other? {
        return Accept;
      }
      if m.macs.mac1 != Mac(mac1Key, m.body) {
        return Refuse(InvalidMac);
      }
      var loaded := IsUnderLoad();
      if loaded {
        if a.None? {
          return Refuse(UnderLoad);
        }
        var cookie := CurrentCookie(Val(), now, a.value);
        if m.macs.mac2 != Mac(cookie, Pair(m.body, m.macs.mac1)) {
          var reply := FormatCookieReply(m.sender, cookie, m.macs.mac1, dstLen);
          return if reply.Ok? then SendCookie(reply.value) else Refuse(reply.error);
        }
      }
      v := Accept;
    }
  }
}

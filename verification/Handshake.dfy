/** The `Handshake` object of boringtun/src/noise/handshake.rs, step by step as the source
    computes it.  Each method is proved to act on the object's value as the corresponding
    function of module HandshakeSpec does; the classical and the post-quantum methods are
    separate bodies proved against one shared specification. */
module Handshake {
  import opened Wrappers
  import opened Terms
  import opened Tai64N
  import opened HandshakeSpec
  import LocalIndex
  import Session

  class Handshake {
    var params: Params
    var nextIndex: nat
    var previous: State
    var state: State
    var cookies: Cookies
    var lastStamp: Stamp
    var lastRtt: Option<nat>

    function Val(): HandshakeSpec.Handshake
      reads this
    {
      HandshakeSpec.Handshake(params, nextIndex, previous, state, cookies, lastStamp, lastRtt)
    }

    constructor (p: Params, globalIdx: nat)
      ensures Val() == New(p, globalIdx)
    {
      params, nextIndex := p, globalIdx;
      previous, state := Idle, Idle;
      cookies := Cookies(None, 0, None);
      lastStamp := ZERO_STAMP;
      lastRtt := None;
    }

    method SetExpired()
      modifies this`previous, this`state
      ensures Val() == HandshakeSpec.SetExpired(old(Val()))
    {
      previous := Expired;
      state := Expired;
    }

    method IncIndex() returns (index: nat)
      modifies this`nextIndex
      ensures index == nextIndex == LocalIndex.Inc(old(nextIndex))
    {
      var idx8 := nextIndex % 256;
      nextIndex := nextIndex - idx8 + (idx8 + 1) % 256;
      index := nextIndex;
    }

    method AppendMac1AndMac2(localIndex: nat, body: Term) returns (macs: Macs)
      modifies this`cookies
      ensures (cookies, macs) == AppendMacs(params, old(cookies), localIndex, body)
    {
      var mac1 := Mac(Hash(LABEL_MAC1, params.peerPublic), body);
      var mac2 := ZeroKey;
      if cookies.writeCookie.Some? {
        mac2 := Mac(cookies.writeCookie.value, Pair(body, mac1));
      }
      cookies := cookies.(index := localIndex).(lastMac1 := Some(mac1));
      macs := Macs(mac1, mac2);
    }

    method FormatHandshakeInitiation(ephemeral: nat, stamp: Bytes, now: nat, dstLen: nat)
      returns (r: Result<Initiation>)
      modifies this
      ensures (Val(), r) == FormatInit(old(Val()), false, ephemeral, 0, stamp, now, dstLen)
    {
      if dstLen < HANDSHAKE_INIT_SZ {
        return Err(DestinationBufferTooSmall);
      }
      var localIndex := IncIndex();
      var chainingKey := InitialKey(false);
      var hash := Hash(InitialKey(false), Label(IDENTIFIER));
      hash := Hash(hash, params.peerPublic);
      var unencryptedEphemeral := Pub(ephemeral);
      hash := Hash(hash, unencryptedEphemeral);
      chainingKey := Hmac(Hmac(chainingKey, unencryptedEphemeral), Tag(1));
      var temp := Hmac(chainingKey, Dh(ephemeral, params.peerPublic));
      chainingKey := Hmac(temp, Tag(1));
      var key := Hmac(temp, Pair(chainingKey, Tag(2)));
      var encryptedStatic := Seal(key, 0, Pub(params.staticPrivate), hash);
      hash := Hash(hash, encryptedStatic);
      temp := Hmac(chainingKey, Dh(params.staticPrivate, params.peerPublic));
      chainingKey := Hmac(temp, Tag(1));
      key := Hmac(temp, Pair(chainingKey, Tag(2)));
      var encryptedTimestamp := Seal(key, 0, Data(stamp), hash);
      hash := Hash(hash, encryptedTimestamp);
      previous, state := state, InitSent(localIndex, Chain(chainingKey, hash), ephemeral, now, None);
      var msg := InitMsg(localIndex, unencryptedEphemeral, encryptedStatic, encryptedTimestamp, None);
      var macs := AppendMac1AndMac2(localIndex, InitBody(msg));
      r := Ok(Initiation(msg, macs));
    }

    method FormatPqHandshakeInitiation(ephemeral: nat, dk: nat, stamp: Bytes, now: nat, dstLen: nat)
      returns (r: Result<Initiation>)
      modifies this
      ensures (Val(), r) == FormatInit(old(Val()), true, ephemeral, dk, stamp, now, dstLen)
    {
      if dstLen < PQ_HANDSHAKE_INIT_SZ {
        return Err(DestinationBufferTooSmall);
      }
      var localIndex := IncIndex();
      var chainingKey := InitialKey(true);
      var hash := Hash(InitialKey(true), Label(IDENTIFIER));
      hash := Hash(hash, params.peerPublic);
      var unencryptedEphemeral := Pub(ephemeral);
      hash := Hash(hash, unencryptedEphemeral);
      chainingKey := Hmac(Hmac(chainingKey, unencryptedEphemeral), Tag(1));
      var temp := Hmac(chainingKey, Dh(ephemeral, params.peerPublic));
      chainingKey := Hmac(temp, Tag(1));
      var key := Hmac(temp, Pair(chainingKey, Tag(2)));
      var encryptedStatic := Seal(key, 0, Pub(params.staticPrivate), hash);
      hash := Hash(hash, encryptedStatic);
      temp := Hmac(chainingKey, Dh(params.staticPrivate, params.peerPublic));
      chainingKey := Hmac(temp, Tag(1));
      key := Hmac(temp, Pair(chainingKey, Tag(2)));
      var encryptedTimestamp := Seal(key, 0, Data(stamp), hash);
      hash := Hash(hash, encryptedTimestamp);
      var mlkemEk := KemPub(dk);
      hash := Hash(hash, mlkemEk);
      previous, state := state, InitSent(localIndex, Chain(chainingKey, hash), ephemeral, now, Some(dk));
      var msg := InitMsg(localIndex, unencryptedEphemeral, encryptedStatic, encryptedTimestamp, Some(mlkemEk));
      var macs := AppendMac1AndMac2(localIndex, InitBody(msg));
      r := Ok(Initiation(msg, macs));
    }

    method ReceiveHandshakeInitialization(packet: InitMsg, ephemeral: nat, dstLen: nat)
      returns (r: Result<Reply>)
      requires packet.ek.None?
      modifies this
      ensures (Val(), r) == ReceiveInit(old(Val()), packet, ephemeral, 0, dstLen)
    {
      var chainingKey := InitialKey(false);
      var hash := Hash(InitialKey(false), Label(IDENTIFIER));
      hash := Hash(hash, Pub(params.staticPrivate));
      hash := Hash(hash, packet.ephemeral);
      chainingKey := Hmac(Hmac(chainingKey, packet.ephemeral), Tag(1));
      var temp := Hmac(chainingKey, Dh(params.staticPrivate, packet.ephemeral));
      chainingKey := Hmac(temp, Tag(1));
      var key := Hmac(temp, Pair(chainingKey, Tag(2)));
      var peerStatic := Open(key, 0, packet.encStatic, hash);
      if peerStatic.None? {
        return Err(InvalidAeadTag);
      }
      if peerStatic.value != params.peerPublic {
        return Err(WrongKey);
      }
      hash := Hash(hash, packet.encStatic);
      temp := Hmac(chainingKey, Dh(params.staticPrivate, params.peerPublic));
      chainingKey := Hmac(temp, Tag(1));
      key := Hmac(temp, Pair(chainingKey, Tag(2)));
      var timestamp := Open(key, 0, packet.encStamp, hash);
      if timestamp.None? {
        return Err(InvalidAeadTag);
      }
      var parsed := if timestamp.value.Data? then Parse(timestamp.value.bytes) else Err(InvalidTai64nTimestamp);
      if parsed.Err? {
        return Err(parsed.error);
      }
      if !After(parsed.value, lastStamp) {
        return Err(WrongTai64nTimestamp);
      }
      lastStamp := parsed.value;
      hash := Hash(hash, packet.encStamp);
      previous, state := state, InitReceived(Chain(chainingKey, hash), packet.ephemeral, packet.sender, None);
      r := FormatHandshakeResponse(ephemeral, dstLen);
    }

    method ReceivePqHandshakeInitialization(packet: InitMsg, ephemeral: nat, coins: nat, dstLen: nat)
      returns (r: Result<Reply>)
      requires packet.ek.Some?
      modifies this
      ensures (Val(), r) == ReceiveInit(old(Val()), packet, ephemeral, coins, dstLen)
    {
      var chainingKey := InitialKey(true);
      var hash := Hash(InitialKey(true), Label(IDENTIFIER));
      hash := Hash(hash, Pub(params.staticPrivate));
      hash := Hash(hash, packet.ephemeral);
      chainingKey := Hmac(Hmac(chainingKey, packet.ephemeral), Tag(1));
      var temp := Hmac(chainingKey, Dh(params.staticPrivate, packet.ephemeral));
      chainingKey := Hmac(temp, Tag(1));
      var key := Hmac(temp, Pair(chainingKey, Tag(2)));
      var peerStatic := Open(key, 0, packet.encStatic, hash);
      if peerStatic.None? {
        return Err(InvalidAeadTag);
      }
      if peerStatic.value != params.peerPublic {
        return Err(WrongKey);
      }
      hash := Hash(hash, packet.encStatic);
      temp := Hmac(chainingKey, Dh(params.staticPrivate, params.peerPublic));
      chainingKey := Hmac(temp, Tag(1));
      key := Hmac(temp, Pair(chainingKey, Tag(2)));
      var timestamp := Open(key, 0, packet.encStamp, hash);
      if timestamp.None? {
        return Err(InvalidAeadTag);
      }
      var parsed := if timestamp.value.Data? then Parse(timestamp.value.bytes) else Err(InvalidTai64nTimestamp);
      if parsed.Err? {
        return Err(parsed.error);
      }
      if !After(parsed.value, lastStamp) {
        return Err(WrongTai64nTimestamp);
      }
      lastStamp := parsed.value;
      hash := Hash(hash, packet.encStamp);
      hash := Hash(hash, packet.ek.value);
      previous, state := state, InitReceived(Chain(chainingKey, hash), packet.ephemeral, packet.sender, packet.ek);
      r := FormatPqHandshakeResponse(ephemeral, coins, dstLen);
    }

    method FormatHandshakeResponse(ephemeral: nat, dstLen: nat) returns (r: Result<Reply>)
      requires state.InitReceived? && state.ek.None?
      modifies this
      ensures (Val(), r) == FormatResponse(old(Val()), ephemeral, 0, dstLen)
    {
      if dstLen < HANDSHAKE_RESP_SZ {
        return Err(DestinationBufferTooSmall);
      }
      var taken := state;
      state := Idle;
      var chainingKey, hash := taken.chain.key, taken.chain.hash;
      var localIndex := IncIndex();
      var unencryptedEphemeral := Pub(ephemeral);
      hash := Hash(hash, unencryptedEphemeral);
      chainingKey := Hmac(Hmac(chainingKey, unencryptedEphemeral), Tag(1));
      chainingKey := Hmac(Hmac(chainingKey, Dh(ephemeral, taken.peerEphemeral)), Tag(1));
      chainingKey := Hmac(Hmac(chainingKey, Dh(ephemeral, params.peerPublic)), Tag(1));
      var temp := Hmac(chainingKey, PskOf(params));
      chainingKey := Hmac(temp, Tag(1));
      var temp2 := Hmac(temp, Pair(chainingKey, Tag(2)));
      var key := Hmac(temp, Pair(temp2, Tag(3)));
      hash := Hash(hash, temp2);
      var encryptedNothing := Seal(key, 0, Empty, hash);
      var temp1 := Hmac(chainingKey, Empty);
      temp2 := Hmac(temp1, Tag(1));
      var temp3 := Hmac(temp1, Pair(temp2, Tag(2)));
      var msg := RespMsg(localIndex, taken.peerIndex, unencryptedEphemeral, encryptedNothing, None);
      var macs := AppendMac1AndMac2(localIndex, RespBody(msg));
      r := Ok(Reply(msg, macs, Session.New(localIndex, taken.peerIndex, temp2, temp3)));
    }

    method FormatPqHandshakeResponse(ephemeral: nat, coins: nat, dstLen: nat) returns (r: Result<Reply>)
      requires state.InitReceived? && state.ek.Some?
      modifies this
      ensures (Val(), r) == FormatResponse(old(Val()), ephemeral, coins, dstLen)
    {
      if dstLen < PQ_HANDSHAKE_RESP_SZ {
        return Err(DestinationBufferTooSmall);
      }
      var taken := state;
      state := Idle;
      var chainingKey, hash := taken.chain.key, taken.chain.hash;
      var localIndex := IncIndex();
      var unencryptedEphemeral := Pub(ephemeral);
      hash := Hash(hash, unencryptedEphemeral);
      chainingKey := Hmac(Hmac(chainingKey, unencryptedEphemeral), Tag(1));
      chainingKey := Hmac(Hmac(chainingKey, Dh(ephemeral, taken.peerEphemeral)), Tag(1));
      chainingKey := Hmac(Hmac(chainingKey, Dh(ephemeral, params.peerPublic)), Tag(1));
      var ek := taken.ek.value;
      if !ek.KemPub? {
        return Err(InvalidPacket);
      }
      var ct, secret := KemCt(ek.dk, coins), KemSecret(ek.dk, coins);
      chainingKey := Hmac(Hmac(chainingKey, secret), Tag(1));
      hash := Hash(hash, ct);
      var temp := Hmac(chainingKey, PskOf(params));
      chainingKey := Hmac(temp, Tag(1));
      var temp2 := Hmac(temp, Pair(chainingKey, Tag(2)));
      var key := Hmac(temp, Pair(temp2, Tag(3)));
      hash := Hash(hash, temp2);
      var encryptedNothing := Seal(key, 0, Empty, hash);
      var temp1 := Hmac(chainingKey, Empty);
      temp2 := Hmac(temp1, Tag(1));
      var temp3 := Hmac(temp1, Pair(temp2, Tag(2)));
      var msg := RespMsg(localIndex, taken.peerIndex, unencryptedEphemeral, encryptedNothing, Some(ct));
      var macs := AppendMac1AndMac2(localIndex, RespBody(msg));
      r := Ok(Reply(msg, macs, Session.New(localIndex, taken.peerIndex, temp2, temp3)));
    }

    /** The outstanding initiation addressed by `index`, and whether it is the older one. */
    method FindAwaiting(index: nat) returns (found: Option<State>, isPrevious: bool)
      ensures found == Awaiting(Val(), index)
      ensures found.Some? ==> found.value.InitSent? && found.value.localIndex == index
      ensures found.Some? ==> (isPrevious <==> !(state.InitSent? && state.localIndex == index))
    {
      if state.InitSent? && state.localIndex == index {
        return Some(state), false;
      }
      if previous.InitSent? && previous.localIndex == index {
        return Some(previous), true;
      }
      return None, false;
    }

    method Complete(s: State, isPrevious: bool, now: nat)
      requires s.InitSent?
      modifies this`lastRtt, this`previous, this`state
      ensures Val() == (var h := old(Val()).(lastRtt := Some(RttMillis(now, s.timeSent)));
                        if isPrevious then h.(previous := Idle) else h.(state := Idle))
    {
      lastRtt := Some((if now >= s.timeSent then (now - s.timeSent) / 1_000_000 else 0) % 0x1_0000_0000);
      if isPrevious {
        previous := Idle;
      } else {
        state := Idle;
      }
    }

    method ReceiveHandshakeResponse(packet: RespMsg, now: nat) returns (r: Result<Session.State>)
      requires packet.ct.None?
      modifies this
      ensures (Val(), r) == ReceiveResponse(old(Val()), packet, now)
    {
      var found, isPrevious := FindAwaiting(packet.receiver);
      if found.None? {
        return Err(UnexpectedPacket);
      }
      var s := found.value;
      if s.dk.Some? {
        return Err(WrongPacketType);
      }
      var hash := Hash(s.chain.hash, packet.ephemeral);
      var chainingKey := Hmac(Hmac(s.chain.key, packet.ephemeral), Tag(1));
      chainingKey := Hmac(Hmac(chainingKey, Dh(s.ephemeral, packet.ephemeral)), Tag(1));
      chainingKey := Hmac(Hmac(chainingKey, Dh(params.staticPrivate, packet.ephemeral)), Tag(1));
      var temp := Hmac(chainingKey, PskOf(params));
      chainingKey := Hmac(temp, Tag(1));
      var temp2 := Hmac(temp, Pair(chainingKey, Tag(2)));
      var key := Hmac(temp, Pair(temp2, Tag(3)));
      hash := Hash(hash, temp2);
      if Open(key, 0, packet.encNothing, hash) != Some(Empty) {
        return Err(InvalidAeadTag);
      }
      var temp1 := Hmac(chainingKey, Empty);
      temp2 := Hmac(temp1, Tag(1));
      var temp3 := Hmac(temp1, Pair(temp2, Tag(2)));
      Complete(s, isPrevious, now);
      r := Ok(Session.New(s.localIndex, packet.sender, temp3, temp2));
    }

    method ReceivePqHandshakeResponse(packet: RespMsg, now: nat) returns (r: Result<Session.State>)
      requires packet.ct.Some?
      modifies this
      ensures (Val(), r) == ReceiveResponse(old(Val()), packet, now)
    {
      var found, isPrevious := FindAwaiting(packet.receiver);
      if found.None? {
        return Err(UnexpectedPacket);
      }
      var s := found.value;
      var hash := Hash(s.chain.hash, packet.ephemeral);
      var chainingKey := Hmac(Hmac(s.chain.key, packet.ephemeral), Tag(1));
      chainingKey := Hmac(Hmac(chainingKey, Dh(s.ephemeral, packet.ephemeral)), Tag(1));
      chainingKey := Hmac(Hmac(chainingKey, Dh(params.staticPrivate, packet.ephemeral)), Tag(1));
      if s.dk.None? {
        return Err(InvalidPacket);
      }
      var secret := Decap(s.dk.value, packet.ct.value);
      chainingKey := Hmac(Hmac(chainingKey, secret), Tag(1));
      hash := Hash(hash, packet.ct.value);
      var temp := Hmac(chainingKey, PskOf(params));
      chainingKey := Hmac(temp, Tag(1));
      var temp2 := Hmac(temp, Pair(chainingKey, Tag(2)));
      var key := Hmac(temp, Pair(temp2, Tag(3)));
      hash := Hash(hash, temp2);
      if Open(key, 0, packet.encNothing, hash) != Some(Empty) {
        return Err(InvalidAeadTag);
      }
      var temp1 := Hmac(chainingKey, Empty);
      temp2 := Hmac(temp1, Tag(1));
      var temp3 := Hmac(temp1, Pair(temp2, Tag(2)));
      Complete(s, isPrevious, now);
      r := Ok(Session.New(s.localIndex, packet.sender, temp3, temp2));
    }

    method ReceiveCookieReply(packet: CookieReply) returns (r: Result<()>)
      modifies this`cookies
      ensures (Val(), r) == ReceiveCookie(old(Val()), packet)
    {
      if cookies.lastMac1.None? {
        return Err(UnexpectedPacket);
      }
      if packet.receiver != cookies.index {
        return Err(WrongIndex);
      }
      var key := Hash(LABEL_COOKIE, params.peerPublic);
      var cookie := XOpen(key, packet.nonce, packet.box, cookies.lastMac1.value);
      if cookie.None? {
        return Err(InvalidAeadTag);
      }
      if !IsCookie(cookie.value) {
        return Err(InvalidPacket);
      }
      cookies := cookies.(writeCookie := cookie);
      r := Ok(());
    }

    method SetStaticPrivate(key: nat)
      modifies this`params
      ensures Val() == HandshakeSpec.SetStaticPrivate(old(Val()), key)
    {
      params := params.(staticPrivate := key);
    }

    method ClearCookie()
      modifies this`cookies
      ensures Val() == HandshakeSpec.ClearCookie(old(Val()))
    {
      cookies := cookies.(writeCookie := None);
    }
  }
}

/** The Noise IKpsk2 handshake and its ML-KEM hybrid (boringtun/src/noise/handshake.rs) as
    functions on values.  The key schedule is written once, in Noise's own vocabulary of
    mixing into a chain; the classical and the hybrid messages differ only in the optional
    ML-KEM fields and in the domain-separating construction name. */
module HandshakeSpec {
  import opened Wrappers
  import opened Terms
  import opened Tai64N
  import LocalIndex
  import Session

  const HANDSHAKE_INIT_SZ: nat := 148
  const HANDSHAKE_RESP_SZ: nat := 92
  const PQ_HANDSHAKE_INIT_SZ: nat := 1332
  const PQ_HANDSHAKE_RESP_SZ: nat := 1180

  const CONSTRUCTION := "Noise_IKpsk2_25519_ChaChaPoly_BLAKE2s"
  const CONSTRUCTION_PQ := "Noise_IKpsk2_25519+MLKEM768_ChaChaPoly_BLAKE2s"
  const IDENTIFIER := "WireGuard v1 zx2c4 Jason@zx2c4.com"
  const LABEL_MAC1 := Label("mac1----")
  const LABEL_COOKIE := Label("cookie--")

  function InitSize(hybrid: bool): nat { if hybrid then PQ_HANDSHAKE_INIT_SZ else HANDSHAKE_INIT_SZ }

  function RespSize(hybrid: bool): nat { if hybrid then PQ_HANDSHAKE_RESP_SZ else HANDSHAKE_RESP_SZ }

  // ----- The key schedule -----

  datatype Chain = Chain(key: Term, hash: Term)

  function InitialKey(hybrid: bool): Term {
    Hash(Label(if hybrid then CONSTRUCTION_PQ else CONSTRUCTION), Empty)
  }

  function InitialChain(hybrid: bool): Chain {
    Chain(InitialKey(hybrid), Hash(InitialKey(hybrid), Label(IDENTIFIER)))
  }

  function MixHash(c: Chain, data: Term): Chain { c.(hash := Hash(c.hash, data)) }

  function MixKey(c: Chain, data: Term): Chain { c.(key := Hmac(Hmac(c.key, data), Tag(1))) }

  /** The AEAD key that goes with mixing `data` into the chain. */
  function CipherKey(c: Chain, data: Term): Term {
    Hmac(Hmac(c.key, data), Pair(MixKey(c, data).key, Tag(2)))
  }

  /** After the responder's name and the initiator's ephemeral. */
  function Greeted(hybrid: bool, responder: Term, ephemeral: Term): Chain {
    MixKey(MixHash(MixHash(InitialChain(hybrid), responder), ephemeral), ephemeral)
  }

  /** The box around the initiator's static key, given the ephemeral-static secret. */
  function StaticBox(hybrid: bool, responder: Term, ephemeral: Term, es: Term, initiator: Term): Term {
    var c := Greeted(hybrid, responder, ephemeral);
    Seal(CipherKey(c, es), 0, initiator, c.hash)
  }

  function Named(hybrid: bool, responder: Term, ephemeral: Term, es: Term, encStatic: Term): Chain {
    MixHash(MixKey(Greeted(hybrid, responder, ephemeral), es), encStatic)
  }

  /** The box around the timestamp, given the chain so far and the static-static secret. */
  function StampBox(c: Chain, ss: Term, stamp: Term): Term {
    Seal(CipherKey(c, ss), 0, stamp, c.hash)
  }

  /** The chain both sides hold once the initiation is complete. */
  function Initiated(c: Chain, ss: Term, encStamp: Term, ek: Option<Term>): Chain {
    var d := MixHash(MixKey(c, ss), encStamp);
    if ek.Some? then MixHash(d, ek.value) else d
  }

  /** What an ML-KEM encapsulation adds to the response. */
  datatype Kem = Kem(ct: Term, secret: Term)

  /** Everything the response derives: the confirmation box and the two transport keys. */
  datatype Derived = Derived(box: Term, toResponder: Term, toInitiator: Term)

  /** The part of the response before ML-KEM and the preshared key. */
  function ClassicalPart(c: Chain, ephemeral: Term, ee: Term, se: Term): Chain {
    MixKey(MixKey(MixKey(MixHash(c, ephemeral), ephemeral), ee), se)
  }

  function BeforePsk(c: Chain, ephemeral: Term, ee: Term, se: Term, kem: Option<Kem>): Chain {
    var d := ClassicalPart(c, ephemeral, ee, se);
    if kem.Some? then MixHash(MixKey(d, kem.value.secret), kem.value.ct) else d
  }

  function Finish(d: Chain, psk: Term): Derived {
    var temp := Hmac(d.key, psk);
    var key := Hmac(temp, Tag(1));
    var temp2 := Hmac(temp, Pair(key, Tag(2)));
    var root := Hmac(key, Empty);
    var first := Hmac(root, Tag(1));
    Derived(
      Seal(Hmac(temp, Pair(temp2, Tag(3))), 0, Empty, Hash(d.hash, temp2)),
      first,
      Hmac(root, Pair(first, Tag(2))))
  }

  function Respond(c: Chain, ephemeral: Term, ee: Term, se: Term, kem: Option<Kem>, psk: Term): Derived {
    Finish(BeforePsk(c, ephemeral, ee, se, kem), psk)
  }

  // ----- Messages -----

  /** Type 1, or type 5 when it carries an encapsulation key. */
  datatype InitMsg = InitMsg(sender: nat, ephemeral: Term, encStatic: Term, encStamp: Term, ek: Option<Term>)

  /** Type 2, or type 6 when it carries a ciphertext. */
  datatype RespMsg = RespMsg(sender: nat, receiver: nat, ephemeral: Term, encNothing: Term, ct: Option<Term>)

  datatype Macs = Macs(mac1: Term, mac2: Term)

  function InitBody(m: InitMsg): Term {
    Wire([Tag(if m.ek.Some? then 5 else 1), Tag(m.sender), m.ephemeral, m.encStatic, m.encStamp]
         + (if m.ek.Some? then [m.ek.value] else []))
  }

  function RespBody(m: RespMsg): Term {
    Wire([Tag(if m.ct.Some? then 6 else 2), Tag(m.sender), Tag(m.receiver), m.ephemeral, m.encNothing]
         + (if m.ct.Some? then [m.ct.value] else []))
  }

  lemma {:induction false} InitBodyNames(m: InitMsg, m': InitMsg)
    requires InitBody(m) == InitBody(m')
    ensures m == m'
  {
    var b, b' := InitBody(m).fields, InitBody(m').fields;
    assert b[0] == b'[0] && b[1] == b'[1] && b[2] == b'[2] && b[3] == b'[3] && b[4] == b'[4];
    assert m.ek.Some? ==> b[5] == b'[5];
  }

  lemma {:induction false} RespBodyNames(r: RespMsg, r': RespMsg)
    requires RespBody(r) == RespBody(r')
    ensures r == r'
  {
    var b, b' := RespBody(r).fields, RespBody(r').fields;
    assert b[0] == b'[0] && b[1] == b'[1] && b[2] == b'[2] && b[3] == b'[3] && b[4] == b'[4];
    assert r.ct.Some? ==> b[5] == b'[5];
  }

  /** The bytes under mac1 tell every message from every other, of any type. */
  lemma {:induction false} BodiesDiffer(m: InitMsg, m': InitMsg, r: RespMsg, r': RespMsg)
    ensures InitBody(m) == InitBody(m') <==> m == m'
    ensures RespBody(r) == RespBody(r') <==> r == r'
    ensures InitBody(m) != RespBody(r)
  {
    if InitBody(m) == InitBody(m') {
      InitBodyNames(m, m');
    }
    if RespBody(r) == RespBody(r') {
      RespBodyNames(r, r');
    }
    assert InitBody(m).fields[0] != RespBody(r).fields[0];
  }

  // ----- The handshake object as a value -----

  datatype Params = Params(staticPrivate: nat, peerPublic: Term, psk: Option<Term>)

  /** An absent preshared key counts as zeros. */
  function PskOf(p: Params): Term { if p.psk.Some? then p.psk.value else ZeroKey }

  datatype State =
    | Idle
    | InitSent(localIndex: nat, chain: Chain, ephemeral: nat, timeSent: nat, dk: Option<nat>)
    | InitReceived(chain: Chain, peerEphemeral: Term, peerIndex: nat, ek: Option<Term>)
    | Expired

  datatype Cookies = Cookies(lastMac1: Option<Term>, index: nat, writeCookie: Option<Term>)

  datatype Handshake = Handshake(
    params: Params,
    nextIndex: nat,
    previous: State,
    state: State,
    cookies: Cookies,
    lastStamp: Stamp,
    lastRtt: Option<nat>)

  function New(params: Params, globalIdx: nat): Handshake {
    Handshake(params, globalIdx, Idle, Idle, Cookies(None, 0, None), ZERO_STAMP, None)
  }

  predicate InProgress(h: Handshake) { !h.state.Idle? && !h.state.Expired? }

  function SetExpired(h: Handshake): Handshake { h.(previous := Expired, state := Expired) }

  /** A new private key; outstanding handshakes keep their chains. */
  function SetStaticPrivate(h: Handshake, key: nat): Handshake {
    h.(params := h.params.(staticPrivate := key))
  }

  function AppendMacs(p: Params, c: Cookies, localIndex: nat, body: Term): (Cookies, Macs) {
    var mac1 := Mac(Hash(LABEL_MAC1, p.peerPublic), body);
    var mac2 := if c.writeCookie.Some? then Mac(c.writeCookie.value, Pair(body, mac1)) else ZeroKey;
    (c.(index := localIndex, lastMac1 := Some(mac1)), Macs(mac1, mac2))
  }

  datatype Initiation = Initiation(msg: InitMsg, macs: Macs)

  datatype Reply = Reply(msg: RespMsg, macs: Macs, session: Session.State)

  /** The initiation a holder of `ephemeral` and (for the hybrid form) `dk` writes. */
  function MakeInit(p: Params, sender: nat, ephemeral: nat, stamp: Bytes, dk: Option<nat>): InitMsg {
    var hybrid := dk.Some?;
    var es := Dh(ephemeral, p.peerPublic);
    var encStatic := StaticBox(hybrid, p.peerPublic, Pub(ephemeral), es, Pub(p.staticPrivate));
    var c := Named(hybrid, p.peerPublic, Pub(ephemeral), es, encStatic);
    var encStamp := StampBox(c, Dh(p.staticPrivate, p.peerPublic), Data(stamp));
    InitMsg(sender, Pub(ephemeral), encStatic, encStamp, if hybrid then Some(KemPub(dk.value)) else None)
  }

  /** The chain the initiator keeps for `m`. */
  function InitiatorChain(p: Params, ephemeral: nat, m: InitMsg): Chain {
    var c := Named(m.ek.Some?, p.peerPublic, m.ephemeral, Dh(ephemeral, p.peerPublic), m.encStatic);
    Initiated(c, Dh(p.staticPrivate, p.peerPublic), m.encStamp, m.ek)
  }

  /** The chain the responder computes for `m`. */
  function ResponderNamed(p: Params, m: InitMsg): Chain {
    Named(m.ek.Some?, Pub(p.staticPrivate), m.ephemeral, Dh(p.staticPrivate, m.ephemeral), m.encStatic)
  }

  function ResponderChain(p: Params, m: InitMsg): Chain {
    Initiated(ResponderNamed(p, m), Dh(p.staticPrivate, p.peerPublic), m.encStamp, m.ek)
  }

  function FormatInit(
    h: Handshake, hybrid: bool, ephemeral: nat, dk: nat, stamp: Bytes, now: nat, dstLen: nat)
    : (Handshake, Result<Initiation>)
  {
    if dstLen < InitSize(hybrid) then (h, Err(DestinationBufferTooSmall))
    else
      var index := LocalIndex.Inc(h.nextIndex);
      var key := if hybrid then Some(dk) else None;
      var m := MakeInit(h.params, index, ephemeral, stamp, key);
      var (cookies, macs) := AppendMacs(h.params, h.cookies, index, InitBody(m));
      (h.(nextIndex := index,
          previous := h.state,
          state := InitSent(index, InitiatorChain(h.params, ephemeral, m), ephemeral, now, key),
          cookies := cookies),
       Ok(Initiation(m, macs)))
  }

  /** The checks an initiation must pass before anything is stored. */
  function CheckInit(h: Handshake, m: InitMsg): Result<Stamp> {
    var p := h.params;
    var greeted := Greeted(m.ek.Some?, Pub(p.staticPrivate), m.ephemeral);
    match Open(CipherKey(greeted, Dh(p.staticPrivate, m.ephemeral)), 0, m.encStatic, greeted.hash)
    case None => Err(InvalidAeadTag)
    case Some(name) =>
      if name != p.peerPublic then Err(WrongKey)
      else
        var named := ResponderNamed(p, m);
        match Open(CipherKey(named, Dh(p.staticPrivate, p.peerPublic)), 0, m.encStamp, named.hash)
        case None => Err(InvalidAeadTag)
        case Some(plain) =>
          match (if plain.Data? then Parse(plain.bytes) else Err(InvalidTai64nTimestamp))
          case Err(e) => Err(e)
          case Ok(stamp) => if After(stamp, h.lastStamp) then Ok(stamp) else Err(WrongTai64nTimestamp)
  }

  /** Stores an initiation that passed the checks. */
  function Received(h: Handshake, m: InitMsg, stamp: Stamp): Handshake {
    h.(lastStamp := stamp,
       previous := h.state,
       state := InitReceived(ResponderChain(h.params, m), m.ephemeral, m.sender, m.ek))
  }

  /** The derivation on the responder's side. */
  function RespondTo(p: Params, s: State, ephemeral: nat, coins: nat): Derived
    requires s.InitReceived?
    requires s.ek.Some? ==> s.ek.value.KemPub?
  {
    var kem := if s.ek.Some?
               then Some(Kem(KemCt(s.ek.value.dk, coins), KemSecret(s.ek.value.dk, coins))) else None;
    Respond(s.chain, Pub(ephemeral), Dh(ephemeral, s.peerEphemeral), Dh(ephemeral, p.peerPublic), kem, PskOf(p))
  }

  function FormatResponse(h: Handshake, ephemeral: nat, coins: nat, dstLen: nat): (Handshake, Result<Reply>)
    requires h.state.InitReceived?
  {
    var s := h.state;
    if dstLen < RespSize(s.ek.Some?) then (h, Err(DestinationBufferTooSmall))
    else
      var index := LocalIndex.Inc(h.nextIndex);
      var h' := h.(state := Idle, nextIndex := index);
      if s.ek.Some? && !s.ek.value.KemPub? then (h', Err(InvalidPacket))
      else
        var d := RespondTo(h.params, s, ephemeral, coins);
        var ct := if s.ek.Some? then Some(KemCt(s.ek.value.dk, coins)) else None;
        var m := RespMsg(index, s.peerIndex, Pub(ephemeral), d.box, ct);
        var (cookies, macs) := AppendMacs(h.params, h.cookies, index, RespBody(m));
        (h'.(cookies := cookies),
         Ok(Reply(m, macs, Session.New(index, s.peerIndex, d.toResponder, d.toInitiator))))
  }

  function ReceiveInit(h: Handshake, m: InitMsg, ephemeral: nat, coins: nat, dstLen: nat)
    : (Handshake, Result<Reply>)
  {
    match CheckInit(h, m)
    case Err(e) => (h, Err(e))
    case Ok(stamp) => FormatResponse(Received(h, m, stamp), ephemeral, coins, dstLen)
  }

  /** The outstanding initiation a response to `index` belongs to: the newer one first. */
  function Awaiting(h: Handshake, index: nat): Option<State> {
    if h.state.InitSent? && h.state.localIndex == index then Some(h.state)
    else if h.previous.InitSent? && h.previous.localIndex == index then Some(h.previous)
    else None
  }

  /** The derivation on the initiator's side; the decapsulation key must be at hand for type 6. */
  function Confirm(p: Params, s: State, m: RespMsg): Derived
    requires s.InitSent?
    requires m.ct.Some? ==> s.dk.Some?
  {
    var kem := if m.ct.Some? then Some(Kem(m.ct.value, Decap(s.dk.value, m.ct.value))) else None;
    Respond(s.chain, m.ephemeral, Dh(s.ephemeral, m.ephemeral), Dh(p.staticPrivate, m.ephemeral), kem, PskOf(p))
  }

  function RttMillis(now: nat, sent: nat): nat {
    (if now >= sent then (now - sent) / 1_000_000 else 0) % 0x1_0000_0000
  }

  /** The round-trip time is the whole milliseconds since the initiation was sent, as long as they fit
      32 bits. */
  lemma {:induction false} RttCountsMillis(now: nat, sent: nat)
    requires sent <= now < sent + 0x1_0000_0000 * 1_000_000
    ensures sent + RttMillis(now, sent) * 1_000_000 <= now < sent + (RttMillis(now, sent) + 1) * 1_000_000
  {
    var millis := (now - sent) / 1_000_000;
    assert millis < 0x1_0000_0000;
  }

  function CheckResponse(h: Handshake, m: RespMsg): Result<Derived> {
    match Awaiting(h, m.receiver)
    case None => Err(UnexpectedPacket)
    case Some(s) =>
      if m.ct.None? && s.dk.Some? then Err(WrongPacketType)
      else if m.ct.Some? && s.dk.None? then Err(InvalidPacket)
      else
        var d := Confirm(h.params, s, m);
        if m.encNothing == d.box then Ok(d) else Err(InvalidAeadTag)
  }

  function ReceiveResponse(h: Handshake, m: RespMsg, now: nat): (Handshake, Result<Session.State>) {
    match CheckResponse(h, m)
    case Err(e) => (h, Err(e))
    case Ok(d) =>
      var s := Awaiting(h, m.receiver).value;
      var h' := h.(lastRtt := Some(RttMillis(now, s.timeSent)));
      var isCurrent := h.state.InitSent? && h.state.localIndex == m.receiver;
      (if isCurrent then h'.(state := Idle) else h'.(previous := Idle),
       Ok(Session.New(s.localIndex, m.sender, d.toInitiator, d.toResponder)))
  }

  // ----- Cookies -----

  datatype CookieReply = CookieReply(receiver: nat, nonce: Term, box: Term)

  /** 16 bytes: a mac, or data of that size. */
  predicate IsCookie(t: Term) { t.Mac? || (t.Data? && |t.bytes| == 16) }

  function ReceiveCookie(h: Handshake, m: CookieReply): (Handshake, Result<()>) {
    match h.cookies.lastMac1
    case None => (h, Err(UnexpectedPacket))
    case Some(mac1) =>
      if m.receiver != h.cookies.index then (h, Err(WrongIndex))
      else match XOpen(Hash(LABEL_COOKIE, h.params.peerPublic), m.nonce, m.box, mac1)
        case None => (h, Err(InvalidAeadTag))
        case Some(cookie) =>
          if !IsCookie(cookie) then (h, Err(InvalidPacket))
          else (h.(cookies := h.cookies.(writeCookie := Some(cookie))), Ok(()))
  }

  /** A cookie of any length but 16 bytes is refused. */
  lemma {:induction false} CookieHas16Bytes(h: Handshake, m: CookieReply)
    requires m.box.XSeal? && m.box.plain.Data? && |m.box.plain.bytes| != 16
    ensures ReceiveCookie(h, m).0 == h && ReceiveCookie(h, m).1.Err?
  {
  }

  function ClearCookie(h: Handshake): Handshake {
    h.(cookies := h.cookies.(writeCookie := None))
  }
}

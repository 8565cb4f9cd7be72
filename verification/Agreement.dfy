/** What accepting a handshake message proves about whoever sealed it. */
module Agreement {
  import opened Wrappers
  import opened Terms
  import opened Tai64N
  import opened HandshakeSpec
  import Session

  // ----- The key schedule loses nothing -----

  lemma {:induction false} FinishInjective(d: Chain, psk: Term, d': Chain, psk': Term)
    requires Finish(d, psk).box == Finish(d', psk').box
    ensures d == d' && psk == psk'
  {
  }

  predicate IsDh(t: Term) { t.Shared? || t.SharedOdd? }

  predicate KemOk(kem: Option<Kem>) { kem.Some? ==> kem.value.secret.KemSecret? || kem.value.secret.KemReject? }

  lemma {:induction false} MixKeyInjective(c: Chain, data: Term, c': Chain, data': Term)
    requires MixKey(c, data).key == MixKey(c', data').key
    ensures c.key == c'.key && data == data'
  {
  }

  lemma {:induction false} ClassicalInjective(
    c: Chain, e: Term, ee: Term, se: Term, c': Chain, e': Term, ee': Term, se': Term)
    requires ClassicalPart(c, e, ee, se) == ClassicalPart(c', e', ee', se')
    ensures c == c' && e == e' && ee == ee' && se == se'
  {
    var c1, c1' := MixKey(MixHash(c, e), e), MixKey(MixHash(c', e'), e');
    MixKeyInjective(MixKey(c1, ee), se, MixKey(c1', ee'), se');
    MixKeyInjective(c1, ee, c1', ee');
    MixKeyInjective(MixHash(c, e), e, MixHash(c', e'), e');
  }

  lemma {:induction false} KemIsNoDh(c: Chain, secret: Term, c': Chain, dh: Term)
    requires IsDh(dh) && (secret.KemSecret? || secret.KemReject?)
    ensures MixKey(c, secret).key != MixKey(c', dh).key
  {
  }

  lemma {:induction false} BeforePskInjective(
    c: Chain, e: Term, ee: Term, se: Term, kem: Option<Kem>,
    c': Chain, e': Term, ee': Term, se': Term, kem': Option<Kem>)
    requires IsDh(se) && IsDh(se') && KemOk(kem) && KemOk(kem')
    requires BeforePsk(c, e, ee, se, kem) == BeforePsk(c', e', ee', se', kem')
    ensures c == c' && e == e' && ee == ee' && se == se' && kem == kem'
  {
    var d, d' := ClassicalPart(c, e, ee, se), ClassicalPart(c', e', ee', se');
    var c2, c2' := MixKey(MixKey(MixHash(c, e), e), ee), MixKey(MixKey(MixHash(c', e'), e'), ee');
    if kem.Some? {
      KemIsNoDh(d, kem.value.secret, c2', se');
    }
    if kem'.Some? {
      KemIsNoDh(d', kem'.value.secret, c2, se);
    }
    if kem.Some? {
      MixKeyInjective(d, kem.value.secret, d', kem'.value.secret);
    }
    ClassicalInjective(c, e, ee, se, c', e', ee', se');
  }

  lemma {:induction false} InitiatedInjective(
    hybrid: bool, r: Term, e: Term, es: Term, encStatic: Term, ss: Term, encStamp: Term, ek: Option<Term>,
    hybrid': bool, r': Term, e': Term, es': Term, encStatic': Term, ss': Term, encStamp': Term, ek': Option<Term>)
    requires hybrid == ek.Some? && hybrid' == ek'.Some?
    requires Initiated(Named(hybrid, r, e, es, encStatic), ss, encStamp, ek)
          == Initiated(Named(hybrid', r', e', es', encStatic'), ss', encStamp', ek')
    ensures hybrid == hybrid' && r == r' && e == e' && es == es' && ss == ss'
    ensures encStatic == encStatic' && encStamp == encStamp' && ek == ek'
  {
    assert Hmac(InitialKey(hybrid), e) == Hmac(InitialKey(hybrid'), e');
    ConstructionsDiffer();
  }

  lemma {:induction false} ConstructionsDiffer()
    ensures CONSTRUCTION != CONSTRUCTION_PQ
  {
    assert |CONSTRUCTION| == 37 && |CONSTRUCTION_PQ| == 46;
  }

  // ----- Acceptance implies agreement -----

  /** The same preshared key at both ends; having none is the same as having one of zeros. */
  predicate SamePsk(p: Params, q: Params) {
    p.psk == q.psk || (NoPsk(p.psk) && NoPsk(q.psk))
  }

  predicate NoPsk(psk: Option<Term>) { psk.None? || psk.value == ZeroKey }

  /** The slot an initiator keeps after sending `MakeInit(p, index, e, stamp, dk)`. */
  function Slot(p: Params, index: nat, e: nat, stamp: Bytes, dk: Option<nat>, time: nat): State {
    InitSent(index, InitiatorChain(p, e, MakeInit(p, index, e, stamp, dk)), e, time, dk)
  }

  /** The slot a responder keeps after storing `m`. */
  function Stored(q: Params, m: InitMsg): State {
    InitReceived(ResponderChain(q, m), m.ephemeral, m.sender, m.ek)
  }

  /** Agreement.  An initiator that accepts a response and the responder that sealed its box saw
      the same initiation field for field (the sender index is not authenticated), mean each
      other, hold the same preshared key (absent counts as zeros), used the responder ephemeral
      and ciphertext of the message, and derived the same transport keys. */
  lemma {:induction false} AcceptedMeansAgreed(
    p: Params, s: State, index: nat, e: nat, stamp: Bytes, dk: Option<nat>, time: nat,
    q: Params, m: InitMsg, f: nat, coins: nat, resp: RespMsg)
    requires s == Slot(p, index, e, stamp, dk, time)
    requires m.ek.Some? ==> m.ek.value.KemPub?
    requires resp.ct.Some? <==> dk.Some?
    requires resp.encNothing == Confirm(p, s, resp).box
    requires resp.encNothing == RespondTo(q, Stored(q, m), f, coins).box
    ensures m == MakeInit(p, m.sender, e, stamp, dk)
    ensures p.peerPublic == Pub(q.staticPrivate) && q.peerPublic == Pub(p.staticPrivate)
    ensures SamePsk(p, q)
    ensures resp.ephemeral == Pub(f)
    ensures resp.ct == if dk.Some? then Some(KemCt(dk.value, coins)) else None
    ensures Confirm(p, s, resp) == RespondTo(q, Stored(q, m), f, coins)
  {
    var init := MakeInit(p, index, e, stamp, dk);
    var kem := if resp.ct.Some? then Some(Kem(resp.ct.value, Decap(dk.value, resp.ct.value))) else None;
    var kem' := if m.ek.Some?
                then Some(Kem(KemCt(m.ek.value.dk, coins), KemSecret(m.ek.value.dk, coins))) else None;
    var c, c' := InitiatorChain(p, e, init), ResponderChain(q, m);
    var ee, se := Dh(e, resp.ephemeral), Dh(p.staticPrivate, resp.ephemeral);
    var ee', se' := Dh(f, m.ephemeral), Dh(f, q.peerPublic);
    FinishInjective(
      BeforePsk(c, resp.ephemeral, ee, se, kem), PskOf(p),
      BeforePsk(c', Pub(f), ee', se', kem'), PskOf(q));
    BeforePskInjective(c, resp.ephemeral, ee, se, kem, c', Pub(f), ee', se', kem');
    InitiatedInjective(
      init.ek.Some?, p.peerPublic, init.ephemeral, Dh(e, p.peerPublic), init.encStatic,
      Dh(p.staticPrivate, p.peerPublic), init.encStamp, init.ek,
      m.ek.Some?, Pub(q.staticPrivate), m.ephemeral, Dh(q.staticPrivate, m.ephemeral), m.encStatic,
      Dh(q.staticPrivate, q.peerPublic), m.encStamp, m.ek);
    SharedNamesPeer(p.staticPrivate, f, q.peerPublic);
  }

  /** A shared secret names both keys it was made of. */
  lemma {:induction false} SharedNamesPeer(secret: nat, f: nat, point: Term)
    requires Dh(secret, Pub(f)) == Dh(f, point)
    ensures point == Pub(secret)
  {
  }

  /** The same lemma as a rejection: for a response whose box the responder with parameters `q`
      sealed, a different preshared key, another pair of static keys, another initiation, or a
      changed ephemeral or ciphertext is always refused. */
  lemma {:induction false} MismatchIsRejected(
    h: Handshake, index: nat, e: nat, stamp: Bytes, dk: Option<nat>, time: nat,
    q: Params, m: InitMsg, f: nat, coins: nat, resp: RespMsg)
    requires Awaiting(h, resp.receiver) == Some(Slot(h.params, index, e, stamp, dk, time))
    requires m.ek.Some? ==> m.ek.value.KemPub?
    requires resp.encNothing == RespondTo(q, Stored(q, m), f, coins).box
    requires
      || !SamePsk(h.params, q)
      || h.params.peerPublic != Pub(q.staticPrivate) || q.peerPublic != Pub(h.params.staticPrivate)
      || m != MakeInit(h.params, m.sender, e, stamp, dk)
      || resp.ephemeral != Pub(f)
      || (resp.ct.Some? && m.ek.Some? && resp.ct.value != KemCt(m.ek.value.dk, coins))
    ensures CheckResponse(h, resp).Err?
  {
    var s := Awaiting(h, resp.receiver).value;
    if resp.ct.Some? == dk.Some? && resp.encNothing == Confirm(h.params, s, resp).box {
      AcceptedMeansAgreed(h.params, s, index, e, stamp, dk, time, q, m, f, coins, resp);
    }
  }

  /** Decapsulation never fails, so a tampered ciphertext shows in the keys: exchanging it changes
      the confirmation box and both transport keys that the initiator derives. */
  lemma {:induction false} TamperedCiphertextChangesKeys(p: Params, s: State, resp: RespMsg, ct: Term)
    requires s.InitSent? && s.dk.Some? && resp.ct.Some? && resp.ct.value != ct
    ensures
      var d, d' := Confirm(p, s, resp), Confirm(p, s, resp.(ct := Some(ct)));
      d.box != d'.box && d.toResponder != d'.toResponder && d.toInitiator != d'.toInitiator
  {
    DecapInjective(s.dk.value, resp.ct.value, ct);
    var c := ClassicalPart(
      s.chain, resp.ephemeral, Dh(s.ephemeral, resp.ephemeral), Dh(p.staticPrivate, resp.ephemeral));
    var secret, secret' := Decap(s.dk.value, resp.ct.value), Decap(s.dk.value, ct);
    FinishNamesKey(MixHash(MixKey(c, secret), resp.ct.value), MixHash(MixKey(c, secret'), ct), PskOf(p));
  }

  lemma {:induction false} FinishNamesKey(d: Chain, d': Chain, psk: Term)
    requires d.key != d'.key
    ensures
      var x, y := Finish(d, psk), Finish(d', psk);
      x.box != y.box && x.toResponder != y.toResponder && x.toInitiator != y.toInitiator
  {
  }

  // ----- Honest parties complete -----

  /** The two parameter sets belong to two ends of one tunnel with the same preshared key. */
  predicate Peers(p: Params, q: Params) {
    && p.peerPublic == Pub(q.staticPrivate) && q.peerPublic == Pub(p.staticPrivate)
    && SamePsk(p, q)
  }

  /** A genuine initiation passes every check of the other end, whatever its sender index, as
      long as its timestamp is newer than the last one; both ends then hold the same chain. */
  lemma {:induction false} GenuineInitPasses(
    h: Handshake, p: Params, index: nat, e: nat, stamp: Bytes, dk: Option<nat>)
    requires p.peerPublic == Pub(h.params.staticPrivate) && h.params.peerPublic == Pub(p.staticPrivate)
    requires Parse(stamp).Ok?
    ensures
      var m := MakeInit(p, index, e, stamp, dk);
      && CheckInit(h, m) == (if After(Parse(stamp).value, h.lastStamp) then Parse(stamp)
                             else Err(WrongTai64nTimestamp))
      && ResponderChain(h.params, m) == InitiatorChain(p, e, m)
  {
    DhCommutes(e, h.params.staticPrivate);
    DhCommutes(p.staticPrivate, h.params.staticPrivate);
  }

  /** One by anybody else is refused for its name, however well made. */
  lemma {:induction false} StrangerIsRefused(
    h: Handshake, p: Params, index: nat, e: nat, stamp: Bytes, dk: Option<nat>)
    requires p.peerPublic == Pub(h.params.staticPrivate) && h.params.peerPublic != Pub(p.staticPrivate)
    ensures CheckInit(h, MakeInit(p, index, e, stamp, dk)) == Err(WrongKey)
  {
    DhCommutes(e, h.params.staticPrivate);
  }

  /** The response to a genuine initiation is accepted, and the two sessions mirror each other:
      keys crossed over, indices crossed over. */
  lemma {:induction false} GenuineResponseMirrors(
    h: Handshake, index: nat, e: nat, stamp: Bytes, dk: Option<nat>, time: nat,
    g: Handshake, f: nat, coins: nat, dstLen: nat, now: nat)
    requires Peers(h.params, g.params)
    requires Awaiting(h, index) == Some(Slot(h.params, index, e, stamp, dk, time))
    requires g.state == Stored(g.params, MakeInit(h.params, index, e, stamp, dk))
    requires dstLen >= RespSize(dk.Some?)
    ensures
      var (_, reply) := FormatResponse(g, f, coins, dstLen);
      && reply.Ok?
      && var (_, made) := ReceiveResponse(h, reply.value.msg, now);
         made.Ok? && Session.Mirrored(made.value, reply.value.session)
  {
    var m := MakeInit(h.params, index, e, stamp, dk);
    DhCommutes(e, g.params.staticPrivate);
    DhCommutes(h.params.staticPrivate, g.params.staticPrivate);
    assert ResponderChain(g.params, m) == InitiatorChain(h.params, e, m);
    DhCommutes(e, f);
    DhCommutes(h.params.staticPrivate, f);
    var resp := FormatResponse(g, f, coins, dstLen).1.value.msg;
    var s := Awaiting(h, index).value;
    assert Confirm(h.params, s, resp) == RespondTo(g.params, g.state, f, coins);
  }

  /** In particular an absent preshared key counts as zeros: an end without one and an end with one of
      zeros accept each other's responses. */
  lemma {:induction false} AbsentPskIsZeros(
    h: Handshake, index: nat, e: nat, stamp: Bytes, dk: Option<nat>, time: nat,
    g: Handshake, f: nat, coins: nat, dstLen: nat, now: nat)
    requires h.params.peerPublic == Pub(g.params.staticPrivate) && g.params.peerPublic == Pub(h.params.staticPrivate)
    requires
      || (h.params.psk, g.params.psk) == (None, Some(ZeroKey))
      || (h.params.psk, g.params.psk) == (Some(ZeroKey), None)
    requires Awaiting(h, index) == Some(Slot(h.params, index, e, stamp, dk, time))
    requires g.state == Stored(g.params, MakeInit(h.params, index, e, stamp, dk))
    requires dstLen >= RespSize(dk.Some?)
    ensures
      var (_, reply) := FormatResponse(g, f, coins, dstLen);
      && reply.Ok?
      && var (_, made) := ReceiveResponse(h, reply.value.msg, now);
         made.Ok? && Session.Mirrored(made.value, reply.value.session)
  {
    GenuineResponseMirrors(h, index, e, stamp, dk, time, g, f, coins, dstLen, now);
  }

  // ----- Domain separation -----

  /** An initiation sealed for one construction never opens under the other: whoever takes the box
      around the initiator's key out of a type 5 and puts it into a type 1, or the reverse, is
      refused by the first AEAD, whatever the other fields are. */
  lemma {:induction false} RetypedInitIsRejected(
    h: Handshake, p: Params, index: nat, e: nat, stamp: Bytes, dk: Option<nat>, retyped: InitMsg)
    requires retyped.encStatic == MakeInit(p, index, e, stamp, dk).encStatic
    requires retyped.ek.Some? != dk.Some?
    ensures CheckInit(h, retyped) == Err(InvalidAeadTag)
  {
    ConstructionsDiffer();
    var m := MakeInit(p, index, e, stamp, dk);
    var greeted := Greeted(!dk.Some?, Pub(h.params.staticPrivate), retyped.ephemeral);
    assert m.encStatic.aad == Greeted(dk.Some?, p.peerPublic, m.ephemeral).hash;
    assert m.encStatic.aad != greeted.hash;
  }

  /** Type 2 never completes a hybrid initiation, type 6 never a classical one. */
  lemma {:induction false} ResponseTypesDoNotMix(h: Handshake, resp: RespMsg, s: State)
    requires Awaiting(h, resp.receiver) == Some(s) && (resp.ct.Some? <==> s.dk.None?)
    ensures CheckResponse(h, resp) == Err(if s.dk.Some? then WrongPacketType else InvalidPacket)
  {
  }

  // ----- Changing the private key -----

  /** Changing the private key ends the handshake under way: no responder's answer to an initiation made
      under the old key is accepted under the new one. */
  lemma {:induction false} KeyChangeEndsHandshake(
    h: Handshake, key: nat, index: nat, e: nat, stamp: Bytes, dk: Option<nat>, time: nat,
    q: Params, m: InitMsg, f: nat, coins: nat, resp: RespMsg)
    requires Awaiting(h, resp.receiver) == Some(Slot(h.params, index, e, stamp, dk, time))
    requires m.ek.Some? ==> m.ek.value.KemPub?
    requires resp.encNothing == RespondTo(q, Stored(q, m), f, coins).box
    requires key != h.params.staticPrivate
    ensures CheckResponse(SetStaticPrivate(h, key), resp).Err?
  {
    var s := Awaiting(h, resp.receiver).value;
    var p := h.params.(staticPrivate := key);
    if resp.ct.Some? == dk.Some? && resp.encNothing == Confirm(p, s, resp).box {
      AnswerNamesKey(p, s, q, m, f, coins, resp);
      OldKeyIsNamed(h.params, index, e, stamp, dk, q, m);
    }
  }

  /** Accepting a responder's box under a private key means that the responder answered to that key. */
  lemma {:induction false} AnswerNamesKey(
    p: Params, s: State, q: Params, m: InitMsg, f: nat, coins: nat, resp: RespMsg)
    requires s.InitSent? && (m.ek.Some? ==> m.ek.value.KemPub?) && (resp.ct.Some? <==> s.dk.Some?)
    requires Confirm(p, s, resp).box == RespondTo(q, Stored(q, m), f, coins).box
    ensures q.peerPublic == Pub(p.staticPrivate) && s.chain == ResponderChain(q, m)
  {
    var kem := if resp.ct.Some? then Some(Kem(resp.ct.value, Decap(s.dk.value, resp.ct.value))) else None;
    var kem' := if m.ek.Some?
                then Some(Kem(KemCt(m.ek.value.dk, coins), KemSecret(m.ek.value.dk, coins))) else None;
    var c' := ResponderChain(q, m);
    var ee, se := Dh(s.ephemeral, resp.ephemeral), Dh(p.staticPrivate, resp.ephemeral);
    var ee', se' := Dh(f, m.ephemeral), Dh(f, q.peerPublic);
    FinishInjective(
      BeforePsk(s.chain, resp.ephemeral, ee, se, kem), PskOf(p),
      BeforePsk(c', Pub(f), ee', se', kem'), PskOf(q));
    BeforePskInjective(s.chain, resp.ephemeral, ee, se, kem, c', Pub(f), ee', se', kem');
    SharedNamesPeer(p.staticPrivate, f, q.peerPublic);
  }

  /** A responder with the initiator's chain means the key that the chain was made under. */
  lemma {:induction false} OldKeyIsNamed(
    p: Params, index: nat, e: nat, stamp: Bytes, dk: Option<nat>, q: Params, m: InitMsg)
    requires InitiatorChain(p, e, MakeInit(p, index, e, stamp, dk)) == ResponderChain(q, m)
    ensures q.peerPublic == Pub(p.staticPrivate)
  {
    var init := MakeInit(p, index, e, stamp, dk);
    InitiatedInjective(
      init.ek.Some?, p.peerPublic, init.ephemeral, Dh(e, p.peerPublic), init.encStatic,
      Dh(p.staticPrivate, p.peerPublic), init.encStamp, init.ek,
      m.ek.Some?, Pub(q.staticPrivate), m.ephemeral, Dh(q.staticPrivate, m.ephemeral), m.encStatic,
      Dh(q.staticPrivate, q.peerPublic), m.encStamp, m.ek);
    SharedNamesPeer(p.staticPrivate, q.staticPrivate, q.peerPublic);
  }

  // ----- Harmless rejection -----

  datatype Event =
    | GotInit(m: InitMsg, ephemeral: nat, coins: nat, dstLen: nat)
    | GotResponse(r: RespMsg, now: nat)
    | GotCookie(reply: CookieReply)
    | Initiates(hybrid: bool, ephemeral: nat, dk: nat, stamp: Bytes, now: nat, dstLen: nat)
    | Expires
    | CookieExpires
    | SetsKey(key: nat)

  function Feed(h: Handshake, x: Event): Handshake {
    match x
    case GotInit(m, ephemeral, coins, dstLen) => ReceiveInit(h, m, ephemeral, coins, dstLen).0
    case GotResponse(r, now) => ReceiveResponse(h, r, now).0
    case Initiates(hybrid, ephemeral, dk, stamp, now, dstLen) =>
      FormatInit(h, hybrid, ephemeral, dk, stamp, now, dstLen).0
    case GotCookie(reply) => ReceiveCookie(h, reply).0
    case Expires => SetExpired(h)
    case CookieExpires => ClearCookie(h)
    case SetsKey(key) => SetStaticPrivate(h, key)
  }

  function FeedAll(h: Handshake, xs: seq<Event>): Handshake
    decreases |xs|
  {
    if xs == [] then h else FeedAll(Feed(h, xs[0]), xs[1..])
  }

  /** Refused by the checks of this very state. */
  predicate Refused(h: Handshake, x: Event) {
    match x
    case GotInit(m, _, _, _) => CheckInit(h, m).Err?
    case GotResponse(r, _) => CheckResponse(h, r).Err?
    case GotCookie(reply) => ReceiveCookie(h, reply).1.Err?
    case _ => false
  }

  /** Any number of refused messages, in any order, leaves the whole handshake as it was, so the
      genuine message that follows meets the state it would have met without them. */
  lemma {:induction false} RefusedMessagesAreHarmless(h: Handshake, xs: seq<Event>)
    requires forall x | x in xs :: Refused(h, x)
    ensures FeedAll(h, xs) == h
    decreases |xs|
  {
    if xs == [] {
    } else {
      assert Refused(h, xs[0]);
      RefusedMessagesAreHarmless(h, xs[1..]);
    }
  }

  /** An initiation that passes the checks is still refused exactly when the reply buffer is too
      small or the encapsulation key is malformed. */
  predicate LateRefusal(m: InitMsg, dstLen: nat) {
    dstLen < RespSize(m.ek.Some?) || (m.ek.Some? && !m.ek.value.KemPub?)
  }

  /** A rejected initiation leaves the state unchanged if and only if the checks refused it; the
      late refusals have consumed the timestamp, so the same initiation never succeeds again. */
  lemma {:induction false} RejectedInitUnchangedIff(h: Handshake, m: InitMsg, ephemeral: nat, coins: nat, dstLen: nat)
    ensures
      var (h', r) := ReceiveInit(h, m, ephemeral, coins, dstLen);
      && (r.Err? <==> CheckInit(h, m).Err? || LateRefusal(m, dstLen))
      && (h' == h <==> CheckInit(h, m).Err?)
      && (CheckInit(h, m).Ok? ==> CheckInit(h', m) == Err(WrongTai64nTimestamp))
  {
  }

  // ----- Replay order -----

  /** The timestamps of the initiations accepted along a run, in order, types 1 and 5 alike. */
  function AcceptedStamps(h: Handshake, xs: seq<Event>): seq<Stamp>
    decreases |xs|
  {
    if xs == [] then []
    else
      (if xs[0].GotInit? && CheckInit(h, xs[0].m).Ok? then [CheckInit(h, xs[0].m).value] else [])
      + AcceptedStamps(Feed(h, xs[0]), xs[1..])
  }

  predicate Ascending(stamps: seq<Stamp>) {
    forall i, j | 0 <= i < j < |stamps| :: After(stamps[j], stamps[i])
  }

  /** One event moves the stored timestamp only by accepting a strictly later one. */
  lemma {:induction false} FeedMovesStamp(h: Handshake, x: Event)
    ensures x.GotInit? && CheckInit(h, x.m).Ok? ==>
              Feed(h, x).lastStamp == CheckInit(h, x.m).value && After(Feed(h, x).lastStamp, h.lastStamp)
    ensures !(x.GotInit? && CheckInit(h, x.m).Ok?) ==> Feed(h, x).lastStamp == h.lastStamp
  {
  }

  lemma {:induction false} PrependAscending(first: Stamp, rest: seq<Stamp>)
    requires rest != [] && After(rest[0], first) && Ascending(rest)
    ensures Ascending([first] + rest)
  {
    forall j | 0 < j < |rest|
      ensures After(rest[j], first)
    {
      assert After(rest[j], rest[0]);
    }
  }

  /** The first event of a run adds its timestamp, or none. */
  lemma {:induction false} StampsCons(h: Handshake, xs: seq<Event>)
    requires xs != []
    ensures
      var h', rest := Feed(h, xs[0]), AcceptedStamps(Feed(h, xs[0]), xs[1..]);
      || (After(h'.lastStamp, h.lastStamp) && AcceptedStamps(h, xs) == [h'.lastStamp] + rest)
      || (h'.lastStamp == h.lastStamp && AcceptedStamps(h, xs) == rest)
  {
    FeedMovesStamp(h, xs[0]);
    var rest := AcceptedStamps(Feed(h, xs[0]), xs[1..]);
    assert [] + rest == rest;
  }

  /** Accepted timestamps strictly increase along every run, from the last one stored. */
  lemma {:induction false} AcceptedStampsAscend(h: Handshake, xs: seq<Event>)
    ensures Ascending([h.lastStamp] + AcceptedStamps(h, xs))
    decreases |xs|
  {
    if xs == [] {
    } else {
      var h' := Feed(h, xs[0]);
      AcceptedStampsAscend(h', xs[1..]);
      StampsCons(h, xs);
      if h'.lastStamp != h.lastStamp {
        PrependAscending(h.lastStamp, [h'.lastStamp] + AcceptedStamps(h', xs[1..]));
      }
    }
  }

  /** So once an initiation has been accepted, no later copy of it is, whatever happens in between: its
      timestamp stays behind, and under another private key it does not even open. */
  lemma {:induction false} NoInitAcceptedTwice(h: Handshake, x: Event, xs: seq<Event>)
    requires x.GotInit? && CheckInit(h, x.m).Ok?
    ensures
      var g := FeedAll(Feed(h, x), xs);
      CheckInit(g, x.m) == Err(if g.params.staticPrivate == h.params.staticPrivate then WrongTai64nTimestamp
                               else InvalidAeadTag)
  {
    var h' := Feed(h, x);
    FeedMovesStamp(h, x);
    StampNeverGoesBack(h', xs);
    FeedKeepsPeer(h', xs);
    StaleIsRefused(h, FeedAll(h', xs), x.m);
  }

  lemma {:induction false} StaleIsRefused(h: Handshake, g: Handshake, m: InitMsg)
    requires CheckInit(h, m).Ok? && g.params == h.params.(staticPrivate := g.params.staticPrivate)
    requires NotBefore(g.lastStamp, CheckInit(h, m).value)
    ensures CheckInit(g, m) == Err(if g.params.staticPrivate == h.params.staticPrivate then WrongTai64nTimestamp
                                   else InvalidAeadTag)
  {
    var first, greeted := Greeted(m.ek.Some?, Pub(h.params.staticPrivate), m.ephemeral),
                          Greeted(m.ek.Some?, Pub(g.params.staticPrivate), m.ephemeral);
    assert m.encStatic.aad == first.hash;
    assert greeted.hash == first.hash ==> g.params.staticPrivate == h.params.staticPrivate;
  }

  predicate NotBefore(a: Stamp, b: Stamp) { a == b || After(a, b) }

  lemma {:induction false} StampNeverGoesBack(h: Handshake, xs: seq<Event>)
    ensures NotBefore(FeedAll(h, xs).lastStamp, h.lastStamp)
    decreases |xs|
  {
    if xs == [] {
    } else {
      FeedMovesStamp(h, xs[0]);
      StampNeverGoesBack(Feed(h, xs[0]), xs[1..]);
    }
  }

  /** Only the private key ever changes. */
  lemma {:induction false} FeedKeepsPeer(h: Handshake, xs: seq<Event>)
    ensures
      var g := FeedAll(h, xs);
      g.params == h.params.(staticPrivate := g.params.staticPrivate)
    decreases |xs|
  {
    if xs == [] {
    } else {
      FeedKeepsPeer(Feed(h, xs[0]), xs[1..]);
    }
  }

  /** The private key is the one set last: as long as no event sets another. */
  lemma {:induction false} KeyStays(h: Handshake, xs: seq<Event>)
    requires forall i | 0 <= i < |xs| :: !xs[i].SetsKey?
    ensures FeedAll(h, xs).params == h.params
    decreases |xs|
  {
    if xs == [] {
    } else {
      KeyStays(Feed(h, xs[0]), xs[1..]);
    }
  }

  /** After the private key is set, and until it is set again, an initiation by the peer passes exactly if
      it is addressed to the new public key and later than the last one; addressed to any other key,
      the old one included, it does not open. */
  lemma {:induction false} NewKeyAnswers(
    h: Handshake, key: nat, xs: seq<Event>, p: Params, index: nat, e: nat, stamp: Bytes, dk: Option<nat>)
    requires forall i | 0 <= i < |xs| :: !xs[i].SetsKey?
    requires h.params.peerPublic == Pub(p.staticPrivate) && Parse(stamp).Ok?
    ensures
      var g := FeedAll(h, [SetsKey(key)] + xs);
      CheckInit(g, MakeInit(p, index, e, stamp, dk))
      == if p.peerPublic != Pub(key) then Err(InvalidAeadTag)
         else if After(Parse(stamp).value, g.lastStamp) then Parse(stamp)
         else Err(WrongTai64nTimestamp)
  {
    assert ([SetsKey(key)] + xs)[1..] == xs;
    var g := FeedAll(Feed(h, SetsKey(key)), xs);
    KeyStays(Feed(h, SetsKey(key)), xs);
    if p.peerPublic == Pub(key) {
      GenuineInitPasses(g, p, index, e, stamp, dk);
    } else {
      OtherKeyDoesNotOpen(g, p, index, e, stamp, dk);
    }
  }

  lemma {:induction false} OtherKeyDoesNotOpen(
    h: Handshake, p: Params, index: nat, e: nat, stamp: Bytes, dk: Option<nat>)
    requires p.peerPublic != Pub(h.params.staticPrivate)
    ensures CheckInit(h, MakeInit(p, index, e, stamp, dk)) == Err(InvalidAeadTag)
  {
    var m := MakeInit(p, index, e, stamp, dk);
    assert m.encStatic.aad == Greeted(dk.Some?, p.peerPublic, m.ephemeral).hash;
    assert m.encStatic.aad != Greeted(dk.Some?, Pub(h.params.staticPrivate), m.ephemeral).hash;
  }
}

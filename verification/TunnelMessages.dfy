/** A tunnel together with its whole handshake.  Calls and messages act here at the level of the
    cryptography: whether a handshake message is accepted is computed, not given. */
module TunnelMessages {
  import opened Wrappers
  import opened Terms
  import opened HandshakeSlots
  import opened LocalIndex
  import opened TunnelSpec
  import opened TunnelRuns
  import H = HandshakeSpec
  import Session

  datatype Full = Full(h: H.Handshake, t: Tunn)

  /** The tunnel sees the slots, the next index and the presence of a cookie. */
  predicate Tied(f: Full) {
    f.t.slots == SlotsOf(f.h) && f.t.hasCookie == f.h.cookies.writeCookie.Some?
  }

  function New(params: H.Params, hybrid: bool, index: nat, persistentKeepalive: nat): Full {
    Full(H.New(params, index * 256 % 0x1_0000_0000), TunnelSpec.New(hybrid, index, persistentKeepalive))
  }

  /** What a call draws for an initiation, should it send one. */
  datatype Draw = Draw(ephemeral: nat, dk: nat, stamp: Bytes)

  datatype Input =
    | CallTimers(dstLen: nat, draw: Draw)
    | CallSend(src: Bytes, dstLen: nat, draw: Draw)
    | CallFlush(dstLen: nat, draw: Draw)
    | CallHandshake(force: bool, dstLen: nat, draw: Draw)
    | GetInit(init: H.InitMsg, ephemeral: nat, coins: nat, dstLen: nat)
    | GetResponse(resp: H.RespMsg)
    | GetCookie(reply: H.CookieReply)
    | GetData(packet: Session.Packet)
    | SetPrivate(key: nat)

  // ----- Calls -----

  /** The handshake before an initiation that the call may send: the cookie may have expired, and
      the attempt may have been given up. */
  function Aged(h: H.Handshake, t: Tunn, t': Tunn): H.Handshake {
    var h1 := if t.hasCookie && !t'.hasCookie then H.ClearCookie(h) else h;
    if t'.slots.state.Expired? && !t.slots.state.Expired? then H.SetExpired(h1) else h1
  }

  /** What formatting an initiation makes of the handshake, and the message. */
  function Formatted(h: H.Handshake, hybrid: bool, now: nat, dstLen: nat, draw: Draw)
    : (H.Handshake, Result<H.Initiation>)
  {
    H.FormatInit(h, hybrid, draw.ephemeral, draw.dk, draw.stamp, now, dstLen)
  }

  /** The handshake after a call that took the tunnel from t to t' with outcome r. */
  function Followed(h: H.Handshake, t: Tunn, t': Tunn, r: Outcome, now: nat, dstLen: nat, draw: Draw): H.Handshake {
    if r.SendInit? then Formatted(Aged(h, t, t'), t.hybrid, now, dstLen, draw).0 else Aged(h, t, t')
  }

  /** The initiation that the call puts on the network, if any. */
  function Initiation(h: H.Handshake, t: Tunn, t': Tunn, r: Outcome, now: nat, dstLen: nat, draw: Draw)
    : Option<H.Initiation>
  {
    if !r.SendInit? then None
    else match Formatted(Aged(h, t, t'), t.hybrid, now, dstLen, draw).1 case Ok(i) => Some(i) case Err(_) => None
  }

  function Called(f: Full, res: (Tunn, Outcome), now: nat, dstLen: nat, draw: Draw): (Full, Outcome) {
    (Full(Followed(f.h, f.t, res.0, res.1, now, dstLen, draw), res.0), res.1)
  }

  // ----- Messages -----

  /** Types 5 and 6 exist only in a tunnel built with the `pq` feature. */
  predicate Parses(t: Tunn, hybridMessage: bool) { hybridMessage ==> t.hybrid }

  function TakesInit(f: Full, m: H.InitMsg, ephemeral: nat, coins: nat, dstLen: nat): (Full, Outcome)
    requires WellFormed(f.t)
  {
    if !Parses(f.t, m.ek.Some?) then (f, Failed(InvalidPacket))
    else
      var (h', r) := H.ReceiveInit(f.h, m, ephemeral, coins, dstLen);
      var t1 := f.t.(slots := SlotsOf(h'));
      match r
      case Err(e) => (Full(h', t1), Failed(e))
      case Ok(reply) => (Full(h', Answered(t1, reply.session)), SendResponse(reply.session.receivingIndex))
  }

  /** The responder session goes to its slot. */
  function Answered(t: Tunn, s: Session.State): Tunn
    requires WellFormed(t)
  {
    var t1 := t.(sessions := t.sessions[s.receivingIndex % N_SESSIONS := Some(s)]);
    TickEstablished(TickSent(TickReceived(t1)), false, s.receivingIndex)
  }

  function TakesResponse(f: Full, m: H.RespMsg, now: nat): (Full, Outcome)
    requires WellFormed(f.t)
  {
    if !Parses(f.t, m.ct.Some?) then (f, Failed(InvalidPacket))
    else
      var (h', r) := H.ReceiveResponse(f.h, m, now);
      var t1 := f.t.(slots := SlotsOf(h'));
      match r
      case Err(e) => (Full(h', t1), Failed(e))
      case Ok(session) =>
        var (s, keepalive) := Session.SealPacket(session, []);
        (Full(h', Confirmed(t1, s)), SendData(keepalive))
  }

  /** The initiator session, with its first packet sealed, goes to its slot. */
  function Confirmed(t: Tunn, s: Session.State): Tunn
    requires WellFormed(t)
  {
    var index := s.receivingIndex;
    var t1 := t.(sessions := t.sessions[index % N_SESSIONS := Some(s)]);
    SetCurrent(TickEstablished(TickReceived(t1), true, index % N_SESSIONS), index)
  }

  function TakesCookie(f: Full, m: H.CookieReply): (Full, Outcome) {
    var (h', r) := H.ReceiveCookie(f.h, m);
    match r
    case Err(e) => (Full(h', f.t), Failed(e))
    case Ok(_) => (Full(h', TickCookie(TickReceived(f.t.(hasCookie := h'.cookies.writeCookie.Some?)))), Done)
  }

  function Take(f: Full, x: Input, now: nat): (Full, Outcome)
    requires WellFormed(f.t) && Past(f.t, now)
  {
    match x
    case CallTimers(dstLen, draw) => Called(f, UpdateTimers(f.t, now, dstLen), now, dstLen, draw)
    case CallSend(src, dstLen, draw) => Called(f, Encapsulate(f.t, src, now, dstLen), now, dstLen, draw)
    case CallFlush(dstLen, draw) => Called(f, SendQueued(f.t, now, dstLen), now, dstLen, draw)
    case CallHandshake(force, dstLen, draw) => Called(f, FormatInitiation(f.t, force, now, dstLen), now, dstLen, draw)
    case GetInit(m, ephemeral, coins, dstLen) => TakesInit(f, m, ephemeral, coins, dstLen)
    case GetResponse(m) => TakesResponse(f, m, now)
    case GetCookie(m) => TakesCookie(f, m)
    case GetData(packet) => var (t', r) := DataReceived(f.t, packet); (Full(f.h, t'), r)
    case SetPrivate(key) => (Full(H.SetStaticPrivate(f.h, key), TunnelSpec.SetStaticPrivate(f.t)), Done)
  }

  // ----- Each input is one event of the tunnel, or changes nothing -----

  /** The event by which the tunnel sees this input; none if the checks refuse it. */
  function EventOf(f: Full, x: Input, now: nat): Option<Event> {
    match x
    case CallTimers(dstLen, _) => Some(Timers(dstLen))
    case CallSend(src, dstLen, _) => Some(Send(src, dstLen))
    case CallFlush(dstLen, _) => Some(Flush(dstLen))
    case CallHandshake(force, dstLen, _) => Some(Handshake(force, dstLen))
    case GetInit(m, ephemeral, coins, dstLen) => InitEvent(f, m, ephemeral, coins, dstLen)
    case GetResponse(m) => ResponseEvent(f, m, now)
    case GetCookie(m) => if H.ReceiveCookie(f.h, m).1.Ok? then Some(GotCookie) else None
    case GetData(packet) => Some(GotData(packet))
    case SetPrivate(_) => Some(SetKey)
  }

  function InitEvent(f: Full, m: H.InitMsg, ephemeral: nat, coins: nat, dstLen: nat): Option<Event> {
    if !Parses(f.t, m.ek.Some?) || H.CheckInit(f.h, m).Err? then None
    else if dstLen < H.RespSize(m.ek.Some?) then Some(GotInitNoSpace)
    else match H.ReceiveInit(f.h, m, ephemeral, coins, dstLen).1
      case Err(_) => Some(GotInitBadKey)
      case Ok(reply) => var s := reply.session; Some(GotInit(s.sendingIndex, s.receiver, s.sender))
  }

  function ResponseEvent(f: Full, m: H.RespMsg, now: nat): Option<Event> {
    if !Parses(f.t, m.ct.Some?) then None
    else match H.ReceiveResponse(f.h, m, now).1
      case Err(_) => None
      case Ok(s) => Some(GotResponse(s.receivingIndex, s.sendingIndex, s.receiver, s.sender))
  }

  /** Followed, as far as the tunnel can tell. */
  lemma {:induction false} FollowedOnSlots(
    h: H.Handshake, t: Tunn, t': Tunn, r: Outcome, now: nat, dstLen: nat, draw: Draw)
    requires Tied(Full(h, t)) && (t'.hasCookie ==> t.hasCookie)
    requires
      if r.SendInit? then t'.slots == Initiate(t.slots, now) && dstLen >= H.InitSize(t.hybrid)
      else t'.slots == t.slots || (t'.slots == Expire(t.slots) && !t.slots.state.Expired?)
    ensures Tied(Full(Followed(h, t, t', r, now, dstLen, draw), t'))
  {
    FormatInitOnSlots(Aged(h, t, t'), t.hybrid, draw.ephemeral, draw.dk, draw.stamp, now, dstLen);
    FormatKeepsCookie(Aged(h, t, t'), t.hybrid, now, dstLen, draw);
  }

  lemma {:induction false} FormatKeepsCookie(h: H.Handshake, hybrid: bool, now: nat, dstLen: nat, draw: Draw)
    ensures Formatted(h, hybrid, now, dstLen, draw).0.cookies.writeCookie == h.cookies.writeCookie
  {
  }

  // ----- Calls keep the tie -----

  /** An initiation is sent only into a buffer that takes it, and the cookie is left alone. */
  predicate SendsFitting(t: Tunn, t': Tunn, r: Outcome, dstLen: nat) {
    (r.SendInit? ==> dstLen >= H.InitSize(t.hybrid)) && t'.hasCookie == t.hasCookie
  }

  lemma {:induction false} FormatFits(t: Tunn, force: bool, now: nat, dstLen: nat)
    ensures
      var (t', r) := FormatInitiation(t, force, now, dstLen);
      SendsFitting(t, t', r, dstLen)
  {
  }

  lemma {:induction false} EncapsulateFits(t: Tunn, src: Bytes, now: nat, dstLen: nat)
    requires WellFormed(t)
    ensures
      var (t', r) := Encapsulate(t, src, now, dstLen);
      SendsFitting(t, t', r, dstLen)
  {
    FormatFits(QueuePacket(t, src), false, now, dstLen);
  }

  lemma {:induction false} FlushFits(t: Tunn, now: nat, dstLen: nat)
    requires WellFormed(t)
    ensures
      var (t', r) := SendQueued(t, now, dstLen);
      SendsFitting(t, t', r, dstLen)
  {
    if t.queue != [] {
      EncapsulateFits(t.(queue := t.queue[1..]), t.queue[0], now, dstLen);
    }
  }

  lemma {:induction false} RekeyFits(t: Tunn, now: nat, dstLen: nat)
    requires WellFormed(t) && ClocksPast(t.clocks, now)
    requires RekeyDue(t, now) || (Unanswered(t, now) && t.wantHandshake)
    ensures
      var (t', r) := Maintain(t, now, dstLen);
      SendsFitting(t, t', r, dstLen)
  {
    var t1 := if Unanswered(t, now) then t.(wantHandshake := false) else t;
    FormatFits(t1, true, now, dstLen);
    assert Maintain(t, now, dstLen) == FormatInitiation(t1, true, now, dstLen);
  }

  lemma {:induction false} KeepaliveFits(t: Tunn, now: nat, dstLen: nat)
    requires WellFormed(t) && ClocksPast(t.clocks, now)
    requires !RekeyDue(t, now) && !(Unanswered(t, now) && t.wantHandshake)
    ensures
      var (t', r) := Maintain(t, now, dstLen);
      SendsFitting(t, t', r, dstLen)
  {
    var t1 := if Unanswered(t, now) then t.(wantHandshake := false) else t;
    var t2 := if Unacknowledged(t, now) then t1.(wantKeepalive := false) else t1;
    var t3 := if PersistentDue(t, now) then TickKeepalive(t2) else t2;
    assert t3.hybrid == t.hybrid && t3.hasCookie == t.hasCookie;
    EncapsulateFits(t3, [], now, dstLen);
    assert Maintain(t, now, dstLen) == Encapsulate(t3, [], now, dstLen) || Maintain(t, now, dstLen) == (t3, Done);
  }

  lemma {:induction false} MaintainFits(t: Tunn, now: nat, dstLen: nat)
    requires WellFormed(t) && ClocksPast(t.clocks, now)
    ensures
      var (t', r) := Maintain(t, now, dstLen);
      SendsFitting(t, t', r, dstLen)
  {
    if RekeyDue(t, now) || (Unanswered(t, now) && t.wantHandshake) {
      RekeyFits(t, now, dstLen);
    } else {
      KeepaliveFits(t, now, dstLen);
    }
  }

  lemma {:induction false} UpdateFits(t: Tunn, now: nat, dstLen: nat)
    requires WellFormed(t) && Past(t, now)
    ensures
      var (t', r) := UpdateTimers(t, now, dstLen);
      (r.SendInit? ==> dstLen >= H.InitSize(t.hybrid)) && (t'.hasCookie ==> t.hasCookie)
  {
    var t2 := CookieChecked(Refreshed(t, now), now);
    FormatFits(t2, true, now, dstLen);
    MaintainFits(t2, now, dstLen);
  }

  lemma {:induction false} MaySendKeepsTie(
    f: Full, t': Tunn, r: Outcome, now: nat, dstLen: nat, draw: Draw)
    requires Tied(f) && MaySend(f.t, now, t', r)
    requires (r.SendInit? ==> dstLen >= H.InitSize(f.t.hybrid)) && (t'.hasCookie ==> f.t.hasCookie)
    ensures Tied(Called(f, (t', r), now, dstLen, draw).0)
  {
    FollowedOnSlots(f.h, f.t, t', r, now, dstLen, draw);
  }

  lemma {:induction false} TimersKeepTie(f: Full, t': Tunn, r: Outcome, now: nat, dstLen: nat, draw: Draw)
    requires Tied(f) && TimersEffect(f.t, now, t', r)
    requires (r.SendInit? ==> dstLen >= H.InitSize(f.t.hybrid)) && (t'.hasCookie ==> f.t.hasCookie)
    ensures Tied(Called(f, (t', r), now, dstLen, draw).0)
  {
    FollowedOnSlots(f.h, f.t, t', r, now, dstLen, draw);
  }

  // ----- Messages are events -----

  lemma {:induction false} ReplySessionIsNew(h: H.Handshake, m: H.InitMsg, ephemeral: nat, coins: nat, dstLen: nat)
    ensures
      var (h', r) := H.ReceiveInit(h, m, ephemeral, coins, dstLen);
      && h'.cookies.writeCookie == h.cookies.writeCookie
      && (r.Ok? ==>
            var s := r.value.session;
            s == Session.New(s.receivingIndex, s.sendingIndex, s.receiver, s.sender))
      && (r.Err? && H.CheckInit(h, m).Ok? ==>
            r.error == if dstLen < H.RespSize(m.ek.Some?) then DestinationBufferTooSmall else InvalidPacket)
  {
  }

  lemma {:induction false} RefusedInit(h: H.Handshake, m: H.InitMsg, ephemeral: nat, coins: nat, dstLen: nat)
    requires H.CheckInit(h, m).Err?
    ensures H.ReceiveInit(h, m, ephemeral, coins, dstLen) == (h, Err(H.CheckInit(h, m).error))
  {
  }

  /** The input is this event of the tunnel, or changes nothing; the tie holds either way. */
  predicate IsEvent(f: Full, e: Option<Event>, now: nat, res: (Full, Outcome))
    requires WellFormed(f.t) && Past(f.t, now)
  {
    && Tied(res.0)
    && match e
       case None => res.0 == f && res.1.Failed?
       case Some(event) => (res.0.t, res.1) == Apply(f.t, event, now)
  }

  lemma {:induction false} AnsweredIsAccepted(t: Tunn, slots: Slots, s: Session.State)
    requires WellFormed(t) && slots == Answer(t.slots) && s.receivingIndex == slots.nextIndex
    requires s == Session.New(s.receivingIndex, s.sendingIndex, s.receiver, s.sender)
    ensures (Answered(t.(slots := slots), s), SendResponse(s.receivingIndex))
         == InitAccepted(t, s.sendingIndex, s.receiver, s.sender)
  {
  }

  lemma {:induction false} AcceptedInitIsEvent(f: Full, now: nat, h': H.Handshake, s: Session.State)
    requires Tied(f) && WellFormed(f.t) && Past(f.t, now)
    requires SlotsOf(h') == Answer(f.t.slots) && s.receivingIndex == h'.nextIndex
    requires h'.cookies.writeCookie == f.h.cookies.writeCookie
    requires s == Session.New(s.receivingIndex, s.sendingIndex, s.receiver, s.sender)
    ensures IsEvent(
      f, Some(GotInit(s.sendingIndex, s.receiver, s.sender)), now,
      (Full(h', Answered(f.t.(slots := SlotsOf(h')), s)), SendResponse(s.receivingIndex)))
  {
    AnsweredIsAccepted(f.t, SlotsOf(h'), s);
  }

  lemma {:induction false} LateRefusalIsEvent(f: Full, now: nat, h': H.Handshake, e: Event, error: WireGuardError)
    requires Tied(f) && WellFormed(f.t) && Past(f.t, now) && h'.cookies.writeCookie == f.h.cookies.writeCookie
    requires
      || (e.GotInitNoSpace? && SlotsOf(h') == Store(f.t.slots) && error == DestinationBufferTooSmall)
      || (e.GotInitBadKey? && SlotsOf(h') == Answer(f.t.slots) && error == InvalidPacket)
    ensures IsEvent(f, Some(e), now, (Full(h', f.t.(slots := SlotsOf(h'))), Failed(error)))
  {
  }

  lemma {:induction false} InitIsEvent(f: Full, m: H.InitMsg, ephemeral: nat, coins: nat, dstLen: nat, now: nat)
    requires Tied(f) && WellFormed(f.t) && Past(f.t, now) && Parses(f.t, m.ek.Some?) && H.CheckInit(f.h, m).Ok?
    ensures IsEvent(f, InitEvent(f, m, ephemeral, coins, dstLen), now, TakesInit(f, m, ephemeral, coins, dstLen))
  {
    ReceiveInitOnSlots(f.h, m, ephemeral, coins, dstLen);
    ReplySessionIsNew(f.h, m, ephemeral, coins, dstLen);
    var (h', r) := H.ReceiveInit(f.h, m, ephemeral, coins, dstLen);
    if r.Ok? {
      AcceptedInitIsEvent(f, now, h', r.value.session);
    } else {
      var e := if dstLen < H.RespSize(m.ek.Some?) then GotInitNoSpace else GotInitBadKey;
      LateRefusalIsEvent(f, now, h', e, r.error);
    }
  }

  lemma {:induction false} RefusedInitIsNoEvent(f: Full, m: H.InitMsg, ephemeral: nat, coins: nat, dstLen: nat)
    requires Tied(f) && WellFormed(f.t) && (Parses(f.t, m.ek.Some?) ==> H.CheckInit(f.h, m).Err?)
    ensures
      var res := TakesInit(f, m, ephemeral, coins, dstLen);
      InitEvent(f, m, ephemeral, coins, dstLen).None? && res.0 == f && res.1.Failed?
  {
    if Parses(f.t, m.ek.Some?) {
      RefusedInit(f.h, m, ephemeral, coins, dstLen);
    }
  }

  lemma {:induction false} ConfirmedIsAccepted(t: Tunn, slots: Slots, s: Session.State)
    requires WellFormed(t) && IsAwaited(t.slots, s.receivingIndex) && slots == Complete(t.slots, s.receivingIndex)
    requires s == Session.New(s.receivingIndex, s.sendingIndex, s.receiver, s.sender)
    ensures
      var (s', keepalive) := Session.SealPacket(s, []);
      (Confirmed(t.(slots := slots), s'), SendData(keepalive))
      == ResponseAccepted(t, s.receivingIndex, s.sendingIndex, s.receiver, s.sender)
  {
  }

  lemma {:induction false} AcceptedResponseIsEvent(f: Full, now: nat, h': H.Handshake, s: Session.State)
    requires Tied(f) && WellFormed(f.t) && Past(f.t, now)
    requires IsAwaited(f.t.slots, s.receivingIndex) && SlotsOf(h') == Complete(f.t.slots, s.receivingIndex)
    requires h'.cookies.writeCookie == f.h.cookies.writeCookie
    requires s == Session.New(s.receivingIndex, s.sendingIndex, s.receiver, s.sender)
    ensures
      var (s', keepalive) := Session.SealPacket(s, []);
      IsEvent(
        f, Some(GotResponse(s.receivingIndex, s.sendingIndex, s.receiver, s.sender)), now,
        (Full(h', Confirmed(f.t.(slots := SlotsOf(h')), s')), SendData(keepalive)))
  {
    ConfirmedIsAccepted(f.t, SlotsOf(h'), s);
  }

  lemma {:induction false} InitiatorSessionIsNew(h: H.Handshake, m: H.RespMsg, now: nat)
    ensures
      var (h', r) := H.ReceiveResponse(h, m, now);
      && h'.cookies.writeCookie == h.cookies.writeCookie
      && (r.Ok? ==> var s := r.value; s == Session.New(s.receivingIndex, s.sendingIndex, s.receiver, s.sender))
  {
  }

  lemma {:induction false} ResponseIsEvent(f: Full, m: H.RespMsg, now: nat)
    requires Tied(f) && WellFormed(f.t) && Past(f.t, now)
    ensures IsEvent(f, ResponseEvent(f, m, now), now, TakesResponse(f, m, now))
  {
    if Parses(f.t, m.ct.Some?) {
      ReceiveResponseOnSlots(f.h, m, now);
      InitiatorSessionIsNew(f.h, m, now);
      var (h', r) := H.ReceiveResponse(f.h, m, now);
      if r.Ok? {
        AcceptedResponseIsEvent(f, now, h', r.value);
      }
    }
  }

  lemma {:induction false} CookieIsEvent(f: Full, m: H.CookieReply, now: nat)
    requires Tied(f) && WellFormed(f.t) && Past(f.t, now)
    ensures IsEvent(f, EventOf(f, GetCookie(m), now), now, TakesCookie(f, m))
  {
  }

  lemma {:induction false} DataIsEvent(f: Full, packet: Session.Packet, now: nat)
    requires Tied(f) && Timely(f.t, now)
    ensures Past(f.t, now)
    ensures IsEvent(f, Some(GotData(packet)), now, Take(f, GetData(packet), now))
  {
    TimelyLater(f.t, now, now);
    GotDataEffect(f.t, now, packet);
    DataKeepsCookie(f.t, packet);
  }

  lemma {:induction false} DataKeepsCookie(t: Tunn, packet: Session.Packet)
    requires WellFormed(t)
    ensures DataReceived(t, packet).0.hasCookie == t.hasCookie
  {
  }

  lemma {:induction false} CallIsEvent(f: Full, x: Input, now: nat)
    requires Tied(f) && Timely(f.t, now)
    requires x.CallTimers? || x.CallSend? || x.CallFlush? || x.CallHandshake?
    ensures Past(f.t, now) && IsEvent(f, EventOf(f, x, now), now, Take(f, x, now))
  {
    TimelyLater(f.t, now, now);
    match x
    case CallTimers(dstLen, draw) =>
      UpdateEffect(f.t, now, dstLen);
      UpdateFits(f.t, now, dstLen);
      TimersKeepTie(f, UpdateTimers(f.t, now, dstLen).0, UpdateTimers(f.t, now, dstLen).1, now, dstLen, draw);
    case CallSend(src, dstLen, draw) =>
      EncapsulateEffect(f.t, src, now, dstLen);
      EncapsulateFits(f.t, src, now, dstLen);
      MaySendKeepsTie(f, Encapsulate(f.t, src, now, dstLen).0, Encapsulate(f.t, src, now, dstLen).1, now, dstLen, draw);
    case CallFlush(dstLen, draw) =>
      FlushEffect(f.t, now, dstLen);
      FlushFits(f.t, now, dstLen);
      MaySendKeepsTie(f, SendQueued(f.t, now, dstLen).0, SendQueued(f.t, now, dstLen).1, now, dstLen, draw);
    case CallHandshake(force, dstLen, draw) =>
      FormatEffect(f.t, force, now, dstLen);
      FormatFits(f.t, force, now, dstLen);
      MaySendKeepsTie(
        f, FormatInitiation(f.t, force, now, dstLen).0, FormatInitiation(f.t, force, now, dstLen).1, now, dstLen, draw);
  }

  /** Every input is one event of the tunnel or, if the checks refuse it, changes nothing at all; the
      tunnel always sees the handshake as it is. */
  lemma {:induction false} EveryInputIsEvent(f: Full, x: Input, now: nat)
    requires Tied(f) && Timely(f.t, now)
    ensures Past(f.t, now) && IsEvent(f, EventOf(f, x, now), now, Take(f, x, now))
  {
    TimelyLater(f.t, now, now);
    match x
    case GetInit(m, ephemeral, coins, dstLen) =>
      if Parses(f.t, m.ek.Some?) && H.CheckInit(f.h, m).Ok? {
        InitIsEvent(f, m, ephemeral, coins, dstLen, now);
      } else {
        RefusedInitIsNoEvent(f, m, ephemeral, coins, dstLen);
      }
    case GetResponse(m) => ResponseIsEvent(f, m, now);
    case GetCookie(m) => CookieIsEvent(f, m, now);
    case GetData(packet) => DataIsEvent(f, packet, now);
    case SetPrivate(key) =>
    case _ => CallIsEvent(f, x, now);
  }
}

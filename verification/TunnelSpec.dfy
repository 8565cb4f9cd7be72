/** The tunnel (boringtun/src/noise/mod.rs and timers.rs) as functions on values: timers,
    session ring, packet queue.  All times count nanoseconds from the start of the tunnel. */
module TunnelSpec {
  import opened Clock
  import opened Wrappers
  import opened Terms
  import opened HandshakeSlots
  import opened LocalIndex
  import HandshakeSpec
  import ReplayWindow
  import Session

  const REKEY_AFTER_TIME: nat := 120 * SEC
  const REJECT_AFTER_TIME: nat := 180 * SEC
  const REKEY_ATTEMPT_TIME: nat := 90 * SEC
  const REKEY_TIMEOUT: nat := 5 * SEC
  const KEEPALIVE_TIMEOUT: nat := 10 * SEC
  const COOKIE_EXPIRATION_TIME: nat := 120 * SEC
  const MAX_QUEUE_DEPTH: nat := 256

  /** The nine named timers. */
  datatype Clocks = Clocks(
    current: nat,
    established: nat,
    started: nat,
    received: nat,
    sent: nat,
    dataReceived: nat,
    dataSent: nat,
    cookie: nat,
    keepalive: nat)

  datatype Tunn = Tunn(
    hybrid: bool,                                // built with the `pq` feature
    slots: Slots,
    hasCookie: bool,
    sessions: seq<Option<Session.State>>,
    current: nat,
    queue: seq<Bytes>,
    clocks: Clocks,
    sessionTimers: seq<nat>,
    isInitiator: bool,
    wantKeepalive: bool,
    wantHandshake: bool,
    persistentKeepalive: nat,
    txBytes: nat,
    rxBytes: nat)

  predicate WellFormed(t: Tunn) {
    |t.sessions| == N_SESSIONS && |t.sessionTimers| == N_SESSIONS
  }

  predicate WindowsCoherent(t: Tunn) {
    forall i | 0 <= i < |t.sessions| && t.sessions[i].Some? :: ReplayWindow.Coherent(t.sessions[i].value.window)
  }

  function New(hybrid: bool, index: nat, persistentKeepalive: nat): Tunn {
    Tunn(hybrid, Slots(Free, Free, index * 256 % 0x1_0000_0000), false,
         seq(N_SESSIONS, _ => None), 0, [], Clocks(0, 0, 0, 0, 0, 0, 0, 0, 0), seq(N_SESSIONS, _ => 0),
         false, false, false, persistentKeepalive, 0, 0)
  }

  /** What a call hands back to its caller. */
  datatype Outcome =
    | Done
    | Failed(error: WireGuardError)
    | SendInit(index: nat)
    | SendResponse(index: nat)
    | SendData(packet: Session.Packet)
    | ToTunnel(ip: Bytes)

  // ----- Timer ticks -----

  function TickReceived(t: Tunn): Tunn {
    t.(wantKeepalive := true, wantHandshake := false, clocks := t.clocks.(received := t.clocks.current))
  }

  function TickSent(t: Tunn): Tunn {
    t.(wantHandshake := true, wantKeepalive := false, clocks := t.clocks.(sent := t.clocks.current))
  }

  function TickStarted(t: Tunn): Tunn { t.(clocks := t.clocks.(started := t.clocks.current)) }

  function TickDataSent(t: Tunn): Tunn { t.(clocks := t.clocks.(dataSent := t.clocks.current)) }

  function TickDataReceived(t: Tunn): Tunn { t.(clocks := t.clocks.(dataReceived := t.clocks.current)) }

  function TickCookie(t: Tunn): Tunn { t.(clocks := t.clocks.(cookie := t.clocks.current)) }

  function TickKeepalive(t: Tunn): Tunn { t.(clocks := t.clocks.(keepalive := t.clocks.current)) }

  function TickEstablished(t: Tunn, isInitiator: bool, index: nat): Tunn
    requires WellFormed(t)
  {
    t.(clocks := t.clocks.(established := t.clocks.current),
       sessionTimers := t.sessionTimers[index % N_SESSIONS := t.clocks.current],
       isInitiator := isInitiator)
  }

  /** All timers restart at `now`. */
  function ClearTimers(t: Tunn, now: nat): Tunn {
    t.(clocks := Clocks(now, now, now, now, now, now, now, now, now),
       wantHandshake := false, wantKeepalive := false)
  }

  function ClearAll(t: Tunn, now: nat): Tunn
    requires WellFormed(t)
  {
    ClearTimers(t.(sessions := seq(N_SESSIONS, _ => None), queue := []), now)
  }

  // ----- Sending -----

  function FormatInitiation(t: Tunn, force: bool, now: nat, dstLen: nat): (Tunn, Outcome) {
    if InProgress(t.slots) && !force then (t, Done)
    else
      var t1 := if t.slots.state.Expired? then ClearTimers(t, now) else t;
      if dstLen < HandshakeSpec.InitSize(t.hybrid) then (t1, Failed(DestinationBufferTooSmall))
      else
        var t2 := t1.(slots := Initiate(t1.slots, now));
        var t3 := if InProgress(t1.slots) then t2 else TickStarted(t2);
        (TickSent(t3), SendInit(t3.slots.nextIndex))
  }

  function CurrentSession(t: Tunn): Option<Session.State>
    requires WellFormed(t)
  {
    t.sessions[t.current % N_SESSIONS]
  }

  function QueuePacket(t: Tunn, src: Bytes): Tunn {
    if |t.queue| < MAX_QUEUE_DEPTH then t.(queue := t.queue + [src]) else t
  }

  function RequeuePacket(t: Tunn, src: Bytes): Tunn {
    if |t.queue| < MAX_QUEUE_DEPTH then t.(queue := [src] + t.queue) else t
  }

  function SealCurrent(t: Tunn, src: Bytes): (Tunn, Outcome)
    requires WellFormed(t) && CurrentSession(t).Some?
  {
    var (s, packet) := Session.SealPacket(CurrentSession(t).value, src);
    var t1 := TickSent(t.(sessions := t.sessions[t.current % N_SESSIONS := Some(s)]));
    var t2 := if src == [] then t1 else TickDataSent(t1);
    (t2.(txBytes := t2.txBytes + |src|), SendData(packet))
  }

  function Encapsulate(t: Tunn, src: Bytes, now: nat, dstLen: nat): (Tunn, Outcome)
    requires WellFormed(t)
  {
    if CurrentSession(t).Some? then SealCurrent(t, src)
    else FormatInitiation(QueuePacket(t, src), false, now, dstLen)
  }

  /** Without a session in use a packet waits at the end of the queue, unless 256 wait already. */
  lemma {:induction false} UnsentIsQueued(t: Tunn, src: Bytes, now: nat, dstLen: nat)
    requires WellFormed(t) && CurrentSession(t).None?
    ensures Encapsulate(t, src, now, dstLen).0.queue == if |t.queue| < 256 then t.queue + [src] else t.queue
  {
    FormatKeepsQueue(QueuePacket(t, src), false, now, dstLen);
  }

  lemma {:induction false} FormatKeepsQueue(t: Tunn, force: bool, now: nat, dstLen: nat)
    ensures FormatInitiation(t, force, now, dstLen).0.queue == t.queue
  {
  }

  /** `decapsulate` with an empty datagram. */
  function SendQueued(t: Tunn, now: nat, dstLen: nat): (Tunn, Outcome)
    requires WellFormed(t)
  {
    if t.queue == [] then (t, Done)
    else
      var packet := t.queue[0];
      var (t1, r) := Encapsulate(t.(queue := t.queue[1..]), packet, now, dstLen);
      if r.Failed? then (RequeuePacket(t1, packet), Done) else (t1, r)
  }

  // ----- Receiving -----

  /** Set the session in use, unless the one in use is alive and was installed later. */
  function SetCurrent(t: Tunn, index: nat): Tunn
    requires WellFormed(t)
  {
    if t.current != index
       && (CurrentSession(t).None?
           || t.sessionTimers[index % N_SESSIONS] >= t.sessionTimers[t.current % N_SESSIONS])
    then t.(current := index) else t
  }

  /** The peer's initiation was accepted and answered with the next index. */
  function InitAccepted(t: Tunn, peerIndex: nat, receivingKey: Term, sendingKey: Term): (Tunn, Outcome)
    requires WellFormed(t)
  {
    var slots := Answer(t.slots);
    var index := slots.nextIndex;
    var t1 := t.(slots := slots,
                 sessions := t.sessions[index % N_SESSIONS :=
                   Some(Session.New(index, peerIndex, receivingKey, sendingKey))]);
    (TickEstablished(TickSent(TickReceived(t1)), false, index), SendResponse(index))
  }

  /** The response to the outstanding initiation `index` was accepted; the first packet of the
      new session, an empty one, confirms it. */
  function ResponseAccepted(t: Tunn, index: nat, peerIndex: nat, receivingKey: Term, sendingKey: Term)
    : (Tunn, Outcome)
    requires WellFormed(t) && IsAwaited(t.slots, index)
  {
    var (s, keepalive) := Session.SealPacket(Session.New(index, peerIndex, receivingKey, sendingKey), []);
    var t1 := t.(slots := Complete(t.slots, index), sessions := t.sessions[index % N_SESSIONS := Some(s)]);
    (SetCurrent(TickEstablished(TickReceived(t1), true, index % N_SESSIONS), index), SendData(keepalive))
  }

  function CookieAccepted(t: Tunn): (Tunn, Outcome) {
    (TickCookie(TickReceived(t.(hasCookie := true))), Done)
  }

  // ----- Decrypted payloads -----

  const IPV4_MIN_HEADER_SIZE: nat := 20
  const IPV4_LEN_OFF: nat := 2
  const IPV6_MIN_HEADER_SIZE: nat := 40
  const IPV6_LEN_OFF: nat := 4

  /** What a decrypted payload turns out to be. */
  datatype Payload = Keepalive | Malformed | Ip(packet: Bytes)

  function BigEndian16(b: Bytes, off: nat): nat
    requires off + 2 <= |b|
  {
    256 * (b[off] as nat) + b[off + 1] as nat
  }

  /** An IP packet cut to the length its header gives, if there is that much. */
  function CutTo(b: Bytes, length: nat): Payload {
    if length > |b| then Malformed else Ip(b[..length])
  }

  function Classify(plain: Term): Payload {
    if !plain.Data? then Malformed
    else
      var b := plain.bytes;
      if b == [] then Keepalive
      else if b[0] / 16 == 4 && |b| >= IPV4_MIN_HEADER_SIZE then CutTo(b, BigEndian16(b, IPV4_LEN_OFF))
      else if b[0] / 16 == 6 && |b| >= IPV6_MIN_HEADER_SIZE
      then CutTo(b, BigEndian16(b, IPV6_LEN_OFF) + IPV6_MIN_HEADER_SIZE)
      else Malformed
  }

  /** A packet whose header states its own length. */
  predicate WellFormedIp(b: Bytes) {
    || (|b| >= IPV4_MIN_HEADER_SIZE && b[0] / 16 == 4 && BigEndian16(b, IPV4_LEN_OFF) == |b|)
    || (|b| >= IPV6_MIN_HEADER_SIZE && b[0] / 16 == 6
        && BigEndian16(b, IPV6_LEN_OFF) + IPV6_MIN_HEADER_SIZE == |b|)
  }

  /** A well-formed packet comes out as it went in, whatever padding was sealed with it, and nothing
      that comes out is more than was sealed. */
  lemma {:induction false} PaddingIsRemoved(b: Bytes, padding: Bytes)
    ensures WellFormedIp(b) ==> Classify(Data(b + padding)) == Ip(b)
    ensures Classify(Data(b)).Ip? ==> Classify(Data(b)).packet <= b
    ensures Classify(Data(b)).Keepalive? <==> b == []
  {
    if WellFormedIp(b) {
      assert (b + padding)[..|b|] == b;
    }
  }

  /** The length that the header of a decrypted packet states, if there is a whole header. */
  function StatedLength(b: Bytes): Option<nat> {
    if |b| >= 20 && 0x40 <= b[0] < 0x50 then Some(256 * (b[2] as nat) + b[3] as nat)
    else if |b| >= 40 && 0x60 <= b[0] < 0x70 then Some(40 + 256 * (b[4] as nat) + b[5] as nat)
    else None
  }

  /** A packet comes out exactly if its header is whole and states a length that is there, and it is the
      first so many bytes. */
  lemma {:induction false} ComesOutIff(b: Bytes)
    ensures
      var n := StatedLength(b);
      if n.Some? && n.value <= |b| then Classify(Data(b)) == Ip(b[..n.value])
      else Classify(Data(b)) == if b == [] then Keepalive else Malformed
  {
  }

  /** It states its own length in a whole header exactly if it is IPv6, or IPv4 with a stated length of
      at least a header: a shorter one is let through. */
  lemma {:induction false} ComesOutWellFormedIff(b: Bytes)
    requires Classify(Data(b)).Ip?
    ensures WellFormedIp(Classify(Data(b)).packet) <==> b[0] / 16 == 6 || StatedLength(b).value >= 20
  {
    ComesOutIff(b);
  }

  /** Such a packet: 20 bytes of which the header claims three. */
  lemma {:induction false} ShortPacketComesOut()
    ensures
      var b := [0x45, 0, 0, 3] + seq(16, _ => 0);
      Classify(Data(b)) == Ip([0x45, 0, 0]) && !WellFormedIp([0x45, 0, 0])
  {
    var b: Bytes := [0x45, 0, 0, 3] + seq(16, _ => 0);
    ComesOutIff(b);
    assert b[..3] == [0x45, 0, 0];
  }

  function Validated(t: Tunn, payload: Payload): (Tunn, Outcome) {
    match payload
    case Keepalive => (t, Done)
    case Malformed => (t, Failed(InvalidPacket))
    case Ip(packet) => var t1 := TickDataReceived(t); (t1.(rxBytes := t1.rxBytes + |packet|), ToTunnel(packet))
  }

  function DataReceived(t: Tunn, packet: Session.Packet): (Tunn, Outcome)
    requires WellFormed(t)
  {
    var slot := packet.receiverIdx % N_SESSIONS;
    match t.sessions[slot]
    case None => (t, Failed(NoCurrentSession))
    case Some(s) =>
      var (s', r) := Session.OpenPacket(s, packet);
      match r
      case Err(e) => (t, Failed(e))
      case Ok(plain) =>
        var t1 := t.(sessions := t.sessions[slot := Some(s')]);
        Validated(TickReceived(SetCurrent(t1, packet.receiverIdx)), Classify(plain))
  }

  /** A new static key drops every session. */
  function SetStaticPrivate(t: Tunn): Tunn { t.(sessions := seq(N_SESSIONS, _ => None)) }

  // ----- The periodic call -----

  predicate SessionExpired(timer: nat, now: nat)
    requires timer <= now
  {
    now - timer > REJECT_AFTER_TIME
  }

  predicate TimersPast(t: Tunn, now: nat) {
    forall i | 0 <= i < |t.sessionTimers| :: t.sessionTimers[i] <= now
  }

  function DropExpired(t: Tunn, now: nat): Tunn
    requires WellFormed(t) && TimersPast(t, now)
  {
    t.(sessions := seq(N_SESSIONS, i requires 0 <= i < N_SESSIONS =>
                     if SessionExpired(t.sessionTimers[i], now) then None else t.sessions[i]),
       sessionTimers := seq(N_SESSIONS, i requires 0 <= i < N_SESSIONS =>
                     if SessionExpired(t.sessionTimers[i], now) then now else t.sessionTimers[i]))
  }

  /** Every timer reads at most `now`: no subtraction below can underflow. */
  predicate ClocksPast(c: Clocks, now: nat) {
    && c.current <= now && c.established <= now && c.started <= now && c.received <= now && c.sent <= now
    && c.dataReceived <= now && c.dataSent <= now && c.cookie <= now && c.keepalive <= now
  }

  predicate SlotPast(s: Slot, now: nat) { s.InitSent? ==> s.timeSent <= now }

  predicate Past(t: Tunn, now: nat) {
    && TimersPast(t, now) && ClocksPast(t.clocks, now)
    && SlotPast(t.slots.state, now) && SlotPast(t.slots.previous, now)
  }

  /** The session is old enough for its initiator to replace it. */
  predicate RekeyDue(t: Tunn, now: nat)
    requires ClocksPast(t.clocks, now)
  {
    var c := t.clocks;
    && t.isInitiator
    && ((c.established < c.dataSent && now - c.established >= REKEY_AFTER_TIME)
        || (c.established < c.dataReceived
            && now - c.established >= REJECT_AFTER_TIME - KEEPALIVE_TIMEOUT - REKEY_TIMEOUT))
  }

  /** We sent data and heard nothing for too long. */
  predicate Unanswered(t: Tunn, now: nat)
    requires ClocksPast(t.clocks, now)
  {
    var c := t.clocks;
    c.dataSent > c.received && now - c.received >= KEEPALIVE_TIMEOUT + REKEY_TIMEOUT
  }

  /** We received data and sent nothing for too long. */
  predicate Unacknowledged(t: Tunn, now: nat)
    requires ClocksPast(t.clocks, now)
  {
    var c := t.clocks;
    c.dataReceived > c.sent && now - c.sent >= KEEPALIVE_TIMEOUT
  }

  predicate PersistentDue(t: Tunn, now: nat)
    requires ClocksPast(t.clocks, now)
  {
    t.persistentKeepalive > 0 && now - t.clocks.keepalive >= t.persistentKeepalive * SEC
  }

  predicate ConnectionDead(t: Tunn, now: nat)
    requires ClocksPast(t.clocks, now)
  {
    || now - t.clocks.established >= REJECT_AFTER_TIME * 3
    || (t.slots.state.InitSent? && now - t.clocks.started >= REKEY_ATTEMPT_TIME)
  }

  /** No initiation is outstanding: rekey, or else keep the session alive. */
  function Maintain(t: Tunn, now: nat, dstLen: nat): (Tunn, Outcome)
    requires WellFormed(t) && ClocksPast(t.clocks, now)
  {
    var unanswered := Unanswered(t, now) && t.wantHandshake;
    var t1 := if Unanswered(t, now) then t.(wantHandshake := false) else t;
    if RekeyDue(t, now) || unanswered then FormatInitiation(t1, true, now, dstLen)
    else
      var t2 := if Unacknowledged(t, now) then t1.(wantKeepalive := false) else t1;
      var t3 := if PersistentDue(t, now) then TickKeepalive(t2) else t2;
      if (Unacknowledged(t, now) && t.wantKeepalive) || PersistentDue(t, now)
      then Encapsulate(t3, [], now, dstLen) else (t3, Done)
  }

  /** The clock is read, and sessions that are too old are dropped. */
  function Refreshed(t: Tunn, now: nat): Tunn
    requires WellFormed(t) && TimersPast(t, now)
  {
    DropExpired(t.(clocks := t.clocks.(current := now)), now)
  }

  function CookieChecked(t: Tunn, now: nat): Tunn
    requires ClocksPast(t.clocks, now)
  {
    if t.hasCookie && now - t.clocks.cookie >= COOKIE_EXPIRATION_TIME then t.(hasCookie := false) else t
  }

  function GivenUp(t: Tunn, now: nat): Tunn
    requires WellFormed(t)
  {
    ClearAll(t.(slots := Expire(t.slots)), now)
  }

  /** An initiation is outstanding: retry it if it is old enough. */
  function Retry(t: Tunn, now: nat, dstLen: nat): (Tunn, Outcome)
    requires t.slots.state.InitSent? && t.slots.state.timeSent <= now
  {
    if now - t.slots.state.timeSent >= REKEY_TIMEOUT then FormatInitiation(t, true, now, dstLen) else (t, Done)
  }

  function UpdateTimers(t: Tunn, now: nat, dstLen: nat): (Tunn, Outcome)
    requires WellFormed(t) && Past(t, now)
  {
    var t1 := Refreshed(t, now);
    if t1.slots.state.Expired? then (t1, Failed(ConnectionExpired))
    else
      var t2 := CookieChecked(t1, now);
      if ConnectionDead(t2, now) then (GivenUp(t2, now), Failed(ConnectionExpired))
      else if t2.slots.state.InitSent? then Retry(t2, now, dstLen)
      else Maintain(t2, now, dstLen)
  }

  function TimeSinceLastHandshake(t: Tunn, now: nat): Option<nat>
    requires WellFormed(t) && Past(t, now)
  {
    if CurrentSession(t).Some? then Some(now - t.clocks.established) else None
  }
}

/** The `Tunn` object of boringtun/src/noise/mod.rs and timers.rs, with its handshake and its rate
    limiter.  Timers, session timers and session slots are arrays updated in place; every method is
    proved to act on the object's value as the corresponding function of modules TunnelSpec and
    TunnelMessages does. */
module Tunnel {
  import opened Clock
  import opened Wrappers
  import opened Terms
  import opened HandshakeSlots
  import opened LocalIndex
  import opened TunnelSpec
  import opened TunnelMessages
  import opened TunnelParts
  import opened FlushSpec
  import opened LossSpec
  import H = HandshakeSpec
  import Handshake
  import Limits = RateLimiterSpec
  import RateLimiter
  import Session

  const PEER_HANDSHAKE_RATE_LIMIT: nat := 10

  const TIME_CURRENT: nat := 0
  const TIME_SESSION_ESTABLISHED: nat := 1
  const TIME_LAST_HANDSHAKE_STARTED: nat := 2
  const TIME_LAST_PACKET_RECEIVED: nat := 3
  const TIME_LAST_PACKET_SENT: nat := 4
  const TIME_LAST_DATA_PACKET_RECEIVED: nat := 5
  const TIME_LAST_DATA_PACKET_SENT: nat := 6
  const TIME_COOKIE_RECEIVED: nat := 7
  const TIME_PERSISTENT_KEEPALIVE: nat := 8
  const TOP: nat := 9

  /** What setting the timer `name` to the current time does, by name. */
  function Ticked(t: TunnelSpec.Tunn, name: nat): TunnelSpec.Tunn
    requires name < TOP
  {
    var now := t.clocks.current;
    match name
    case 0 => t
    case 1 => t.(clocks := t.clocks.(established := now))
    case 2 => TickStarted(t)
    case 3 => TickReceived(t)
    case 4 => TickSent(t)
    case 5 => TickDataReceived(t)
    case 6 => TickDataSent(t)
    case 7 => TickCookie(t)
    case _ => TickKeepalive(t)
  }

  /** The limiter that is given, or else a new one with fresh keys. */
  method GivenOrOwn(
    limiter: RateLimiter.RateLimiter?, publicKey: Term, nonceKey: Term, secretKey: Term, time: nat)
    returns (l: RateLimiter.RateLimiter)
    ensures if limiter != null then l == limiter
            else fresh(l) && l.Val()
                   == Limits.New(publicKey, PEER_HANDSHAKE_RATE_LIMIT, nonceKey, secretKey, time)
  {
    if limiter != null {
      return limiter;
    }
    l := new RateLimiter.RateLimiter(publicKey, PEER_HANDSHAKE_RATE_LIMIT, nonceKey, secretKey, time);
  }

  class Tunn {
    const hybrid: bool
    const persistentKeepalive: nat
    const timeStarted: nat
    const handshake: Handshake.Handshake
    var rateLimiter: RateLimiter.RateLimiter
    var shouldResetRr: bool
    const sessions: array<Option<Session.State>>
    var current: nat
    var queue: seq<Bytes>
    const timers: array<nat>
    const sessionTimers: array<nat>
    var isInitiator: bool
    var wantKeepalive: bool
    var wantHandshake: bool
    var txBytes: nat
    var rxBytes: nat

    ghost predicate Valid()
      reads this
    {
      && sessions.Length == N_SESSIONS && timers.Length == TOP && sessionTimers.Length == N_SESSIONS
      && timers != sessionTimers
    }

    ghost function Times(): Clocks
      reads this, timers
      requires Valid()
    {
      Clocks(timers[0], timers[1], timers[2], timers[3], timers[4], timers[5], timers[6], timers[7], timers[8])
    }

    /** The tunnel with the part of the handshake that it sees. */
    ghost function Val(): (t: TunnelSpec.Tunn)
      reads this, handshake, sessions, timers, sessionTimers
      requires Valid()
      ensures WellFormed(t)
    {
      TunnelSpec.Tunn(
        hybrid, SlotsOf(handshake.Val()), handshake.cookies.writeCookie.Some?,
        sessions[..], current, queue, Times(), sessionTimers[..],
        isInitiator, wantKeepalive, wantHandshake, persistentKeepalive, txBytes, rxBytes)
    }

    /** The tunnel with its whole handshake. */
    ghost function Whole(): (f: Full)
      reads this, handshake, sessions, timers, sessionTimers
      requires Valid()
      ensures Tied(f) && WellFormed(f.t)
    {
      Full(handshake.Val(), Val())
    }

    /** A limiter that is not given is the tunnel's own, with fresh keys, and is the one to reset. */
    constructor (
      params: H.Params, hybrid: bool, index: nat, persistentKeepalive: nat,
      limiter: RateLimiter.RateLimiter?, nonceKey: Term, secretKey: Term, time: nat)
      ensures Valid() && fresh(sessions) && fresh(timers) && fresh(sessionTimers) && fresh(handshake)
      ensures Whole() == TunnelMessages.New(params, hybrid, index, persistentKeepalive) && timeStarted == time
      ensures shouldResetRr == (limiter == null)
      ensures if limiter != null then rateLimiter == limiter
              else fresh(rateLimiter) && rateLimiter.Val()
                     == Limits.New(Pub(params.staticPrivate), PEER_HANDSHAKE_RATE_LIMIT, nonceKey, secretKey, time)
    {
      this.hybrid, this.persistentKeepalive, timeStarted := hybrid, persistentKeepalive, time;
      handshake := new Handshake.Handshake(params, index * 256 % 0x1_0000_0000);
      current, queue := 0, [];
      isInitiator, wantKeepalive, wantHandshake := false, false, false;
      txBytes, rxBytes := 0, 0;
      sessions := new Option<Session.State>[N_SESSIONS](_ => None);
      timers := new nat[TOP](_ => 0);
      sessionTimers := new nat[N_SESSIONS](_ => 0);
      shouldResetRr := limiter == null;
      var own := GivenOrOwn(limiter, Pub(params.staticPrivate), nonceKey, secretKey, time);
      rateLimiter := own;
      new;
      assert Val() == TunnelSpec.New(hybrid, index, persistentKeepalive) by {
        assert sessions[..] == seq(N_SESSIONS, _ => None);
        assert sessionTimers[..] == seq(N_SESSIONS, _ => 0);
      }
    }

    // ----- Timers -----

    method TimerTick(name: nat)
      requires Valid() && name < TOP
      modifies this`wantKeepalive, this`wantHandshake, timers
      ensures Val() == Ticked(old(Val()), name)
    {
      if name == TIME_LAST_PACKET_RECEIVED {
        wantKeepalive := true;
        wantHandshake := false;
      } else if name == TIME_LAST_PACKET_SENT {
        wantHandshake := true;
        wantKeepalive := false;
      }
      timers[name] := timers[TIME_CURRENT];
    }

    method TimerTickSessionEstablished(isInitiator: bool, sessionIdx: nat)
      requires Valid()
      modifies this`wantKeepalive, this`wantHandshake, this`isInitiator, timers, sessionTimers
      ensures Val() == TickEstablished(old(Val()), isInitiator, sessionIdx)
    {
      TimerTick(TIME_SESSION_ESTABLISHED);
      sessionTimers[sessionIdx % N_SESSIONS] := timers[TIME_CURRENT];
      this.isInitiator := isInitiator;
    }

    method ClearTimers(now: nat)
      requires Valid()
      modifies this`wantKeepalive, this`wantHandshake, timers
      ensures Val() == TunnelSpec.ClearTimers(old(Val()), now)
    {
      var k := 0;
      while k < timers.Length
        invariant k <= timers.Length
        invariant forall j | 0 <= j < k :: timers[j] == now
      {
        timers[k] := now;
        k := k + 1;
      }
      wantHandshake := false;
      wantKeepalive := false;
    }

    method ClearSessions()
      requires Valid()
      modifies sessions
      ensures sessions[..] == seq(N_SESSIONS, _ => None)
    {
      var k := 0;
      while k < sessions.Length
        invariant k <= sessions.Length
        invariant forall j | 0 <= j < k :: sessions[j] == None
      {
        sessions[k] := None;
        k := k + 1;
      }
    }

    method ClearAll(now: nat)
      requires Valid()
      modifies this`wantKeepalive, this`wantHandshake, this`queue, timers, sessions
      ensures Val() == TunnelSpec.ClearAll(old(Val()), now)
    {
      ClearSessions();
      queue := [];
      ClearTimers(now);
    }

    method UpdateSessionTimers(now: nat)
      requires Valid() && TimersPast(Val(), now)
      modifies sessions, sessionTimers
      ensures Val() == DropExpired(old(Val()), now)
    {
      ghost var t := Val();
      var i := 0;
      while i < sessionTimers.Length
        invariant i <= N_SESSIONS
        invariant forall j | 0 <= j < i ::
                    && sessions[j] == DropExpired(t, now).sessions[j]
                    && sessionTimers[j] == DropExpired(t, now).sessionTimers[j]
        invariant forall j | i <= j < N_SESSIONS ::
                    sessions[j] == t.sessions[j] && sessionTimers[j] == t.sessionTimers[j]
      {
        assert t.sessionTimers[i] <= now;
        if now - sessionTimers[i] > REJECT_AFTER_TIME {
          sessions[i] := None;
          sessionTimers[i] := now;
        }
        i := i + 1;
      }
      assert sessions[..] == DropExpired(t, now).sessions;
      assert sessionTimers[..] == DropExpired(t, now).sessionTimers;
    }

    // ----- Sending -----

    /** The handshake's part: the plain or the hybrid message. */
    method FormatMessage(now: nat, dstLen: nat, draw: Draw) returns (made: Result<H.Initiation>)
      requires Valid()
      modifies handshake
      ensures (handshake.Val(), made) == Formatted(old(handshake.Val()), hybrid, now, dstLen, draw)
      ensures
        if dstLen < H.InitSize(hybrid) then made == Err(DestinationBufferTooSmall) && Whole() == old(Whole())
        else made.Ok? && Val() == old(Val()).(slots := Initiate(old(Val()).slots, now))
    {
      FormatInitOnSlots(handshake.Val(), hybrid, draw.ephemeral, draw.dk, draw.stamp, now, dstLen);
      FormatKeepsCookie(handshake.Val(), hybrid, now, dstLen, draw);
      if hybrid {
        made := handshake.FormatPqHandshakeInitiation(draw.ephemeral, draw.dk, draw.stamp, now, dstLen);
      } else {
        ClassicalDrawsNoKey(handshake.Val(), draw, now, dstLen);
        made := handshake.FormatHandshakeInitiation(draw.ephemeral, draw.stamp, now, dstLen);
      }
    }

    /** A new message: the timers restart if the old attempt had expired. */
    method StartOrResend(now: nat, dstLen: nat, draw: Draw) returns (r: Outcome, sent: Option<H.Initiation>)
      requires Valid()
      modifies this`wantKeepalive, this`wantHandshake, handshake, timers
      ensures (Val(), r) == FormatInitiation(old(Val()), true, now, dstLen)
      ensures Sent(hybrid, old(handshake.Val()), handshake.Val(), r, sent, now, dstLen, draw)
    {
      if handshake.state.Expired? {
        ClearTimers(now);
      }
      var startingNewHandshake := handshake.state.Idle? || handshake.state.Expired?;
      var made := FormatMessage(now, dstLen, draw);
      if made.Err? {
        return Failed(made.error), None;
      }
      if startingNewHandshake {
        TimerTick(TIME_LAST_HANDSHAKE_STARTED);
      }
      TimerTick(TIME_LAST_PACKET_SENT);
      r, sent := SendInit(handshake.nextIndex), Some(made.value);
    }

    method FormatHandshakeInitiation(forceResend: bool, now: nat, dstLen: nat, draw: Draw)
      returns (r: Outcome, sent: Option<H.Initiation>)
      requires Valid()
      modifies this`wantKeepalive, this`wantHandshake, handshake, timers
      ensures (Val(), r) == FormatInitiation(old(Val()), forceResend, now, dstLen)
      ensures Sent(hybrid, old(handshake.Val()), handshake.Val(), r, sent, now, dstLen, draw)
      ensures Past(old(Val()), now) ==>
                (Whole(), r) == Take(old(Whole()), CallHandshake(forceResend, dstLen, draw), now)
    {
      if (handshake.state.InitSent? || handshake.state.InitReceived?) && !forceResend {
        r, sent := Done, None;
      } else {
        r, sent := StartOrResend(now, dstLen, draw);
      }
      if Past(old(Val()), now) {
        HandshakeIsTaken(old(Whole()), forceResend, Val(), handshake.Val(), r, sent, now, dstLen, draw);
      }
    }

    method QueuePacket(packet: Bytes)
      modifies this`queue
      ensures queue == if old(|queue|) < MAX_QUEUE_DEPTH then old(queue) + [packet] else old(queue)
    {
      if |queue| < MAX_QUEUE_DEPTH {
        queue := queue + [packet];
      }
    }

    method RequeuePacket(packet: Bytes)
      modifies this`queue
      ensures queue == if old(|queue|) < MAX_QUEUE_DEPTH then [packet] + old(queue) else old(queue)
    {
      if |queue| < MAX_QUEUE_DEPTH {
        queue := [packet] + queue;
      }
    }

    method DequeuePacket() returns (packet: Option<Bytes>)
      modifies this`queue
      ensures packet == if old(queue) == [] then None else Some(old(queue)[0])
      ensures queue == if old(queue) == [] then [] else old(queue)[1..]
    {
      if queue == [] {
        return None;
      }
      packet := Some(queue[0]);
      queue := queue[1..];
    }

    /** Send the packet using the session in use. */
    method SealInCurrent(src: Bytes, dstLen: nat) returns (r: Outcome)
      requires Valid() && CurrentSession(Val()).Some? && |src| + Session.DATA_OVERHEAD_SZ <= dstLen
      modifies this`wantKeepalive, this`wantHandshake, this`txBytes, timers, sessions
      ensures (Val(), r) == SealCurrent(old(Val()), src)
    {
      var (s, packet) := Session.SealPacket(sessions[current % N_SESSIONS].value, src);
      sessions[current % N_SESSIONS] := Some(s);
      TimerTick(TIME_LAST_PACKET_SENT);
      if src != [] {
        TimerTick(TIME_LAST_DATA_PACKET_SENT);
      }
      txBytes := txBytes + |src|;
      r := SendData(packet);
    }

    method Encapsulate(src: Bytes, now: nat, dstLen: nat, draw: Draw) returns (r: Outcome, sent: Option<H.Initiation>)
      requires Valid()
      requires CurrentSession(Val()).Some? ==> |src| + Session.DATA_OVERHEAD_SZ <= dstLen
      modifies this`wantKeepalive, this`wantHandshake, this`queue, this`txBytes, handshake, timers, sessions
      ensures (Val(), r) == TunnelSpec.Encapsulate(old(Val()), src, now, dstLen)
      ensures Sent(hybrid, old(handshake.Val()), handshake.Val(), r, sent, now, dstLen, draw)
      ensures Past(old(Val()), now) ==> (Whole(), r) == Take(old(Whole()), CallSend(src, dstLen, draw), now)
    {
      if sessions[current % N_SESSIONS].Some? {
        r := SealInCurrent(src, dstLen);
        sent := None;
      } else {
        QueuePacket(src);
        r, sent := FormatHandshakeInitiation(false, now, dstLen, draw);
      }
      if Past(old(Val()), now) {
        SendIsTaken(old(Whole()), src, Val(), handshake.Val(), r, sent, now, dstLen, draw);
      }
    }

    /** The first packet of the queue is sent, or put back if that fails. */
    method SendFirst(now: nat, dstLen: nat, draw: Draw) returns (r: Outcome, sent: Option<H.Initiation>)
      requires Valid()
      requires CurrentSession(Val()).Some? && queue != [] ==> |queue[0]| + Session.DATA_OVERHEAD_SZ <= dstLen
      modifies this`wantKeepalive, this`wantHandshake, this`queue, this`txBytes, handshake, timers, sessions
      ensures (Val(), r) == SendQueued(old(Val()), now, dstLen)
      ensures Sent(hybrid, old(handshake.Val()), handshake.Val(), r, sent, now, dstLen, draw)
    {
      var packet := DequeuePacket();
      if packet.None? {
        return Done, None;
      }
      r, sent := Encapsulate(packet.value, now, dstLen, draw);
      if r.Failed? {
        RequeuePacket(packet.value);
        r := Done;
      }
    }

    method SendQueuedPacket(now: nat, dstLen: nat, draw: Draw) returns (r: Outcome, sent: Option<H.Initiation>)
      requires Valid()
      requires CurrentSession(Val()).Some? && queue != [] ==> |queue[0]| + Session.DATA_OVERHEAD_SZ <= dstLen
      modifies this`wantKeepalive, this`wantHandshake, this`queue, this`txBytes, handshake, timers, sessions
      ensures (Val(), r) == SendQueued(old(Val()), now, dstLen)
      ensures Sent(hybrid, old(handshake.Val()), handshake.Val(), r, sent, now, dstLen, draw)
      ensures Past(old(Val()), now) ==> (Whole(), r) == Take(old(Whole()), CallFlush(dstLen, draw), now)
    {
      r, sent := SendFirst(now, dstLen, draw);
      if Past(old(Val()), now) {
        FlushIsTaken(old(Whole()), Val(), handshake.Val(), r, sent, now, dstLen, draw);
      }
    }

    /** The loop of boringtun/src/device/mod.rs that empties the queue after a handshake.  At most one
        of its calls sends an initiation. */
    method FlushQueue(now: nat, dstLen: nat, draw: Draw) returns (sent: seq<Outcome>, init: Option<H.Initiation>)
      requires Valid() && Fits(Val(), dstLen)
      modifies this`wantKeepalive, this`wantHandshake, this`queue, this`txBytes, handshake, timers, sessions
      ensures (Val(), sent) == Flush(old(Val()), now, dstLen)
      ensures Made(hybrid, old(handshake.Val()), handshake.Val(), init, now, dstLen, draw)
    {
      ghost var t := Val();
      ghost var whole := Flush(t, now, dstLen);
      sent := [];
      assert [] + whole.1 == whole.1;
      var r;
      r, init := SendFirst(now, dstLen, draw);
      while ToNetwork(r)
        invariant WellFormed(t) && SendQueued(t, now, dstLen) == (Val(), r)
        invariant FlushedSoFar(whole, t, sent, now, dstLen) && Fits(t, dstLen)
        invariant Made(hybrid, old(handshake.Val()), handshake.Val(), init, now, dstLen, draw)
        invariant init.Some? ==> r.SendInit? || !ToNetwork(r)
        decreases CallsLeft(t)
      {
        FlushTurn(whole, t, sent, now, dstLen);
        sent := sent + [r];
        t := Val();
        var more;
        r, more := SendFirst(now, dstLen, draw);
        init := if init.Some? then init else more;
      }
      FlushStep(whole, t, sent, now, dstLen);
    }

    // ----- Receiving -----

    method SetCurrentSession(newIdx: nat)
      requires Valid()
      modifies this`current
      ensures Val() == SetCurrent(old(Val()), newIdx)
    {
      if current == newIdx {
        return;
      }
      if sessions[current % N_SESSIONS].None?
         || sessionTimers[newIdx % N_SESSIONS] >= sessionTimers[current % N_SESSIONS] {
        current := newIdx;
      }
    }

    /** The responder's session goes to its slot. */
    method InstallAnswered(session: Session.State)
      requires Valid()
      modifies this`wantKeepalive, this`wantHandshake, this`isInitiator, timers, sessions, sessionTimers
      ensures Val() == Answered(old(Val()), session)
    {
      var index := session.receivingIndex;
      sessions[index % N_SESSIONS] := Some(session);
      TimerTick(TIME_LAST_PACKET_RECEIVED);
      TimerTick(TIME_LAST_PACKET_SENT);
      TimerTickSessionEstablished(false, index);
    }

    method HandleHandshakeInit(p: H.InitMsg, ephemeral: nat, dstLen: nat) returns (r: Outcome, reply: Option<H.Reply>)
      requires Valid() && p.ek.None?
      modifies this`wantKeepalive, this`wantHandshake, this`isInitiator, handshake, timers, sessions, sessionTimers
      ensures (Whole(), r) == TakesInit(old(Whole()), p, ephemeral, 0, dstLen)
      ensures Replied(old(handshake.Val()), p, ephemeral, 0, dstLen, reply)
    {
      ReplySessionIsNew(handshake.Val(), p, ephemeral, 0, dstLen);
      var made := handshake.ReceiveHandshakeInitialization(p, ephemeral, dstLen);
      if made.Err? {
        return Failed(made.error), None;
      }
      InstallAnswered(made.value.session);
      r, reply := SendResponse(made.value.session.receivingIndex), Some(made.value);
    }

    method HandlePqHandshakeInit(p: H.InitMsg, ephemeral: nat, coins: nat, dstLen: nat)
      returns (r: Outcome, reply: Option<H.Reply>)
      requires Valid() && p.ek.Some? && hybrid
      modifies this`wantKeepalive, this`wantHandshake, this`isInitiator, handshake, timers, sessions, sessionTimers
      ensures (Whole(), r) == TakesInit(old(Whole()), p, ephemeral, coins, dstLen)
      ensures Replied(old(handshake.Val()), p, ephemeral, coins, dstLen, reply)
    {
      ReplySessionIsNew(handshake.Val(), p, ephemeral, coins, dstLen);
      var made := handshake.ReceivePqHandshakeInitialization(p, ephemeral, coins, dstLen);
      if made.Err? {
        return Failed(made.error), None;
      }
      InstallAnswered(made.value.session);
      r, reply := SendResponse(made.value.session.receivingIndex), Some(made.value);
    }

    /** The initiator's session goes to its slot, after sealing its first packet. */
    method InstallConfirmed(session: Session.State) returns (r: Outcome)
      requires Valid()
      modifies this`current, this`wantKeepalive, this`wantHandshake, this`isInitiator, timers, sessions, sessionTimers
      ensures
        var (s, keepalive) := Session.SealPacket(session, []);
        Val() == Confirmed(old(Val()), s) && r == SendData(keepalive)
    {
      var (s, keepalivePacket) := Session.SealPacket(session, []);
      var lIdx := s.receivingIndex;
      var index := lIdx % N_SESSIONS;
      sessions[index] := Some(s);
      TimerTick(TIME_LAST_PACKET_RECEIVED);
      TimerTickSessionEstablished(true, index);
      SetCurrentSession(lIdx);
      r := SendData(keepalivePacket);
    }

    method HandleHandshakeResponse(p: H.RespMsg, now: nat, dstLen: nat) returns (r: Outcome)
      requires Valid() && p.ct.None? && dstLen >= Session.DATA_OVERHEAD_SZ
      modifies this`current, this`wantKeepalive, this`wantHandshake, this`isInitiator,
               handshake, timers, sessions, sessionTimers
      ensures (Whole(), r) == TakesResponse(old(Whole()), p, now)
    {
      InitiatorSessionIsNew(handshake.Val(), p, now);
      var made := handshake.ReceiveHandshakeResponse(p, now);
      if made.Err? {
        return Failed(made.error);
      }
      r := InstallConfirmed(made.value);
    }

    method HandlePqHandshakeResponse(p: H.RespMsg, now: nat, dstLen: nat) returns (r: Outcome)
      requires Valid() && p.ct.Some? && hybrid && dstLen >= Session.DATA_OVERHEAD_SZ
      modifies this`current, this`wantKeepalive, this`wantHandshake, this`isInitiator,
               handshake, timers, sessions, sessionTimers
      ensures (Whole(), r) == TakesResponse(old(Whole()), p, now)
    {
      InitiatorSessionIsNew(handshake.Val(), p, now);
      var made := handshake.ReceivePqHandshakeResponse(p, now);
      if made.Err? {
        return Failed(made.error);
      }
      r := InstallConfirmed(made.value);
    }

    method HandleCookieReply(p: H.CookieReply) returns (r: Outcome)
      requires Valid()
      modifies this`wantKeepalive, this`wantHandshake, handshake, timers
      ensures (Whole(), r) == TakesCookie(old(Whole()), p)
    {
      var taken := handshake.ReceiveCookieReply(p);
      if taken.Err? {
        return Failed(taken.error);
      }
      TimerTick(TIME_LAST_PACKET_RECEIVED);
      TimerTick(TIME_COOKIE_RECEIVED);
      r := Done;
    }

    /** A new key; the sessions go, and the limiter is the given one or a new one of the tunnel's own. */
    method SetStaticPrivate(
      key: nat, limiter: RateLimiter.RateLimiter?, nonceKey: Term, secretKey: Term, time: nat)
      requires Valid()
      modifies this`rateLimiter, this`shouldResetRr, handshake, sessions
      ensures handshake.Val() == H.SetStaticPrivate(old(handshake.Val()), key)
      ensures Val() == TunnelSpec.SetStaticPrivate(old(Val()))
      ensures shouldResetRr == (limiter == null)
      ensures if limiter != null then rateLimiter == limiter
              else fresh(rateLimiter) && rateLimiter.Val()
                     == Limits.New(Pub(key), PEER_HANDSHAKE_RATE_LIMIT, nonceKey, secretKey, time)
    {
      shouldResetRr := limiter == null;
      rateLimiter := GivenOrOwn(limiter, Pub(key), nonceKey, secretKey, time);
      handshake.SetStaticPrivate(key);
      ClearSessions();
    }

    method HandleData(packet: Session.Packet, ctLen: nat, dstLen: nat) returns (r: Outcome)
      requires Valid() && TakesData(Val(), packet, ctLen, dstLen)
      modifies this`current, this`wantKeepalive, this`wantHandshake, this`rxBytes, timers, sessions
      ensures (Val(), r) == DataReceived(old(Val()), packet)
    {
      var idx := packet.receiverIdx % N_SESSIONS;
      if sessions[idx].None? {
        return Failed(NoCurrentSession);
      }
      var (s, got) := Session.OpenPacket(sessions[idx].value, packet);
      if got.Err? {
        return Failed(got.error);
      }
      sessions[idx] := Some(s);
      SetCurrentSession(packet.receiverIdx);
      TimerTick(TIME_LAST_PACKET_RECEIVED);
      r := ValidateDecapsulatedPacket(got.value);
    }

    method ValidateDecapsulatedPacket(plain: Term) returns (r: Outcome)
      requires Valid()
      modifies this`wantKeepalive, this`wantHandshake, this`rxBytes, timers
      ensures (Val(), r) == Validated(old(Val()), Classify(plain))
    {
      if !plain.Data? {
        return Failed(InvalidPacket);
      }
      var packet := plain.bytes;
      var computedLen := 0;
      if packet == [] {
        return Done;
      } else if packet[0] / 16 == 4 && |packet| >= IPV4_MIN_HEADER_SIZE {
        computedLen := BigEndian16(packet, IPV4_LEN_OFF);
      } else if packet[0] / 16 == 6 && |packet| >= IPV6_MIN_HEADER_SIZE {
        computedLen := BigEndian16(packet, IPV6_LEN_OFF) + IPV6_MIN_HEADER_SIZE;
      } else {
        return Failed(InvalidPacket);
      }
      if computedLen > |packet| {
        return Failed(InvalidPacket);
      }
      TimerTick(TIME_LAST_DATA_PACKET_RECEIVED);
      rxBytes := rxBytes + computedLen;
      r := ToTunnel(packet[..computedLen]);
    }

    method HandleVerifiedPacket(d: Datagram, ephemeral: nat, coins: nat, now: nat, dstLen: nat)
      returns (r: Outcome, reply: Option<H.Reply>)
      requires Valid() && Known(hybrid, d) && Past(Val(), now) && dstLen >= Session.DATA_OVERHEAD_SZ
      requires d.DataPacket? ==> TakesData(Val(), d.packet, d.ctLen, dstLen)
      modifies this, handshake, timers, sessions, sessionTimers
      ensures (Whole(), r) == Take(old(Whole()), InputOf(d, ephemeral, coins, dstLen), now)
      ensures d.Init? ==> Replied(old(handshake.Val()), d.init, ephemeral, coins, dstLen, reply)
      ensures rateLimiter == old(rateLimiter) && shouldResetRr == old(shouldResetRr)
    {
      reply := None;
      match d
      case Init(m, _) =>
        if m.ek.None? {
          ClassicalNeedsNoCoins(handshake.Val(), m, ephemeral, coins, dstLen);
          r, reply := HandleHandshakeInit(m, ephemeral, dstLen);
        } else {
          r, reply := HandlePqHandshakeInit(m, ephemeral, coins, dstLen);
        }
      case Resp(m, _) =>
        if m.ct.None? {
          r := HandleHandshakeResponse(m, now, dstLen);
        } else {
          r := HandlePqHandshakeResponse(m, now, dstLen);
        }
      case Cookie(m) => r := HandleCookieReply(m);
      case DataPacket(packet, ctLen) => r := HandleData(packet, ctLen, dstLen);
    }

    /** A datagram that is not empty: it is limited first, and taken only if the limiter accepts it. */
    method Decapsulate(
      srcAddr: Option<Limits.IpAddr>, d: Datagram, ephemeral: nat, coins: nat, now: nat, dstLen: nat)
      returns (v: Limits.Verdict, r: Outcome, reply: Option<H.Reply>)
      requires Valid() && Past(Val(), now) && Limits.Past(rateLimiter.Val(), timeStarted + now)
      requires dstLen >= Limits.COOKIE_REPLY_SZ && (d.DataPacket? ==> TakesData(Val(), d.packet, d.ctLen, dstLen))
      modifies this, rateLimiter, handshake, timers, sessions, sessionTimers
      ensures !Known(hybrid, d) ==>
                v == Limits.Refuse(InvalidPacket) && rateLimiter.Val() == old(rateLimiter.Val())
      ensures Known(hybrid, d) ==>
                (rateLimiter.Val(), v) == Limits.VerifyPacket(
                  old(rateLimiter.Val()), timeStarted + now, srcAddr, Limited(d), Limits.COOKIE_REPLY_SZ)
      ensures Known(hybrid, d) && WrongMac1(rateLimiter.mac1Key, d) ==>
                && v == Limits.Refuse(InvalidMac)
                && Whole() == old(Whole()) && rateLimiter.Val() == old(rateLimiter.Val())
      ensures if v.Accept? then (Whole(), r) == Take(old(Whole()), InputOf(d, ephemeral, coins, dstLen), now)
              else Whole() == old(Whole()) && reply.None?
      ensures v.Accept? && d.Init? ==> Replied(old(handshake.Val()), d.init, ephemeral, coins, dstLen, reply)
      ensures rateLimiter == old(rateLimiter) && shouldResetRr == old(shouldResetRr)
    {
      r, reply := Done, None;
      if !Known(hybrid, d) {
        v := Limits.Refuse(InvalidPacket);
        return;
      }
      v := rateLimiter.VerifyPacket(timeStarted + now, srcAddr, Limited(d), Limits.COOKIE_REPLY_SZ);
      if v.Accept? {
        r, reply := HandleVerifiedPacket(d, ephemeral, coins, now, dstLen);
      }
    }

    // ----- The periodic call -----

    method HandshakeRequired(now: nat) returns (required: bool)
      requires Valid() && ClocksPast(Val().clocks, now)
      modifies this`wantHandshake
      ensures required == (RekeyDue(old(Val()), now) || (Unanswered(old(Val()), now) && old(wantHandshake)))
      ensures Val() == if Unanswered(old(Val()), now) then old(Val()).(wantHandshake := false) else old(Val())
    {
      var sessionEstablished := timers[TIME_SESSION_ESTABLISHED];
      var autPacketReceived := timers[TIME_LAST_PACKET_RECEIVED];
      var dataPacketReceived := timers[TIME_LAST_DATA_PACKET_RECEIVED];
      var dataPacketSent := timers[TIME_LAST_DATA_PACKET_SENT];
      required := false;
      if isInitiator {
        if sessionEstablished < dataPacketSent && now - sessionEstablished >= REKEY_AFTER_TIME {
          required := true;
        }
        if sessionEstablished < dataPacketReceived
           && now - sessionEstablished >= REJECT_AFTER_TIME - KEEPALIVE_TIMEOUT - REKEY_TIMEOUT {
          required := true;
        }
      }
      if dataPacketSent > autPacketReceived
         && now - autPacketReceived >= KEEPALIVE_TIMEOUT + REKEY_TIMEOUT {
        var wanted := wantHandshake;
        wantHandshake := false;
        if wanted {
          required := true;
        }
      }
    }

    method KeepaliveRequired(now: nat) returns (required: bool)
      requires Valid() && ClocksPast(Val().clocks, now)
      modifies this`wantKeepalive, this`wantHandshake, timers
      ensures required == ((Unacknowledged(old(Val()), now) && old(wantKeepalive)) || PersistentDue(old(Val()), now))
      ensures
        var t := old(Val());
        var t1 := if Unacknowledged(t, now) then t.(wantKeepalive := false) else t;
        Val() == if PersistentDue(t, now) then TickKeepalive(t1) else t1
    {
      var autPacketSent := timers[TIME_LAST_PACKET_SENT];
      var dataPacketReceived := timers[TIME_LAST_DATA_PACKET_RECEIVED];
      required := false;
      if dataPacketReceived > autPacketSent && now - autPacketSent >= KEEPALIVE_TIMEOUT {
        var wanted := wantKeepalive;
        wantKeepalive := false;
        if wanted {
          required := true;
        }
      }
      if persistentKeepalive > 0
         && now - timers[TIME_PERSISTENT_KEEPALIVE] >= persistentKeepalive * SEC {
        TimerTick(TIME_PERSISTENT_KEEPALIVE);
        required := true;
      }
    }

    /** The branch of `update_timers` for no outstanding initiation. */
    method MaintainSession(now: nat, dstLen: nat, draw: Draw) returns (r: Outcome, sent: Option<H.Initiation>)
      requires Valid() && ClocksPast(Val().clocks, now)
      requires dstLen >= Session.DATA_OVERHEAD_SZ
      modifies this`wantKeepalive, this`wantHandshake, this`queue, this`txBytes, handshake, timers, sessions
      ensures (Val(), r) == Maintain(old(Val()), now, dstLen)
      ensures Sent(hybrid, old(handshake.Val()), handshake.Val(), r, sent, now, dstLen, draw)
    {
      var handshakeInitiationRequired := HandshakeRequired(now);
      if handshakeInitiationRequired {
        r, sent := FormatHandshakeInitiation(true, now, dstLen, draw);
        return;
      }
      var keepaliveRequired := KeepaliveRequired(now);
      if keepaliveRequired {
        r, sent := Encapsulate([], now, dstLen, draw);
        return;
      }
      r, sent := Done, None;
    }

    /** The branch for an outstanding initiation. */
    method RetryHandshake(now: nat, dstLen: nat, draw: Draw) returns (r: Outcome, sent: Option<H.Initiation>)
      requires Valid() && handshake.state.InitSent? && handshake.state.timeSent <= now
      modifies this`wantKeepalive, this`wantHandshake, handshake, timers
      ensures (Val(), r) == Retry(old(Val()), now, dstLen)
      ensures Sent(hybrid, old(handshake.Val()), handshake.Val(), r, sent, now, dstLen, draw)
    {
      if now - handshake.state.timeSent >= REKEY_TIMEOUT {
        r, sent := FormatHandshakeInitiation(true, now, dstLen, draw);
        return;
      }
      r, sent := Done, None;
    }

    method GiveUp(now: nat)
      requires Valid()
      modifies this`wantKeepalive, this`wantHandshake, this`queue, handshake, timers, sessions
      ensures Val() == GivenUp(old(Val()), now) && handshake.Val() == H.SetExpired(old(handshake.Val()))
    {
      handshake.SetExpired();
      ClearAll(now);
    }

    /** The clock is read; sessions that are too old go, and so does a cookie, but not once expired. */
    method Refresh(now: nat)
      requires Valid() && Past(Val(), now)
      modifies handshake, timers, sessions, sessionTimers
      ensures Val() == Checked(old(Val()), now)
      ensures handshake.Val() == (if old(Val()).hasCookie && !Val().hasCookie
                                  then H.ClearCookie(old(handshake.Val())) else old(handshake.Val()))
    {
      timers[TIME_CURRENT] := now;
      UpdateSessionTimers(now);
      if !handshake.state.Expired? && handshake.cookies.writeCookie.Some?
         && now - timers[TIME_COOKIE_RECEIVED] >= COOKIE_EXPIRATION_TIME {
        handshake.ClearCookie();
      }
    }

    /** All of `update_timers` after the expiry of sessions and cookie. */
    method Attend(now: nat, dstLen: nat, draw: Draw) returns (r: Outcome, sent: Option<H.Initiation>)
      requires Valid() && Past(Val(), now) && dstLen >= Session.DATA_OVERHEAD_SZ
      modifies this`wantKeepalive, this`wantHandshake, this`queue, this`txBytes, handshake, timers, sessions
      ensures Attends(old(Whole()), Whole(), r, sent, now, dstLen, draw)
    {
      if handshake.state.Expired? {
        return Failed(ConnectionExpired), None;
      }
      if now - timers[TIME_SESSION_ESTABLISHED] >= REJECT_AFTER_TIME * 3 {
        GiveUp(now);
        return Failed(ConnectionExpired), None;
      }
      if handshake.state.InitSent? {
        if now - timers[TIME_LAST_HANDSHAKE_STARTED] >= REKEY_ATTEMPT_TIME {
          GiveUp(now);
          return Failed(ConnectionExpired), None;
        }
        r, sent := RetryHandshake(now, dstLen, draw);
        return;
      }
      r, sent := MaintainSession(now, dstLen, draw);
    }

    method ResetLimiter(now: nat)
      requires shouldResetRr ==> Limits.Past(rateLimiter.Val(), timeStarted + now)
      modifies rateLimiter
      ensures rateLimiter.Val() == if shouldResetRr then Limits.ResetCount(old(rateLimiter.Val()), timeStarted + now)
                                   else old(rateLimiter.Val())
    {
      if shouldResetRr {
        rateLimiter.ResetCount(timeStarted + now);
      }
    }

    method UpdateTimers(now: nat, dstLen: nat, draw: Draw) returns (r: Outcome, sent: Option<H.Initiation>)
      requires Valid() && Past(Val(), now) && dstLen >= Session.DATA_OVERHEAD_SZ
      requires shouldResetRr ==> Limits.Past(rateLimiter.Val(), timeStarted + now)
      modifies this`wantKeepalive, this`wantHandshake, this`queue, this`txBytes,
               rateLimiter, handshake, timers, sessions, sessionTimers
      ensures (Whole(), r) == Take(old(Whole()), CallTimers(dstLen, draw), now)
      ensures sent == Initiation(old(handshake.Val()), old(Val()), Val(), r, now, dstLen, draw)
      ensures rateLimiter.Val() == if shouldResetRr then Limits.ResetCount(old(rateLimiter.Val()), timeStarted + now)
                                   else old(rateLimiter.Val())
    {
      ghost var f := Whole();
      ResetLimiter(now);
      Refresh(now);
      ghost var g := Whole();
      CheckedKeeps(f.t, now);
      r, sent := Attend(now, dstLen, draw);
      UpdateIsAttended(f, g, Whole(), r, sent, now, dstLen, draw);
      RefreshThenAttend(f, g, Whole(), r, sent, now, dstLen, draw);
    }

    method TimeSinceLastHandshake(now: nat) returns (age: Option<nat>)
      requires Valid() && Past(Val(), now)
      ensures age == TunnelSpec.TimeSinceLastHandshake(Val(), now)
    {
      if sessions[current % N_SESSIONS].Some? {
        return Some(now - timers[TIME_SESSION_ESTABLISHED]);
      }
      return None;
    }

    // ----- Statistics -----

    method EstimateLoss() returns (loss: real)
      requires Valid() && WindowsCoherent(Val())
      ensures loss == Mean(Losses(Rounds(Val())))
      ensures 0.0 <= loss <= 1.0 && (loss == 0.0 <==> NothingLost(Val()))
    {
      ghost var rounds := Rounds(Val());
      ghost var all := Losses(rounds);
      var weight, curAvg, totalWeight := 9.0, 0.0, 0.0;
      assert rounds[0..] == rounds;
      for i := 0 to N_SESSIONS
        invariant SumsUp(all, Losses(rounds[i..]), weight, curAvg, totalWeight)
      {
        LossesCons(rounds, i);
        var slot := sessions[SlotBack(current, i)];
        if slot.Some? {
          var lost := SessionLoss(slot.value);
          AddLoss(all, lost, Losses(rounds[i + 1..]), weight, curAvg, totalWeight);
          curAvg := curAvg + lost * weight;
          totalWeight := totalWeight + weight;
          weight := weight / 3.0;
        }
      }
      EstimateInUnit(Val());
      loss := Average(curAvg, totalWeight);
    }
  }
}

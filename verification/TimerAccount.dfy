/** What each timer, wish and counter of the tunnel means: after any call it is what the call and its
    outcome, as the caller sees them, say it must be. */
module TimerAccount {
  import opened Wrappers
  import opened Terms
  import opened HandshakeSlots
  import opened LocalIndex
  import opened TunnelSpec
  import opened TunnelRuns
  import opened TimerRules
  import Session

  // ----- What the caller sees -----

  /** The payload of a data packet that goes out. */
  function PayloadOf(r: Outcome): Bytes {
    if r.SendData? && r.packet.box.Seal? && r.packet.box.plain.Data? then r.packet.box.plain.bytes else []
  }

  /** Something of ours goes out, but for the packet that confirms a handshake. */
  predicate GoesOut(e: Event, r: Outcome) {
    r.SendInit? || r.SendResponse? || (r.SendData? && !e.GotResponse?)
  }

  /** A session is made. */
  predicate Establishes(e: Event, r: Outcome) { e.GotInit? || (e.GotResponse? && r.SendData?) }

  /** The packet opens. */
  predicate OpensIn(t: Tunn, packet: Session.Packet)
    requires WellFormed(t)
  {
    var slot := t.sessions[packet.receiverIdx % N_SESSIONS];
    slot.Some? && Session.OpenPacket(slot.value, packet).1.Ok?
  }

  /** Something authentic comes in. */
  predicate Hears(t: Tunn, e: Event, r: Outcome)
    requires WellFormed(t)
  {
    Establishes(e, r) || e.GotCookie? || (e.GotData? && OpensIn(t, e.packet))
  }

  /** The tunnel asks itself for an initiation. */
  predicate Asks(t: Tunn, e: Event)
    requires WellFormed(t)
  {
    e.Handshake? || (CurrentSession(t).None? && (e.Send? || (e.Flush? && t.queue != [])))
  }

  /** All timers restart: the tunnel is given up, or an expired one starts over. */
  predicate Restarts(t: Tunn, e: Event, now: nat)
    requires WellFormed(t)
  {
    if t.slots.state.Expired? then Asks(t, e) else e.Timers? && !Living(t, now)
  }

  /** The periodic call gets as far as asking for a keepalive. */
  predicate Looks(t: Tunn, e: Event, now: nat) {
    e.Timers? && Living(t, now) && !t.slots.state.InitSent?
  }

  // ----- The account -----

  function Reading(t: Tunn, e: Event, now: nat): nat
    requires WellFormed(t)
  {
    if e.Timers? || Restarts(t, e, now) then now else t.clocks.current
  }

  /** A timer: the reading if it is ticked, the time of the restart if all are, or as it was. */
  function Timer(was: nat, ticked: bool, restarts: bool, reading: nat): nat {
    if ticked || restarts then reading else was
  }

  predicate ClocksMean(t: Tunn, e: Event, now: nat, t': Tunn, r: Outcome)
    requires WellFormed(t)
  {
    var c, restarts, reading := t.clocks, Restarts(t, e, now), Reading(t, e, now);
    t'.clocks == Clocks(
      reading,
      Timer(c.established, Establishes(e, r), restarts, reading),
      Timer(c.started, r.SendInit? && !InProgress(t.slots), restarts, reading),
      Timer(c.received, Hears(t, e, r), restarts, reading),
      Timer(c.sent, GoesOut(e, r), restarts, reading),
      Timer(c.dataReceived, r.ToTunnel?, restarts, reading),
      Timer(c.dataSent, PayloadOf(r) != [], restarts, reading),
      Timer(c.cookie, e.GotCookie?, restarts, reading),
      Timer(c.keepalive, Looks(t, e, now) && !MustInitiate(t, now) && KeepaliveDue(t, now), restarts, reading))
  }

  predicate WishesMean(t: Tunn, e: Event, now: nat, t': Tunn, r: Outcome)
    requires WellFormed(t)
  {
    && (t'.wantHandshake <==>
          GoesOut(e, r) || (t.wantHandshake && !Hears(t, e, r) && !Restarts(t, e, now)
                            && !(Looks(t, e, now) && Unheard(t, now))))
    && (t'.wantKeepalive <==>
          !GoesOut(e, r)
          && (Hears(t, e, r) || (t.wantKeepalive && !Restarts(t, e, now)
                                 && !(Looks(t, e, now) && !MustInitiate(t, now) && Unthanked(t, now)))))
  }

  predicate CountsMean(t: Tunn, e: Event, t': Tunn, r: Outcome)
    requires WellFormed(t)
  {
    && (PayloadOf(r) != [] ==> GoesOut(e, r)) && (r.ToTunnel? ==> Hears(t, e, r))
    && t'.isInitiator == (if Establishes(e, r) then e.GotResponse? else t.isInitiator)
    && t'.txBytes == t.txBytes + |PayloadOf(r)|
    && t'.rxBytes == t.rxBytes + if r.ToTunnel? then |r.ip| else 0
  }

  predicate Account(t: Tunn, e: Event, now: nat, t': Tunn, r: Outcome)
    requires WellFormed(t)
  {
    ClocksMean(t, e, now, t', r) && WishesMean(t, e, now, t', r) && CountsMean(t, e, t', r)
  }

  // ----- Asking for an initiation -----

  /** What asking does to the timers of the tunnel. */
  predicate Asked(t: Tunn, now: nat, t': Tunn, r: Outcome) {
    var c := if t.slots.state.Expired? then Clocks(now, now, now, now, now, now, now, now, now) else t.clocks;
    && (r.SendInit? || r.Done? || r.Failed?)
    && t'.clocks == c.(started := if r.SendInit? && !InProgress(t.slots) then c.current else c.started,
                       sent := if r.SendInit? then c.current else c.sent)
    && t'.wantHandshake == (r.SendInit? || (t.wantHandshake && !t.slots.state.Expired?))
    && t'.wantKeepalive == (!r.SendInit? && t.wantKeepalive && !t.slots.state.Expired?)
    && t'.isInitiator == t.isInitiator && t'.txBytes == t.txBytes && t'.rxBytes == t.rxBytes
  }

  lemma {:induction false} FormatAsks(t: Tunn, force: bool, now: nat, dstLen: nat)
    ensures
      var (t', r) := FormatInitiation(t, force, now, dstLen);
      Asked(t, now, t', r)
  {
  }

  lemma {:induction false} HandshakeAccount(t: Tunn, force: bool, now: nat, dstLen: nat)
    requires WellFormed(t)
    ensures
      var (t', r) := FormatInitiation(t, force, now, dstLen);
      Account(t, Handshake(force, dstLen), now, t', r)
  {
    FormatAsks(t, force, now, dstLen);
  }

  // ----- Sending -----

  /** What encapsulating src does to the timers. */
  predicate Enclosed(t: Tunn, src: Bytes, now: nat, t': Tunn, r: Outcome)
    requires WellFormed(t)
  {
    if CurrentSession(t).Some? then
      && r.SendData? && PayloadOf(r) == src
      && t'.clocks == t.clocks.(sent := t.clocks.current,
                                dataSent := if src == [] then t.clocks.dataSent else t.clocks.current)
      && t'.wantHandshake && !t'.wantKeepalive
      && t'.isInitiator == t.isInitiator && t'.txBytes == t.txBytes + |src| && t'.rxBytes == t.rxBytes
    else Asked(t, now, t', r)
  }

  lemma {:induction false} EncapsulateEncloses(t: Tunn, src: Bytes, now: nat, dstLen: nat)
    requires WellFormed(t)
    ensures
      var (t', r) := Encapsulate(t, src, now, dstLen);
      Enclosed(t, src, now, t', r)
  {
    if CurrentSession(t).None? {
      FormatAsks(QueuePacket(t, src), false, now, dstLen);
      assert Encapsulate(t, src, now, dstLen) == FormatInitiation(QueuePacket(t, src), false, now, dstLen);
    }
  }

  lemma {:induction false} SendAccount(t: Tunn, src: Bytes, now: nat, dstLen: nat)
    requires WellFormed(t)
    ensures
      var (t', r) := Encapsulate(t, src, now, dstLen);
      Account(t, Send(src, dstLen), now, t', r)
  {
    EncapsulateEncloses(t, src, now, dstLen);
  }

  lemma {:induction false} FlushAccount(t: Tunn, now: nat, dstLen: nat)
    requires WellFormed(t)
    ensures
      var (t', r) := SendQueued(t, now, dstLen);
      Account(t, Flush(dstLen), now, t', r)
  {
    if t.queue != [] {
      EncapsulateEncloses(t.(queue := t.queue[1..]), t.queue[0], now, dstLen);
    }
  }

  // ----- Receiving -----

  lemma {:induction false} InitAccount(t: Tunn, now: nat, peer: nat, rk: Term, sk: Term)
    requires WellFormed(t)
    ensures
      var (t', r) := InitAccepted(t, peer, rk, sk);
      Account(t, GotInit(peer, rk, sk), now, t', r)
  {
  }

  lemma {:induction false} ResponseAccount(t: Tunn, now: nat, index: nat, peer: nat, rk: Term, sk: Term)
    requires WellFormed(t) && IsAwaited(t.slots, index)
    ensures
      var (t', r) := ResponseAccepted(t, index, peer, rk, sk);
      Account(t, GotResponse(index, peer, rk, sk), now, t', r)
  {
  }

  lemma {:induction false} CookieAccount(t: Tunn, now: nat)
    requires WellFormed(t)
    ensures
      var (t', r) := CookieAccepted(t);
      Account(t, GotCookie, now, t', r)
  {
  }

  /** A packet that opens ticks the timers of its kind. */
  predicate Received(t: Tunn, t': Tunn, r: Outcome) {
    && !r.SendInit? && !r.SendResponse? && !r.SendData?
    && t'.clocks == t.clocks.(received := t.clocks.current,
                              dataReceived := if r.ToTunnel? then t.clocks.current else t.clocks.dataReceived)
    && !t'.wantHandshake && t'.wantKeepalive
    && t'.isInitiator == t.isInitiator && t'.txBytes == t.txBytes
    && t'.rxBytes == t.rxBytes + if r.ToTunnel? then |r.ip| else 0
  }

  lemma {:induction false} ValidatedReceives(t: Tunn, slot: nat, s: Session.State, index: nat, plain: Term)
    requires WellFormed(t) && slot < N_SESSIONS
    ensures
      var t1 := SetCurrent(t.(sessions := t.sessions[slot := Some(s)]), index);
      var (t', r) := Validated(TickReceived(t1), Classify(plain));
      Received(t, t', r)
  {
  }

  lemma {:induction false} DataAccount(t: Tunn, now: nat, packet: Session.Packet)
    requires WellFormed(t)
    ensures
      var (t', r) := DataReceived(t, packet);
      Account(t, GotData(packet), now, t', r)
  {
    var slot := packet.receiverIdx % N_SESSIONS;
    if OpensIn(t, packet) {
      var (s, r) := Session.OpenPacket(t.sessions[slot].value, packet);
      ValidatedReceives(t, slot, s, packet.receiverIdx, r.value);
    }
  }

  // ----- The periodic call -----

  lemma {:induction false} GivenUpAccount(t: Tunn, now: nat, dstLen: nat)
    requires Timely(t, now) && Past(t, now) && !Living(t, now)
    ensures
      var (t', r) := UpdateTimers(t, now, dstLen);
      Account(t, Timers(dstLen), now, t', r)
  {
    GivesUpIff(t, now, dstLen);
    AttendedKeeps(t, now);
  }

  lemma {:induction false} RetryAccount(t: Tunn, now: nat, dstLen: nat)
    requires Timely(t, now) && Past(t, now) && Living(t, now) && t.slots.state.InitSent?
    ensures
      var (t', r) := UpdateTimers(t, now, dstLen);
      Account(t, Timers(dstLen), now, t', r)
  {
    LivingGoesOn(t, now, dstLen);
    AttendedKeeps(t, now);
    FormatAsks(Attended(t, now), true, now, dstLen);
  }

  lemma {:induction false} InitiatingAccount(t: Tunn, now: nat, dstLen: nat)
    requires Timely(t, now) && Past(t, now) && Living(t, now) && !t.slots.state.InitSent? && MustInitiate(t, now)
    ensures
      var (t', r) := UpdateTimers(t, now, dstLen);
      Account(t, Timers(dstLen), now, t', r)
  {
    LivingGoesOn(t, now, dstLen);
    AttendedKeeps(t, now);
    var t1 := Attended(t, now);
    var t2 := if Unanswered(t1, now) then t1.(wantHandshake := false) else t1;
    assert Maintain(t1, now, dstLen) == FormatInitiation(t2, true, now, dstLen);
    FormatAsks(t2, true, now, dstLen);
  }

  lemma {:induction false} CalmAccount(t: Tunn, now: nat, dstLen: nat)
    requires Timely(t, now) && Past(t, now) && Living(t, now) && !t.slots.state.InitSent? && !MustInitiate(t, now)
    ensures
      var (t', r) := UpdateTimers(t, now, dstLen);
      Account(t, Timers(dstLen), now, t', r)
  {
    CallCalms(t, now, dstLen);
    AttendedKeeps(t, now);
    EncapsulateEncloses(Calmed(Attended(t, now), now), [], now, dstLen);
  }

  /** After every call each timer, wish and counter is what the call and its outcome say. */
  lemma {:induction false} EveryCallIsAccounted(t: Tunn, e: Event, now: nat)
    requires Timely(t, now)
    ensures Past(t, now)
    ensures Account(t, e, now, Apply(t, e, now).0, Apply(t, e, now).1)
  {
    TimelyLater(t, now, now);
    match e
    case Timers(dstLen) =>
      if !Living(t, now) {
        GivenUpAccount(t, now, dstLen);
      } else if t.slots.state.InitSent? {
        RetryAccount(t, now, dstLen);
      } else if MustInitiate(t, now) {
        InitiatingAccount(t, now, dstLen);
      } else {
        CalmAccount(t, now, dstLen);
      }
    case Send(src, dstLen) => SendAccount(t, src, now, dstLen);
    case Flush(dstLen) => FlushAccount(t, now, dstLen);
    case Handshake(force, dstLen) => HandshakeAccount(t, force, now, dstLen);
    case GotInit(peer, rk, sk) => InitAccount(t, now, peer, rk, sk);
    case GotResponse(index, peer, rk, sk) =>
      if IsAwaited(t.slots, index) {
        ResponseAccount(t, now, index, peer, rk, sk);
      }
    case GotData(packet) => DataAccount(t, now, packet);
    case GotCookie => CookieAccount(t, now);
    case SetKey =>
    case GotInitNoSpace =>
    case GotInitBadKey =>
  }

  /** With a buffer too small for the initiation, the wish for a handshake is spent for nothing: data is
      still unheard, and no later call acts on it until something is sent again. */
  lemma {:induction false} SmallBufferSpendsWish(t: Tunn, now: nat, dstLen: nat)
    requires Timely(t, now) && Past(t, now) && Living(t, now) && !t.slots.state.InitSent?
    requires Unheard(t, now) && t.wantHandshake && !Room(t, dstLen)
    ensures
      var (t', r) := UpdateTimers(t, now, dstLen);
      r == Failed(DestinationBufferTooSmall) && Unheard(t', now) && !t'.wantHandshake
  {
    EveryCallIsAccounted(t, Timers(dstLen), now);
    InitiatesWhenDue(t, now, dstLen);
  }
}

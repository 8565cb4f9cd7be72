/** Where the pace of emissions ends: the bound on resends is reached, and fails exactly when a reply
    buffer may be too small; the spacing fails exactly when persistent keepalive is on, or a buffer may
    be too small, or a tunnel that knows hybrid messages may get a malformed encapsulation key.  The
    failing runs are runs of calls and of messages that a peer with its own key writes. */
module TunnelPaceLimits {
  import opened Clock
  import opened HandshakeSlots
  import opened LocalIndex
  import opened TunnelSpec
  import opened TunnelRuns
  import opened TunnelHistory
  import opened TunnelPace
  import opened TunnelMessages
  import opened MessageRuns
  import opened PeerMessages
  import Terms

  // ----- One call of each kind -----

  lemma {:induction false} NextTimers(w: World, now: nat)
    requires Sane(w) && w.now <= now
    ensures Past(w.t, now)
    ensures
      var w' := Next(w, Timed(now, Timers(ROOM)));
      var (t', r) := UpdateTimers(w.t, now, ROOM);
      && w'.t == t'
      && w'.h.emits == (if r.SendInit? then w.h.emits + [now] else w.h.emits)
      && w'.h.retransmissions == if !r.SendInit? then w.h.retransmissions
                                 else if InProgress(w.t.slots) then w.h.retransmissions + 1 else 0
  {
    SaneIsReady(w, now);
  }

  lemma {:induction false} NextHandshake(w: World, now: nat, force: bool)
    requires Sane(w) && w.now <= now
    ensures
      var w' := Next(w, Timed(now, Handshake(force, ROOM)));
      && w'.t == FormatInitiation(w.t, force, now, ROOM).0 && w'.h.emits == w.h.emits
      && (!InProgress(w.t.slots) ==> w'.h.retransmissions == 0)
  {
    SaneIsReady(w, now);
  }

  lemma {:induction false} NextGotInit(w: World, now: nat, e: Event)
    requires Sane(w) && w.now <= now && e.GotInit?
    ensures
      var w' := Next(w, Timed(now, e));
      w'.t == InitAccepted(w.t, e.peer, e.receivingKey, e.sendingKey).0 && w'.h.emits == w.h.emits
  {
    SaneIsReady(w, now);
  }

  lemma {:induction false} NextResponse(w: World, now: nat, e: Event)
    requires Sane(w) && w.now <= now && e.GotResponse? && IsAwaited(w.t.slots, e.index)
    ensures
      var w' := Next(w, Timed(now, e));
      w'.t == ResponseAccepted(w.t, e.index, e.peer, e.receivingKey, e.sendingKey).0 && w'.h.emits == w.h.emits
  {
    SaneIsReady(w, now);
  }

  lemma {:induction false} NextSend(w: World, now: nat)
    requires Sane(w) && w.now <= now
    ensures
      var w' := Next(w, Timed(now, Send([0], ROOM)));
      w'.t == Encapsulate(w.t, [0], now, ROOM).0 && w'.h.emits == w.h.emits
  {
    SaneIsReady(w, now);
  }

  /** A peer's initiation refused late leaves the timers alone and `state` without an initiation;
      one that was stored still counts as a handshake in progress. */
  lemma {:induction false} NextRefusal(w: World, now: nat, refusal: Event)
    requires Sane(w) && w.now <= now && (refusal.GotInitNoSpace? || refusal.GotInitBadKey?)
    ensures
      var w' := Next(w, Timed(now, refusal));
      && w'.h.emits == w.h.emits && w'.h.retransmissions == w.h.retransmissions
      && !w'.t.slots.state.InitSent? && !w'.t.slots.state.Expired?
      && (refusal.GotInitNoSpace? ==> InProgress(w'.t.slots))
      && w'.t == w.t.(slots := w'.t.slots)
  {
    SaneIsReady(w, now);
  }

  // ----- The bound of 17 resends is reached -----

  function ResendTime(k: nat): nat { k * REKEY_TIMEOUT }

  lemma {:induction false} ResendTimes(k: nat)
    requires k < MAX_RESENDS
    ensures ResendTime(k + 1) == ResendTime(k) + REKEY_TIMEOUT < REKEY_ATTEMPT_TIME
  {
  }

  /** The attempt begun at time 0 after k resends. */
  predicate Resent(w: World, k: nat) {
    && w.now == ResendTime(k)
    && w.t.slots.state.InitSent? && w.t.slots.state.timeSent == w.now
    && w.t.clocks.started == w.t.clocks.established == 0
    && w.h.retransmissions == k
  }

  lemma {:induction false} ResendAgain(t: Tunn, now: nat)
    requires WellFormed(t) && Past(t, now) && t.slots.state.InitSent?
    requires t.clocks.started == t.clocks.established == 0
    requires t.slots.state.timeSent + REKEY_TIMEOUT == now < REKEY_ATTEMPT_TIME
    ensures
      var (t', r) := UpdateTimers(t, now, ROOM);
      && r.SendInit? && t'.slots.state.InitSent? && t'.slots.state.timeSent == now
      && t'.clocks.started == t'.clocks.established == 0
  {
  }

  lemma {:induction false} ResentNext(w: World, k: nat, now: nat)
    requires Sane(w) && Resent(w, k) && k < MAX_RESENDS && now == ResendTime(k + 1)
    ensures Resent(Next(w, Timed(now, Timers(ROOM))), k + 1)
  {
    ResendTimes(k);
    NextTimers(w, now);
    ResendAgain(w.t, now);
  }

  lemma {:induction false} ResentStart(hybrid: bool, index: nat, p: nat)
    ensures Sane(Start(hybrid, index, p))
    ensures Resent(Next(Start(hybrid, index, p), Timed(0, Handshake(false, ROOM))), 0)
  {
    NextHandshake(Start(hybrid, index, p), 0, false);
  }

  lemma {:induction false} ResendMore(x: Trace, k: nat) returns (y: Trace)
    requires Holds(x) && Resent(x.end.w, k) && k < MAX_RESENDS
    ensures Continues(x, y) && Resent(y.end.w, k + 1)
  {
    ResendTimes(k);
    ResentNext(x.end.w, k, ResendTime(k + 1));
    y := Calls(x, CallTimers(ROOM, Fresh(x, ResendTime(k + 1))), ResendTime(k + 1));
  }

  lemma {:induction false} ResendToBound(x: Trace) returns (y: Trace)
    requires Holds(x) && Resent(x.end.w, 0)
    ensures Continues(x, y) && y.end.w.h.retransmissions == MAX_RESENDS
  {
    y := x;
    var k := 0;
    while k < MAX_RESENDS
      invariant k <= MAX_RESENDS && Continues(x, y) && Resent(y.end.w, k)
    {
      y := ResendMore(y, k);
      k := k + 1;
    }
  }

  /** A handshake at time 0, then a periodic call every REKEY_TIMEOUT: no answer comes, and each
      call up to the 17th resends. */
  lemma {:induction false} ResendsReachBound(c: Setting) returns (x: Trace)
    requires Sound(c)
    ensures RunOf(c, x) && x.end.w.h.retransmissions == MAX_RESENDS
  {
    x := BeginHolds(c);
    ResentStart(c.hybrid, c.index, c.p);
    x := Calls(x, CallHandshake(false, ROOM, Fresh(x, 0)), 0);
    x := ResendToBound(x);
  }

  // ----- Persistent keepalive breaks the spacing -----

  /** A responder without cookie that uses session 0 and whose timers read c. */
  predicate Looks(t: Tunn, p: nat, c: Clocks) {
    && WellFormed(t) && !t.isInitiator && !t.hasCookie && t.persistentKeepalive == p
    && t.current == 0 && t.clocks == c
  }

  /** Nothing under way; last heard of at `since`, clock read at `now`. */
  predicate Quiet(t: Tunn, p: nat, now: nat, since: nat) {
    t.slots.state.Free? && Looks(t, p, Clocks(now, since, 0, since, since, 0, 0, 0, 0))
  }

  predicate Bare(t: Tunn) { forall i | 0 <= i < |t.sessions| :: t.sessions[i].None? }

  lemma {:induction false} QuietTicks(t: Tunn, p: nat, since: nat, now: nat)
    requires Quiet(t, p, since, since) && Past(t, now)
    requires now <= since + 500 * SEC && now < p * SEC
    ensures UpdateTimers(t, now, ROOM).1 == Done && Quiet(UpdateTimers(t, now, ROOM).0, p, now, since)
    ensures Bare(t) || (TimersPast(t, since) && since + REJECT_AFTER_TIME < now) ==> Bare(UpdateTimers(t, now, ROOM).0)
  {
  }

  lemma {:induction false} QuietAnswers(t: Tunn, p: nat, since: nat, now: nat, e: Event)
    requires Quiet(t, p, now, since) && e.GotInit?
    ensures Quiet(InitAccepted(t, e.peer, e.receivingKey, e.sendingKey).0, p, now, now)
  {
  }

  lemma {:induction false} WaitMore(x: Trace, p: nat, now: nat) returns (y: Trace)
    requires Holds(x) && Quiet(x.end.w.t, p, x.end.w.now, x.end.w.now)
    requires x.end.w.now <= now <= x.end.w.now + 500 * SEC && now < p * SEC
    ensures Continues(x, y) && y.stamps == x.stamps
    ensures y.end.w.now == now && y.end.w.h.emits == x.end.w.h.emits
    ensures Quiet(y.end.w.t, p, now, x.end.w.now)
    ensures Bare(x.end.w.t) || x.end.w.now + REJECT_AFTER_TIME < now ==> Bare(y.end.w.t)
  {
    NextTimers(x.end.w, now);
    QuietTicks(x.end.w.t, p, x.end.w.now, now);
    y := Calls(x, CallTimers(ROOM, Fresh(x, now)), now);
  }

  lemma {:induction false} HearMore(x: Trace, p: nat, since: nat) returns (y: Trace)
    requires Holds(x) && Quiet(x.end.w.t, p, x.end.w.now, since) && x.stamps + 1 < MAX_STAMPS
    ensures Continues(x, y) && y.stamps == x.stamps + 1
    ensures y.end.w.now == x.end.w.now && y.end.w.h.emits == x.end.w.h.emits
    ensures Quiet(y.end.w.t, p, y.end.w.now, y.end.w.now)
  {
    var e;
    y, e := PeerCalls(x);
    NextGotInit(x.end.w, x.end.w.now, e);
    QuietAnswers(x.end.w.t, p, since, x.end.w.now, e);
  }

  /** A quiet tunnel whose next session is still due to be dropped before `until`. */
  predicate Idling(x: Trace, p: nat, until: nat) {
    var w := x.end.w;
    && Holds(x) && Quiet(w.t, p, w.now, w.now) && w.h.emits == []
    && w.now <= until && (Bare(w.t) || w.now + 200 * SEC < until)
    && x.stamps * (200 * SEC) <= w.now
  }

  lemma {:induction false} IdleMore(x: Trace, p: nat, until: nat) returns (y: Trace)
    requires p < 0x1_0000 && until < p * SEC && Idling(x, p, until) && x.end.w.now + 400 * SEC < until
    ensures Idling(y, p, until) && Continues(x, y) && y.end.w.now == x.end.w.now + 200 * SEC
  {
    y := WaitMore(x, p, x.end.w.now + 200 * SEC);
    y := HearMore(y, p, x.end.w.now);
  }

  lemma {:induction false} StartIsIdle(c: Setting, until: nat) returns (x: Trace)
    requires Sound(c)
    ensures RunOf(c, x) && Idling(x, c.p, until)
  {
    x := BeginHolds(c);
  }

  lemma {:induction false} IdleUntil(c: Setting, until: nat) returns (x: Trace)
    requires Sound(c) && c.p < 0x1_0000 && until < c.p * SEC
    ensures RunOf(c, x) && Idling(x, c.p, until) && until <= x.end.w.now + 400 * SEC
  {
    x := StartIsIdle(c, until);
    while x.end.w.now + 400 * SEC < until
      invariant RunOf(c, x) && Idling(x, c.p, until)
      decreases until - x.end.w.now
    {
      x := IdleMore(x, c.p, until);
    }
  }

  /** The peer's initiations alone keep a tunnel quiet, and now and then without a session. */
  lemma {:induction false} StayQuiet(c: Setting, until: nat) returns (x: Trace, since: nat)
    requires Sound(c) && c.p < 0x1_0000 && until < c.p * SEC
    ensures RunOf(c, x) && x.stamps + 1 < MAX_STAMPS
    ensures x.end.w.now == until <= since + 400 * SEC && x.end.w.h.emits == []
    ensures Quiet(x.end.w.t, c.p, until, since) && Bare(x.end.w.t)
  {
    x := IdleUntil(c, until);
    since := x.end.w.now;
    x := WaitMore(x, c.p, until);
  }

  /** An attempt whose newest initiation was sent at `sent`, without any session. */
  predicate Trying(t: Tunn, p: nat, sent: nat, c: Clocks) {
    Looks(t, p, c) && t.slots.state.InitSent? && t.slots.state.timeSent == sent && Bare(t)
  }

  lemma {:induction false} QuietStarts(t: Tunn, p: nat, now: nat, since: nat)
    requires Quiet(t, p, now, since) && Bare(t)
    ensures Trying(FormatInitiation(t, false, now, ROOM).0, p, now, Clocks(now, since, now, since, now, 0, 0, 0, 0))
  {
  }

  lemma {:induction false} TryingRestarts(t: Tunn, p: nat, now: nat, c: Clocks)
    requires Trying(t, p, now, c) && c.current == c.sent == now
    ensures
      var t' := FormatInitiation(t, true, now, ROOM).0;
      Trying(t', p, now, c) && t'.slots.nextIndex == Inc(t.slots.nextIndex)
  {
  }

  lemma {:induction false} TryingResends(t: Tunn, p: nat, at: nat, since: nat, now: nat)
    requires Trying(t, p, at, Clocks(at, since, at, since, at, 0, 0, 0, 0)) && Past(t, now)
    requires now == at + REKEY_TIMEOUT && at <= since + 400 * SEC
    ensures
      var (t', r) := UpdateTimers(t, now, ROOM);
      && r.SendInit? && Trying(t', p, now, Clocks(now, since, at, since, now, 0, 0, 0, 0))
      && t'.slots.nextIndex == Inc(t.slots.nextIndex)
  {
  }

  /** The attempt was overtaken by the peer's initiation; the session made is not the one in use. */
  predicate Overtaken(t: Tunn, p: nat, now: nat, started: nat) {
    && t.slots.state.Free? && Looks(t, p, Clocks(now, now, started, now, now, 0, 0, 0, 0))
    && t.sessions[0].None?
  }

  lemma {:induction false} TryingIsOvertaken(t: Tunn, p: nat, at: nat, since: nat, now: nat, e: Event)
    requires Trying(t, p, now, Clocks(now, since, at, since, now, 0, 0, 0, 0)) && e.GotInit?
    requires SparesNext(t.slots.nextIndex)
    ensures Overtaken(InitAccepted(t, e.peer, e.receivingKey, e.sendingKey).0, p, now, at)
  {
  }

  lemma {:induction false} OvertakenEmits(t: Tunn, p: nat, at: nat, since: nat, now: nat)
    requires Overtaken(t, p, since, at) && Past(t, now) && 0 < p
    requires p * SEC <= now < since + REKEY_TIMEOUT
    ensures UpdateTimers(t, now, ROOM).1.SendInit?
  {
  }

  /** The index after this one does not belong to ring slot 0. */
  predicate SparesNext(index: nat) { Inc(index) % N_SESSIONS != 0 }

  lemma {:induction false} OneOfTwoSpares(index: nat)
    ensures SparesNext(index) || SparesNext(Inc(index))
  {
  }

  lemma {:induction false} StartAttempt(x: Trace, p: nat, since: nat) returns (y: Trace)
    requires Holds(x) && Quiet(x.end.w.t, p, x.end.w.now, since) && Bare(x.end.w.t)
    ensures Continues(x, y) && y.stamps == x.stamps
    ensures y.end.w.now == x.end.w.now && y.end.w.h.emits == x.end.w.h.emits
    ensures Trying(y.end.w.t, p, y.end.w.now, Clocks(y.end.w.now, since, y.end.w.now, since, y.end.w.now, 0, 0, 0, 0))
  {
    NextHandshake(x.end.w, x.end.w.now, false);
    QuietStarts(x.end.w.t, p, x.end.w.now, since);
    y := Calls(x, CallHandshake(false, ROOM, Fresh(x, x.end.w.now)), x.end.w.now);
  }

  lemma {:induction false} RestartAttempt(x: Trace, p: nat, c: Clocks) returns (y: Trace)
    requires Holds(x) && Trying(x.end.w.t, p, x.end.w.now, c) && c.current == c.sent == x.end.w.now
    ensures Continues(x, y) && y.stamps == x.stamps
    ensures y.end.w.now == x.end.w.now && y.end.w.h.emits == x.end.w.h.emits
    ensures Trying(y.end.w.t, p, y.end.w.now, c)
    ensures y.end.w.t.slots.nextIndex == Inc(x.end.w.t.slots.nextIndex)
  {
    NextHandshake(x.end.w, x.end.w.now, true);
    TryingRestarts(x.end.w.t, p, x.end.w.now, c);
    y := Calls(x, CallHandshake(true, ROOM, Fresh(x, x.end.w.now)), x.end.w.now);
  }

  /** An attempt begins now; the second index from here spares ring slot 0. */
  lemma {:induction false} BeginAttempt(x: Trace, p: nat, since: nat) returns (y: Trace)
    requires Holds(x) && Quiet(x.end.w.t, p, x.end.w.now, since) && Bare(x.end.w.t)
    ensures Continues(x, y) && y.stamps == x.stamps
    ensures y.end.w.now == x.end.w.now && y.end.w.h.emits == x.end.w.h.emits
    ensures Trying(y.end.w.t, p, y.end.w.now, Clocks(y.end.w.now, since, y.end.w.now, since, y.end.w.now, 0, 0, 0, 0))
    ensures SparesNext(Inc(y.end.w.t.slots.nextIndex))
  {
    var now := x.end.w.now;
    y := StartAttempt(x, p, since);
    if !SparesNext(Inc(y.end.w.t.slots.nextIndex)) {
      OneOfTwoSpares(Inc(y.end.w.t.slots.nextIndex));
      y := RestartAttempt(y, p, Clocks(now, since, now, since, now, 0, 0, 0, 0));
    }
  }

  lemma {:induction false} ResendOnce(x: Trace, p: nat, since: nat, now: nat) returns (y: Trace)
    requires Holds(x) && now == x.end.w.now + REKEY_TIMEOUT && x.end.w.now <= since + 400 * SEC
    requires Trying(x.end.w.t, p, x.end.w.now, Clocks(x.end.w.now, since, x.end.w.now, since, x.end.w.now, 0, 0, 0, 0))
    ensures Continues(x, y) && y.stamps == x.stamps
    ensures y.end.w.now == now && y.end.w.h.emits == x.end.w.h.emits + [now]
    ensures Trying(y.end.w.t, p, now, Clocks(now, since, x.end.w.now, since, now, 0, 0, 0, 0))
    ensures y.end.w.t.slots.nextIndex == Inc(x.end.w.t.slots.nextIndex)
  {
    NextTimers(x.end.w, now);
    TryingResends(x.end.w.t, p, x.end.w.now, since, now);
    y := Calls(x, CallTimers(ROOM, Fresh(x, now)), now);
  }

  lemma {:induction false} EmitOnTime(c: Setting, at: nat) returns (x: Trace, since: nat)
    requires Sound(c) && c.p < 0x1_0000 && at < c.p * SEC
    ensures RunOf(c, x) && x.stamps + 1 < MAX_STAMPS
    ensures x.end.w.now == at + REKEY_TIMEOUT && x.end.w.h.emits == [x.end.w.now]
    ensures Trying(x.end.w.t, c.p, x.end.w.now, Clocks(x.end.w.now, since, at, since, x.end.w.now, 0, 0, 0, 0))
    ensures SparesNext(x.end.w.t.slots.nextIndex)
  {
    x, since := StayQuiet(c, at);
    x := BeginAttempt(x, c.p, since);
    x := ResendOnce(x, c.p, since, at + REKEY_TIMEOUT);
  }

  lemma {:induction false} Overtake(x: Trace, p: nat, at: nat, since: nat) returns (y: Trace)
    requires Holds(x) && x.stamps + 1 < MAX_STAMPS && SparesNext(x.end.w.t.slots.nextIndex)
    requires Trying(x.end.w.t, p, x.end.w.now, Clocks(x.end.w.now, since, at, since, x.end.w.now, 0, 0, 0, 0))
    ensures Continues(x, y)
    ensures y.end.w.now == x.end.w.now && y.end.w.h.emits == x.end.w.h.emits
    ensures Overtaken(y.end.w.t, p, y.end.w.now, at)
  {
    var e;
    y, e := PeerCalls(x);
    NextGotInit(x.end.w, x.end.w.now, e);
    TryingIsOvertaken(x.end.w.t, p, at, since, x.end.w.now, e);
  }

  lemma {:induction false} EmitEarly(x: Trace, p: nat, at: nat, now: nat) returns (y: Trace)
    requires Holds(x) && Overtaken(x.end.w.t, p, x.end.w.now, at) && 0 < p
    requires p * SEC <= now && x.end.w.now <= now < x.end.w.now + REKEY_TIMEOUT
    ensures Continues(x, y) && y.end.w.h.emits == x.end.w.h.emits + [now]
  {
    NextTimers(x.end.w, now);
    OvertakenEmits(x.end.w.t, p, at, x.end.w.now, now);
    y := Calls(x, CallTimers(ROOM, Fresh(x, now)), now);
  }

  /** Two emissions as close as one likes, for every persistent keepalive p (16 bits in the source).
      The peer's initiations keep the tunnel going until shortly before the keepalive is due, with a
      last pause in which all sessions die of age.  An attempt begins and is resent at `on`; then the
      peer's initiation is answered, which does not make its session the one in use, so the keepalive
      finds no session and starts a handshake. */
  lemma {:induction false} KeepaliveBreaksSpacing(c: Setting, on: nat, again: nat) returns (x: Trace)
    requires Sound(c) && 0 < c.p < 0x1_0000 && REKEY_TIMEOUT <= on < c.p * SEC + REKEY_TIMEOUT
    requires c.p * SEC <= again && on <= again < on + REKEY_TIMEOUT
    ensures RunOf(c, x) && x.end.w.h.emits == [on, again]
  {
    var since;
    x, since := EmitOnTime(c, on - REKEY_TIMEOUT);
    x := Overtake(x, c.p, on - REKEY_TIMEOUT, since);
    x := EmitEarly(x, c.p, on - REKEY_TIMEOUT, again);
  }

  // ----- A late refusal breaks the spacing -----

  /** An initiator, established at time 0, that has sent no data yet. */
  predicate Established(t: Tunn, now: nat) {
    && WellFormed(t) && t.isInitiator && !t.hasCookie
    && t.slots.state.Free? && CurrentSession(t).Some?
    && t.clocks.current == now && t.clocks.established == t.clocks.received == 0
    && t.clocks.dataSent == t.clocks.dataReceived == 0
    && forall i | 0 <= i < N_SESSIONS :: t.sessionTimers[i] == 0
  }

  /** An initiator whose data, sent at 1 second, was not answered. */
  predicate Waiting(t: Tunn, hybrid: bool, now: nat) {
    && WellFormed(t) && t.isInitiator && !t.hasCookie && t.wantHandshake && t.hybrid == hybrid
    && !t.slots.state.Expired?
    && t.clocks.current == now && t.clocks.established == t.clocks.received == 0
    && t.clocks.dataSent == SEC && t.clocks.dataReceived == 0
  }

  lemma {:induction false} StartsAndEstablishes(
    hybrid: bool, index: nat, p: nat, peer: nat, rk: Terms.Term, sk: Terms.Term)
    ensures
      var t := FormatInitiation(TunnelSpec.New(hybrid, index, p), false, 0, ROOM).0;
      && IsAwaited(t.slots, t.slots.nextIndex)
      && var t' := ResponseAccepted(t, t.slots.nextIndex, peer, rk, sk).0;
         t'.hybrid == hybrid && Established(t', 0)
  {
  }

  lemma {:induction false} EstablishedTicks(t: Tunn)
    requires Established(t, 0) && Past(t, SEC)
    ensures
      var (t', r) := UpdateTimers(t, SEC, ROOM);
      !r.SendInit? && Established(t', SEC) && t'.hybrid == t.hybrid
  {
  }

  lemma {:induction false} EstablishedSends(t: Tunn)
    requires Established(t, SEC)
    ensures
      var t' := Encapsulate(t, [0], SEC, ROOM).0;
      Waiting(t', t.hybrid, SEC) && t'.slots.state.Free?
  {
  }

  lemma {:induction false} WaitingEmits(t: Tunn, hybrid: bool, since: nat, now: nat)
    requires Waiting(t, hybrid, since) && Past(t, now) && !t.slots.state.InitSent?
    requires 16 * SEC <= now < REKEY_AFTER_TIME
    ensures
      var (t', r) := UpdateTimers(t, now, ROOM);
      r.SendInit? && Waiting(t', hybrid, now)
  {
  }

  /** A handshake at time 0, answered at once. */
  lemma {:induction false} Establish(c: Setting) returns (x: Trace)
    requires Sound(c)
    ensures RunOf(c, x) && x.stamps == 0
    ensures x.end.w.now == 0 && x.end.w.h.emits == [] && Established(x.end.w.t, 0) && x.end.w.t.hybrid == c.hybrid
  {
    x := BeginHolds(c);
    var draw := Fresh(x, 0);
    NextHandshake(x.end.w, 0, false);
    BeginInitiates(c.params, c.hybrid, c.index, c.p, draw);
    x := Calls(x, CallHandshake(false, ROOM, draw), 0);
    var w, e := x.end.w, SetKey;
    x, e := PeerAnswers(x, w.t.slots.nextIndex, draw, 0);
    StartsAndEstablishes(c.hybrid, c.index, c.p, e.peer, e.receivingKey, e.sendingKey);
    NextResponse(w, 0, e);
  }

  lemma {:induction false} Tick(x: Trace) returns (y: Trace)
    requires Holds(x) && x.end.w.now == 0 && Established(x.end.w.t, 0)
    ensures Continues(x, y) && y.stamps == x.stamps
    ensures y.end.w.now == SEC && y.end.w.h.emits == x.end.w.h.emits
    ensures Established(y.end.w.t, SEC) && y.end.w.t.hybrid == x.end.w.t.hybrid
  {
    NextTimers(x.end.w, SEC);
    EstablishedTicks(x.end.w.t);
    y := Calls(x, CallTimers(ROOM, Fresh(x, SEC)), SEC);
  }

  lemma {:induction false} SendOnce(x: Trace) returns (y: Trace)
    requires Holds(x) && x.end.w.now == SEC && Established(x.end.w.t, SEC)
    ensures Continues(x, y) && y.stamps == x.stamps
    ensures y.end.w.now == SEC && y.end.w.h.emits == x.end.w.h.emits
    ensures Waiting(y.end.w.t, x.end.w.t.hybrid, SEC) && y.end.w.t.slots.state.Free?
  {
    NextSend(x.end.w, SEC);
    EstablishedSends(x.end.w.t);
    y := Calls(x, CallSend([0], ROOM, Fresh(x, SEC)), SEC);
  }

  lemma {:induction false} WaitAndEmit(x: Trace, hybrid: bool, since: nat, now: nat) returns (y: Trace)
    requires Holds(x) && Waiting(x.end.w.t, hybrid, since) && !x.end.w.t.slots.state.InitSent?
    requires 16 * SEC <= now < REKEY_AFTER_TIME && x.end.w.now <= now
    ensures Continues(x, y) && y.stamps == x.stamps
    ensures y.end.w.now == now && y.end.w.h.emits == x.end.w.h.emits + [now] && Waiting(y.end.w.t, hybrid, now)
    ensures y.end.w.h.retransmissions == if InProgress(x.end.w.t.slots) then x.end.w.h.retransmissions + 1 else 0
  {
    NextTimers(x.end.w, now);
    WaitingEmits(x.end.w.t, hybrid, since, now);
    y := Calls(x, CallTimers(ROOM, Fresh(x, now)), now);
  }

  lemma {:induction false} RefuseLate(x: Trace, hybrid: bool, badKey: bool) returns (y: Trace)
    requires Holds(x) && Waiting(x.end.w.t, hybrid, x.end.w.now)
    requires x.stamps + 1 < MAX_STAMPS && if badKey then x.badKeys && hybrid else x.smallBuffers
    ensures Continues(x, y) && y.stamps == x.stamps + 1 && y.end.w.now == x.end.w.now
    ensures y.end.w.h.emits == x.end.w.h.emits && y.end.w.h.retransmissions == x.end.w.h.retransmissions
    ensures Waiting(y.end.w.t, hybrid, y.end.w.now) && !y.end.w.t.slots.state.InitSent?
    ensures !badKey ==> InProgress(y.end.w.t.slots)
  {
    NextRefusal(x.end.w, x.end.w.now, if badKey then GotInitBadKey else GotInitNoSpace);
    y := PeerIsRefused(x, badKey);
  }

  lemma {:induction false} EmitUnanswered(c: Setting) returns (x: Trace)
    requires Sound(c)
    ensures RunOf(c, x) && x.stamps == 0
    ensures x.end.w.h.emits == [16 * SEC] && x.end.w.h.retransmissions == 0
    ensures Waiting(x.end.w.t, c.hybrid, x.end.w.now) && x.end.w.now == 16 * SEC
  {
    x := Establish(c);
    x := Tick(x);
    x := SendOnce(x);
    x := WaitAndEmit(x, c.hybrid, SEC, 16 * SEC);
  }

  /** Two emissions a quarter of a second apart, whatever the keepalive: the attempt begun at 16
      seconds is lost to the refused initiation, which does not count as received. */
  lemma {:induction false} LateRefusalBreaksSpacing(c: Setting, badKey: bool) returns (x: Trace)
    requires Sound(c) && if badKey then c.badKeys && c.hybrid else c.smallBuffers
    ensures RunOf(c, x) && x.end.w.h.emits == [16 * SEC, 16 * SEC + SEC / 4]
  {
    x := EmitUnanswered(c);
    x := RefuseLate(x, c.hybrid, badKey);
    x := WaitAndEmit(x, c.hybrid, 16 * SEC, 16 * SEC + SEC / 4);
  }

  lemma {:induction false} ResendAfterRefusal(x: Trace, hybrid: bool) returns (y: Trace)
    requires Holds(x) && Waiting(x.end.w.t, hybrid, x.end.w.now) && x.end.w.now == 16 * SEC
    requires x.stamps + 1 < MAX_STAMPS && x.smallBuffers
    ensures Continues(x, y) && y.stamps == x.stamps + 1
    ensures Waiting(y.end.w.t, hybrid, y.end.w.now) && y.end.w.now == 16 * SEC
    ensures y.end.w.h.retransmissions == x.end.w.h.retransmissions + 1
  {
    y := RefuseLate(x, hybrid, false);
    y := WaitAndEmit(y, hybrid, 16 * SEC, 16 * SEC);
  }

  /** One attempt with any number k of timer-driven resends (up to the timestamps the peer has):
      each follows an initiation of the peer that was stored but, for want of space, not answered. */
  lemma {:induction false} SmallBufferBreaksBound(c: Setting, k: nat) returns (x: Trace)
    requires Sound(c) && c.smallBuffers && k < MAX_STAMPS - 1
    ensures RunOf(c, x) && x.end.w.h.retransmissions == k
  {
    x := EmitUnanswered(c);
    var i := 0;
    while i < k
      invariant i <= k && RunOf(c, x) && x.stamps == i && x.end.w.h.retransmissions == i
      invariant Waiting(x.end.w.t, c.hybrid, x.end.w.now) && x.end.w.now == 16 * SEC
    {
      x := ResendAfterRefusal(x, c.hybrid);
      i := i + 1;
    }
  }

  // ----- Exactly when spacing and bound hold -----

  /** In every run of calls and messages that the flags allow, emissions are spaced. */
  ghost predicate AlwaysSpaced(start: Live, smallBuffers: bool, badKeys: bool)
    requires Alive(start) && start.w.now == 0
  {
    forall inputs: seq<Timed<Input>> | InOrder(inputs) && AllAllowed(inputs, smallBuffers, badKeys) ::
      Spaced(LiveRun(start, inputs).w.h.emits)
  }

  lemma {:induction false} FoundClose(c: Setting, x: Trace)
    requires RunOf(c, x) && !Spaced(x.end.w.h.emits)
    ensures Alive(First(c)) && !AlwaysSpaced(First(c), c.smallBuffers, c.badKeys)
  {
    LiveLeadsTo(x.start, x.inputs, x.end);
  }

  /** Emissions are always spaced if and only if persistent keepalive is off, no reply buffer is too
      small, and no malformed key comes to a tunnel that knows hybrid messages. */
  lemma {:induction false} SpacingIff(c: Setting)
    requires Sound(c) && c.p < 0x1_0000
    ensures Alive(First(c))
    ensures AlwaysSpaced(First(c), c.smallBuffers, c.badKeys)
         <==> c.p == 0 && !c.smallBuffers && !(c.badKeys && c.hybrid)
  {
    BeginIsAlive(c.params, c.hybrid, c.index, c.p);
    if 0 < c.p {
      var on := c.p * SEC + REKEY_TIMEOUT - 1;
      var x := KeepaliveBreaksSpacing(c, on, on);
      assert x.end.w.h.emits[1] < x.end.w.h.emits[0] + REKEY_TIMEOUT;
      FoundClose(c, x);
    } else if c.smallBuffers || (c.badKeys && c.hybrid) {
      var x := LateRefusalBreaksSpacing(c, !c.smallBuffers);
      assert x.end.w.h.emits[1] < x.end.w.h.emits[0] + REKEY_TIMEOUT;
      FoundClose(c, x);
    } else {
      forall inputs: seq<Timed<Input>> | InOrder(inputs) && AllAllowed(inputs, c.smallBuffers, c.badKeys)
        ensures Spaced(LiveRun(First(c), inputs).w.h.emits)
      {
        AllowsMore(inputs, c.smallBuffers, c.badKeys);
        MessagesArePaced(c.params, c.hybrid, c.index, c.p, inputs);
      }
    }
  }

  /** In every run of calls and messages that the flags allow, no attempt has more resends. */
  ghost predicate AlwaysBounded(start: Live, smallBuffers: bool, badKeys: bool)
    requires Alive(start) && start.w.now == 0
  {
    forall inputs: seq<Timed<Input>> | InOrder(inputs) && AllAllowed(inputs, smallBuffers, badKeys) ::
      LiveRun(start, inputs).w.h.retransmissions <= MAX_RESENDS
  }

  lemma {:induction false} FoundMore(c: Setting, x: Trace)
    requires RunOf(c, x) && x.end.w.h.retransmissions > MAX_RESENDS
    ensures Alive(First(c)) && !AlwaysBounded(First(c), c.smallBuffers, c.badKeys)
  {
    LiveLeadsTo(x.start, x.inputs, x.end);
  }

  /** An attempt never has more than 17 resends if and only if no reply buffer is too small; malformed
      keys do not matter. */
  lemma {:induction false} BoundIff(c: Setting)
    requires Sound(c)
    ensures Alive(First(c))
    ensures AlwaysBounded(First(c), c.smallBuffers, c.badKeys) <==> !c.smallBuffers
  {
    BeginIsAlive(c.params, c.hybrid, c.index, c.p);
    if c.smallBuffers {
      var x := SmallBufferBreaksBound(c, MAX_RESENDS + 1);
      FoundMore(c, x);
    } else {
      forall inputs: seq<Timed<Input>> | InOrder(inputs) && AllAllowed(inputs, c.smallBuffers, c.badKeys)
        ensures LiveRun(First(c), inputs).w.h.retransmissions <= MAX_RESENDS
      {
        AllowsMore(inputs, c.smallBuffers, c.badKeys);
        MessagesArePaced(c.params, c.hybrid, c.index, c.p, inputs);
      }
    }
  }
}

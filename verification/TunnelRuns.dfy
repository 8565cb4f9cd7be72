/** Whole runs of one tunnel: any calls in any order at nondecreasing times.  A history beside
    the tunnel counts issued indices and remembers when sessions were installed and when the
    timers emitted initiations. */
module TunnelRuns {
  import opened Wrappers
  import opened Terms
  import opened HandshakeSlots
  import opened LocalIndex
  import opened TunnelSpec
  import HandshakeSpec
  import ReplayWindow
  import Session

  /** A call on the tunnel.  Whether a handshake message is accepted is up to the cryptography;
      refused messages change nothing and need no event. */
  datatype Event =
    | Timers(dstLen: nat)
    | Send(src: Bytes, dstLen: nat)
    | Flush(dstLen: nat)
    | Handshake(force: bool, dstLen: nat)
    | GotInit(peer: nat, receivingKey: Term, sendingKey: Term)
    | GotInitNoSpace                       // stored, but the reply buffer was too small
    | GotInitBadKey                        // index issued, but the encapsulation key was malformed
    | GotResponse(index: nat, peer: nat, receivingKey: Term, sendingKey: Term)
    | GotCookie
    | GotData(packet: Session.Packet)
    | SetKey

  function Apply(t: Tunn, e: Event, now: nat): (Tunn, Outcome)
    requires WellFormed(t) && Past(t, now)
  {
    match e
    case Timers(dstLen) => UpdateTimers(t, now, dstLen)
    case Send(src, dstLen) => Encapsulate(t, src, now, dstLen)
    case Flush(dstLen) => SendQueued(t, now, dstLen)
    case Handshake(force, dstLen) => FormatInitiation(t, force, now, dstLen)
    case GotInit(peer, rk, sk) => InitAccepted(t, peer, rk, sk)
    case GotInitNoSpace => (t.(slots := Store(t.slots)), Failed(DestinationBufferTooSmall))
    case GotInitBadKey => (t.(slots := Answer(t.slots)), Failed(InvalidPacket))
    case GotResponse(index, peer, rk, sk) =>
      if IsAwaited(t.slots, index) then ResponseAccepted(t, index, peer, rk, sk) else (t, Failed(UnexpectedPacket))
    case GotCookie => CookieAccepted(t)
    case GotData(packet) => DataReceived(t, packet)
    case SetKey => (SetStaticPrivate(t), Done)
  }

  datatype History = History(
    issued: nat,               // local indices issued so far
    slotIssue: seq<nat>,       // per ring slot: the issue number of the session installed there last
    installedAt: seq<nat>,     // per ring slot: when that was
    emits: seq<nat>,           // when the timers emitted initiations
    retransmissions: nat)      // timer-driven resends of the current attempt

  datatype World = World(t: Tunn, now: nat, h: History)

  /** The issue number of the outstanding initiation `index`: the newest, or the one before. */
  function IssueOf(s: Slots, issued: nat, index: nat): nat {
    if s.nextIndex == index || issued == 0 then issued else issued - 1
  }

  predicate Issues(e: Event, r: Outcome) { r.SendInit? || r.SendResponse? || e.GotInitBadKey? }

  predicate Installs(e: Event, r: Outcome) {
    r.SendResponse? || (e.GotResponse? && r.SendData?)
  }

  /** The issue number of the session that an installing step installs. */
  function InstalledIssue(w: World, e: Event): nat {
    if e.GotResponse? then IssueOf(w.t.slots, w.h.issued, e.index) else w.h.issued + 1
  }

  predicate Emits(e: Event, r: Outcome) { e.Timers? && r.SendInit? }

  function Recorded(w: World, e: Event, now: nat, r: Outcome): History
    requires |w.h.slotIssue| == N_SESSIONS && |w.h.installedAt| == N_SESSIONS
  {
    var k := InstalledIssue(w, e);
    History(
      if Issues(e, r) then w.h.issued + 1 else w.h.issued,
      if Installs(e, r) then w.h.slotIssue[k % N_SESSIONS := k] else w.h.slotIssue,
      if Installs(e, r) then w.h.installedAt[k % N_SESSIONS := now] else w.h.installedAt,
      if Emits(e, r) then w.h.emits + [now] else w.h.emits,
      if !r.SendInit? then w.h.retransmissions
      else if !InProgress(w.t.slots) then 0
      else if e.Timers? then w.h.retransmissions + 1
      else w.h.retransmissions)
  }

  predicate Ready(w: World, now: nat) {
    && WellFormed(w.t) && Past(w.t, now)
    && |w.h.slotIssue| == N_SESSIONS && |w.h.installedAt| == N_SESSIONS
  }

  /** One call, at time `now`. */
  function Step(w: World, now: nat, e: Event): World
    requires Ready(w, now)
  {
    Advanced(w, now, e, Apply(w.t, e, now))
  }

  function Advanced(w: World, now: nat, e: Event, res: (Tunn, Outcome)): World
    requires |w.h.slotIssue| == N_SESSIONS && |w.h.installedAt| == N_SESSIONS
  {
    World(res.0, now, Recorded(w, e, now, res.1))
  }

  function OutcomeOf(w: World, now: nat, e: Event): Outcome
    requires Ready(w, now)
  {
    Apply(w.t, e, now).1
  }

  function Start(hybrid: bool, index: nat, persistentKeepalive: nat): World {
    World(New(hybrid, index, persistentKeepalive), 0,
          History(0, seq(N_SESSIONS, _ => 0), seq(N_SESSIONS, _ => 0), [], 0))
  }

  // ----- What one call does, in the terms the invariants use -----

  /** The current time is the newest reading, nothing is timed after it, the queue is bounded. */
  predicate Timely(t: Tunn, now: nat) {
    && WellFormed(t)
    && ClocksPast(t.clocks, t.clocks.current) && t.clocks.current <= now
    && TimersPast(t, t.clocks.current)
    && SlotPast(t.slots.state, now) && SlotPast(t.slots.previous, now)
    && |t.queue| <= MAX_QUEUE_DEPTH
  }

  /** No timer ever moves back. */
  predicate ClocksLater(c: Clocks, d: Clocks) {
    && c.current <= d.current && c.established <= d.established && c.started <= d.started
    && c.received <= d.received && c.sent <= d.sent
  }

  predicate SameSession(a: Option<Session.State>, b: Option<Session.State>) {
    && a.Some? && b.Some? && a.value.receivingIndex == b.value.receivingIndex
    && (ReplayWindow.Coherent(a.value.window) ==> ReplayWindow.Coherent(b.value.window))
  }

  /** Sessions are dropped or stay in their slot with their timer. */
  predicate RingKept(t: Tunn, t': Tunn)
    requires WellFormed(t) && WellFormed(t')
  {
    forall i | 0 <= i < N_SESSIONS :: t'.sessions[i].Some? ==>
      SameSession(t.sessions[i], t'.sessions[i]) && t'.sessionTimers[i] == t.sessionTimers[i]
  }

  /** The common part of every call. */
  predicate Moves(t: Tunn, now: nat, t': Tunn) {
    && Timely(t', now)
    && ClocksLater(t.clocks, t'.clocks)
    && t'.persistentKeepalive == t.persistentKeepalive && t'.hybrid == t.hybrid
  }

  /** A call that neither issues an index nor changes the handshake slots. */
  predicate Plain(t: Tunn, now: nat, t': Tunn) {
    && Moves(t, now, t') && WellFormed(t) && RingKept(t, t') && t'.slots == t.slots
    && (InProgress(t.slots) ==> t'.clocks.started == t.clocks.started)
  }

  /** A call that sends an initiation: a new attempt starts its clock, a resend does not. */
  predicate Initiates(t: Tunn, now: nat, t': Tunn) {
    && Moves(t, now, t') && WellFormed(t) && RingKept(t, t')
    && t'.slots == Initiate(t.slots, now)
    && (InProgress(t.slots) ==> t'.clocks.started == t.clocks.started)
    && t'.clocks.sent == t'.clocks.current
  }

  /** A call that installs the session of local index `index`. */
  predicate InstallsIn(t: Tunn, now: nat, t': Tunn, index: nat) {
    && Moves(t, now, t') && WellFormed(t)
    && t'.clocks.established == t'.clocks.received == t.clocks.current
    && t'.clocks.started == t.clocks.started
    && t'.sessionTimers[index % N_SESSIONS] == t.clocks.current
    && t'.sessions[index % N_SESSIONS].Some?
    && t'.sessions[index % N_SESSIONS].value.receivingIndex == index
    && ReplayWindow.Coherent(t'.sessions[index % N_SESSIONS].value.window)
    && forall i | 0 <= i < N_SESSIONS && i != index % N_SESSIONS ::
         t'.sessions[i] == t.sessions[i] && t'.sessionTimers[i] == t.sessionTimers[i]
  }

  /** The attempt or the connection was given up. */
  predicate GivesUp(t: Tunn, now: nat, t': Tunn) {
    && Moves(t, now, t')
    && t'.slots == Expire(t.slots)
    && forall i | 0 <= i < N_SESSIONS :: t'.sessions[i].None?
  }

  predicate FreshEnough(t: Tunn, now: nat)
    requires WellFormed(t)
  {
    forall i | 0 <= i < N_SESSIONS :: t.sessions[i].Some? ==> now <= t.sessionTimers[i] + REJECT_AFTER_TIME
  }

  lemma {:induction false} TimelyLater(t: Tunn, now: nat, later: nat)
    requires Timely(t, now) && now <= later
    ensures Timely(t, later) && Past(t, later)
  {
  }

  lemma {:induction false} TickSentIsPlain(t: Tunn, now: nat)
    requires Timely(t, now)
    ensures Plain(t, now, TickSent(t))
  {
  }

  lemma {:induction false} TickReceivedIsPlain(t: Tunn, now: nat)
    requires Timely(t, now)
    ensures Plain(t, now, TickReceived(t))
  {
  }

  lemma {:induction false} TickDataSentIsPlain(t: Tunn, now: nat)
    requires Timely(t, now)
    ensures Plain(t, now, TickDataSent(t))
  {
  }

  lemma {:induction false} TickDataReceivedIsPlain(t: Tunn, now: nat)
    requires Timely(t, now)
    ensures Plain(t, now, TickDataReceived(t))
  {
  }

  lemma {:induction false} TickCookieIsPlain(t: Tunn, now: nat)
    requires Timely(t, now)
    ensures Plain(t, now, TickCookie(t))
  {
  }

  lemma {:induction false} TickKeepaliveIsPlain(t: Tunn, now: nat)
    requires Timely(t, now)
    ensures Plain(t, now, TickKeepalive(t))
  {
  }

  lemma {:induction false} ClearTimersIsPlain(t: Tunn, now: nat)
    requires Timely(t, now) && !InProgress(t.slots)
    ensures Plain(t, now, ClearTimers(t, now))
  {
  }

  lemma {:induction false} PlainThenPlain(t: Tunn, now: nat, t1: Tunn, t2: Tunn)
    requires Plain(t, now, t1) && Plain(t1, now, t2)
    ensures Plain(t, now, t2)
  {
  }

  /** Resending an outstanding initiation. */
  lemma {:induction false} ResendEffect(t: Tunn, now: nat)
    requires Timely(t, now) && InProgress(t.slots)
    ensures Initiates(t, now, TickSent(t.(slots := Initiate(t.slots, now))))
  {
    TickSentIsPlain(t.(slots := Initiate(t.slots, now)), now);
  }

  /** Starting a new attempt. */
  lemma {:induction false} StartEffect(t: Tunn, now: nat)
    requires Timely(t, now) && !InProgress(t.slots)
    ensures Initiates(t, now, TickSent(TickStarted(t.(slots := Initiate(t.slots, now)))))
  {
    var t1 := TickStarted(t.(slots := Initiate(t.slots, now)));
    assert Timely(t1, now);
    TickSentIsPlain(t1, now);
  }

  lemma {:induction false} RestartEffect(t: Tunn, now: nat)
    requires Timely(t, now) && t.slots.state.Expired?
    ensures Initiates(t, now, TickSent(TickStarted(ClearTimers(t, now).(slots := Initiate(t.slots, now)))))
  {
    ClearTimersIsPlain(t, now);
    StartEffect(ClearTimers(t, now), now);
  }

  /** Asking for an initiation sends one. */
  predicate Sends(t: Tunn, force: bool, dstLen: nat) {
    (force || !InProgress(t.slots)) && dstLen >= HandshakeSpec.InitSize(t.hybrid)
  }

  lemma {:induction false} FormatSends(t: Tunn, force: bool, now: nat, dstLen: nat)
    requires Timely(t, now) && Sends(t, force, dstLen)
    ensures FormatInitiation(t, force, now, dstLen).1
         == SendInit(FormatInitiation(t, force, now, dstLen).0.slots.nextIndex)
    ensures Initiates(t, now, FormatInitiation(t, force, now, dstLen).0)
  {
    if t.slots.state.Expired? {
      RestartEffect(t, now);
    } else if InProgress(t.slots) {
      ResendEffect(t, now);
    } else {
      StartEffect(t, now);
    }
  }

  lemma {:induction false} FormatHolds(t: Tunn, force: bool, now: nat, dstLen: nat)
    requires Timely(t, now) && !Sends(t, force, dstLen)
    ensures !FormatInitiation(t, force, now, dstLen).1.SendInit?
    ensures Plain(t, now, FormatInitiation(t, force, now, dstLen).0)
  {
    if !InProgress(t.slots) {
      ClearTimersIsPlain(t, now);
    }
  }

  /** The outcome of a call that may send an initiation and does nothing else to the slots. */
  predicate MaySend(t: Tunn, now: nat, t': Tunn, r: Outcome) {
    !r.SendResponse?
    && if r.SendInit? then Initiates(t, now, t') && r.index == t'.slots.nextIndex else Plain(t, now, t')
  }

  lemma {:induction false} PlainThenMaySend(t: Tunn, now: nat, t1: Tunn, t2: Tunn, r: Outcome)
    requires Plain(t, now, t1) && MaySend(t1, now, t2, r)
    ensures MaySend(t, now, t2, r)
  {
  }

  lemma {:induction false} FormatEffect(t: Tunn, force: bool, now: nat, dstLen: nat)
    requires Timely(t, now)
    ensures
      var (t', r) := FormatInitiation(t, force, now, dstLen);
      MaySend(t, now, t', r) && (r.SendInit? <==> Sends(t, force, dstLen))
  {
    if Sends(t, force, dstLen) {
      FormatSends(t, force, now, dstLen);
    } else {
      FormatHolds(t, force, now, dstLen);
    }
  }

  lemma {:induction false} QueueIsPlain(t: Tunn, src: Bytes, now: nat)
    requires Timely(t, now)
    ensures Plain(t, now, QueuePacket(t, src))
  {
  }

  lemma {:induction false} RequeueIsPlain(t: Tunn, src: Bytes, now: nat)
    requires Timely(t, now)
    ensures Plain(t, now, RequeuePacket(t, src))
  {
  }

  lemma {:induction false} SealIsPlain(t: Tunn, src: Bytes, now: nat)
    requires Timely(t, now) && CurrentSession(t).Some?
    ensures Plain(t, now, SealCurrent(t, src).0)
  {
    var s := Session.SealPacket(CurrentSession(t).value, src).0;
    var t0 := t.(sessions := t.sessions[t.current % N_SESSIONS := Some(s)]);
    assert Plain(t, now, t0);
    TickSentIsPlain(t0, now);
    PlainThenPlain(t, now, t0, TickSent(t0));
    TickDataSentIsPlain(TickSent(t0), now);
    PlainThenPlain(t, now, TickSent(t0), TickDataSent(TickSent(t0)));
  }

  lemma {:induction false} EncapsulateEffect(t: Tunn, src: Bytes, now: nat, dstLen: nat)
    requires Timely(t, now)
    ensures
      var (t', r) := Encapsulate(t, src, now, dstLen);
      MaySend(t, now, t', r) && (r.SendInit? ==> CurrentSession(t).None? && !InProgress(t.slots))
  {
    if CurrentSession(t).Some? {
      SealIsPlain(t, src, now);
    } else {
      var t1 := QueuePacket(t, src);
      QueueIsPlain(t, src, now);
      FormatEffect(t1, false, now, dstLen);
      var (t2, r) := FormatInitiation(t1, false, now, dstLen);
      PlainThenMaySend(t, now, t1, t2, r);
    }
  }

  lemma {:induction false} FlushEffect(t: Tunn, now: nat, dstLen: nat)
    requires Timely(t, now)
    ensures
      var (t', r) := SendQueued(t, now, dstLen);
      MaySend(t, now, t', r)
  {
    if t.queue != [] {
      var t1 := t.(queue := t.queue[1..]);
      assert Plain(t, now, t1);
      EncapsulateEffect(t1, t.queue[0], now, dstLen);
      var (t2, r) := Encapsulate(t1, t.queue[0], now, dstLen);
      PlainThenMaySend(t, now, t1, t2, r);
      if r.Failed? {
        RequeueIsPlain(t2, t.queue[0], now);
        PlainThenPlain(t, now, t2, RequeuePacket(t2, t.queue[0]));
      }
    }
  }

  // ----- The periodic call -----

  /** When the timers may emit an initiation. */
  predicate Due(t: Tunn, now: nat) {
    var c := t.clocks;
    if t.slots.state.InitSent?
    then t.slots.state.timeSent + REKEY_TIMEOUT <= now && now < c.started + REKEY_ATTEMPT_TIME
    else || c.established + REKEY_AFTER_TIME <= now
         || c.received + KEEPALIVE_TIMEOUT + REKEY_TIMEOUT <= now
         || c.sent + KEEPALIVE_TIMEOUT <= now
         || t.persistentKeepalive > 0
  }

  lemma {:induction false} WantsArePlain(t: Tunn, now: nat, wantHandshake: bool, wantKeepalive: bool)
    requires Timely(t, now)
    ensures Plain(t, now, t.(wantHandshake := wantHandshake).(wantKeepalive := wantKeepalive))
  {
  }

  lemma {:induction false} MaintainRekeys(t: Tunn, now: nat, dstLen: nat)
    requires Timely(t, now) && !t.slots.state.InitSent?
    requires RekeyDue(t, now) || (Unanswered(t, now) && t.wantHandshake)
    ensures
      var (t', r) := Maintain(t, now, dstLen);
      MaySend(t, now, t', r) && Due(t, now)
  {
    var t1 := if Unanswered(t, now) then t.(wantHandshake := false) else t;
    WantsArePlain(t, now, t1.wantHandshake, t1.wantKeepalive);
    assert Plain(t, now, t1);
    FormatEffect(t1, true, now, dstLen);
    var (t2, r) := FormatInitiation(t1, true, now, dstLen);
    PlainThenMaySend(t, now, t1, t2, r);
  }

  lemma {:induction false} MaintainKeepsAlive(t: Tunn, now: nat, dstLen: nat)
    requires Timely(t, now) && !t.slots.state.InitSent?
    requires !RekeyDue(t, now) && !(Unanswered(t, now) && t.wantHandshake)
    ensures
      var (t', r) := Maintain(t, now, dstLen);
      MaySend(t, now, t', r) && (r.SendInit? ==> Due(t, now))
  {
    var t1 := if Unanswered(t, now) then t.(wantHandshake := false) else t;
    var t2 := if Unacknowledged(t, now) then t1.(wantKeepalive := false) else t1;
    WantsArePlain(t, now, t2.wantHandshake, t2.wantKeepalive);
    assert Plain(t, now, t2);
    TickKeepaliveIsPlain(t2, now);
    var t3 := if PersistentDue(t, now) then TickKeepalive(t2) else t2;
    PlainThenPlain(t, now, t2, TickKeepalive(t2));
    assert Plain(t, now, t3);
    EncapsulateEffect(t3, [], now, dstLen);
    var (t4, r) := Encapsulate(t3, [], now, dstLen);
    PlainThenMaySend(t, now, t3, t4, r);
  }

  lemma {:induction false} DropIsPlain(t: Tunn, now: nat)
    requires Timely(t, now)
    ensures Plain(t, now, Refreshed(t, now))
    ensures FreshEnough(Refreshed(t, now), now)
  {
  }

  /** What is left of the tunnel once expired sessions and cookies are gone. */
  function Swept(t: Tunn, now: nat): Tunn
    requires Timely(t, now)
  {
    var t1 := Refreshed(t, now);
    if t1.slots.state.Expired? || !t1.hasCookie || now - t1.clocks.cookie < COOKIE_EXPIRATION_TIME
    then t1 else t1.(hasCookie := false)
  }

  lemma {:induction false} SweptIsPlain(t: Tunn, now: nat)
    requires Timely(t, now)
    ensures Plain(t, now, Swept(t, now)) && FreshEnough(Swept(t, now), now)
    ensures Swept(t, now).clocks == t.clocks.(current := now)
  {
    DropIsPlain(t, now);
    var t1 := Refreshed(t, now);
    assert Plain(t1, now, t1.(hasCookie := false));
    PlainThenPlain(t, now, t1, t1.(hasCookie := false));
  }

  lemma {:induction false} FreshStays(t: Tunn, now: nat, t': Tunn)
    requires WellFormed(t) && WellFormed(t') && FreshEnough(t, now) && RingKept(t, t')
    ensures FreshEnough(t', now)
  {
  }

  lemma {:induction false} DeadEffect(t: Tunn, now: nat)
    requires Timely(t, now)
    ensures GivesUp(t, now, ClearAll(t.(slots := Expire(t.slots)), now))
  {
  }

  /** One periodic call: it gives up, or it does at most send an initiation that is due; no
      session older than REJECT_AFTER_TIME is left. */
  predicate TimersEffect(t: Tunn, now: nat, t': Tunn, r: Outcome) {
    && WellFormed(t') && FreshEnough(t', now)
    && t'.clocks.current == now
    && !r.SendResponse?
    && (|| (GivesUp(t, now, t') && !t.slots.state.Expired? && !r.SendInit?)
        || (MaySend(t, now, t', r) && (r.SendInit? ==> Due(t, now) && !t.slots.state.Expired?)))
  }

  lemma {:induction false} SweptThenMaySend(t: Tunn, now: nat, t': Tunn, r: Outcome)
    requires Timely(t, now) && MaySend(Swept(t, now), now, t', r)
    requires r.SendInit? ==> Due(Swept(t, now), now) && !Swept(t, now).slots.state.Expired?
    ensures TimersEffect(t, now, t', r)
  {
    SweptIsPlain(t, now);
    PlainThenMaySend(t, now, Swept(t, now), t', r);
    FreshStays(Swept(t, now), now, t');
  }

  lemma {:induction false} UpdateEffect(t: Tunn, now: nat, dstLen: nat)
    requires Timely(t, now)
    ensures Past(t, now)
    ensures
      var (t', r) := UpdateTimers(t, now, dstLen);
      TimersEffect(t, now, t', r)
  {
    TimelyLater(t, now, now);
    SweptIsPlain(t, now);
    var t2 := Swept(t, now);
    if t2.slots.state.Expired? {
      UpdateWhenExpired(t, now, dstLen);
    } else if ConnectionDead(t2, now) {
      UpdateWhenDead(t, now, dstLen);
    } else if t2.slots.state.InitSent? {
      UpdateWhenSent(t, now, dstLen);
    } else {
      UpdateOtherwise(t, now, dstLen);
    }
  }

  lemma {:induction false} UpdateWhenExpired(t: Tunn, now: nat, dstLen: nat)
    requires Timely(t, now) && Past(t, now) && t.slots.state.Expired?
    ensures
      var (t', r) := UpdateTimers(t, now, dstLen);
      TimersEffect(t, now, t', r)
  {
    SweptIsPlain(t, now);
    SweptThenMaySend(t, now, Swept(t, now), Failed(ConnectionExpired));
  }

  lemma {:induction false} UpdateWhenDead(t: Tunn, now: nat, dstLen: nat)
    requires Timely(t, now) && Past(t, now) && !t.slots.state.Expired? && ConnectionDead(t, now)
    ensures
      var (t', r) := UpdateTimers(t, now, dstLen);
      TimersEffect(t, now, t', r)
  {
    SweptIsPlain(t, now);
    DeadEffect(Swept(t, now), now);
  }

  lemma {:induction false} UpdateWhenSent(t: Tunn, now: nat, dstLen: nat)
    requires Timely(t, now) && Past(t, now) && t.slots.state.InitSent? && !ConnectionDead(t, now)
    ensures
      var (t', r) := UpdateTimers(t, now, dstLen);
      TimersEffect(t, now, t', r)
  {
    var t2 := Swept(t, now);
    SweptIsPlain(t, now);
    if now - t2.slots.state.timeSent >= REKEY_TIMEOUT {
      FormatEffect(t2, true, now, dstLen);
      var (t3, r) := FormatInitiation(t2, true, now, dstLen);
      SweptThenMaySend(t, now, t3, r);
    } else {
      SweptThenMaySend(t, now, t2, Done);
    }
  }

  lemma {:induction false} UpdateOtherwise(t: Tunn, now: nat, dstLen: nat)
    requires Timely(t, now) && Past(t, now) && !t.slots.state.Expired?
    requires !ConnectionDead(t, now) && !t.slots.state.InitSent?
    ensures
      var (t', r) := UpdateTimers(t, now, dstLen);
      TimersEffect(t, now, t', r)
  {
    var t2 := Swept(t, now);
    SweptIsPlain(t, now);
    if RekeyDue(t2, now) || (Unanswered(t2, now) && t2.wantHandshake) {
      MaintainRekeys(t2, now, dstLen);
    } else {
      MaintainKeepsAlive(t2, now, dstLen);
    }
    var (t3, r) := Maintain(t2, now, dstLen);
    SweptThenMaySend(t, now, t3, r);
  }

  // ----- Receiving -----

  lemma {:induction false} TickEstablishedInstalls(
    t: Tunn, now: nat, isInitiator: bool, index: nat, s: Session.State, slots: Slots)
    requires Timely(t, now) && s.receivingIndex == index && ReplayWindow.Coherent(s.window)
    requires SlotPast(slots.state, now) && SlotPast(slots.previous, now)
    ensures
      var t1 := TickReceived(t.(slots := slots, sessions := t.sessions[index % N_SESSIONS := Some(s)]));
      InstallsIn(t, now, TickEstablished(t1, isInitiator, index), index)
  {
  }

  lemma {:induction false} InstallThenPlain(t: Tunn, now: nat, t1: Tunn, t2: Tunn, index: nat)
    requires InstallsIn(t, now, t1, index) && Timely(t2, now) && ClocksLater(t1.clocks, t2.clocks)
    requires t2.sessions == t1.sessions && t2.sessionTimers == t1.sessionTimers
    requires t2.clocks.established == t1.clocks.established && t2.clocks.received == t1.clocks.received
    requires t2.clocks.started == t1.clocks.started
    requires t2.persistentKeepalive == t1.persistentKeepalive && t2.hybrid == t1.hybrid
    ensures InstallsIn(t, now, t2, index)
  {
  }

  lemma {:induction false} InstallThenSetCurrent(t: Tunn, now: nat, t1: Tunn, index: nat)
    requires InstallsIn(t, now, t1, index)
    ensures InstallsIn(t, now, SetCurrent(t1, index), index)
  {
    InstallThenPlain(t, now, t1, SetCurrent(t1, index), index);
  }

  lemma {:induction false} GotInitEffect(t: Tunn, now: nat, peer: nat, rk: Term, sk: Term)
    requires Timely(t, now)
    ensures
      var (t', r) := InitAccepted(t, peer, rk, sk);
      r == SendResponse(t'.slots.nextIndex) && t'.slots == Answer(t.slots)
      && InstallsIn(t, now, t', t'.slots.nextIndex)
  {
    var slots := Answer(t.slots);
    var index := slots.nextIndex;
    var s := Session.New(index, peer, rk, sk);
    TickEstablishedInstalls(t, now, false, index, s, slots);
    var t0 := TickReceived(t.(slots := slots, sessions := t.sessions[index % N_SESSIONS := Some(s)]));
    var t1 := TickEstablished(t0, false, index);
    var t2 := TickEstablished(TickSent(t0), false, index);
    assert t2 == TickSent(t1);
    TickSentIsPlain(t1, now);
    InstallThenPlain(t, now, t1, t2, index);
  }

  lemma {:induction false} GotResponseEffect(t: Tunn, now: nat, index: nat, peer: nat, rk: Term, sk: Term)
    requires Timely(t, now) && IsAwaited(t.slots, index)
    ensures
      var (t', r) := ResponseAccepted(t, index, peer, rk, sk);
      r.SendData? && t'.slots == Complete(t.slots, index) && InstallsIn(t, now, t', index)
  {
    var slots := Complete(t.slots, index);
    var s := Session.SealPacket(Session.New(index, peer, rk, sk), []).0;
    TickEstablishedInstalls(t, now, true, index, s, slots);
    var t0 := TickReceived(t.(slots := slots, sessions := t.sessions[index % N_SESSIONS := Some(s)]));
    assert index % N_SESSIONS % N_SESSIONS == index % N_SESSIONS;
    var t1 := TickEstablished(t0, true, index % N_SESSIONS);
    assert t1 == TickEstablished(t0, true, index);
    InstallThenSetCurrent(t, now, t1, index);
  }

  lemma {:induction false} SetCurrentIsPlain(t: Tunn, now: nat, index: nat)
    requires Timely(t, now)
    ensures Plain(t, now, SetCurrent(t, index))
  {
  }

  lemma {:induction false} GotDataEffect(t: Tunn, now: nat, packet: Session.Packet)
    requires Timely(t, now)
    ensures
      var (t', r) := DataReceived(t, packet);
      Plain(t, now, t') && !r.SendInit? && !r.SendResponse?
  {
    var slot := packet.receiverIdx % N_SESSIONS;
    if t.sessions[slot].Some? && Session.OpenPacket(t.sessions[slot].value, packet).1.Ok? {
      var s := Session.OpenPacket(t.sessions[slot].value, packet).0;
      var t0 := t.(sessions := t.sessions[slot := Some(s)]);
      assert Plain(t, now, t0);
      SetCurrentIsPlain(t0, now, packet.receiverIdx);
      var t1 := SetCurrent(t0, packet.receiverIdx);
      PlainThenPlain(t, now, t0, t1);
      TickReceivedIsPlain(t1, now);
      PlainThenPlain(t, now, t1, TickReceived(t1));
      var payload := Classify(Session.OpenPacket(t.sessions[slot].value, packet).1.value);
      ValidatedIsPlain(TickReceived(t1), now, payload);
      PlainThenPlain(t, now, TickReceived(t1), Validated(TickReceived(t1), payload).0);
    }
  }

  lemma {:induction false} ValidatedIsPlain(t: Tunn, now: nat, payload: Payload)
    requires Timely(t, now)
    ensures
      var (t', r) := Validated(t, payload);
      Plain(t, now, t') && !r.SendInit? && !r.SendResponse?
  {
    TickDataReceivedIsPlain(t, now);
  }

  lemma {:induction false} GotCookieEffect(t: Tunn, now: nat)
    requires Timely(t, now)
    ensures Plain(t, now, CookieAccepted(t).0)
  {
    var t0 := t.(hasCookie := true);
    TickReceivedIsPlain(t0, now);
    TickCookieIsPlain(TickReceived(t0), now);
    PlainThenPlain(t0, now, TickReceived(t0), TickCookie(TickReceived(t0)));
  }

  lemma {:induction false} SetKeyEffect(t: Tunn, now: nat)
    requires Timely(t, now)
    ensures Plain(t, now, SetStaticPrivate(t))
  {
  }

  /** A peer's initiation that changed the slots but made no session. */
  predicate LateRefused(t: Tunn, now: nat, t': Tunn, slots: Slots) {
    && Moves(t, now, t') && WellFormed(t) && RingKept(t, t')
    && t'.slots == slots && t'.clocks == t.clocks
  }

  /** Everything the invariants below need to know about one call. */
  predicate Effect(t: Tunn, e: Event, now: nat, t': Tunn, r: Outcome) {
    match e
    case Timers(_) => TimersEffect(t, now, t', r)
    case GotInit(_, _, _) =>
      r == SendResponse(t'.slots.nextIndex) && t'.slots == Answer(t.slots)
      && InstallsIn(t, now, t', t'.slots.nextIndex)
    case GotResponse(index, _, _, _) =>
      if IsAwaited(t.slots, index)
      then r.SendData? && t'.slots == Complete(t.slots, index) && InstallsIn(t, now, t', index)
      else r.Failed? && t' == t
    case GotInitNoSpace => r.Failed? && LateRefused(t, now, t', Store(t.slots))
    case GotInitBadKey => r.Failed? && LateRefused(t, now, t', Answer(t.slots))
    case GotCookie => r.Done? && Plain(t, now, t')
    case SetKey => r.Done? && Plain(t, now, t')
    case GotData(_) => Plain(t, now, t') && !r.SendInit? && !r.SendResponse?
    case _ => MaySend(t, now, t', r)
  }

  lemma {:induction false} ApplyEffect(t: Tunn, e: Event, now: nat)
    requires Timely(t, now)
    ensures Past(t, now)
    ensures Effect(t, e, now, Apply(t, e, now).0, Apply(t, e, now).1)
  {
    TimelyLater(t, now, now);
    match e
    case Timers(dstLen) => UpdateEffect(t, now, dstLen);
    case Send(src, dstLen) => EncapsulateEffect(t, src, now, dstLen);
    case Flush(dstLen) => FlushEffect(t, now, dstLen);
    case Handshake(force, dstLen) => FormatEffect(t, force, now, dstLen);
    case GotInit(peer, rk, sk) => GotInitEffect(t, now, peer, rk, sk);
    case GotResponse(index, peer, rk, sk) =>
      if IsAwaited(t.slots, index) {
        GotResponseEffect(t, now, index, peer, rk, sk);
      }
    case GotData(packet) => GotDataEffect(t, now, packet);
    case GotCookie => GotCookieEffect(t, now);
    case SetKey => SetKeyEffect(t, now);
    case GotInitNoSpace =>
    case GotInitBadKey =>
  }
}

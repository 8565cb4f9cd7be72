/** What the periodic call does and when, in clock readings and constants: sections 6.1 to 6.5 of the
    WireGuard whitepaper as this code keeps them. */
module TimerRules {
  import opened Clock
  import opened Wrappers
  import opened HandshakeSlots
  import opened LocalIndex
  import opened TunnelSpec
  import opened TunnelRuns
  import Session

  // ----- What the rules speak of -----

  /** Not expired, heard of within nine minutes, and not trying in vain for a minute and a half. */
  predicate Living(t: Tunn, now: nat) {
    && !t.slots.state.Expired? && now < t.clocks.established + 540 * SEC
    && (t.slots.state.InitSent? ==> now < t.clocks.started + 90 * SEC)
  }

  /** The buffer takes an initiation. */
  predicate Room(t: Tunn, dstLen: nat) { dstLen >= if t.hybrid then 1332 else 148 }

  /** The session is ours to replace: we made it as initiator, have sent data since and it is two
      minutes old, or have received data since and it is 165 seconds old. */
  predicate Stale(t: Tunn, now: nat) {
    var c := t.clocks;
    && t.isInitiator
    && ((c.dataSent > c.established && c.established + 120 * SEC <= now)
        || (c.dataReceived > c.established && c.established + 165 * SEC <= now))
  }

  /** Data was sent and nothing heard for 15 seconds. */
  predicate Unheard(t: Tunn, now: nat) {
    t.clocks.dataSent > t.clocks.received && t.clocks.received + 15 * SEC <= now
  }

  /** Data was received and nothing sent for 10 seconds. */
  predicate Unthanked(t: Tunn, now: nat) {
    t.clocks.dataReceived > t.clocks.sent && t.clocks.sent + 10 * SEC <= now
  }

  /** The persistent keepalive is due. */
  predicate KeepaliveDue(t: Tunn, now: nat) {
    t.persistentKeepalive > 0 && t.clocks.keepalive + t.persistentKeepalive * SEC <= now
  }

  /** The session in ring slot i is there and at most three minutes old. */
  predicate Young(t: Tunn, now: nat, i: nat)
    requires WellFormed(t) && i < N_SESSIONS
  {
    t.sessions[i].Some? && now <= t.sessionTimers[i] + 180 * SEC
  }

  /** The session in use is there and at most three minutes old. */
  predicate InUse(t: Tunn, now: nat)
    requires WellFormed(t)
  {
    Young(t, now, t.current % N_SESSIONS)
  }

  predicate MustInitiate(t: Tunn, now: nat) { Stale(t, now) || (Unheard(t, now) && t.wantHandshake) }

  predicate MustKeepalive(t: Tunn, now: nat) { (Unthanked(t, now) && t.wantKeepalive) || KeepaliveDue(t, now) }

  // ----- The call as far as its first half -----

  /** The tunnel once the clock is read and old sessions and an old cookie are gone. */
  function Attended(t: Tunn, now: nat): Tunn
    requires WellFormed(t) && Past(t, now)
  {
    CookieChecked(Refreshed(t, now), now)
  }

  /** Only sessions, the cookie and the current time differ. */
  lemma {:induction false} AttendedKeeps(t: Tunn, now: nat)
    requires Timely(t, now) && Past(t, now)
    ensures
      var t' := Attended(t, now);
      && WellFormed(t') && ClocksPast(t'.clocks, now)
      && t' == t.(clocks := t.clocks.(current := now), hasCookie := t'.hasCookie,
                  sessions := t'.sessions, sessionTimers := t'.sessionTimers)
  {
  }

  /** The timer of a ring slot restarts after three minutes. */
  function Kept(timer: nat, now: nat): nat { if now <= timer + 180 * SEC then timer else now }

  lemma {:induction false} AttendedDrops(t: Tunn, now: nat, i: nat)
    requires Timely(t, now) && Past(t, now) && i < N_SESSIONS
    ensures
      var t' := Attended(t, now);
      && |t'.sessions| == |t'.sessionTimers| == N_SESSIONS
      && t'.sessions[i] == (if Young(t, now, i) then t.sessions[i] else None)
      && t'.sessionTimers[i] == Kept(t.sessionTimers[i], now)
  {
  }

  lemma {:induction false} AttendedCookie(t: Tunn, now: nat)
    requires Timely(t, now) && Past(t, now)
    ensures Attended(t, now).hasCookie <==> t.hasCookie && now < t.clocks.cookie + 120 * SEC
  {
  }

  lemma {:induction false} LivingGoesOn(t: Tunn, now: nat, dstLen: nat)
    requires Timely(t, now) && Past(t, now) && Living(t, now)
    ensures
      var t' := Attended(t, now);
      && WellFormed(t') && ClocksPast(t'.clocks, now)
      && UpdateTimers(t, now, dstLen)
         == if t.slots.state.InitSent? then Retry(t', now, dstLen) else Maintain(t', now, dstLen)
  {
    AttendedKeeps(t, now);
  }

  // ----- Giving up -----

  /** A tunnel that has expired stays so; one that lives no longer is given up, and nothing is left of
      sessions, queue and handshake. */
  lemma {:induction false} GivesUpIff(t: Tunn, now: nat, dstLen: nat)
    requires Timely(t, now) && Past(t, now)
    ensures
      var (t', r) := UpdateTimers(t, now, dstLen);
      && (r == Failed(ConnectionExpired) <==> !Living(t, now))
      && (!Living(t, now) ==> t'.slots.state.Expired?)
      && (!Living(t, now) && !t.slots.state.Expired? ==>
            && t'.slots.previous.Expired? && t'.queue == [] && !t'.wantHandshake && !t'.wantKeepalive
            && t'.clocks == Clocks(now, now, now, now, now, now, now, now, now)
            && forall i | 0 <= i < N_SESSIONS :: t'.sessions[i].None?)
  {
    AttendedKeeps(t, now);
    if Living(t, now) {
      LivingGoesOn(t, now, dstLen);
      NeverConnectionExpired(Attended(t, now), now, dstLen);
    }
  }

  lemma {:induction false} FormatNeverConnectionExpired(t: Tunn, force: bool, now: nat, dstLen: nat)
    ensures FormatInitiation(t, force, now, dstLen).1 != Failed(ConnectionExpired)
  {
  }

  lemma {:induction false} NeverConnectionExpired(t: Tunn, now: nat, dstLen: nat)
    requires WellFormed(t) && ClocksPast(t.clocks, now) && SlotPast(t.slots.state, now)
    ensures t.slots.state.InitSent? ==> Retry(t, now, dstLen).1 != Failed(ConnectionExpired)
    ensures Maintain(t, now, dstLen).1 != Failed(ConnectionExpired)
  {
    forall t1: Tunn, force: bool
      ensures FormatInitiation(t1, force, now, dstLen).1 != Failed(ConnectionExpired)
    {
      FormatNeverConnectionExpired(t1, force, now, dstLen);
    }
  }

  // ----- Initiating -----

  lemma {:induction false} ForcedSends(t: Tunn, now: nat, dstLen: nat)
    requires !t.slots.state.Expired?
    ensures FormatInitiation(t, true, now, dstLen).1
         == if Room(t, dstLen) then SendInit(Inc(t.slots.nextIndex)) else Failed(DestinationBufferTooSmall)
  {
  }

  /** An outstanding initiation is sent again five seconds after the last time, and not before. */
  lemma {:induction false} RetriesIff(t: Tunn, now: nat, dstLen: nat)
    requires Timely(t, now) && Past(t, now) && Living(t, now) && t.slots.state.InitSent?
    ensures UpdateTimers(t, now, dstLen).1
         == if now < t.slots.state.timeSent + 5 * SEC then Done
            else if Room(t, dstLen) then SendInit(Inc(t.slots.nextIndex)) else Failed(DestinationBufferTooSmall)
  {
    LivingGoesOn(t, now, dstLen);
    AttendedKeeps(t, now);
    ForcedSends(Attended(t, now), now, dstLen);
  }

  lemma {:induction false} MaintainInitiates(t: Tunn, now: nat, dstLen: nat)
    requires WellFormed(t) && ClocksPast(t.clocks, now) && !t.slots.state.Expired? && MustInitiate(t, now)
    ensures Maintain(t, now, dstLen).1
         == if Room(t, dstLen) then SendInit(Inc(t.slots.nextIndex)) else Failed(DestinationBufferTooSmall)
  {
    var t1 := if Unanswered(t, now) then t.(wantHandshake := false) else t;
    ForcedSends(t1, now, dstLen);
  }

  /** A tunnel that lives and waits for nothing initiates at once if its session is stale or its data
      went unheard. */
  lemma {:induction false} InitiatesWhenDue(t: Tunn, now: nat, dstLen: nat)
    requires Timely(t, now) && Past(t, now) && Living(t, now) && !t.slots.state.InitSent?
    requires MustInitiate(t, now)
    ensures UpdateTimers(t, now, dstLen).1
         == if Room(t, dstLen) then SendInit(Inc(t.slots.nextIndex)) else Failed(DestinationBufferTooSmall)
  {
    LivingGoesOn(t, now, dstLen);
    AttendedKeeps(t, now);
    MaintainInitiates(Attended(t, now), now, dstLen);
  }

  /** The initiator of a session that has sent data replaces it when it is two minutes old. */
  lemma {:induction false} InitiatorRekeys(t: Tunn, now: nat, dstLen: nat)
    requires Timely(t, now) && Past(t, now) && !t.slots.state.Expired? && !t.slots.state.InitSent?
    requires t.isInitiator && t.clocks.dataSent > t.clocks.established
    requires t.clocks.established + 120 * SEC <= now < t.clocks.established + 540 * SEC && Room(t, dstLen)
    ensures UpdateTimers(t, now, dstLen).1 == SendInit(Inc(t.slots.nextIndex))
  {
    InitiatesWhenDue(t, now, dstLen);
  }

  // ----- Keeping alive -----

  /** What the wishes and the keepalive timer become when no initiation is sent. */
  function Calmed(t: Tunn, now: nat): Tunn {
    t.(wantHandshake := t.wantHandshake && !Unheard(t, now),
       wantKeepalive := t.wantKeepalive && !Unthanked(t, now),
       clocks := if KeepaliveDue(t, now) then t.clocks.(keepalive := t.clocks.current) else t.clocks)
  }

  lemma {:induction false} MaintainCalms(t: Tunn, now: nat, dstLen: nat)
    requires WellFormed(t) && ClocksPast(t.clocks, now) && !MustInitiate(t, now)
    ensures WellFormed(Calmed(t, now))
    ensures Maintain(t, now, dstLen)
         == if MustKeepalive(t, now) then Encapsulate(Calmed(t, now), [], now, dstLen) else (Calmed(t, now), Done)
  {
    var t1 := if Unanswered(t, now) then t.(wantHandshake := false) else t;
    var t2 := if Unacknowledged(t, now) then t1.(wantKeepalive := false) else t1;
    var t3 := if PersistentDue(t, now) then TickKeepalive(t2) else t2;
    assert t3 == Calmed(t, now);
  }

  lemma {:induction false} CallCalms(t: Tunn, now: nat, dstLen: nat)
    requires Timely(t, now) && Past(t, now) && Living(t, now) && !t.slots.state.InitSent? && !MustInitiate(t, now)
    ensures
      var t1 := Calmed(Attended(t, now), now);
      && WellFormed(t1)
      && UpdateTimers(t, now, dstLen) == if MustKeepalive(t, now) then Encapsulate(t1, [], now, dstLen) else (t1, Done)
  {
    LivingGoesOn(t, now, dstLen);
    AttendedKeeps(t, now);
    MaintainCalms(Attended(t, now), now, dstLen);
  }

  lemma {:induction false} SealsEmpty(t: Tunn, now: nat, dstLen: nat)
    requires WellFormed(t) && CurrentSession(t).Some?
    ensures
      var (t', r) := Encapsulate(t, [], now, dstLen);
      var s := CurrentSession(t).value;
      && r == SendData(Session.PacketAt(s, s.sendingCounter, []))
      && t'.clocks == t.clocks.(sent := t.clocks.current)
  {
  }

  /** A tunnel with a session in use and nothing to initiate sends an empty packet exactly when it owes
      the peer one for 10 seconds or the persistent keepalive is due; otherwise it sends nothing. */
  lemma {:induction false} KeepaliveIff(t: Tunn, now: nat, dstLen: nat)
    requires Timely(t, now) && Past(t, now) && Living(t, now) && !t.slots.state.InitSent? && !MustInitiate(t, now)
    requires InUse(t, now)
    ensures
      var (t', r) := UpdateTimers(t, now, dstLen);
      var s := CurrentSession(t).value;
      && r == (if MustKeepalive(t, now) then SendData(Session.PacketAt(s, s.sendingCounter, [])) else Done)
      && t'.clocks == t.clocks.(current := now,
                                keepalive := if KeepaliveDue(t, now) then now else t.clocks.keepalive,
                                sent := if MustKeepalive(t, now) then now else t.clocks.sent)
  {
    CallCalms(t, now, dstLen);
    AttendedKeeps(t, now);
    AttendedDrops(t, now, t.current % N_SESSIONS);
    if MustKeepalive(t, now) {
      SealsEmpty(Calmed(Attended(t, now), now), now, dstLen);
    }
  }

  lemma {:induction false} AsksForHandshake(t: Tunn, now: nat, dstLen: nat)
    requires WellFormed(t) && CurrentSession(t).None? && !t.slots.state.Expired?
    ensures Encapsulate(t, [], now, dstLen).1
         == if InProgress(t.slots) then Done
            else if Room(t, dstLen) then SendInit(Inc(t.slots.nextIndex)) else Failed(DestinationBufferTooSmall)
  {
  }

  /** Without a session in use the same keepalive asks for a handshake instead, unless one is in
      progress. */
  lemma {:induction false} KeepaliveWithoutSession(t: Tunn, now: nat, dstLen: nat)
    requires Timely(t, now) && Past(t, now) && Living(t, now) && !t.slots.state.InitSent? && !MustInitiate(t, now)
    requires !InUse(t, now)
    ensures UpdateTimers(t, now, dstLen).1
         == if !MustKeepalive(t, now) || InProgress(t.slots) then Done
            else if Room(t, dstLen) then SendInit(Inc(t.slots.nextIndex)) else Failed(DestinationBufferTooSmall)
  {
    CallCalms(t, now, dstLen);
    AttendedKeeps(t, now);
    AttendedDrops(t, now, t.current % N_SESSIONS);
    AsksForHandshake(Calmed(Attended(t, now), now), now, dstLen);
  }

  /** The responder of a session leaves rekeying to the initiator, however old the session is. */
  lemma {:induction false} ResponderDoesNotRekey(t: Tunn, now: nat, dstLen: nat)
    requires Timely(t, now) && Past(t, now) && !t.slots.state.InitSent?
    requires !t.isInitiator && InUse(t, now) && t.clocks.dataSent <= t.clocks.received
    ensures !UpdateTimers(t, now, dstLen).1.SendInit?
  {
    if Living(t, now) {
      KeepaliveIff(t, now, dstLen);
    } else {
      GivesUpIff(t, now, dstLen);
    }
  }

  // ----- Sessions and cookie -----

  /** The call leaves exactly the sessions that are at most three minutes old, restarts the timers of the
      other slots, and leaves the cookie exactly if it is less than two minutes old. */
  lemma {:induction false} AgeDecides(t: Tunn, now: nat, dstLen: nat, i: nat)
    requires Timely(t, now) && Past(t, now) && Living(t, now) && i < N_SESSIONS
    ensures
      var t' := UpdateTimers(t, now, dstLen).0;
      && |t'.sessions| == |t'.sessionTimers| == N_SESSIONS
      && (t'.sessions[i].Some? <==> Young(t, now, i)) && t'.sessionTimers[i] == Kept(t.sessionTimers[i], now)
      && (t'.hasCookie <==> t.hasCookie && now < t.clocks.cookie + 120 * SEC)
  {
    LivingGoesOn(t, now, dstLen);
    AttendedKeeps(t, now);
    AttendedDrops(t, now, i);
    AttendedCookie(t, now);
    if t.slots.state.InitSent? {
      FormatKeepsRing(Attended(t, now), true, now, dstLen);
    } else {
      MaintainKeepsRing(Attended(t, now), now, dstLen, i);
    }
  }

  /** The same ring of sessions and the same cookie. */
  predicate SameRing(t: Tunn, t': Tunn) {
    t'.sessions == t.sessions && t'.sessionTimers == t.sessionTimers && t'.hasCookie == t.hasCookie
  }

  lemma {:induction false} FormatKeepsRing(t: Tunn, force: bool, now: nat, dstLen: nat)
    ensures SameRing(t, FormatInitiation(t, force, now, dstLen).0)
  {
    var t1 := if t.slots.state.Expired? then ClearTimers(t, now) else t;
    var t2 := t1.(slots := Initiate(t1.slots, now));
    var t3 := if InProgress(t1.slots) then t2 else TickStarted(t2);
    assert SameRing(t, t1) && SameRing(t1, t2) && SameRing(t2, t3) && SameRing(t3, TickSent(t3));
  }

  lemma {:induction false} EncapsulateKeepsRing(t: Tunn, now: nat, dstLen: nat, i: nat)
    requires WellFormed(t) && i < N_SESSIONS
    ensures
      var t' := Encapsulate(t, [], now, dstLen).0;
      && |t'.sessions| == N_SESSIONS && (t'.sessions[i].Some? <==> t.sessions[i].Some?)
      && t'.sessionTimers == t.sessionTimers && t'.hasCookie == t.hasCookie
  {
    if CurrentSession(t).None? {
      FormatKeepsRing(QueuePacket(t, []), false, now, dstLen);
      assert SameRing(t, QueuePacket(t, []));
      assert Encapsulate(t, [], now, dstLen) == FormatInitiation(QueuePacket(t, []), false, now, dstLen);
    }
  }

  lemma {:induction false} MaintainKeepsRing(t: Tunn, now: nat, dstLen: nat, i: nat)
    requires WellFormed(t) && ClocksPast(t.clocks, now) && i < N_SESSIONS
    ensures
      var t' := Maintain(t, now, dstLen).0;
      && |t'.sessions| == N_SESSIONS && (t'.sessions[i].Some? <==> t.sessions[i].Some?)
      && t'.sessionTimers == t.sessionTimers && t'.hasCookie == t.hasCookie
  {
    if MustInitiate(t, now) {
      FormatKeepsRing(if Unanswered(t, now) then t.(wantHandshake := false) else t, true, now, dstLen);
    } else {
      MaintainCalms(t, now, dstLen);
      EncapsulateKeepsRing(Calmed(t, now), now, dstLen, i);
    }
  }
}

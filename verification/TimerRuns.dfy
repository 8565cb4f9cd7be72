/** The timers over whole runs: the wishes of the tunnel say what its timers say, its role is that of its
    last handshake, and so the periodic call is decided by the clock alone. */
module TimerRuns {
  import opened Clock
  import opened Wrappers
  import opened Terms
  import opened HandshakeSlots
  import opened LocalIndex
  import opened TunnelSpec
  import opened TunnelRuns
  import opened TunnelHistory
  import opened TunnelPace
  import opened TimerRules
  import opened TimerAccount

  // ----- Role and bytes -----

  /** Did the tunnel make its last session as initiator? */
  function Role(start: World, calls: seq<Call>): bool
    requires Sane(start) && start.now == 0 && InOrder(calls)
  {
    if calls == [] then false
    else
      var w, c := Run(start, calls[..|calls| - 1]), calls[|calls| - 1];
      SaneIsReady(w, c.now);
      if Establishes(c.event, OutcomeOf(w, c.now, c.event)) then c.event.GotResponse?
      else Role(start, calls[..|calls| - 1])
  }

  /** The bytes of all payloads that went out in data packets. */
  function Sealed(start: World, calls: seq<Call>): nat
    requires Sane(start) && start.now == 0 && InOrder(calls)
  {
    if calls == [] then 0
    else
      var w, c := Run(start, calls[..|calls| - 1]), calls[|calls| - 1];
      SaneIsReady(w, c.now);
      Sealed(start, calls[..|calls| - 1]) + |PayloadOf(OutcomeOf(w, c.now, c.event))|
  }

  /** The bytes of all packets that came out for the interface. */
  function Delivered(start: World, calls: seq<Call>): nat
    requires Sane(start) && start.now == 0 && InOrder(calls)
  {
    if calls == [] then 0
    else
      var w, c := Run(start, calls[..|calls| - 1]), calls[|calls| - 1];
      SaneIsReady(w, c.now);
      var r := OutcomeOf(w, c.now, c.event);
      Delivered(start, calls[..|calls| - 1]) + if r.ToTunnel? then |r.ip| else 0
  }

  lemma {:induction false} NextIsAccounted(w: World, c: Call)
    requires Sane(w) && w.now <= c.now
    ensures Ready(w, c.now) && Account(w.t, c.event, c.now, Next(w, c).t, OutcomeOf(w, c.now, c.event))
  {
    SaneIsReady(w, c.now);
    EveryCallIsAccounted(w.t, c.event, c.now);
  }

  /** Over every run: the role is that of the last handshake, and the two byte counters are the bytes of
      all payloads sealed and of all packets delivered. */
  lemma {:induction false} RoleAndBytes(hybrid: bool, index: nat, p: nat, calls: seq<Call>)
    requires InOrder(calls)
    ensures Sane(Start(hybrid, index, p))
    ensures
      var start := Start(hybrid, index, p);
      var t := Run(start, calls).t;
      && t.isInitiator == Role(start, calls)
      && t.txBytes == Sealed(start, calls) && t.rxBytes == Delivered(start, calls)
    decreases |calls|
  {
    StartIsSane(hybrid, index, p);
    if calls == [] {
    } else {
      var before, c := calls[..|calls| - 1], calls[|calls| - 1];
      RoleAndBytes(hybrid, index, p, before);
      NextIsAccounted(Run(Start(hybrid, index, p), before), c);
    }
  }

  // ----- The age of the last handshake -----

  /** The time of the last periodic call, or of a restart of all timers after it. */
  function LastReading(start: World, calls: seq<Call>): nat
    requires Sane(start) && start.now == 0 && InOrder(calls)
  {
    if calls == [] then 0
    else
      var w, c := Run(start, calls[..|calls| - 1]), calls[|calls| - 1];
      if c.event.Timers? || Restarts(w.t, c.event, c.now) then c.now else LastReading(start, calls[..|calls| - 1])
  }

  /** The reading in force when the tunnel last made a session or restarted its timers. */
  function LastMade(start: World, calls: seq<Call>): nat
    requires Sane(start) && start.now == 0 && InOrder(calls)
  {
    if calls == [] then 0
    else
      var w, c := Run(start, calls[..|calls| - 1]), calls[|calls| - 1];
      SaneIsReady(w, c.now);
      if Establishes(c.event, OutcomeOf(w, c.now, c.event)) || Restarts(w.t, c.event, c.now)
      then LastReading(start, calls)
      else LastMade(start, calls[..|calls| - 1])
  }

  lemma {:induction false} ReadingsOverRuns(hybrid: bool, index: nat, p: nat, calls: seq<Call>)
    requires InOrder(calls)
    ensures Sane(Start(hybrid, index, p))
    ensures
      var start := Start(hybrid, index, p);
      var c := Run(start, calls).t.clocks;
      c.current == LastReading(start, calls) && c.established == LastMade(start, calls)
    decreases |calls|
  {
    StartIsSane(hybrid, index, p);
    if calls == [] {
    } else {
      var before, c := calls[..|calls| - 1], calls[|calls| - 1];
      ReadingsOverRuns(hybrid, index, p, before);
      NextIsAccounted(Run(Start(hybrid, index, p), before), c);
    }
  }

  /** The answer is the time since `made`, if there is a session in use. */
  predicate SaysSince(t: Tunn, now: nat, made: nat)
    requires WellFormed(t) && Past(t, now)
  {
    var age := TimeSinceLastHandshake(t, now);
    if CurrentSession(t).None? then age.None? else age.Some? && made + age.value == now
  }

  lemma {:induction false} SaysSinceMade(t: Tunn, now: nat, made: nat)
    requires WellFormed(t) && Past(t, now) && t.clocks.established == made
    ensures SaysSince(t, now, made)
  {
  }

  /** Over every run: a tunnel with a session in use says how long ago its last handshake was, on the
      clock of its periodic calls; one without says nothing. */
  lemma {:induction false} AgeOfHandshake(hybrid: bool, index: nat, p: nat, calls: seq<Call>, now: nat)
    requires InOrder(calls) && forall i | 0 <= i < |calls| :: calls[i].now <= now
    ensures Sane(Start(hybrid, index, p))
    ensures
      var start := Start(hybrid, index, p);
      var t := Run(start, calls).t;
      Past(t, now) && SaysSince(t, now, LastMade(start, calls))
  {
    ReadingsOverRuns(hybrid, index, p, calls);
    var w := Run(Start(hybrid, index, p), calls);
    SaneIsReady(w, now);
    SaysSinceMade(w.t, now, LastMade(Start(hybrid, index, p), calls));
  }

  // ----- Without a session -----

  predicate Bare(t: Tunn) { WellFormed(t) && forall i | 0 <= i < N_SESSIONS :: t.sessions[i].None? }

  /** No data goes out and none comes out. */
  predicate Silent(r: Outcome) { !r.SendData? && !r.ToTunnel? }

  predicate Makes(e: Event) { e.GotInit? || e.GotResponse? }

  lemma {:induction false} PeriodicStaysBare(t: Tunn, now: nat, dstLen: nat)
    requires Timely(t, now) && Past(t, now) && Bare(t)
    ensures Bare(UpdateTimers(t, now, dstLen).0)
  {
    var t' := UpdateTimers(t, now, dstLen).0;
    if t.slots.state.Expired? {
    } else if !Living(t, now) {
      GivesUpIff(t, now, dstLen);
    } else {
      AgeDecides(t, now, dstLen, 0);
      forall i | 0 <= i < N_SESSIONS
        ensures t'.sessions[i].None?
      {
        AgeDecides(t, now, dstLen, i);
      }
    }
  }

  lemma {:induction false} PeriodicIsSilent(t: Tunn, now: nat, dstLen: nat)
    requires Timely(t, now) && Past(t, now) && Bare(t)
    ensures Silent(UpdateTimers(t, now, dstLen).1)
  {
    if !Living(t, now) {
      GivesUpIff(t, now, dstLen);
    } else if t.slots.state.InitSent? {
      RetriesIff(t, now, dstLen);
    } else if MustInitiate(t, now) {
      InitiatesWhenDue(t, now, dstLen);
    } else {
      KeepaliveWithoutSession(t, now, dstLen);
    }
  }

  lemma {:induction false} AskingStaysBare(t: Tunn, force: bool, now: nat, dstLen: nat)
    requires Bare(t)
    ensures Bare(FormatInitiation(t, force, now, dstLen).0) && Silent(FormatInitiation(t, force, now, dstLen).1)
  {
    FormatKeepsRing(t, force, now, dstLen);
  }

  lemma {:induction false} SendingStaysBare(t: Tunn, src: Bytes, now: nat, dstLen: nat)
    requires Bare(t)
    ensures Bare(Encapsulate(t, src, now, dstLen).0) && Silent(Encapsulate(t, src, now, dstLen).1)
  {
    AskingStaysBare(QueuePacket(t, src), false, now, dstLen);
    assert Encapsulate(t, src, now, dstLen) == FormatInitiation(QueuePacket(t, src), false, now, dstLen);
  }

  lemma {:induction false} FlushingStaysBare(t: Tunn, now: nat, dstLen: nat)
    requires Bare(t)
    ensures Bare(SendQueued(t, now, dstLen).0) && Silent(SendQueued(t, now, dstLen).1)
  {
    if t.queue != [] {
      SendingStaysBare(t.(queue := t.queue[1..]), t.queue[0], now, dstLen);
    }
  }

  lemma {:induction false} CallStaysBare(t: Tunn, e: Event, now: nat)
    requires Timely(t, now) && Past(t, now) && Bare(t) && !Makes(e)
    ensures Bare(Apply(t, e, now).0) && Silent(Apply(t, e, now).1)
  {
    match e {
      case Timers(dstLen) => PeriodicStaysBare(t, now, dstLen); PeriodicIsSilent(t, now, dstLen);
      case Send(src, dstLen) => SendingStaysBare(t, src, now, dstLen);
      case Flush(dstLen) => FlushingStaysBare(t, now, dstLen);
      case Handshake(force, dstLen) => AskingStaysBare(t, force, now, dstLen);
      case GotCookie =>
      case GotData(_) =>
      case GotInitNoSpace =>
      case GotInitBadKey =>
      case SetKey =>
    }
  }

  lemma {:induction false} SetKeyBares(t: Tunn, now: nat)
    requires WellFormed(t) && Past(t, now)
    ensures Bare(Apply(t, SetKey, now).0)
  {
  }

  /** A new private key: no session is left, and over every run, as in a new tunnel, no call sends or
      delivers data until a handshake makes a session. */
  lemma {:induction false} SilentUntilHandshake(
    hybrid: bool, index: nat, p: nat, calls: seq<Call>, k: nat, next: Call)
    requires InOrder(calls) && k <= |calls| && (forall i | 0 <= i < |calls| :: calls[i].now <= next.now)
    requires k == 0 || calls[k - 1].event.SetKey?
    requires (forall i | k <= i < |calls| :: !Makes(calls[i].event)) && !Makes(next.event)
    ensures Sane(Start(hybrid, index, p))
    ensures
      var w := Run(Start(hybrid, index, p), calls);
      Bare(w.t) && Ready(w, next.now) && Silent(OutcomeOf(w, next.now, next.event))
    decreases |calls|
  {
    StartIsSane(hybrid, index, p);
    var start := Start(hybrid, index, p);
    if calls == [] {
    } else {
      var before, c := calls[..|calls| - 1], calls[|calls| - 1];
      var w := Run(start, before);
      SaneIsReady(w, c.now);
      if k == |calls| {
        SetKeyBares(w.t, c.now);
      } else {
        SilentUntilHandshake(hybrid, index, p, before, k, c);
        CallStaysBare(w.t, c.event, c.now);
      }
    }
    var w := Run(start, calls);
    SaneIsReady(w, next.now);
    CallStaysBare(w.t, next.event, next.now);
  }

  // ----- Wishes -----

  /** Every buffer takes the message that may go into it. */
  predicate Ample(hybrid: bool, e: Event) {
    match e
    case Timers(dstLen) => dstLen >= if hybrid then 1332 else 148
    case Send(_, dstLen) => dstLen >= if hybrid then 1332 else 148
    case Flush(dstLen) => dstLen >= if hybrid then 1332 else 148
    case Handshake(_, dstLen) => dstLen >= if hybrid then 1332 else 148
    case GotInitNoSpace => false
    case _ => true
  }

  predicate AllAmple(hybrid: bool, calls: seq<Call>) {
    forall i | 0 <= i < |calls| :: Ample(hybrid, calls[i].event)
  }

  /** Whoever sent data and heard nothing since wants a handshake; whoever received data and sent nothing
      since wants a keepalive. */
  predicate Wishful(t: Tunn) {
    && (t.clocks.dataSent > t.clocks.received ==> t.wantHandshake)
    && (t.clocks.dataReceived > t.clocks.sent ==> t.wantKeepalive)
  }

  /** A periodic call that consumes a wish acts on it. */
  lemma {:induction false} ConsumedIsActedOn(t: Tunn, now: nat, dstLen: nat)
    requires Timely(t, now) && Past(t, now) && Looks(t, Timers(dstLen), now)
    requires Wishful(t) && !InProgress(t.slots) && Room(t, dstLen)
    requires Unheard(t, now) || Unthanked(t, now)
    ensures GoesOut(Timers(dstLen), UpdateTimers(t, now, dstLen).1)
  {
    if MustInitiate(t, now) {
      InitiatesWhenDue(t, now, dstLen);
    } else if InUse(t, now) {
      KeepaliveIff(t, now, dstLen);
    } else {
      KeepaliveWithoutSession(t, now, dstLen);
    }
  }

  lemma {:induction false} AccountKeepsWishful(t: Tunn, e: Event, now: nat, t': Tunn, r: Outcome)
    requires Timely(t, now) && Account(t, e, now, t', r) && Wishful(t)
    requires Looks(t, e, now) && (Unheard(t, now) || Unthanked(t, now)) ==> GoesOut(e, r)
    ensures Wishful(t')
  {
  }

  lemma {:induction false} StepKeepsWishful(w: World, c: Call)
    requires Sane(w) && w.now <= c.now && Wishful(w.t) && !w.t.slots.state.InitReceived? && Ample(w.t.hybrid, c.event)
    ensures Wishful(Next(w, c).t)
  {
    NextIsAccounted(w, c);
    SaneIsReady(w, c.now);
    if Looks(w.t, c.event, c.now) && (Unheard(w.t, c.now) || Unthanked(w.t, c.now)) {
      ConsumedIsActedOn(w.t, c.now, c.event.dstLen);
    }
    AccountKeepsWishful(w.t, c.event, c.now, Next(w, c).t, OutcomeOf(w, c.now, c.event));
  }

  lemma {:induction false} AmpleIsRoomy(hybrid: bool, calls: seq<Call>)
    requires AllAmple(hybrid, calls)
    ensures Roomy(calls)
  {
    forall i | 0 <= i < |calls|
      ensures !calls[i].event.GotInitNoSpace?
    {
      assert Ample(hybrid, calls[i].event);
    }
  }

  /** Over every run with large enough buffers the wishes say what the timers say. */
  lemma {:induction false} WishesOverRuns(hybrid: bool, index: nat, p: nat, calls: seq<Call>)
    requires InOrder(calls) && AllAmple(hybrid, calls)
    ensures Sane(Start(hybrid, index, p))
    ensures
      var t := Run(Start(hybrid, index, p), calls).t;
      Wishful(t) && !t.slots.state.InitReceived? && t.hybrid == hybrid
    decreases |calls|
  {
    StartIsSane(hybrid, index, p);
    AmpleIsRoomy(hybrid, calls);
    ResendsAreBounded(hybrid, index, p, calls);
    if calls == [] {
    } else {
      var before, c := calls[..|calls| - 1], calls[|calls| - 1];
      WishesOverRuns(hybrid, index, p, before);
      var w := Run(Start(hybrid, index, p), before);
      StepKeepsWishful(w, c);
      var r := NextFollows(w, c);
    }
  }

  // ----- The periodic call is decided by the clock -----

  /** The periodic call has to initiate: to retry, to rekey, because data went unheard, or because a
      keepalive finds no session. */
  predicate DueToInitiate(t: Tunn, now: nat)
    requires WellFormed(t)
  {
    && Living(t, now)
    && if t.slots.state.InitSent? then t.slots.state.timeSent + 5 * SEC <= now
       else || Stale(t, now) || Unheard(t, now)
            || (!InUse(t, now) && (Unthanked(t, now) || KeepaliveDue(t, now)))
  }

  /** The periodic call has to send an empty packet in the session in use. */
  predicate DueToKeepAlive(t: Tunn, now: nat)
    requires WellFormed(t)
  {
    && Living(t, now) && !t.slots.state.InitSent? && !Stale(t, now) && !Unheard(t, now) && InUse(t, now)
    && (Unthanked(t, now) || KeepaliveDue(t, now))
  }

  lemma {:induction false} InitiatesIff(t: Tunn, now: nat, dstLen: nat)
    requires Timely(t, now) && Past(t, now) && Wishful(t) && !t.slots.state.InitReceived? && Room(t, dstLen)
    ensures UpdateTimers(t, now, dstLen).1.SendInit? <==> DueToInitiate(t, now)
  {
    if !Living(t, now) {
      GivesUpIff(t, now, dstLen);
    } else if t.slots.state.InitSent? {
      RetriesIff(t, now, dstLen);
    } else if MustInitiate(t, now) {
      InitiatesWhenDue(t, now, dstLen);
    } else if InUse(t, now) {
      KeepaliveIff(t, now, dstLen);
    } else {
      KeepaliveWithoutSession(t, now, dstLen);
    }
  }

  lemma {:induction false} KeepsAliveIff(t: Tunn, now: nat, dstLen: nat)
    requires Timely(t, now) && Past(t, now) && Wishful(t) && !t.slots.state.InitReceived? && Room(t, dstLen)
    ensures UpdateTimers(t, now, dstLen).1.SendData? <==> DueToKeepAlive(t, now)
  {
    if !Living(t, now) {
      GivesUpIff(t, now, dstLen);
    } else if t.slots.state.InitSent? {
      RetriesIff(t, now, dstLen);
    } else if MustInitiate(t, now) {
      InitiatesWhenDue(t, now, dstLen);
    } else if InUse(t, now) {
      KeepaliveIff(t, now, dstLen);
    } else {
      KeepaliveWithoutSession(t, now, dstLen);
    }
  }

  /** Over every run with large enough buffers: the next periodic call initiates if and only if the clock
      says so, where the rekeying side is the initiator of the last handshake; and it sends a keepalive
      if and only if the clock says so. */
  lemma {:induction false} ClockDecides(hybrid: bool, index: nat, p: nat, calls: seq<Call>, now: nat, dstLen: nat)
    requires InOrder(calls) && AllAmple(hybrid, calls) && dstLen >= if hybrid then 1332 else 148
    requires forall i | 0 <= i < |calls| :: calls[i].now <= now
    ensures Sane(Start(hybrid, index, p))
    ensures
      var start := Start(hybrid, index, p);
      var t := Run(start, calls).t;
      && Past(t, now) && t.isInitiator == Role(start, calls)
      && var r := UpdateTimers(t, now, dstLen).1;
         && (r.SendInit? <==> DueToInitiate(t, now))
         && (r.SendData? <==> DueToKeepAlive(t, now))
         && (r == Failed(ConnectionExpired) <==> !Living(t, now))
  {
    StartIsSane(hybrid, index, p);
    WishesOverRuns(hybrid, index, p, calls);
    RoleAndBytes(hybrid, index, p, calls);
    var w := Run(Start(hybrid, index, p), calls);
    SaneIsReady(w, now);
    InitiatesIff(w.t, now, dstLen);
    KeepsAliveIff(w.t, now, dstLen);
    GivesUpIff(w.t, now, dstLen);
  }
}

/** The pace of the initiations that the timers emit: their spacing, and the number of resends
    of one attempt. */
module TunnelPace {
  import opened Clock
  import opened Wrappers
  import opened LocalIndex
  import opened TunnelSpec
  import opened TunnelRuns
  import opened TunnelHistory

  /** Most resends of one attempt: those 5, 10, ... 85 seconds after its start. */
  const MAX_RESENDS: nat := 17

  /** There are two ways to refuse a peer's initiation after the handshake state moved: a reply
      buffer that is too small, and a malformed encapsulation key. */
  predicate Roomy(calls: seq<Call>) { forall i | 0 <= i < |calls| :: !calls[i].event.GotInitNoSpace? }

  predicate WellKeyed(calls: seq<Call>) { forall i | 0 <= i < |calls| :: !calls[i].event.GotInitBadKey? }

  predicate Spaced(emits: seq<nat>) {
    forall i, j | 0 <= i < j < |emits| :: emits[i] + REKEY_TIMEOUT <= emits[j]
  }

  /** The attempt under way: every resend came REKEY_TIMEOUT after the one before. */
  predicate Attempt(w: World) {
    && !w.t.slots.state.InitReceived?
    && (w.t.slots.state.InitSent? ==>
          w.t.clocks.started + REKEY_TIMEOUT * w.h.retransmissions <= w.t.slots.state.timeSent)
    && w.h.retransmissions <= MAX_RESENDS
  }

  /** Since the last emission at time `last`, either the attempt is still the newest thing, or it
      was given up, or a session was established. */
  predicate Since(w: World, last: nat) {
    var s, c := w.t.slots.state, w.t.clocks;
    && last <= c.current && last <= c.sent
    && (if s.InitSent? then last <= s.timeSent
        else s.Expired? || (last <= c.established && last <= c.received))
  }

  predicate Paced(w: World) {
    && Spaced(w.h.emits)
    && forall i | 0 <= i < |w.h.emits| :: Since(w, w.h.emits[i])
  }

  lemma {:induction false} StepKeepsAttempt(w: World, e: Event, w': World, r: Outcome)
    requires Sane(w) && Follows(w, e, w', r) && !e.GotInitNoSpace? && Attempt(w)
    ensures Attempt(w')
  {
  }

  lemma {:induction false} SinceStays(w: World, e: Event, w': World, r: Outcome, last: nat)
    requires Sane(w) && Follows(w, e, w', r) && !e.GotInitNoSpace? && !e.GotInitBadKey? && Since(w, last)
    ensures Since(w', last)
  {
  }

  lemma {:induction false} EmissionIsDue(w: World, e: Event, w': World, r: Outcome, last: nat)
    requires Sane(w) && Follows(w, e, w', r) && Emits(e, r) && Since(w, last)
    requires w.t.persistentKeepalive == 0
    ensures last + REKEY_TIMEOUT <= w'.now
  {
  }

  lemma {:induction false} EmissionIsRecent(w: World, e: Event, w': World, r: Outcome)
    requires Sane(w) && Follows(w, e, w', r) && Emits(e, r)
    ensures Since(w', w'.now)
  {
  }

  lemma {:induction false} StepKeepsPaced(w: World, e: Event, w': World, r: Outcome)
    requires Sane(w) && Follows(w, e, w', r) && !e.GotInitNoSpace? && !e.GotInitBadKey? && Paced(w)
    requires w.t.persistentKeepalive == 0
    ensures Paced(w')
  {
    forall i | 0 <= i < |w.h.emits|
      ensures Since(w', w.h.emits[i])
      ensures Emits(e, r) ==> w.h.emits[i] + REKEY_TIMEOUT <= w'.now
    {
      SinceStays(w, e, w', r, w.h.emits[i]);
      if Emits(e, r) {
        EmissionIsDue(w, e, w', r, w.h.emits[i]);
      }
    }
    if Emits(e, r) {
      EmissionIsRecent(w, e, w', r);
    }
  }

  /** Over every run without refusals for want of reply space, malformed keys or not, one attempt gets
      at most 17 timer-driven resends: after a malformed key the next initiation starts a new one. */
  lemma {:induction false} ResendsAreBounded(hybrid: bool, index: nat, p: nat, calls: seq<Call>)
    requires InOrder(calls) && Roomy(calls)
    ensures Sane(Start(hybrid, index, p))
    ensures Attempt(Run(Start(hybrid, index, p), calls))
    decreases |calls|
  {
    StartIsSane(hybrid, index, p);
    if calls == [] {
    } else {
      var before, last := calls[..|calls| - 1], calls[|calls| - 1];
      ResendsAreBounded(hybrid, index, p, before);
      var w := Run(Start(hybrid, index, p), before);
      var r := NextFollows(w, last);
      StepKeepsAttempt(w, last.event, Next(w, last), r);
    }
  }

  /** An attempt that is not answered for REKEY_ATTEMPT_TIME is given up by the next periodic
      call, and nothing of the tunnel survives. */
  lemma {:induction false} AttemptExpires(t: Tunn, now: nat, dstLen: nat)
    requires WellFormed(t) && Past(t, now) && t.slots.state.InitSent?
    requires t.clocks.started + REKEY_ATTEMPT_TIME <= now
    ensures
      var (t', r) := UpdateTimers(t, now, dstLen);
      && r == Failed(ConnectionExpired) && t'.slots.state.Expired? && t'.slots.previous.Expired?
      && t'.queue == [] && forall i | 0 <= i < N_SESSIONS :: t'.sessions[i].None?
  {
  }

  /** Without persistent keepalive, any two initiations the timers emit are at least
      REKEY_TIMEOUT apart, over every run without late refusals. */
  lemma {:induction false} EmissionsAreSpaced(hybrid: bool, index: nat, calls: seq<Call>)
    requires InOrder(calls) && Roomy(calls) && WellKeyed(calls)
    ensures Sane(Start(hybrid, index, 0))
    ensures
      var w := Run(Start(hybrid, index, 0), calls);
      w.t.persistentKeepalive == 0 && Paced(w)
    decreases |calls|
  {
    StartIsSane(hybrid, index, 0);
    if calls == [] {
    } else {
      var before, last := calls[..|calls| - 1], calls[|calls| - 1];
      EmissionsAreSpaced(hybrid, index, before);
      var w := Run(Start(hybrid, index, 0), before);
      var r := NextFollows(w, last);
      StepKeepsPaced(w, last.event, Next(w, last), r);
    }
  }
}

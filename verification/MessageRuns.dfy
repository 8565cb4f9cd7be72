/** Whole runs of a tunnel with its real handshake: any calls and any messages, at nondecreasing
    times.  Each is a run of the tunnel alone, so what holds over those runs holds here. */
module MessageRuns {
  import opened Clock
  import opened Wrappers
  import opened LocalIndex
  import opened TunnelSpec
  import opened TunnelRuns
  import opened TunnelHistory
  import opened TunnelPace
  import opened TunnelMessages
  import Agreement
  import H = HandshakeSpec

  /** The handshake, and the tunnel with its history. */
  datatype Live = Live(h: H.Handshake, w: World)

  function FullOf(l: Live): Full { Full(l.h, l.w.t) }

  predicate Alive(l: Live) { Sane(l.w) && Tied(FullOf(l)) }

  function Absorbed(l: Live, c: Timed<Input>, res: (Full, Outcome), e: Option<Event>): Live
    requires |l.w.h.slotIssue| == N_SESSIONS && |l.w.h.installedAt| == N_SESSIONS
  {
    Live(res.0.h, match e
                  case None => l.w.(t := res.0.t)
                  case Some(event) => Advanced(l.w, c.now, event, (res.0.t, res.1)))
  }

  /** One input. */
  function Absorb(l: Live, c: Timed<Input>): (l': Live)
    requires Alive(l) && l.w.now <= c.now
    ensures Alive(l') && l'.w.now <= c.now
  {
    SaneIsReady(l.w, c.now);
    AbsorbsEvent(l, c, Take(FullOf(l), c.event, c.now), EventOf(FullOf(l), c.event, c.now));
    Absorbed(l, c, Take(FullOf(l), c.event, c.now), EventOf(FullOf(l), c.event, c.now))
  }

  /** The world after an input is the world itself, or the world after one call. */
  predicate Moved(l: Live, c: Timed<Input>, e: Option<Event>, l': Live)
    requires Alive(l) && l.w.now <= c.now
  {
    Alive(l') && match e case None => l' == l case Some(event) => l'.w == Next(l.w, Timed(c.now, event))
  }

  lemma {:induction false} AppliedIsNext(w: World, now: nat, e: Event, t': Tunn, r: Outcome)
    requires Sane(w) && w.now <= now
    ensures Ready(w, now)
    ensures (t', r) == Apply(w.t, e, now) ==> Advanced(w, now, e, (t', r)) == Next(w, Timed(now, e))
  {
    SaneIsReady(w, now);
  }

  lemma {:induction false} AbsorbsEvent(l: Live, c: Timed<Input>, res: (Full, Outcome), e: Option<Event>)
    requires Alive(l) && l.w.now <= c.now && Ready(l.w, c.now)
    requires res == Take(FullOf(l), c.event, c.now) && e == EventOf(FullOf(l), c.event, c.now)
    ensures Moved(l, c, e, Absorbed(l, c, res, e)) && Absorbed(l, c, res, e).w.now <= c.now
  {
    SaneIsReady(l.w, c.now);
    EveryInputIsEvent(FullOf(l), c.event, c.now);
    if e.Some? {
      AppliedIsNext(l.w, c.now, e.value, res.0.t, res.1);
    }
  }

  function Begin(params: H.Params, hybrid: bool, index: nat, p: nat): Live {
    Live(TunnelMessages.New(params, hybrid, index, p).h, Start(hybrid, index, p))
  }

  lemma {:induction false} BeginIsAlive(params: H.Params, hybrid: bool, index: nat, p: nat)
    ensures Alive(Begin(params, hybrid, index, p))
  {
    StartIsSane(hybrid, index, p);
  }

  /** A tunnel after any calls and messages. */
  function LiveRun(start: Live, inputs: seq<Timed<Input>>): (l: Live)
    requires Alive(start) && start.w.now == 0 && InOrder(inputs)
    ensures Alive(l) && (inputs == [] ==> l.w.now == 0)
    ensures inputs != [] ==> l.w.now <= inputs[|inputs| - 1].now
  {
    if inputs == [] then start
    else Absorb(LiveRun(start, inputs[..|inputs| - 1]), inputs[|inputs| - 1])
  }

  // ----- A run with messages is a run of the tunnel -----

  /** The buffer takes the reply, should there be one. */
  predicate HasRoom(x: Input) { x.GetInit? ==> x.dstLen >= H.RespSize(x.init.ek.Some?) }

  /** No malformed encapsulation key. */
  predicate HasKey(x: Input) { x.GetInit? && x.init.ek.Some? ==> x.init.ek.value.KemPub? }

  /** Nothing that can be refused late happens, but for what the two flags allow. */
  predicate Allowed(x: Input, smallBuffers: bool, badKeys: bool) {
    (smallBuffers || HasRoom(x)) && (badKeys || HasKey(x))
  }

  predicate AllAllowed(inputs: seq<Timed<Input>>, smallBuffers: bool, badKeys: bool) {
    forall i | 0 <= i < |inputs| :: Allowed(inputs[i].event, smallBuffers, badKeys)
  }

  lemma {:induction false} AllowsMore(inputs: seq<Timed<Input>>, smallBuffers: bool, badKeys: bool)
    requires AllAllowed(inputs, smallBuffers, badKeys)
    ensures !smallBuffers ==> AllAllowed(inputs, false, true)
    ensures !badKeys ==> AllAllowed(inputs, true, false)
  {
  }

  /** A message is refused late for want of space only if its buffer is small, and for its key only if
      that is malformed and the tunnel knows such messages. */
  lemma {:induction false} LateRefusalHasCause(f: Full, x: Input, now: nat)
    ensures
      var e := EventOf(f, x, now);
      && (e == Some(GotInitNoSpace) ==> !HasRoom(x))
      && (e == Some(GotInitBadKey) ==> !HasKey(x) && f.t.hybrid)
  {
    if x.GetInit? {
      Agreement.RejectedInitUnchangedIff(f.h, x.init, x.ephemeral, x.coins, x.dstLen);
    }
  }

  /** The last call is the periodic one. */
  predicate EndsWithTimers(calls: seq<Call>) { calls != [] && calls[|calls| - 1].event.Timers? }

  lemma {:induction false} AbsorbMoves(l: Live, c: Timed<Input>) returns (e: Option<Event>)
    requires Alive(l) && l.w.now <= c.now
    ensures Moved(l, c, e, Absorb(l, c)) && e == EventOf(FullOf(l), c.event, c.now)
  {
    SaneIsReady(l.w, c.now);
    e := EventOf(FullOf(l), c.event, c.now);
    AbsorbsEvent(l, c, Take(FullOf(l), c.event, c.now), e);
  }

  lemma {:induction false} ProjectStep(
    start: World, calls: seq<Call>, l: Live, c: Timed<Input>, e: Option<Event>, l': Live) returns (calls': seq<Call>)
    requires Alive(l) && l.w.now <= c.now && Leads(start, calls, l.w) && Moved(l, c, e, l')
    ensures Leads(start, calls', l'.w)
    ensures Roomy(calls) && e != Some(GotInitNoSpace) ==> Roomy(calls')
    ensures WellKeyed(calls) && e != Some(GotInitBadKey) ==> WellKeyed(calls')
    ensures e.Some? && e.value.Timers? ==> EndsWithTimers(calls')
  {
    if e.None? {
      calls' := calls;
    } else {
      ExtendAny(start, calls, l.w, Timed(c.now, e.value));
      calls' := calls + [Timed(c.now, e.value)];
    }
  }

  lemma {:induction false} NextKeepsKind(w: World, c: Call)
    requires Sane(w) && w.now <= c.now
    ensures Next(w, c).t.hybrid == w.t.hybrid
  {
    var r := NextFollows(w, c);
  }

  lemma {:induction false} AbsorbProjects(start: World, calls: seq<Call>, l: Live, c: Timed<Input>)
    returns (calls': seq<Call>)
    requires Alive(l) && l.w.now <= c.now && Leads(start, calls, l.w)
    ensures Leads(start, calls', Absorb(l, c).w)
    ensures Roomy(calls) && HasRoom(c.event) ==> Roomy(calls')
    ensures WellKeyed(calls) && (HasKey(c.event) || !l.w.t.hybrid) ==> WellKeyed(calls')
    ensures Absorb(l, c).w.t.hybrid == l.w.t.hybrid
    ensures c.event.CallTimers? ==> EndsWithTimers(calls')
  {
    var e := AbsorbMoves(l, c);
    LateRefusalHasCause(FullOf(l), c.event, c.now);
    if e.Some? {
      NextKeepsKind(l.w, Timed(c.now, e.value));
    }
    calls' := ProjectStep(start, calls, l, c, e, Absorb(l, c));
  }

  /** Whatever calls and messages a tunnel takes, its own part goes through some run of calls: those
      the inputs amount to, without the refused ones. */
  lemma {:induction false} EveryRunProjects(start: Live, inputs: seq<Timed<Input>>) returns (calls: seq<Call>)
    requires Alive(start) && start.w.now == 0 && InOrder(inputs)
    ensures Leads(start.w, calls, LiveRun(start, inputs).w)
    ensures AllAllowed(inputs, false, true) ==> Roomy(calls)
    ensures AllAllowed(inputs, true, false) || !start.w.t.hybrid ==> WellKeyed(calls)
    ensures LiveRun(start, inputs).w.t.hybrid == start.w.t.hybrid
    ensures inputs != [] && inputs[|inputs| - 1].event.CallTimers? ==> EndsWithTimers(calls)
    decreases |inputs|
  {
    if inputs == [] {
      calls := [];
      assert Leads(start.w, [], start.w);
    } else {
      var before, last := inputs[..|inputs| - 1], inputs[|inputs| - 1];
      calls := EveryRunProjects(start, before);
      calls := AbsorbProjects(start.w, calls, LiveRun(start, before), last);
    }
  }

  // ----- What holds over every run of calls holds over every run with messages -----

  /** Indices and ring slots, over every run of calls and messages. */
  lemma {:induction false} MessagesKeepRing(
    params: H.Params, hybrid: bool, index: nat, p: nat, inputs: seq<Timed<Input>>)
    requires InOrder(inputs)
    ensures Alive(Begin(params, hybrid, index, p))
    ensures Ring(LiveRun(Begin(params, hybrid, index, p), inputs).w, index % 0x100_0000)
  {
    BeginIsAlive(params, hybrid, index, p);
    var calls := EveryRunProjects(Begin(params, hybrid, index, p), inputs);
    LeadsTo(Start(hybrid, index, p), calls, LiveRun(Begin(params, hybrid, index, p), inputs).w);
    IndicesAndSlots(hybrid, index, p, calls);
  }

  /** Sessions are dated, an expired handshake leaves nothing, replay windows are coherent, over
      every run of calls and messages. */
  lemma {:induction false} MessagesAreSafe(
    params: H.Params, hybrid: bool, index: nat, p: nat, inputs: seq<Timed<Input>>)
    requires InOrder(inputs)
    ensures Alive(Begin(params, hybrid, index, p))
    ensures
      var w := LiveRun(Begin(params, hybrid, index, p), inputs).w;
      Dated(w) && ExpiredMeansEmpty(w.t) && WindowsCoherent(w.t)
  {
    BeginIsAlive(params, hybrid, index, p);
    var calls := EveryRunProjects(Begin(params, hybrid, index, p), inputs);
    LeadsTo(Start(hybrid, index, p), calls, LiveRun(Begin(params, hybrid, index, p), inputs).w);
    RunsAreSafe(hybrid, index, p, calls);
  }

  /** After the periodic call every session left is at most REJECT_AFTER_TIME old, over every run of
      calls and messages that ends with it. */
  lemma {:induction false} MessagesKeepLifetime(
    params: H.Params, hybrid: bool, index: nat, p: nat, inputs: seq<Timed<Input>>)
    requires InOrder(inputs) && inputs != [] && inputs[|inputs| - 1].event.CallTimers?
    ensures Alive(Begin(params, hybrid, index, p))
    ensures
      var w := LiveRun(Begin(params, hybrid, index, p), inputs).w;
      forall i | 0 <= i < N_SESSIONS && w.t.sessions[i].Some? ::
        w.now <= w.h.installedAt[i] + REJECT_AFTER_TIME
  {
    BeginIsAlive(params, hybrid, index, p);
    var calls := EveryRunProjects(Begin(params, hybrid, index, p), inputs);
    LeadsTo(Start(hybrid, index, p), calls, LiveRun(Begin(params, hybrid, index, p), inputs).w);
    KeyLifetime(hybrid, index, p, calls);
  }

  /** Over every run of calls and messages whose reply buffers are large enough: at most 17 resends an
      attempt; and if there is no persistent keepalive and no malformed key, or none that the tunnel
      knows of, emissions at least REKEY_TIMEOUT apart. */
  lemma {:induction false} MessagesArePaced(
    params: H.Params, hybrid: bool, index: nat, p: nat, inputs: seq<Timed<Input>>)
    requires InOrder(inputs) && AllAllowed(inputs, false, true)
    ensures Alive(Begin(params, hybrid, index, p))
    ensures
      var w := LiveRun(Begin(params, hybrid, index, p), inputs).w;
      Attempt(w) && (p == 0 && (AllAllowed(inputs, true, false) || !hybrid) ==> Paced(w))
  {
    BeginIsAlive(params, hybrid, index, p);
    var calls := EveryRunProjects(Begin(params, hybrid, index, p), inputs);
    LeadsTo(Start(hybrid, index, p), calls, LiveRun(Begin(params, hybrid, index, p), inputs).w);
    ResendsAreBounded(hybrid, index, p, calls);
    if p == 0 && (AllAllowed(inputs, true, false) || !hybrid) {
      EmissionsAreSpaced(hybrid, index, calls);
    }
  }

  // ----- Building runs -----

  /** Marks inputs; it only controls when the verifier opens the definition of their run. */
  predicate OpensInputs(inputs: seq<Timed<Input>>) { true }

  /** The inputs are a run that ends in l, and the last of them counted. */
  predicate LiveLeads(start: Live, inputs: seq<Timed<Input>>, l: Live) {
    && Alive(start) && start.w.now == 0 && InOrder(inputs) && Alive(l)
    && (inputs != [] ==> inputs[|inputs| - 1].now <= l.w.now)
    && forall c: seq<Timed<Input>> {:trigger OpensInputs(c)} | c == inputs && OpensInputs(c) :: LiveRun(start, c) == l
  }

  lemma {:induction false} LiveLeadsTo(start: Live, inputs: seq<Timed<Input>>, l: Live)
    requires LiveLeads(start, inputs, l)
    ensures LiveRun(start, inputs) == l
  {
    assert OpensInputs(inputs);
  }

  lemma {:induction false} LiveExtend(start: Live, inputs: seq<Timed<Input>>, l: Live, c: Timed<Input>)
    requires LiveLeads(start, inputs, l) && l.w.now <= c.now && EventOf(FullOf(l), c.event, c.now).Some?
    ensures LiveLeads(start, inputs + [c], Absorb(l, c))
    ensures Absorb(l, c).w == Next(l.w, Timed(c.now, EventOf(FullOf(l), c.event, c.now).value))
  {
    var e := AbsorbMoves(l, c);
    LiveExtendRun(start, inputs, l, c);
  }

  lemma {:induction false} LiveExtendRun(start: Live, inputs: seq<Timed<Input>>, l: Live, c: Timed<Input>)
    requires LiveLeads(start, inputs, l) && l.w.now <= c.now
    ensures InOrder(inputs + [c]) && LiveRun(start, inputs + [c]) == Absorb(l, c)
  {
    LiveLeadsTo(start, inputs, l);
    assert (inputs + [c])[..|inputs|] == inputs;
  }
}

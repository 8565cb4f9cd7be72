/** What a peer that holds its own key makes of a tunnel: its initiations and responses, written as
    the peer writes them, are accepted, or refused late if it or the caller arranges that. */
module PeerMessages {
  import opened Clock
  import opened Wrappers
  import opened Terms
  import opened Tai64N
  import opened HandshakeSlots
  import opened TunnelSpec
  import opened TunnelRuns
  import opened TunnelHistory
  import opened TunnelMessages
  import opened MessageRuns
  import Agreement
  import H = HandshakeSpec

  /** A buffer large enough for every message. */
  const ROOM: nat := 2048

  // ----- Secrets -----

  /** The n-th secret that either side draws around the k-th input.  The base is above both static
      keys. */
  function Secret(base: nat, k: nat, n: nat): nat
    requires n < 4
  {
    base + 4 * k + n
  }

  /** The input carries the secrets of its number. */
  predicate Numbered(base: nat, x: Input, k: nat) {
    match x
    case CallTimers(_, draw) => IsFresh(base, draw, k)
    case CallSend(_, _, draw) => IsFresh(base, draw, k)
    case CallFlush(_, draw) => IsFresh(base, draw, k)
    case CallHandshake(_, _, draw) => IsFresh(base, draw, k)
    case GetInit(m, ephemeral, coins, _) =>
      && ephemeral == Secret(base, k, 0) && coins == Secret(base, k, 1)
      && m.ephemeral == Pub(Secret(base, k, 2))
    case GetResponse(m) => m.ephemeral == Pub(Secret(base, k, 2))
    case _ => true
  }

  predicate IsFresh(base: nat, draw: Draw, k: nat) {
    draw.ephemeral == Secret(base, k, 0) && draw.dk == Secret(base, k, 1)
  }

  predicate AllNumbered(base: nat, inputs: seq<Timed<Input>>) {
    forall i | 0 <= i < |inputs| :: Numbered(base, inputs[i].event, i)
  }

  // ----- The peer's messages -----

  const MAX_STAMPS: nat := 0x8000_0000_0000_0000

  /** The peer holds `key`, and its clock, at `stamps` seconds, is past the last initiation. */
  predicate Faces(h: H.Handshake, key: nat, stamps: nat) {
    h.params.peerPublic == Pub(key) && h.lastStamp.secs < TAI64_BASE + stamps && stamps < MAX_STAMPS
  }

  function PeerParams(h: H.Handshake, key: nat): H.Params {
    H.Params(key, Pub(h.params.staticPrivate), h.params.psk)
  }

  /** The initiation that the peer writes when its clock reads `stamps` seconds. */
  function PeerInit(h: H.Handshake, key: nat, stamps: nat, e: nat, dk: Option<nat>): H.InitMsg {
    H.MakeInit(PeerParams(h, key), 0, e, StampBytes(stamps * SEC), dk)
  }

  lemma {:induction false} SecondsRepresentable(stamps: nat)
    requires stamps < MAX_STAMPS
    ensures Representable(stamps * SEC) && StampOf(stamps * SEC) == Stamp(TAI64_BASE + stamps, 0)
  {
    assert stamps * SEC / SEC == stamps;
  }

  lemma {:induction false} PeerInitPasses(h: H.Handshake, key: nat, stamps: nat, e: nat, dk: Option<nat>)
    requires Faces(h, key, stamps)
    ensures H.CheckInit(h, PeerInit(h, key, stamps, e, dk)) == Ok(Stamp(TAI64_BASE + stamps, 0))
  {
    SecondsRepresentable(stamps);
    StampRoundTrip(stamps * SEC);
    Agreement.GenuineInitPasses(h, PeerParams(h, key), 0, e, StampBytes(stamps * SEC), dk);
  }

  /** The checks do not look into the encapsulation key. */
  lemma {:induction false} KeyIsNotChecked(h: H.Handshake, m: H.InitMsg, ek: Term)
    requires m.ek.Some?
    ensures H.CheckInit(h, m.(ek := Some(ek))) == H.CheckInit(h, m)
  {
  }

  /** The peer's next initiation, type 1. */
  lemma {:induction false} PeerInitOf(h: H.Handshake, key: nat, stamps: nat, e: nat) returns (m: H.InitMsg)
    requires Faces(h, key, stamps)
    ensures m.ephemeral == Pub(e) && m.ek.None? && H.CheckInit(h, m) == Ok(Stamp(TAI64_BASE + stamps, 0))
  {
    m := PeerInit(h, key, stamps, e, None);
    PeerInitPasses(h, key, stamps, e, None);
  }

  /** The peer's next initiation, type 5, with a malformed encapsulation key. */
  lemma {:induction false} MalformedKeyOf(h: H.Handshake, key: nat, stamps: nat, e: nat) returns (m: H.InitMsg)
    requires Faces(h, key, stamps)
    ensures m.ephemeral == Pub(e) && m.ek == Some(Noise(0)) && H.CheckInit(h, m) == Ok(Stamp(TAI64_BASE + stamps, 0))
  {
    m := PeerInit(h, key, stamps, e, Some(e + 1));
    PeerInitPasses(h, key, stamps, e, Some(e + 1));
    KeyIsNotChecked(h, m, Noise(0));
    m := m.(ek := Some(Noise(0)));
  }

  lemma {:induction false} InitMovesStamp(
    h: H.Handshake, m: H.InitMsg, e: nat, coins: nat, dstLen: nat, key: nat, stamps: nat)
    requires Faces(h, key, stamps) && stamps + 1 < MAX_STAMPS
    requires H.CheckInit(h, m) == Ok(Stamp(TAI64_BASE + stamps, 0))
    ensures Faces(H.ReceiveInit(h, m, e, coins, dstLen).0, key, stamps + 1)
  {
  }

  lemma {:induction false} AnsweredEvent(f: Full, m: H.InitMsg, ephemeral: nat, coins: nat, now: nat) returns (e: Event)
    requires m.ek.None? && H.CheckInit(f.h, m).Ok?
    ensures e.GotInit? && EventOf(f, GetInit(m, ephemeral, coins, ROOM), now) == Some(e)
  {
    Agreement.RejectedInitUnchangedIff(f.h, m, ephemeral, coins, ROOM);
    e := EventOf(f, GetInit(m, ephemeral, coins, ROOM), now).value;
  }

  lemma {:induction false} NoSpaceEvent(f: Full, m: H.InitMsg, ephemeral: nat, coins: nat, now: nat)
    requires m.ek.None? && H.CheckInit(f.h, m).Ok?
    ensures EventOf(f, GetInit(m, ephemeral, coins, 0), now) == Some(GotInitNoSpace)
  {
  }

  lemma {:induction false} MalformedEvent(f: Full, m: H.InitMsg, ephemeral: nat, coins: nat, now: nat)
    requires m.ek == Some(Noise(0)) && f.t.hybrid && H.CheckInit(f.h, m).Ok?
    ensures EventOf(f, GetInit(m, ephemeral, coins, ROOM), now) == Some(GotInitBadKey)
  {
    Agreement.RejectedInitUnchangedIff(f.h, m, ephemeral, coins, ROOM);
  }

  // ----- Runs against such a peer -----

  /** The run so far, the clock of the peer, and what may be refused late. */
  datatype Trace = Trace(
    key: nat, start: Live, inputs: seq<Timed<Input>>, end: Live, stamps: nat, smallBuffers: bool, badKeys: bool)

  function Base(x: Trace): nat { x.start.h.params.staticPrivate + x.key + 1 }

  predicate Holds(x: Trace) {
    && LiveLeads(x.start, x.inputs, x.end) && Faces(x.end.h, x.key, x.stamps)
    && Proper(Base(x), x.inputs, x.smallBuffers, x.badKeys)
  }

  /** Nothing is refused late that may not be, and every secret is new. */
  predicate Proper(base: nat, inputs: seq<Timed<Input>>, smallBuffers: bool, badKeys: bool) {
    AllAllowed(inputs, smallBuffers, badKeys) && AllNumbered(base, inputs)
  }

  /** The ephemeral that the tunnel draws for this input. */
  function DrawnFor(x: Input): Option<nat> {
    match x
    case CallTimers(_, draw) => Some(draw.ephemeral)
    case CallSend(_, _, draw) => Some(draw.ephemeral)
    case CallFlush(_, draw) => Some(draw.ephemeral)
    case CallHandshake(_, _, draw) => Some(draw.ephemeral)
    case GetInit(_, ephemeral, _, _) => Some(ephemeral)
    case _ => None
  }

  /** Along such a run no ephemeral is drawn twice, and none is a static key. */
  lemma {:induction false} DrawsNeverRepeat(x: Trace, i: nat, j: nat)
    requires Holds(x) && i < j < |x.inputs|
    ensures
      var a, b := DrawnFor(x.inputs[i].event), DrawnFor(x.inputs[j].event);
      && (a.Some? ==> a != b && a.value != x.key && a.value != x.start.h.params.staticPrivate)
  {
    assert Numbered(Base(x), x.inputs[i].event, i) && Numbered(Base(x), x.inputs[j].event, j);
  }

  /** The run goes on. */
  predicate Continues(x: Trace, y: Trace) {
    && Holds(y) && y.start == x.start && y.key == x.key
    && y.smallBuffers == x.smallBuffers && y.badKeys == x.badKeys
  }

  /** What the next call draws, should it send an initiation. */
  function Fresh(x: Trace, now: nat): Draw {
    Draw(Secret(Base(x), |x.inputs|, 0), Secret(Base(x), |x.inputs|, 1), StampBytes(now))
  }

  function Grown(x: Trace, c: Timed<Input>, end: Live, stamps: nat): Trace {
    x.(inputs := x.inputs + [c], end := end, stamps := stamps)
  }

  lemma {:induction false} Grows(x: Trace, c: Timed<Input>, end: Live, stamps: nat)
    requires Holds(x) && LiveLeads(x.start, x.inputs + [c], end) && Faces(end.h, x.key, stamps)
    requires Allowed(c.event, x.smallBuffers, x.badKeys) && Numbered(Base(x), c.event, |x.inputs|)
    ensures Continues(x, Grown(x, c, end, stamps))
  {
    ProperGrows(Base(x), x.inputs, c, x.smallBuffers, x.badKeys);
  }

  lemma {:induction false} ProperGrows(
    base: nat, inputs: seq<Timed<Input>>, c: Timed<Input>, smallBuffers: bool, badKeys: bool)
    requires Proper(base, inputs, smallBuffers, badKeys)
    requires Allowed(c.event, smallBuffers, badKeys) && Numbered(base, c.event, |inputs|)
    ensures Proper(base, inputs + [c], smallBuffers, badKeys)
  {
  }

  /** Any input that counts, with new secrets. */
  lemma {:induction false} Takes(x: Trace, c: Timed<Input>, e: Event, stamps: nat) returns (y: Trace)
    requires Holds(x) && x.end.w.now <= c.now && EventOf(FullOf(x.end), c.event, c.now) == Some(e)
    requires Faces(Absorb(x.end, c).h, x.key, stamps)
    requires Allowed(c.event, x.smallBuffers, x.badKeys) && Numbered(Base(x), c.event, |x.inputs|)
    ensures Continues(x, y) && y.stamps == stamps && y.end == Absorb(x.end, c)
    ensures y.end.w == Next(x.end.w, Timed(c.now, e))
  {
    LiveExtend(x.start, x.inputs, x.end, c);
    Grows(x, c, Absorb(x.end, c), stamps);
    y := Grown(x, c, Absorb(x.end, c), stamps);
  }

  predicate IsCall(x: Input) { x.CallTimers? || x.CallSend? || x.CallHandshake? }

  lemma {:induction false} FormatKeepsFacing(h: H.Handshake, hybrid: bool, now: nat, dstLen: nat, draw: Draw)
    ensures
      var h' := Formatted(h, hybrid, now, dstLen, draw).0;
      h'.params == h.params && h'.lastStamp == h.lastStamp
  {
  }

  lemma {:induction false} CallKeepsFacing(f: Full, res: (Tunn, Outcome), now: nat, dstLen: nat, draw: Draw)
    ensures
      var h' := Called(f, res, now, dstLen, draw).0.h;
      h'.params == f.h.params && h'.lastStamp == f.h.lastStamp
  {
    FormatKeepsFacing(Aged(f.h, f.t, res.0), f.t.hybrid, now, dstLen, draw);
  }

  lemma {:induction false} CallFaces(l: Live, x: Input, now: nat, key: nat, stamps: nat)
    requires Alive(l) && l.w.now <= now && IsCall(x) && Faces(l.h, key, stamps)
    ensures Faces(Absorb(l, Timed(now, x)).h, key, stamps)
  {
    SaneIsReady(l.w, now);
    var f := FullOf(l);
    match x
    case CallTimers(dstLen, draw) => CallKeepsFacing(f, UpdateTimers(f.t, now, dstLen), now, dstLen, draw);
    case CallSend(src, dstLen, draw) => CallKeepsFacing(f, Encapsulate(f.t, src, now, dstLen), now, dstLen, draw);
    case CallHandshake(force, dstLen, draw) =>
      CallKeepsFacing(f, FormatInitiation(f.t, force, now, dstLen), now, dstLen, draw);
  }

  /** Any call at any later time. */
  lemma {:induction false} Calls(x: Trace, call: Input, now: nat) returns (y: Trace)
    requires Holds(x) && IsCall(call) && x.end.w.now <= now && Numbered(Base(x), call, |x.inputs|)
    ensures Continues(x, y) && y.stamps == x.stamps
    ensures y.end == Absorb(x.end, Timed(now, call))
    ensures y.end.w == Next(x.end.w, Timed(now, EventOf(FullOf(x.end), call, now).value))
  {
    CallFaces(x.end, call, now, x.key, x.stamps);
    y := Takes(x, Timed(now, call), EventOf(FullOf(x.end), call, now).value, x.stamps);
  }

  lemma {:induction false} InitFaces(l: Live, g: Input, now: nat, key: nat, stamps: nat)
    requires Alive(l) && l.w.now <= now && Faces(l.h, key, stamps) && stamps + 1 < MAX_STAMPS && g.GetInit?
    requires H.CheckInit(l.h, g.init) == Ok(Stamp(TAI64_BASE + stamps, 0)) && (g.init.ek.Some? ==> l.w.t.hybrid)
    ensures Faces(Absorb(l, Timed(now, g)).h, key, stamps + 1)
  {
    SaneIsReady(l.w, now);
    InitMovesStamp(l.h, g.init, g.ephemeral, g.coins, g.dstLen, key, stamps);
  }

  /** The peer's initiation, with the secrets of both sides. */
  function Getting(x: Trace, m: H.InitMsg, dstLen: nat): Input {
    GetInit(m, Secret(Base(x), |x.inputs|, 0), Secret(Base(x), |x.inputs|, 1), dstLen)
  }

  /** The ephemeral that the peer draws next. */
  function PeerSecret(x: Trace): nat { Secret(Base(x), |x.inputs|, 2) }

  /** An initiation that passes the checks, as the event it amounts to. */
  lemma {:induction false} Hears(x: Trace, g: Input, e: Event) returns (y: Trace)
    requires Holds(x) && x.stamps + 1 < MAX_STAMPS && g.GetInit? && (g.init.ek.Some? ==> x.end.w.t.hybrid)
    requires H.CheckInit(x.end.h, g.init) == Ok(Stamp(TAI64_BASE + x.stamps, 0))
    requires EventOf(FullOf(x.end), g, x.end.w.now) == Some(e)
    requires Numbered(Base(x), g, |x.inputs|) && Allowed(g, x.smallBuffers, x.badKeys)
    ensures Continues(x, y) && y.stamps == x.stamps + 1
    ensures y.end.w == Next(x.end.w, Timed(x.end.w.now, e))
  {
    InitFaces(x.end, g, x.end.w.now, x.key, x.stamps);
    y := Takes(x, Timed(x.end.w.now, g), e, x.stamps + 1);
  }

  /** The peer opens a handshake now, and is answered. */
  lemma {:induction false} PeerCalls(x: Trace) returns (y: Trace, e: Event)
    requires Holds(x) && x.stamps + 1 < MAX_STAMPS
    ensures Continues(x, y) && y.stamps == x.stamps + 1
    ensures e.GotInit? && y.end.w == Next(x.end.w, Timed(x.end.w.now, e))
  {
    var m := PeerInitOf(x.end.h, x.key, x.stamps, PeerSecret(x));
    var g := Getting(x, m, ROOM);
    e := AnsweredEvent(FullOf(x.end), m, g.ephemeral, g.coins, x.end.w.now);
    y := Hears(x, g, e);
  }

  /** The peer opens a handshake now, and there is no space for the reply. */
  lemma {:induction false} PeerFindsNoSpace(x: Trace) returns (y: Trace)
    requires Holds(x) && x.stamps + 1 < MAX_STAMPS && x.smallBuffers
    ensures Continues(x, y) && y.stamps == x.stamps + 1
    ensures y.end.w == Next(x.end.w, Timed(x.end.w.now, GotInitNoSpace))
  {
    var m := PeerInitOf(x.end.h, x.key, x.stamps, PeerSecret(x));
    var g := Getting(x, m, 0);
    NoSpaceEvent(FullOf(x.end), m, g.ephemeral, g.coins, x.end.w.now);
    y := Hears(x, g, GotInitNoSpace);
  }

  /** The peer opens a handshake now, with a malformed encapsulation key. */
  lemma {:induction false} PeerSendsBadKey(x: Trace) returns (y: Trace)
    requires Holds(x) && x.stamps + 1 < MAX_STAMPS && x.badKeys && x.end.w.t.hybrid
    ensures Continues(x, y) && y.stamps == x.stamps + 1
    ensures y.end.w == Next(x.end.w, Timed(x.end.w.now, GotInitBadKey))
  {
    var m := MalformedKeyOf(x.end.h, x.key, x.stamps, PeerSecret(x));
    var g := Getting(x, m, ROOM);
    MalformedEvent(FullOf(x.end), m, g.ephemeral, g.coins, x.end.w.now);
    y := Hears(x, g, GotInitBadKey);
  }

  /** The peer opens a handshake now, and is refused late. */
  lemma {:induction false} PeerIsRefused(x: Trace, badKey: bool) returns (y: Trace)
    requires Holds(x) && x.stamps + 1 < MAX_STAMPS
    requires if badKey then x.badKeys && x.end.w.t.hybrid else x.smallBuffers
    ensures Continues(x, y) && y.stamps == x.stamps + 1
    ensures y.end.w == Next(x.end.w, Timed(x.end.w.now, if badKey then GotInitBadKey else GotInitNoSpace))
  {
    if badKey {
      y := PeerSendsBadKey(x);
    } else {
      y := PeerFindsNoSpace(x);
    }
  }

  // ----- The peer answers -----

  /** What a call drew for the outstanding initiation. */
  predicate Drawn(h: H.Handshake, index: nat, hybrid: bool, draw: Draw, time: nat) {
    h.state == Agreement.Slot(
      h.params, index, draw.ephemeral, draw.stamp, if hybrid then Some(draw.dk) else None, time)
  }

  /** The peer as it stands after storing the initiation. */
  function PeerStored(h: H.Handshake, key: nat, index: nat, hybrid: bool, draw: Draw): H.Handshake {
    var q := PeerParams(h, key);
    var m := H.MakeInit(h.params, index, draw.ephemeral, draw.stamp, if hybrid then Some(draw.dk) else None);
    H.New(q, 0).(state := Agreement.Stored(q, m))
  }

  /** The response that the peer writes. */
  function PeerResponse(h: H.Handshake, key: nat, index: nat, hybrid: bool, draw: Draw, e: nat): H.RespMsg {
    match H.FormatResponse(PeerStored(h, key, index, hybrid, draw), e, e + 1, ROOM).1
    case Ok(reply) => reply.msg
    case Err(_) => H.RespMsg(0, 0, Empty, Empty, None)
  }

  /** The handshake accepts it. */
  lemma {:induction false} PeerResponseFits(
    h: H.Handshake, key: nat, index: nat, hybrid: bool, draw: Draw, time: nat, e: nat, now: nat)
    returns (m: H.RespMsg)
    requires h.params.peerPublic == Pub(key) && Drawn(h, index, hybrid, draw, time)
    ensures m.ephemeral == Pub(e) && m.receiver == index && m.ct.Some? == hybrid
    ensures H.ReceiveResponse(h, m, now).1.Ok?
  {
    m := PeerResponse(h, key, index, hybrid, draw, e);
    var dk := if hybrid then Some(draw.dk) else None;
    var g := PeerStored(h, key, index, hybrid, draw);
    Agreement.GenuineResponseMirrors(h, index, draw.ephemeral, draw.stamp, dk, time, g, e, e + 1, ROOM, now);
    ResponseNames(g, e, ROOM, index, hybrid);
  }

  lemma {:induction false} AcceptedEvent(f: Full, m: H.RespMsg, now: nat) returns (e: Event)
    requires (m.ct.Some? ==> f.t.hybrid) && H.ReceiveResponse(f.h, m, now).1.Ok?
    ensures EventOf(f, GetResponse(m), now) == Some(e) && e.GotResponse? && e.index == m.receiver
  {
    ReceiveResponseOnSlots(f.h, m, now);
    e := EventOf(f, GetResponse(m), now).value;
  }

  lemma {:induction false} ResponseNames(g: H.Handshake, e: nat, dstLen: nat, index: nat, hybrid: bool)
    requires g.state.InitReceived? && g.state.peerIndex == index && g.state.ek.Some? == hybrid
    ensures
      var r := H.FormatResponse(g, e, e + 1, dstLen).1;
      r.Ok? ==> r.value.msg.ephemeral == Pub(e) && r.value.msg.receiver == index && r.value.msg.ct.Some? == hybrid
  {
  }

  lemma {:induction false} ResponseFaces(l: Live, m: H.RespMsg, now: nat, key: nat, stamps: nat)
    requires Alive(l) && l.w.now <= now && Faces(l.h, key, stamps)
    ensures Faces(Absorb(l, Timed(now, GetResponse(m))).h, key, stamps)
  {
    SaneIsReady(l.w, now);
  }

  lemma {:induction false} HearsResponse(x: Trace, m: H.RespMsg, e: Event) returns (y: Trace)
    requires Holds(x) && EventOf(FullOf(x.end), GetResponse(m), x.end.w.now) == Some(e)
    requires m.ephemeral == Pub(PeerSecret(x))
    ensures Continues(x, y) && y.stamps == x.stamps
    ensures y.end.w == Next(x.end.w, Timed(x.end.w.now, e))
  {
    var c := Timed(x.end.w.now, GetResponse(m));
    ResponseFaces(x.end, m, x.end.w.now, x.key, x.stamps);
    y := Takes(x, c, e, x.stamps);
  }

  /** The peer answers the outstanding initiation now. */
  lemma {:induction false} PeerAnswers(x: Trace, index: nat, draw: Draw, time: nat) returns (y: Trace, e: Event)
    requires Holds(x) && Drawn(x.end.h, index, x.end.w.t.hybrid, draw, time)
    ensures Continues(x, y) && y.stamps == x.stamps
    ensures e.GotResponse? && e.index == index && y.end.w == Next(x.end.w, Timed(x.end.w.now, e))
  {
    var m := PeerResponseFits(
      x.end.h, x.key, index, x.end.w.t.hybrid, draw, time, PeerSecret(x), x.end.w.now);
    e := AcceptedEvent(FullOf(x.end), m, x.end.w.now);
    y := HearsResponse(x, m, e);
  }

  /** A first initiation, drawn at time 0. */
  lemma {:induction false} BeginInitiates(params: H.Params, hybrid: bool, index: nat, p: nat, draw: Draw)
    ensures Alive(Begin(params, hybrid, index, p))
    ensures
      var l := Absorb(Begin(params, hybrid, index, p), Timed(0, CallHandshake(false, ROOM, draw)));
      l.w.t.hybrid == hybrid && Drawn(l.h, l.w.t.slots.nextIndex, hybrid, draw, 0)
  {
    BeginIsAlive(params, hybrid, index, p);
    var l := Begin(params, hybrid, index, p);
    SaneIsReady(l.w, 0);
    assert Aged(l.h, l.w.t, FormatInitiation(l.w.t, false, 0, ROOM).0) == l.h;
  }

  /** A configuration: the keys of both ends, and what may be refused late. */
  datatype Setting = Setting(
    params: H.Params, hybrid: bool, index: nat, p: nat, smallBuffers: bool, badKeys: bool)

  /** The peer's public key has a private key. */
  predicate Sound(c: Setting) { c.params.peerPublic.Pub? }

  function First(c: Setting): Live { Begin(c.params, c.hybrid, c.index, c.p) }

  /** The run belongs to this configuration. */
  predicate RunOf(c: Setting, x: Trace) {
    Holds(x) && x.start == First(c) && x.smallBuffers == c.smallBuffers && x.badKeys == c.badKeys
  }

  lemma {:induction false} BeginHolds(c: Setting) returns (x: Trace)
    requires Sound(c)
    ensures RunOf(c, x) && x.inputs == [] && x.end == First(c) && x.stamps == 0
  {
    BeginIsAlive(c.params, c.hybrid, c.index, c.p);
    x := Trace(c.params.peerPublic.secret, First(c), [], First(c), 0, c.smallBuffers, c.badKeys);
  }
}

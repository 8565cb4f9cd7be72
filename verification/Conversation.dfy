/** Which session is in use, and what follows for two tunnels: after one handshake each can send to the
    other, and what it sends comes out. */
module Conversation {
  import opened Wrappers
  import opened Terms
  import opened Tai64N
  import opened HandshakeSlots
  import opened LocalIndex
  import opened TunnelSpec
  import opened TunnelRuns
  import opened TunnelMessages
  import opened TimerRules
  import opened TimerAccount
  import Agreement
  import H = HandshakeSpec
  import ReplayWindow
  import Session

  // ----- The session in use after a data packet -----

  /** The tunnel uses session s. */
  predicate Uses(t: Tunn, s: Session.State) {
    WellFormed(t) && t.current == s.receivingIndex && CurrentSession(t) == Some(s)
  }

  /** The session that the packet belongs to, after opening it. */
  function Opened(t: Tunn, packet: Session.Packet): Session.State
    requires WellFormed(t) && OpensIn(t, packet)
  {
    Session.OpenPacket(t.sessions[packet.receiverIdx % N_SESSIONS].value, packet).0
  }

  lemma {:induction false} OpeningStores(t: Tunn, packet: Session.Packet)
    requires WellFormed(t) && OpensIn(t, packet)
    ensures
      var t' := DataReceived(t, packet).0;
      && WellFormed(t') && t'.sessions == t.sessions[packet.receiverIdx % N_SESSIONS := Some(Opened(t, packet))]
      && t'.sessionTimers == t.sessionTimers
      && t'.current == SetCurrent(t.(sessions := t'.sessions), packet.receiverIdx).current
      && Opened(t, packet).receivingIndex == packet.receiverIdx
  {
  }

  /** A packet that opens while no session is in use puts its session in use. */
  lemma {:induction false} OpenedIsUsed(t: Tunn, packet: Session.Packet)
    requires WellFormed(t) && OpensIn(t, packet) && CurrentSession(t).None?
    ensures Uses(DataReceived(t, packet).0, Opened(t, packet))
  {
    OpeningStores(t, packet);
  }

  /** With a live session in use, the one of the two that was installed later is in use afterwards; if
      neither was, the packet's. */
  lemma {:induction false} LaterIsUsed(t: Tunn, packet: Session.Packet)
    requires WellFormed(t) && OpensIn(t, packet) && CurrentSession(t).Some?
    ensures
      var t' := DataReceived(t, packet).0;
      var mine, other := packet.receiverIdx % N_SESSIONS, t.current % N_SESSIONS;
      if t.sessionTimers[mine] >= t.sessionTimers[other] then Uses(t', Opened(t, packet))
      else t'.current == t.current && WellFormed(t') && CurrentSession(t') == CurrentSession(t)
  {
    OpeningStores(t, packet);
  }

  /** A packet that does not open changes nothing. */
  lemma {:induction false} UnopenedChangesNothing(t: Tunn, packet: Session.Packet)
    requires WellFormed(t) && !OpensIn(t, packet)
    ensures DataReceived(t, packet).0 == t && DataReceived(t, packet).1.Failed?
  {
  }

  // ----- The session in use after a handshake -----

  /** The session is in its slot, and no session was installed later. */
  predicate Newest(t: Tunn, s: Session.State) {
    var slot := s.receivingIndex % N_SESSIONS;
    && WellFormed(t) && t.sessions[slot] == Some(s)
    && forall i | 0 <= i < N_SESSIONS :: t.sessionTimers[i] <= t.sessionTimers[slot]
  }

  /** An answered initiation installs the newest session. */
  lemma {:induction false} AnswerIsNewest(t: Tunn, now: nat, peer: nat, rk: Term, sk: Term)
    requires Timely(t, now)
    ensures
      var t' := InitAccepted(t, peer, rk, sk).0;
      Newest(t', Session.New(Inc(t.slots.nextIndex), peer, rk, sk))
  {
  }

  /** An accepted response installs the newest session and puts it in use. */
  lemma {:induction false} ResponseIsUsed(t: Tunn, now: nat, index: nat, peer: nat, rk: Term, sk: Term)
    requires Timely(t, now) && IsAwaited(t.slots, index)
    ensures
      var t' := ResponseAccepted(t, index, peer, rk, sk).0;
      Uses(t', Session.SealPacket(Session.New(index, peer, rk, sk), []).0)
  {
  }

  /** The first packet that opens in the newest session puts it in use. */
  lemma {:induction false} NewestIsUsed(t: Tunn, s: Session.State, packet: Session.Packet)
    requires Newest(t, s) && packet.receiverIdx == s.receivingIndex && Session.OpenPacket(s, packet).1.Ok?
    ensures Uses(DataReceived(t, packet).0, Session.OpenPacket(s, packet).0)
  {
    if CurrentSession(t).None? {
      OpenedIsUsed(t, packet);
    } else {
      LaterIsUsed(t, packet);
    }
  }

  /** A session in use seals whatever is sent. */
  lemma {:induction false} UsedSeals(t: Tunn, s: Session.State, src: Bytes, now: nat, dstLen: nat)
    requires Uses(t, s)
    ensures
      var (t', r) := Encapsulate(t, src, now, dstLen);
      var (s', packet) := Session.SealPacket(s, src);
      r == SendData(packet) && Uses(t', s')
  {
  }

  /** A session in use opens what is sealed for it, and stays in use. */
  lemma {:induction false} UsedOpens(t: Tunn, s: Session.State, packet: Session.Packet)
    requires Uses(t, s) && packet.receiverIdx == s.receivingIndex && Session.OpenPacket(s, packet).1.Ok?
    ensures
      var (t', r) := DataReceived(t, packet);
      var (s', plain) := Session.OpenPacket(s, packet);
      && Uses(t', s')
      && r == match Classify(plain.value)
              case Keepalive => Done
              case Malformed => Failed(InvalidPacket)
              case Ip(ip) => ToTunnel(ip)
  {
    LaterIsUsed(t, packet);
  }

  /** After any calls: the tunnel answers an initiation, gets the first packet of that session, and from
      then on whatever it sends goes out under the key of that session. */
  lemma {:induction false} AnsweredThenTalks(
    t: Tunn, now: nat, peer: nat, rk: Term, sk: Term, packet: Session.Packet, src: Bytes, later: nat, dstLen: nat)
    requires Timely(t, now)
    requires
      var s := Session.New(Inc(t.slots.nextIndex), peer, rk, sk);
      packet.receiverIdx == s.receivingIndex && Session.OpenPacket(s, packet).1.Ok?
    ensures
      var t1 := InitAccepted(t, peer, rk, sk).0;
      && WellFormed(t1)
      && var t2 := DataReceived(t1, packet).0;
         && WellFormed(t2)
         && Encapsulate(t2, src, later, dstLen).1
            == SendData(Session.Packet(peer, 0, Seal(sk, 0, Data(src), Empty)))
  {
    var s := Session.New(Inc(t.slots.nextIndex), peer, rk, sk);
    AnswerIsNewest(t, now, peer, rk, sk);
    var t1 := InitAccepted(t, peer, rk, sk).0;
    NewestIsUsed(t1, s, packet);
    var t2 := DataReceived(t1, packet).0;
    UsedSeals(t2, Session.OpenPacket(s, packet).0, src, later, dstLen);
  }

  // ----- A dialogue -----

  /** b has heard all that a has sent so far. */
  predicate CaughtUp(a: Session.State, b: Session.State) {
    Session.Mirrored(a, b) && ReplayWindow.Coherent(b.window) && b.window.next == a.sendingCounter
  }

  /** Two tunnels that use the two ends of one exchange, with nothing on the way. */
  predicate Joined(f: Tunn, g: Tunn, a: Session.State, b: Session.State) {
    Uses(f, a) && Uses(g, b) && CaughtUp(a, b) && CaughtUp(b, a)
  }

  /** What comes out of a packet that carries src. */
  function Heard(src: Bytes): (r: Outcome)
    ensures WellFormedIp(src) ==> r == ToTunnel(src)
    ensures src == [] ==> r == Done
  {
    PaddingIsRemoved(src, []);
    assert src + [] == src;
    match Classify(Data(src))
    case Keepalive => Done
    case Malformed => Failed(InvalidPacket)
    case Ip(ip) => ToTunnel(ip)
  }

  lemma {:induction false} SealedOpens(a: Session.State, b: Session.State, src: Bytes)
    requires CaughtUp(a, b) && CaughtUp(b, a)
    ensures
      var (a', packet) := Session.SealPacket(a, src);
      var (b', plain) := Session.OpenPacket(b, packet);
      && packet.receiverIdx == b.receivingIndex && plain == Ok(Data(src))
      && CaughtUp(a', b') && CaughtUp(b', a')
  {
  }

  /** One turn: the left or the right tunnel sends src, and the packet reaches the other. */
  datatype Turn = Turn(left: bool, src: Bytes, now: nat, dstLen: nat)

  datatype Tunnels = Tunnels(left: Tunn, right: Tunn)

  /** The sender and the receiver afterwards, and what comes out at the receiver. */
  function Sends(from: Tunn, to: Tunn, x: Turn): (Tunn, Tunn, Outcome)
    requires WellFormed(from) && WellFormed(to)
  {
    var (from', r) := Encapsulate(from, x.src, x.now, x.dstLen);
    if r.SendData? then
      var (to', heard) := DataReceived(to, r.packet);
      (from', to', heard)
    else (from', to, r)
  }

  lemma {:induction false} SendingIsHeard(from: Tunn, to: Tunn, a: Session.State, b: Session.State, x: Turn)
    returns (a': Session.State, b': Session.State)
    requires Joined(from, to, a, b)
    ensures
      var (from', to', r) := Sends(from, to, x);
      Joined(from', to', a', b') && r == Heard(x.src)
  {
    a' := Session.SealPacket(a, x.src).0;
    var packet := Session.SealPacket(a, x.src).1;
    UsedSeals(from, a, x.src, x.now, x.dstLen);
    SealedOpens(a, b, x.src);
    UsedOpens(to, b, packet);
    b' := Session.OpenPacket(b, packet).0;
  }

  lemma {:induction false} SendingForms(t: Tunn, src: Bytes, now: nat, dstLen: nat)
    requires WellFormed(t)
    ensures WellFormed(Encapsulate(t, src, now, dstLen).0)
  {
    if CurrentSession(t).None? {
      FormatKeepsRing(QueuePacket(t, src), false, now, dstLen);
      assert SameRing(t, QueuePacket(t, src));
      assert Encapsulate(t, src, now, dstLen) == FormatInitiation(QueuePacket(t, src), false, now, dstLen);
    }
  }

  lemma {:induction false} HearingForms(t: Tunn, packet: Session.Packet)
    requires WellFormed(t)
    ensures WellFormed(DataReceived(t, packet).0)
  {
    if OpensIn(t, packet) {
      OpeningStores(t, packet);
    } else {
      UnopenedChangesNothing(t, packet);
    }
  }

  predicate BothFormed(p: Tunnels) { WellFormed(p.left) && WellFormed(p.right) }

  function Speak(p: Tunnels, x: Turn): (res: (Tunnels, Outcome))
    requires BothFormed(p)
    ensures BothFormed(res.0)
  {
    var from, to := if x.left then p.left else p.right, if x.left then p.right else p.left;
    SendsForms(from, to, x);
    var (from', to', r) := Sends(from, to, x);
    (if x.left then Tunnels(from', to') else Tunnels(to', from'), r)
  }

  lemma {:induction false} SendsForms(from: Tunn, to: Tunn, x: Turn)
    requires WellFormed(from) && WellFormed(to)
    ensures WellFormed(Sends(from, to, x).0) && WellFormed(Sends(from, to, x).1)
  {
    SendingForms(from, x.src, x.now, x.dstLen);
    var r := Encapsulate(from, x.src, x.now, x.dstLen).1;
    if r.SendData? {
      HearingForms(to, r.packet);
    }
  }

  /** What comes out, turn by turn. */
  function Dialogue(p: Tunnels, turns: seq<Turn>): seq<Outcome>
    requires BothFormed(p)
    decreases |turns|
  {
    if turns == [] then [] else [Speak(p, turns[0]).1] + Dialogue(Speak(p, turns[0]).0, turns[1..])
  }

  lemma {:induction false} SpeakingIsHeard(p: Tunnels, a: Session.State, b: Session.State, x: Turn)
    returns (a': Session.State, b': Session.State)
    requires Joined(p.left, p.right, a, b)
    ensures
      var (p', r) := Speak(p, x);
      Joined(p'.left, p'.right, a', b') && r == Heard(x.src)
  {
    if x.left {
      a', b' := SendingIsHeard(p.left, p.right, a, b, x);
    } else {
      b', a' := SendingIsHeard(p.right, p.left, b, a, x);
    }
  }

  predicate AllHeard(turns: seq<Turn>, out: seq<Outcome>) {
    |out| == |turns| && forall i | 0 <= i < |turns| :: out[i] == Heard(turns[i].src)
  }

  /** Two joined tunnels can talk for as long as they like, in any order of turns: everything that is
      sent is heard, and a well-formed packet comes out as it went in. */
  lemma {:induction false} EverythingIsHeard(p: Tunnels, a: Session.State, b: Session.State, turns: seq<Turn>)
    requires Joined(p.left, p.right, a, b)
    ensures AllHeard(turns, Dialogue(p, turns))
    decreases |turns|
  {
    if turns == [] {
    } else {
      var a', b' := SpeakingIsHeard(p, a, b, turns[0]);
      EverythingIsHeard(Speak(p, turns[0]).0, a', b', turns[1..]);
    }
  }

  // ----- The handshake before it -----

  function DkOf(hybrid: bool, draw: Draw): Option<nat> { if hybrid then Some(draw.dk) else None }

  /** The initiation that f sends. */
  function InitOf(f: Full, draw: Draw): H.InitMsg {
    H.MakeInit(f.h.params, Inc(f.h.nextIndex), draw.ephemeral, draw.stamp, DkOf(f.t.hybrid, draw))
  }

  lemma {:induction false} FormatsInit(h: H.Handshake, hybrid: bool, now: nat, dstLen: nat, draw: Draw)
    requires dstLen >= H.InitSize(hybrid)
    ensures
      var (h', r) := Formatted(h, hybrid, now, dstLen, draw);
      var m := H.MakeInit(h.params, Inc(h.nextIndex), draw.ephemeral, draw.stamp, DkOf(hybrid, draw));
      && r.Ok? && r.value.msg == m && h'.params == h.params
      && h'.state == Agreement.Slot(h.params, Inc(h.nextIndex), draw.ephemeral, draw.stamp, DkOf(hybrid, draw), now)
  {
  }

  /** Asked to, f initiates: the message goes out and its handshake waits for the answer. */
  lemma {:induction false} Initiates(f: Full, now: nat, dstLen: nat, draw: Draw)
    requires Tied(f) && WellFormed(f.t) && Past(f.t, now) && dstLen >= H.InitSize(f.t.hybrid)
    ensures
      var (f1, r) := Take(f, CallHandshake(true, dstLen, draw), now);
      var sent := Initiation(f.h, f.t, f1.t, r, now, dstLen, draw);
      && r == SendInit(Inc(f.h.nextIndex)) && sent.Some? && sent.value.msg == InitOf(f, draw)
      && f1.t.hybrid == f.t.hybrid && f1.h.params == f.h.params
      && f1.h.state == Agreement.Slot(
           f.h.params, Inc(f.h.nextIndex), draw.ephemeral, draw.stamp, DkOf(f.t.hybrid, draw), now)
  {
    var t' := FormatInitiation(f.t, true, now, dstLen).0;
    FormatFits(f.t, true, now, dstLen);
    assert Aged(f.h, f.t, t') == f.h;
    FormatsInit(f.h, f.t.hybrid, now, dstLen, draw);
  }

  /** g accepts the initiation of f, and f the answer; the two sessions mirror each other. */
  lemma {:induction false} HandshakeMirrors(
    h: H.Handshake, g: H.Handshake, index: nat, draw: Draw, dk: Option<nat>, time: nat,
    e: nat, coins: nat, dstLen: nat, now: nat)
    requires Agreement.Peers(h.params, g.params)
    requires h.state == Agreement.Slot(h.params, index, draw.ephemeral, draw.stamp, dk, time)
    requires Parse(draw.stamp).Ok? && After(Parse(draw.stamp).value, g.lastStamp)
    requires dstLen >= H.RespSize(dk.Some?)
    ensures
      var reply := H.ReceiveInit(g, H.MakeInit(h.params, index, draw.ephemeral, draw.stamp, dk), e, coins, dstLen).1;
      && reply.Ok?
      && var made := H.ReceiveResponse(h, reply.value.msg, now).1;
         made.Ok? && Session.Mirrored(made.value, reply.value.session) && reply.value.msg.ct.Some? == dk.Some?
  {
    var m := H.MakeInit(h.params, index, draw.ephemeral, draw.stamp, dk);
    Agreement.GenuineInitPasses(g, h.params, index, draw.ephemeral, draw.stamp, dk);
    var stored := H.Received(g, m, Parse(draw.stamp).value);
    Agreement.GenuineResponseMirrors(
      h, index, draw.ephemeral, draw.stamp, dk, time, stored, e, coins, dstLen, now);
  }

  /** An accepted initiation gives g the newest session. */
  lemma {:induction false} AnswersNewest(g: Full, m: H.InitMsg, e: nat, coins: nat, dstLen: nat, now: nat)
    requires Tied(g) && Timely(g.t, now) && Past(g.t, now) && Parses(g.t, m.ek.Some?)
    requires H.ReceiveInit(g.h, m, e, coins, dstLen).1.Ok?
    ensures
      var (g1, r) := Take(g, GetInit(m, e, coins, dstLen), now);
      var s := H.ReceiveInit(g.h, m, e, coins, dstLen).1.value.session;
      r == SendResponse(s.receivingIndex) && Newest(g1.t, s)
      && s == Session.New(s.receivingIndex, s.sendingIndex, s.receiver, s.sender)
  {
    ReceiveInitOnSlots(g.h, m, e, coins, dstLen);
    ReplySessionIsNew(g.h, m, e, coins, dstLen);
    Agreement.RejectedInitUnchangedIff(g.h, m, e, coins, dstLen);
    var s := H.ReceiveInit(g.h, m, e, coins, dstLen).1.value.session;
    AnswerIsNewest(g.t, now, s.sendingIndex, s.receiver, s.sender);
    EveryInputIsEvent(g, GetInit(m, e, coins, dstLen), now);
  }

  /** An accepted response puts the session of f in use, with its first packet sealed. */
  lemma {:induction false} CompletesInUse(f: Full, m: H.RespMsg, now: nat)
    requires Tied(f) && Timely(f.t, now) && Past(f.t, now) && Parses(f.t, m.ct.Some?)
    requires H.ReceiveResponse(f.h, m, now).1.Ok?
    ensures
      var (f1, r) := Take(f, GetResponse(m), now);
      var (s, packet) := Session.SealPacket(H.ReceiveResponse(f.h, m, now).1.value, []);
      r == SendData(packet) && Uses(f1.t, s)
      && H.ReceiveResponse(f.h, m, now).1.value
         == Session.New(s.receivingIndex, s.sendingIndex, s.receiver, s.sender)
  {
    ReceiveResponseOnSlots(f.h, m, now);
    InitiatorSessionIsNew(f.h, m, now);
    var s := H.ReceiveResponse(f.h, m, now).1.value;
    ResponseIsUsed(f.t, now, s.receivingIndex, s.sendingIndex, s.receiver, s.sender);
    EveryInputIsEvent(f, GetResponse(m), now);
  }

  /** The first packet of the new session joins the two tunnels. */
  lemma {:induction false} FirstPacketJoins(f: Tunn, g: Tunn, made: Session.State, s: Session.State)
    returns (a: Session.State, b: Session.State)
    requires Session.Mirrored(made, s)
    requires made == Session.New(made.receivingIndex, made.sendingIndex, made.receiver, made.sender)
    requires s == Session.New(s.receivingIndex, s.sendingIndex, s.receiver, s.sender)
    requires Uses(f, Session.SealPacket(made, []).0) && Newest(g, s)
    ensures
      var (g', r) := DataReceived(g, Session.SealPacket(made, []).1);
      r == Done && Joined(f, g', a, b)
  {
    var packet := Session.SealPacket(made, []).1;
    a := Session.SealPacket(made, []).0;
    SealedOpens(made, s, []);
    b := Session.OpenPacket(s, packet).0;
    NewestIsUsed(g, s, packet);
  }

  /** The two tunnels belong together, and f's clock is past what g last heard. */
  predicate Matched(f: Full, g: Full, draw: Draw) {
    && Agreement.Peers(f.h.params, g.h.params) && f.t.hybrid == g.t.hybrid
    && Parse(draw.stamp).Ok? && After(Parse(draw.stamp).value, g.h.lastStamp)
  }

  /** What the two draw, when they act, and into what buffers. */
  datatype Circumstances = Circumstances(
    draw: Draw, e: nat, coins: nat, asked: nat, heard: nat, answered: nat, dstLen: nat)

  function Asking(f: Full, x: Circumstances): (Full, Outcome)
    requires WellFormed(f.t) && Past(f.t, x.asked)
  {
    Take(f, CallHandshake(true, x.dstLen, x.draw), x.asked)
  }

  function Answering(g: Full, m: H.InitMsg, x: Circumstances): (Full, Outcome)
    requires WellFormed(g.t) && Past(g.t, x.heard)
  {
    Take(g, GetInit(m, x.e, x.coins, x.dstLen), x.heard)
  }

  function AnswerOf(g: Full, m: H.InitMsg, x: Circumstances): Result<H.Reply> {
    H.ReceiveInit(g.h, m, x.e, x.coins, x.dstLen).1
  }

  predicate ReadyTo(f: Full, now: nat) { Tied(f) && Timely(f.t, now) && Past(f.t, now) }

  lemma {:induction false} AskedIsReady(f: Full, x: Circumstances)
    requires ReadyTo(f, x.asked) && x.asked <= x.answered
    ensures ReadyTo(Asking(f, x).0, x.answered)
  {
    FormatEffect(f.t, true, x.asked, x.dstLen);
    TimelyLater(Asking(f, x).0.t, x.asked, x.answered);
    EveryInputIsEvent(f, CallHandshake(true, x.dstLen, x.draw), x.asked);
  }

  /** After the first three messages: f uses its new session, g has its own, and the two mirror each
      other. */
  predicate Shaken(f2: Tunn, g1: Tunn, r: Outcome, made: Session.State, s: Session.State) {
    && Session.Mirrored(made, s)
    && made == Session.New(made.receivingIndex, made.sendingIndex, made.receiver, made.sender)
    && s == Session.New(s.receivingIndex, s.sendingIndex, s.receiver, s.sender)
    && r == SendData(Session.SealPacket(made, []).1)
    && Uses(f2, Session.SealPacket(made, []).0) && Newest(g1, s)
  }

  lemma {:induction false} Shake(f: Full, g: Full, x: Circumstances) returns (made: Session.State, s: Session.State)
    requires ReadyTo(f, x.asked) && ReadyTo(g, x.heard) && x.asked <= x.answered && Matched(f, g, x.draw)
    requires x.dstLen >= H.InitSize(f.t.hybrid)
    ensures ReadyTo(Asking(f, x).0, x.answered) && AnswerOf(g, InitOf(f, x.draw), x).Ok?
    ensures
      var m := InitOf(f, x.draw);
      var (f2, r) := Take(Asking(f, x).0, GetResponse(AnswerOf(g, m, x).value.msg), x.answered);
      Shaken(f2.t, Answering(g, m, x).0.t, r, made, s)
  {
    var m := InitOf(f, x.draw);
    AskedIsReady(f, x);
    Initiates(f, x.asked, x.dstLen, x.draw);
    var f1 := Asking(f, x).0;
    HandshakeMirrors(
      f1.h, g.h, Inc(f.h.nextIndex), x.draw, DkOf(f.t.hybrid, x.draw), x.asked, x.e, x.coins, x.dstLen, x.answered);
    var resp := AnswerOf(g, m, x).value.msg;
    AnswersNewest(g, m, x.e, x.coins, x.dstLen, x.heard);
    CompletesInUse(f1, resp, x.answered);
    made, s := H.ReceiveResponse(f1.h, resp, x.answered).1.value, AnswerOf(g, m, x).value.session;
  }

  /** From any two tunnels in any reachable state that belong together: f initiates, g answers, f
      confirms with an empty packet that g takes, and from then on the two can talk for as long as they
      like; everything that either sends is heard by the other. */
  lemma {:induction false} HandshakeThenDialogue(f: Full, g: Full, x: Circumstances, turns: seq<Turn>)
    requires ReadyTo(f, x.asked) && ReadyTo(g, x.heard) && x.asked <= x.answered && Matched(f, g, x.draw)
    requires x.dstLen >= H.InitSize(f.t.hybrid)
    ensures
      var (f1, r1) := Asking(f, x);
      var init := Initiation(f.h, f.t, f1.t, r1, x.asked, x.dstLen, x.draw);
      && r1.SendInit? && init.Some? && ReadyTo(f1, x.answered)
      && var m := init.value.msg;
         var (g1, r2) := Answering(g, m, x);
         && r2.SendResponse? && AnswerOf(g, m, x).Ok?
         && var (f2, r3) := Take(f1, GetResponse(AnswerOf(g, m, x).value.msg), x.answered);
            && r3.SendData? && WellFormed(f2.t) && WellFormed(g1.t)
            && var (g2, r4) := DataReceived(g1.t, r3.packet);
               && r4 == Done && WellFormed(g2)
               && AllHeard(turns, Dialogue(Tunnels(f2.t, g2), turns))
  {
    Initiates(f, x.asked, x.dstLen, x.draw);
    var made, s := Shake(f, g, x);
    var m := InitOf(f, x.draw);
    AnswersNewest(g, m, x.e, x.coins, x.dstLen, x.heard);
    var g1, f1 := Answering(g, m, x).0, Asking(f, x).0;
    var f2 := Take(f1, GetResponse(AnswerOf(g, m, x).value.msg), x.answered).0;
    var a, b := FirstPacketJoins(f2.t, g1.t, made, s);
    EverythingIsHeard(Tunnels(f2.t, DataReceived(g1.t, Session.SealPacket(made, []).1).0), a, b, turns);
  }
}

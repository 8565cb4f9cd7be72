/** How the parts of a tunnel, the handshake object and the rest, make up the whole of module
    TunnelMessages: what the methods of the `Tunn` object promise about their parts, and that this is
    what the inputs do to the whole. */
module TunnelParts {
  import opened Wrappers
  import opened Terms
  import opened LocalIndex
  import opened TunnelSpec
  import opened TunnelMessages
  import H = HandshakeSpec
  import Limits = RateLimiterSpec
  import Session

  /** The handshake after a call with outcome r, from h, and the initiation that the call sends. */
  predicate Sent(
    hybrid: bool, h: H.Handshake, h': H.Handshake, r: Outcome, sent: Option<H.Initiation>,
    now: nat, dstLen: nat, draw: Draw)
  {
    if r.SendInit? then sent.Some? && Formatted(h, hybrid, now, dstLen, draw) == (h', Ok(sent.value))
    else h' == h && sent.None?
  }

  /** The handshake after calls that sent one initiation, or none. */
  predicate Made(
    hybrid: bool, h: H.Handshake, h': H.Handshake, init: Option<H.Initiation>, now: nat, dstLen: nat, draw: Draw)
  {
    match init
    case Some(i) => Formatted(h, hybrid, now, dstLen, draw) == (h', Ok(i))
    case None => h' == h
  }

  /** The response that an initiation gets: the handshake's, if it accepts. */
  predicate Replied(h: H.Handshake, m: H.InitMsg, ephemeral: nat, coins: nat, dstLen: nat, reply: Option<H.Reply>) {
    match H.ReceiveInit(h, m, ephemeral, coins, dstLen).1
    case Ok(made) => reply == Some(made)
    case Err(_) => reply.None?
  }

  lemma {:induction false} ClassicalDrawsNoKey(h: H.Handshake, draw: Draw, now: nat, dstLen: nat)
    ensures Formatted(h, false, now, dstLen, draw)
         == H.FormatInit(h, false, draw.ephemeral, 0, draw.stamp, now, dstLen)
  {
  }

  lemma {:induction false} ClassicalNeedsNoCoins(h: H.Handshake, m: H.InitMsg, ephemeral: nat, coins: nat, dstLen: nat)
    requires m.ek.None?
    ensures H.ReceiveInit(h, m, ephemeral, coins, dstLen) == H.ReceiveInit(h, m, ephemeral, 0, dstLen)
  {
  }

  // ----- Calls -----

  /** A call does not make the handshake expire, unless it gives up. */
  lemma {:induction false} FormatNeverExpires(t: Tunn, force: bool, now: nat, dstLen: nat)
    ensures FormatInitiation(t, force, now, dstLen).0.slots.state.Expired? ==> t.slots.state.Expired?
  {
  }

  lemma {:induction false} EncapsulateNeverExpires(t: Tunn, src: Bytes, now: nat, dstLen: nat)
    requires WellFormed(t)
    ensures Encapsulate(t, src, now, dstLen).0.slots.state.Expired? ==> t.slots.state.Expired?
  {
    FormatNeverExpires(QueuePacket(t, src), false, now, dstLen);
  }

  lemma {:induction false} QueuedNeverExpires(t: Tunn, now: nat, dstLen: nat)
    requires WellFormed(t)
    ensures SendQueued(t, now, dstLen).0.slots.state.Expired? ==> t.slots.state.Expired?
  {
    if t.queue != [] {
      EncapsulateNeverExpires(t.(queue := t.queue[1..]), t.queue[0], now, dstLen);
    }
  }

  lemma {:induction false} MaintainNeverExpires(t: Tunn, now: nat, dstLen: nat)
    requires WellFormed(t) && ClocksPast(t.clocks, now)
    ensures Maintain(t, now, dstLen).0.slots.state.Expired? ==> t.slots.state.Expired?
  {
    var t1 := if Unanswered(t, now) then t.(wantHandshake := false) else t;
    var t2 := if Unacknowledged(t, now) then t1.(wantKeepalive := false) else t1;
    var t3 := if PersistentDue(t, now) then TickKeepalive(t2) else t2;
    FormatNeverExpires(t1, true, now, dstLen);
    EncapsulateNeverExpires(t3, [], now, dstLen);
  }

  /** A call that may have dropped the cookie, but does not give up. */
  lemma {:induction false} PartsMakeWhole(
    f: Full, g: Full, t': Tunn, h': H.Handshake, r: Outcome, sent: Option<H.Initiation>,
    now: nat, dstLen: nat, draw: Draw)
    requires g.t.hybrid == f.t.hybrid && Sent(g.t.hybrid, g.h, h', r, sent, now, dstLen, draw)
    requires g.h == if f.t.hasCookie && !g.t.hasCookie then H.ClearCookie(f.h) else f.h
    requires t'.hasCookie == g.t.hasCookie && (t'.slots.state.Expired? ==> f.t.slots.state.Expired?)
    ensures Called(f, (t', r), now, dstLen, draw) == (Full(h', t'), r)
    ensures sent == Initiation(f.h, f.t, t', r, now, dstLen, draw)
  {
  }

  /** What sending a packet does to the parts is what that input does to the whole. */
  lemma {:induction false} SendIsTaken(
    f: Full, src: Bytes, t': Tunn, h': H.Handshake, r: Outcome, sent: Option<H.Initiation>,
    now: nat, dstLen: nat, draw: Draw)
    requires WellFormed(f.t) && Past(f.t, now) && Sent(f.t.hybrid, f.h, h', r, sent, now, dstLen, draw)
    requires Encapsulate(f.t, src, now, dstLen) == (t', r)
    ensures Take(f, CallSend(src, dstLen, draw), now) == (Full(h', t'), r)
  {
    EncapsulateFits(f.t, src, now, dstLen);
    EncapsulateNeverExpires(f.t, src, now, dstLen);
    PartsMakeWhole(f, f, t', h', r, sent, now, dstLen, draw);
  }

  /** What flushing the queue does to the parts is what that input does to the whole. */
  lemma {:induction false} FlushIsTaken(
    f: Full, t': Tunn, h': H.Handshake, r: Outcome, sent: Option<H.Initiation>,
    now: nat, dstLen: nat, draw: Draw)
    requires WellFormed(f.t) && Past(f.t, now) && Sent(f.t.hybrid, f.h, h', r, sent, now, dstLen, draw)
    requires SendQueued(f.t, now, dstLen) == (t', r)
    ensures Take(f, CallFlush(dstLen, draw), now) == (Full(h', t'), r)
  {
    FlushFits(f.t, now, dstLen);
    QueuedNeverExpires(f.t, now, dstLen);
    PartsMakeWhole(f, f, t', h', r, sent, now, dstLen, draw);
  }

  /** What asking for a handshake does to the parts is what that input does to the whole. */
  lemma {:induction false} HandshakeIsTaken(
    f: Full, force: bool, t': Tunn, h': H.Handshake, r: Outcome, sent: Option<H.Initiation>,
    now: nat, dstLen: nat, draw: Draw)
    requires WellFormed(f.t) && Past(f.t, now) && Sent(f.t.hybrid, f.h, h', r, sent, now, dstLen, draw)
    requires FormatInitiation(f.t, force, now, dstLen) == (t', r)
    ensures Take(f, CallHandshake(force, dstLen, draw), now) == (Full(h', t'), r)
  {
    FormatFits(f.t, force, now, dstLen);
    FormatNeverExpires(f.t, force, now, dstLen);
    PartsMakeWhole(f, f, t', h', r, sent, now, dstLen, draw);
  }

  // ----- The periodic call -----

  /** What the periodic call does once sessions and cookie are checked. */
  predicate Attends(
    g: Full, f': Full, r: Outcome, sent: Option<H.Initiation>, now: nat, dstLen: nat, draw: Draw)
    requires WellFormed(g.t) && Past(g.t, now)
  {
    if g.t.slots.state.Expired? then f' == g && r == Failed(ConnectionExpired) && sent.None?
    else if ConnectionDead(g.t, now)
    then f' == Full(H.SetExpired(g.h), GivenUp(g.t, now)) && r == Failed(ConnectionExpired) && sent.None?
    else
      && Sent(g.t.hybrid, g.h, f'.h, r, sent, now, dstLen, draw)
      && (f'.t, r) == if g.t.slots.state.InitSent? then Retry(g.t, now, dstLen) else Maintain(g.t, now, dstLen)
  }

  /** A call that may have dropped the cookie, and gives up. */
  lemma {:induction false} GivingUpMakesWhole(f: Full, g: Full, t': Tunn, r: Outcome, now: nat, dstLen: nat, draw: Draw)
    requires g.h == if f.t.hasCookie && !g.t.hasCookie then H.ClearCookie(f.h) else f.h
    requires t'.hasCookie == g.t.hasCookie && t'.slots.state.Expired? && !f.t.slots.state.Expired? && r.Failed?
    ensures Called(f, (t', r), now, dstLen, draw) == (Full(H.SetExpired(g.h), t'), r)
  {
  }

  lemma {:induction false} AttendedFits(g: Full, t': Tunn, r: Outcome, now: nat, dstLen: nat)
    requires WellFormed(g.t) && Past(g.t, now) && !g.t.slots.state.Expired?
    requires (t', r) == if g.t.slots.state.InitSent? then Retry(g.t, now, dstLen) else Maintain(g.t, now, dstLen)
    ensures t'.hasCookie == g.t.hasCookie && !t'.slots.state.Expired?
  {
    if g.t.slots.state.InitSent? {
      FormatFits(g.t, true, now, dstLen);
      FormatNeverExpires(g.t, true, now, dstLen);
    } else {
      MaintainFits(g.t, now, dstLen);
      MaintainNeverExpires(g.t, now, dstLen);
    }
  }

  /** What the first half of the periodic call leaves. */
  function Checked(t: Tunn, now: nat): Tunn
    requires WellFormed(t) && Past(t, now)
  {
    var t1 := Refreshed(t, now);
    if t1.slots.state.Expired? then t1 else CookieChecked(t1, now)
  }

  lemma {:induction false} CheckedKeeps(t: Tunn, now: nat)
    requires WellFormed(t) && Past(t, now)
    ensures
      var t' := Checked(t, now);
      && WellFormed(t') && Past(t', now) && t'.hybrid == t.hybrid && t'.slots == t.slots
      && (t'.hasCookie ==> t.hasCookie)
  {
  }

  lemma {:induction false} UpdateIsAttended(
    f: Full, g: Full, f': Full, r: Outcome, sent: Option<H.Initiation>, now: nat, dstLen: nat, draw: Draw)
    requires WellFormed(f.t) && Past(f.t, now) && g.t == Checked(f.t, now)
    requires WellFormed(g.t) && Past(g.t, now) && Attends(g, f', r, sent, now, dstLen, draw)
    ensures UpdateTimers(f.t, now, dstLen) == (f'.t, r)
  {
  }

  /** The two halves of the periodic call make the whole. */
  lemma {:induction false} RefreshThenAttend(
    f: Full, g: Full, f': Full, r: Outcome, sent: Option<H.Initiation>, now: nat, dstLen: nat, draw: Draw)
    requires WellFormed(f.t) && Past(f.t, now) && WellFormed(g.t) && Past(g.t, now)
    requires g.t.slots == f.t.slots && g.t.hybrid == f.t.hybrid && (g.t.hasCookie ==> f.t.hasCookie)
    requires g.h == if f.t.hasCookie && !g.t.hasCookie then H.ClearCookie(f.h) else f.h
    requires Attends(g, f', r, sent, now, dstLen, draw)
    ensures Called(f, (f'.t, r), now, dstLen, draw) == (f', r)
    ensures sent == Initiation(f.h, f.t, f'.t, r, now, dstLen, draw)
  {
    if !g.t.slots.state.Expired? {
      if ConnectionDead(g.t, now) {
        GivingUpMakesWhole(f, g, f'.t, r, now, dstLen, draw);
      } else {
        AttendedFits(g, f'.t, r, now, dstLen);
        PartsMakeWhole(f, g, f'.t, f'.h, r, sent, now, dstLen, draw);
      }
    }
  }

  // ----- Datagrams -----

  /** What arrives in a datagram. */
  datatype Datagram =
    | Init(init: H.InitMsg, macs: H.Macs)
    | Resp(resp: H.RespMsg, macs: H.Macs)
    | Cookie(reply: H.CookieReply)
    | DataPacket(packet: Session.Packet, ctLen: nat)

  /** The datagram as the rate limiter sees it. */
  function Limited(d: Datagram): Limits.Incoming {
    match d
    case Init(m, macs) => Limits.Handshake(m.sender, H.InitBody(m), macs)
    case Resp(m, macs) => Limits.Handshake(m.sender, H.RespBody(m), macs)
    case _ => Limits.Other
  }

  /** A handshake message whose mac1 was not made with this key. */
  predicate WrongMac1(key: Term, d: Datagram) {
    (d.Init? && d.macs.mac1 != Mac(key, H.InitBody(d.init))) || (d.Resp? && d.macs.mac1 != Mac(key, H.RespBody(d.resp)))
  }

  predicate IsHandshake(d: Datagram) { d.Init? || d.Resp? }

  /** mac1 covers the whole message: whatever is changed in a handshake message, its type included, while
      its mac1 stays, the result is wrong under every key. */
  lemma {:induction false} Mac1CoversMessage(key: Term, d: Datagram, key': Term, d': Datagram)
    requires IsHandshake(d) && IsHandshake(d') && !WrongMac1(key, d) && d'.macs.mac1 == d.macs.mac1
    ensures
      WrongMac1(key', d')
      <==> key' != key || !((d.Init? && d'.Init? && d'.init == d.init) || (d.Resp? && d'.Resp? && d'.resp == d.resp))
  {
    match (d, d') {
      case (Init(m, _), Init(m', _)) => if H.InitBody(m) == H.InitBody(m') { H.InitBodyNames(m, m'); }
      case (Resp(r, _), Resp(r', _)) => if H.RespBody(r) == H.RespBody(r') { H.RespBodyNames(r, r'); }
      case (Init(m, _), Resp(r, _)) => H.BodiesDiffer(m, m, r, r);
      case (Resp(r, _), Init(m, _)) => H.BodiesDiffer(m, m, r, r);
    }
  }

  /** The datagram as an input of the tunnel. */
  function InputOf(d: Datagram, ephemeral: nat, coins: nat, dstLen: nat): Input {
    match d
    case Init(m, _) => GetInit(m, ephemeral, coins, dstLen)
    case Resp(m, _) => GetResponse(m)
    case Cookie(m) => GetCookie(m)
    case DataPacket(packet, _) => GetData(packet)
  }

  /** The destination takes the ciphertext, if a session is there to open it. */
  predicate TakesData(t: Tunn, packet: Session.Packet, ctLen: nat, dstLen: nat)
    requires WellFormed(t)
  {
    t.sessions[packet.receiverIdx % N_SESSIONS].Some? ==> ctLen <= dstLen
  }

  /** Types 5 and 6 are not known to a tunnel built without the `pq` feature. */
  predicate Known(hybrid: bool, d: Datagram) {
    (d.Init? && d.init.ek.Some?) || (d.Resp? && d.resp.ct.Some?) ==> hybrid
  }
}

/** The part of the handshake that timers, the session ring and index allocation see: which
    initiation is outstanding, its local index and when it was sent.  The cryptography decides
    whether a message is accepted; what acceptance does to the slots is independent of it. */
module HandshakeSlots {
  import opened Wrappers
  import opened Terms
  import HandshakeSpec
  import Agreement
  import LocalIndex

  datatype Slot = Free | InitSent(localIndex: nat, timeSent: nat) | InitReceived | Expired

  datatype Slots = Slots(state: Slot, previous: Slot, nextIndex: nat)

  predicate InProgress(s: Slots) { !s.state.Free? && !s.state.Expired? }

  /** A new initiation: the next index, and the old attempt stays reachable as `previous`. */
  function Initiate(s: Slots, now: nat): Slots {
    var index := LocalIndex.Inc(s.nextIndex);
    Slots(InitSent(index, now), s.state, index)
  }

  /** An initiation of the peer that is answered. */
  function Answer(s: Slots): Slots {
    Slots(Free, s.state, LocalIndex.Inc(s.nextIndex))
  }

  /** An initiation of the peer that was stored but not answered, for want of reply space. */
  function Store(s: Slots): Slots {
    Slots(InitReceived, s.state, s.nextIndex)
  }

  predicate IsAwaited(s: Slots, index: nat) {
    (s.state.InitSent? && s.state.localIndex == index) || (s.previous.InitSent? && s.previous.localIndex == index)
  }

  /** A response to `index` was accepted: the newer initiation is tried first. */
  function Complete(s: Slots, index: nat): Slots
    requires IsAwaited(s, index)
  {
    if s.state.InitSent? && s.state.localIndex == index then s.(state := Free) else s.(previous := Free)
  }

  function Expire(s: Slots): Slots { s.(state := Expired, previous := Expired) }

  // ----- This view is exact -----

  function SlotOf(s: HandshakeSpec.State): Slot {
    match s
    case Idle => Free
    case InitSent(index, _, _, time, _) => InitSent(index, time)
    case InitReceived(_, _, _, _) => InitReceived
    case Expired => Expired
  }

  function SlotsOf(h: HandshakeSpec.Handshake): Slots {
    Slots(SlotOf(h.state), SlotOf(h.previous), h.nextIndex)
  }

  /** Every handshake operation acts on the slots as the functions above say, and the local index
      of the session it makes is the one the slots name. */
  lemma {:induction false} FormatInitOnSlots(
    h: HandshakeSpec.Handshake, hybrid: bool, e: nat, dk: nat, stamp: Bytes, now: nat, dstLen: nat)
    ensures
      var (h', r) := HandshakeSpec.FormatInit(h, hybrid, e, dk, stamp, now, dstLen);
      if dstLen < HandshakeSpec.InitSize(hybrid)
      then r == Err(DestinationBufferTooSmall) && SlotsOf(h') == SlotsOf(h)
      else r.Ok? && SlotsOf(h') == Initiate(SlotsOf(h), now)
           && r.value.msg.sender == SlotsOf(h').nextIndex
  {
  }

  lemma {:induction false} ReceiveInitOnSlots(
    h: HandshakeSpec.Handshake, m: HandshakeSpec.InitMsg, e: nat, coins: nat, dstLen: nat)
    ensures
      var (h', r) := HandshakeSpec.ReceiveInit(h, m, e, coins, dstLen);
      if HandshakeSpec.CheckInit(h, m).Err? then r.Err? && SlotsOf(h') == SlotsOf(h)
      else if dstLen < HandshakeSpec.RespSize(m.ek.Some?) then r.Err? && SlotsOf(h') == Store(SlotsOf(h))
      else SlotsOf(h') == Answer(SlotsOf(h))
           && (r.Ok? <==> !Agreement.LateRefusal(m, dstLen))
           && (r.Ok? ==> r.value.session.receivingIndex == SlotsOf(h').nextIndex)
  {
  }

  lemma {:induction false} ReceiveResponseOnSlots(h: HandshakeSpec.Handshake, m: HandshakeSpec.RespMsg, now: nat)
    ensures
      var (h', r) := HandshakeSpec.ReceiveResponse(h, m, now);
      if r.Err? then h' == h
      else && IsAwaited(SlotsOf(h), m.receiver)
           && SlotsOf(h') == Complete(SlotsOf(h), m.receiver)
           && r.value.receivingIndex == m.receiver
  {
  }
}

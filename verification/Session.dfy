/** Transport sessions (boringtun/src/noise/session.rs): sealing, opening, and the object
    that keeps the counters. */
module Session {
  import opened Wrappers
  import opened Terms
  import opened ReplayWindow

  const DATA_OVERHEAD_SZ: nat := 32

  datatype Packet = Packet(receiverIdx: nat, counter: nat, box: Term)

  /** What a session is, with the counter validator as the set of accepted counters. */
  datatype State = State(
    receivingIndex: nat,
    sendingIndex: nat,
    receiver: Term,
    sender: Term,
    sendingCounter: nat,
    window: Window)

  function New(localIndex: nat, peerIndex: nat, receivingKey: Term, sendingKey: Term): State {
    State(localIndex, peerIndex, receivingKey, sendingKey, 0, Window(0, {}))
  }

  /** The packet that carries `payload` as the `counter`-th one of this session. */
  function PacketAt(s: State, counter: nat, payload: Bytes): Packet {
    Packet(s.sendingIndex, counter, Seal(s.sender, counter, Data(payload), Empty))
  }

  function SealPacket(s: State, payload: Bytes): (State, Packet) {
    (s.(sendingCounter := s.sendingCounter + 1), PacketAt(s, s.sendingCounter, payload))
  }

  function OpenPacket(s: State, p: Packet): (State, Result<Term>) {
    if p.receiverIdx != s.receivingIndex then (s, Err(WrongIndex))
    else match WillAccept(s.window, p.counter)
      case Err(e) => (s, Err(e))
      case Ok(_) =>
        match Open(s.receiver, p.counter, p.box, Empty)
        case None => (s, Err(InvalidAeadTag))
        case Some(plain) =>
          match Mark(s.window, p.counter)
          case (w, Err(e)) => (s, Err(e))
          case (w, Ok(_)) => (s.(window := w), Ok(plain))
  }

  /** Two ends of one handshake: each sends with the other's receiving key and index. */
  predicate Mirrored(a: State, b: State) {
    && a.sender == b.receiver && a.receiver == b.sender
    && a.sendingIndex == b.receivingIndex && a.receivingIndex == b.sendingIndex
  }

  /** Opening succeeds on exactly the boxes sealed for this key and counter, for counters that
      are new and in reach, and then returns the sealed payload; otherwise nothing changes. */
  lemma {:induction false} OpensExactly(s: State, p: Packet)
    requires Coherent(s.window)
    ensures
      var (s', r) := OpenPacket(s, p);
      && (r.Ok? <==> && p.receiverIdx == s.receivingIndex
                     && p.box.Seal? && p.box.key == s.receiver
                     && p.box.nonce == p.counter && p.box.aad == Empty
                     && p.counter !in s.window.accepted && s.window.next <= p.counter + N_BITS)
      && (r.Ok? ==> && r.value == p.box.plain
                    && s'.window.accepted == s.window.accepted + {p.counter})
      && (r.Err? ==> s' == s)
      && Coherent(s'.window)
  {
  }

  /** What a refusal says: another index, a counter more than 1024 behind, one that was accepted before, or
      a box that does not open, in this order. */
  lemma {:induction false} RefusalSays(s: State, p: Packet)
    requires Coherent(s.window)
    ensures
      var r := OpenPacket(s, p).1;
      var mine, late := p.receiverIdx == s.receivingIndex, p.counter + 1024 < s.window.next;
      && (r == Err(WrongIndex) <==> !mine)
      && (r == Err(InvalidCounter) <==> mine && late)
      && (r == Err(DuplicateCounter) <==> mine && !late && p.counter in s.window.accepted)
      && (r.Err? && mine && !late && p.counter !in s.window.accepted ==> r == Err(InvalidAeadTag))
  {
  }

  class Session {
    const receivingIndex: nat
    const sendingIndex: nat
    const receiver: Term
    const sender: Term
    var sendingCounter: nat
    const validator: CounterValidator

    ghost predicate Valid()
      reads this, validator, validator.bitmap
    {
      validator.Valid() && validator.receiveCnt == |validator.accepted|
    }

    ghost function Abs(): State
      reads this, validator
    {
      State(receivingIndex, sendingIndex, receiver, sender, sendingCounter, validator.Abs())
    }

    constructor (localIndex: nat, peerIndex: nat, receivingKey: Term, sendingKey: Term)
      ensures Valid() && fresh(validator) && fresh(validator.bitmap)
      ensures Abs() == New(localIndex, peerIndex, receivingKey, sendingKey)
    {
      receivingIndex, sendingIndex := localIndex, peerIndex;
      receiver, sender := receivingKey, sendingKey;
      sendingCounter := 0;
      validator := new CounterValidator();
    }

    method FormatPacketData(src: Bytes, dstLen: nat) returns (packet: Packet)
      requires Valid()
      requires |src| + DATA_OVERHEAD_SZ <= dstLen
      modifies this`sendingCounter
      ensures Valid()
      ensures (Abs(), packet) == SealPacket(old(Abs()), src)
    {
      var counter := sendingCounter;
      sendingCounter := sendingCounter + 1;
      packet := Packet(sendingIndex, counter, Seal(sender, counter, Data(src), Empty));
    }

    method ReceivingCounterMark(counter: nat) returns (r: Result<()>)
      requires Valid()
      requires counter + N_BITS < U64_LIMIT
      modifies validator, validator.bitmap
      ensures Valid()
      ensures (validator.Abs(), r) == Mark(old(validator.Abs()), counter)
    {
      r := validator.MarkDidReceive(counter);
      if r.Ok? {
        validator.receiveCnt := validator.receiveCnt + 1;
      }
    }

    method ReceivePacketData(packet: Packet, ctLen: nat, dstLen: nat) returns (r: Result<Term>)
      requires Valid() && ctLen <= dstLen
      requires packet.counter + N_BITS < U64_LIMIT
      modifies validator, validator.bitmap
      ensures Valid()
      ensures (Abs(), r) == OpenPacket(old(Abs()), packet)
    {
      if packet.receiverIdx != receivingIndex {
        return Err(WrongIndex);
      }
      var quick := validator.QuickCheck(packet.counter);
      if quick.Err? {
        return Err(quick.error);
      }
      var plain := Open(receiver, packet.counter, packet.box, Empty);
      if plain.None? {
        return Err(InvalidAeadTag);
      }
      var marked := ReceivingCounterMark(packet.counter);
      // only a concurrent receiver can make the mark fail here, see module Transport
      return if marked.Ok? then Ok(plain.value) else Err(InvalidCounter);
    }

    method CurrentPacketCnt() returns (expected: nat, received: nat)
      requires Valid()
      ensures expected == validator.next && received == |validator.accepted|
      ensures received <= expected
    {
      AcceptedFits(validator.Abs());
      expected, received := validator.next, validator.receiveCnt;
    }
  }
}

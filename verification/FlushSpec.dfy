/** The flush loop of boringtun/src/device/mod.rs: `decapsulate` with an empty datagram until it
    has nothing more for the network. */
module FlushSpec {
  import opened Wrappers
  import opened Terms
  import opened HandshakeSlots
  import opened TunnelSpec
  import HandshakeSpec
  import Session

  predicate ToNetwork(r: Outcome) { r.SendInit? || r.SendResponse? || r.SendData? }

  /** Bounds the calls still to come: with a session one per queued packet, without one at most
      a handshake initiation. */
  function CallsLeft(t: Tunn): nat
    requires WellFormed(t)
  {
    if CurrentSession(t).Some? then |t.queue| else if InProgress(t.slots) then 0 else 1
  }

  lemma {:induction false} SealingShrinks(t: Tunn, now: nat, dstLen: nat)
    requires WellFormed(t) && CurrentSession(t).Some? && t.queue != []
    ensures
      var (t1, r) := SendQueued(t, now, dstLen);
      var s := CurrentSession(t).value;
      && WellFormed(t1) && t1.queue == t.queue[1..]
      && CurrentSession(t1) == Some(s.(sendingCounter := s.sendingCounter + 1))
      && r == SendData(Session.PacketAt(s, s.sendingCounter, t.queue[0]))
  {
  }

  /** Asking for an initiation leaves sessions and queue alone. */
  lemma {:induction false} InitiationStarts(t: Tunn, now: nat, dstLen: nat)
    requires WellFormed(t)
    ensures
      var (t1, r) := FormatInitiation(t, false, now, dstLen);
      && t1.sessions == t.sessions && t1.sessionTimers == t.sessionTimers && t1.current == t.current
      && t1.queue == t.queue && !r.SendResponse? && !r.SendData?
      && (r.SendInit? <==> !InProgress(t.slots) && dstLen >= HandshakeSpec.InitSize(t.hybrid))
      && (r.SendInit? ==> InProgress(t1.slots)) && (r.Failed? || r.Done? || r.SendInit?)
  {
  }

  lemma {:induction false} FlushProgress(t: Tunn, now: nat, dstLen: nat)
    requires WellFormed(t)
    ensures
      var (t1, r) := SendQueued(t, now, dstLen);
      WellFormed(t1) && (ToNetwork(r) ==> CallsLeft(t1) < CallsLeft(t))
  {
    if t.queue != [] {
      if CurrentSession(t).Some? {
        SealingShrinks(t, now, dstLen);
      } else {
        InitiationStarts(QueuePacket(t.(queue := t.queue[1..]), t.queue[0]), now, dstLen);
      }
    }
  }

  /** The buffer takes every packet that will be sealed into it. */
  predicate Fits(t: Tunn, dstLen: nat)
    requires WellFormed(t)
  {
    CurrentSession(t).Some? ==>
      forall i | 0 <= i < |t.queue| :: |t.queue[i]| + Session.DATA_OVERHEAD_SZ <= dstLen
  }

  lemma {:induction false} StillFits(t: Tunn, now: nat, dstLen: nat)
    requires WellFormed(t) && ToNetwork(SendQueued(t, now, dstLen).1) && Fits(t, dstLen)
    ensures
      var t1 := SendQueued(t, now, dstLen).0;
      WellFormed(t1) && Fits(t1, dstLen)
  {
    if CurrentSession(t).Some? {
      SealingShrinks(t, now, dstLen);
    } else {
      InitiationStarts(QueuePacket(t.(queue := t.queue[1..]), t.queue[0]), now, dstLen);
    }
  }

  /** The tunnel after the loop, and what the loop put on the network.  It always ends. */
  function Flush(t: Tunn, now: nat, dstLen: nat): (Tunn, seq<Outcome>)
    requires WellFormed(t)
    decreases CallsLeft(t)
  {
    FlushProgress(t, now, dstLen);
    var (t1, r) := SendQueued(t, now, dstLen);
    if !ToNetwork(r) then (t1, [])
    else
      var (t2, sent) := Flush(t1, now, dstLen);
      (t2, [r] + sent)
  }

  /** The loop has put `sent` on the network and the tunnel is now t. */
  predicate FlushedSoFar(whole: (Tunn, seq<Outcome>), t: Tunn, sent: seq<Outcome>, now: nat, dstLen: nat)
    requires WellFormed(t)
  {
    whole == (Flush(t, now, dstLen).0, sent + Flush(t, now, dstLen).1)
  }

  lemma {:induction false} FlushStep(whole: (Tunn, seq<Outcome>), t: Tunn, sent: seq<Outcome>, now: nat, dstLen: nat)
    requires WellFormed(t) && FlushedSoFar(whole, t, sent, now, dstLen)
    ensures
      var (t1, r) := SendQueued(t, now, dstLen);
      && WellFormed(t1)
      && if ToNetwork(r) then FlushedSoFar(whole, t1, sent + [r], now, dstLen) else whole == (t1, sent)
  {
    FlushProgress(t, now, dstLen);
    var (t1, r) := SendQueued(t, now, dstLen);
    assert sent + [] == sent;
    assert sent + ([r] + Flush(t1, now, dstLen).1) == sent + [r] + Flush(t1, now, dstLen).1;
  }

  /** Each packet of the queue, in order, under consecutive counters. */
  predicate SealedInOrder(s: Session.State, queue: seq<Bytes>, sent: seq<Outcome>) {
    && |sent| == |queue|
    && forall i | 0 <= i < |sent| :: sent[i] == SendData(Session.PacketAt(s, s.sendingCounter + i, queue[i]))
  }

  lemma {:induction false} SealedCons(s: Session.State, queue: seq<Bytes>, rest: seq<Outcome>)
    requires queue != [] && SealedInOrder(s.(sendingCounter := s.sendingCounter + 1), queue[1..], rest)
    ensures SealedInOrder(s, queue, [SendData(Session.PacketAt(s, s.sendingCounter, queue[0]))] + rest)
  {
    var s1 := s.(sendingCounter := s.sendingCounter + 1);
    forall i | 0 < i <= |rest|
      ensures rest[i - 1] == SendData(Session.PacketAt(s, s.sendingCounter + i, queue[i]))
    {
      assert rest[i - 1] == SendData(Session.PacketAt(s1, s1.sendingCounter + (i - 1), queue[1..][i - 1]));
    }
  }

  lemma {:induction false} FlushCons(t: Tunn, now: nat, dstLen: nat)
    requires WellFormed(t) && CurrentSession(t).Some? && t.queue != []
    ensures
      var (t1, r) := SendQueued(t, now, dstLen);
      WellFormed(t1) && Flush(t, now, dstLen) == (Flush(t1, now, dstLen).0, [r] + Flush(t1, now, dstLen).1)
  {
    SealingShrinks(t, now, dstLen);
  }

  /** With a session in use, the loop sends the whole queue: each packet once, in order, under
      consecutive counters. */
  lemma {:induction false} FlushSendsInOrder(t: Tunn, now: nat, dstLen: nat)
    requires WellFormed(t) && CurrentSession(t).Some?
    ensures
      var (t', sent) := Flush(t, now, dstLen);
      var s := CurrentSession(t).value;
      && WellFormed(t') && t'.queue == []
      && CurrentSession(t') == Some(s.(sendingCounter := s.sendingCounter + |t.queue|))
      && SealedInOrder(s, t.queue, sent)
    decreases |t.queue|
  {
    if t.queue == [] {
    } else {
      SealingShrinks(t, now, dstLen);
      FlushCons(t, now, dstLen);
      var t1 := SendQueued(t, now, dstLen).0;
      FlushSendsInOrder(t1, now, dstLen);
      SealedCons(CurrentSession(t).value, t.queue, Flush(t1, now, dstLen).1);
    }
  }

  /** A queue with its first packet moved to the end. */
  function Rotated(q: seq<Bytes>): (r: seq<Bytes>)
    ensures multiset(r) == multiset(q)
  {
    if q == [] then q else
      assert q == [q[0]] + q[1..];
      q[1..] + [q[0]]
  }

  lemma {:induction false} QueueInProgress(t: Tunn, now: nat, dstLen: nat)
    requires WellFormed(t) && CurrentSession(t).None? && InProgress(t.slots)
    requires 0 < |t.queue| <= MAX_QUEUE_DEPTH
    ensures SendQueued(t, now, dstLen) == (t.(queue := Rotated(t.queue)), Done)
  {
  }

  lemma {:induction false} QueueStartsHandshake(t: Tunn, now: nat, dstLen: nat)
    requires WellFormed(t) && CurrentSession(t).None? && !InProgress(t.slots)
    requires 0 < |t.queue| <= MAX_QUEUE_DEPTH && dstLen >= HandshakeSpec.InitSize(t.hybrid)
    ensures
      var (t1, r) := SendQueued(t, now, dstLen);
      && r.SendInit? && WellFormed(t1) && t1.queue == Rotated(t.queue)
      && CurrentSession(t1).None? && InProgress(t1.slots)
  {
    InitiationStarts(QueuePacket(t.(queue := t.queue[1..]), t.queue[0]), now, dstLen);
  }

  lemma {:induction false} QueueHasNoRoom(t: Tunn, now: nat, dstLen: nat)
    requires WellFormed(t) && CurrentSession(t).None? && !InProgress(t.slots)
    requires 0 < |t.queue| <= MAX_QUEUE_DEPTH && dstLen < HandshakeSpec.InitSize(t.hybrid)
    ensures
      var (t1, r) := SendQueued(t, now, dstLen);
      && r == Done
      && t1.queue == (if |t.queue| == MAX_QUEUE_DEPTH then [] else [t.queue[0]]) + Rotated(t.queue)
  {
  }

  /** Once a call has sent an initiation the next one sends nothing. */
  lemma {:induction false} InitiatesOnce(t: Tunn, now: nat, dstLen: nat)
    requires WellFormed(t) && SendQueued(t, now, dstLen).1.SendInit?
    ensures
      var t1 := SendQueued(t, now, dstLen).0;
      WellFormed(t1) && SendQueued(t1, now, dstLen).1 == Done
  {
    var t0 := QueuePacket(t.(queue := t.queue[1..]), t.queue[0]);
    InitiationStarts(t0, now, dstLen);
    var t1 := SendQueued(t, now, dstLen).0;
    assert t1 == FormatInitiation(t0, false, now, dstLen).0;
    if t1.queue != [] {
      var t2 := QueuePacket(t1.(queue := t1.queue[1..]), t1.queue[0]);
      assert FormatInitiation(t2, false, now, dstLen) == (t2, Done);
    }
  }

  /** One turn of the loop: what was sent so far grows, the buffer still fits, the loop comes closer to
      its end, and no second initiation follows. */
  lemma {:induction false} FlushTurn(whole: (Tunn, seq<Outcome>), t: Tunn, sent: seq<Outcome>, now: nat, dstLen: nat)
    requires WellFormed(t) && FlushedSoFar(whole, t, sent, now, dstLen) && Fits(t, dstLen)
    requires ToNetwork(SendQueued(t, now, dstLen).1)
    ensures
      var (t1, r) := SendQueued(t, now, dstLen);
      && WellFormed(t1) && FlushedSoFar(whole, t1, sent + [r], now, dstLen) && Fits(t1, dstLen)
      && CallsLeft(t1) < CallsLeft(t)
      && (r.SendInit? ==> SendQueued(t1, now, dstLen).1 == Done)
  {
    FlushProgress(t, now, dstLen);
    FlushStep(whole, t, sent, now, dstLen);
    StillFits(t, now, dstLen);
    if SendQueued(t, now, dstLen).1.SendInit? {
      InitiatesOnce(t, now, dstLen);
    }
  }

  /** Without a session the loop ends within two calls and puts at most one initiation on the
      network. */
  lemma {:induction false} FlushWithoutSession(t: Tunn, now: nat, dstLen: nat)
    requires WellFormed(t) && CurrentSession(t).None? && |t.queue| <= MAX_QUEUE_DEPTH
    ensures
      var (t', sent) := Flush(t, now, dstLen);
      && |t'.queue| <= MAX_QUEUE_DEPTH
      && |sent| == (if t.queue != [] && !InProgress(t.slots) && dstLen >= HandshakeSpec.InitSize(t.hybrid)
                    then 1 else 0)
      && (|sent| == 1 ==> sent[0].SendInit?)
  {
    if t.queue != [] {
      if InProgress(t.slots) {
        QueueInProgress(t, now, dstLen);
      } else if dstLen >= HandshakeSpec.InitSize(t.hybrid) {
        QueueStartsHandshake(t, now, dstLen);
        QueueInProgress(SendQueued(t, now, dstLen).0, now, dstLen);
      } else {
        QueueHasNoRoom(t, now, dstLen);
      }
    }
  }

  /** A buffer too small for the initiation that is needed makes the loop queue its packet twice. */
  predicate Duplicates(t: Tunn, dstLen: nat) {
    0 < |t.queue| < MAX_QUEUE_DEPTH && !InProgress(t.slots) && dstLen < HandshakeSpec.InitSize(t.hybrid)
  }

  /** Without a session the loop keeps exactly the queued packets, if and only if the buffer can
      take the initiation, or none is needed, or the queue is full. */
  lemma {:induction false} FlushKeepsPackets(t: Tunn, now: nat, dstLen: nat)
    requires WellFormed(t) && CurrentSession(t).None? && |t.queue| <= MAX_QUEUE_DEPTH
    ensures
      var t' := Flush(t, now, dstLen).0;
      if Duplicates(t, dstLen) then multiset(t'.queue) == multiset(t.queue) + multiset{t.queue[0]}
      else multiset(t'.queue) == multiset(t.queue)
  {
    if t.queue != [] {
      if InProgress(t.slots) {
        QueueInProgress(t, now, dstLen);
      } else if dstLen >= HandshakeSpec.InitSize(t.hybrid) {
        QueueStartsHandshake(t, now, dstLen);
        QueueInProgress(SendQueued(t, now, dstLen).0, now, dstLen);
      } else {
        QueueHasNoRoom(t, now, dstLen);
      }
    }
  }

  /** A single queued packet is there twice after one flush into a small buffer. */
  lemma {:induction false} FlushDuplicates(packet: Bytes)
    ensures
      var t := New(false, 0, 0).(queue := [packet]);
      Flush(t, 0, 0).0.queue == [packet, packet]
  {
    var t := New(false, 0, 0).(queue := [packet]);
    QueueHasNoRoom(t, 0, 0);
  }
}

/** Where the numbering of the two handshake slots ends: the older one carries the newest index
    exactly when a reply buffer may be too small. */
module TunnelSlotLimits {
  import opened Clock
  import opened HandshakeSlots
  import opened TunnelRuns
  import opened TunnelHistory
  import opened TunnelMessages
  import opened MessageRuns
  import opened PeerMessages
  import H = HandshakeSpec

  /** The older outstanding initiation carries an older index. */
  predicate Behind(s: Slots) { s.previous.InitSent? ==> s.previous.localIndex != s.nextIndex }

  lemma {:induction false} RefusedTooSoon(hybrid: bool, index: nat, p: nat)
    ensures Sane(Start(hybrid, index, p))
    ensures
      var w := Next(Start(hybrid, index, p), Timed(0, Handshake(false, ROOM)));
      !Behind(Next(w, Timed(0, GotInitNoSpace)).t.slots)
  {
    StartIsSane(hybrid, index, p);
    var w := Next(Start(hybrid, index, p), Timed(0, Handshake(false, ROOM)));
    SaneIsReady(w, 0);
  }

  /** An initiation is sent; before it is answered the peer's own initiation comes, and is stored but
      for want of reply space not answered.  The older slot now carries the newest index. */
  lemma {:induction false} PreviousCarriesNewest(c: Setting) returns (x: Trace)
    requires Sound(c) && c.smallBuffers
    ensures RunOf(c, x) && !Behind(x.end.w.t.slots)
  {
    x := BeginHolds(c);
    RefusedTooSoon(c.hybrid, c.index, c.p);
    x := Calls(x, CallHandshake(false, ROOM, Fresh(x, 0)), 0);
    x := PeerIsRefused(x, false);
  }

  /** In every run of calls and messages that the flags allow, `previous` is behind. */
  ghost predicate AlwaysBehind(start: Live, smallBuffers: bool, badKeys: bool)
    requires Alive(start) && start.w.now == 0
  {
    forall inputs: seq<Timed<Input>> | InOrder(inputs) && AllAllowed(inputs, smallBuffers, badKeys) ::
      Behind(LiveRun(start, inputs).w.t.slots)
  }

  /** A malformed key leaves `state` free, so only an unanswered initiation could occupy it. */
  lemma {:induction false} RoomyIsBehind(
    params: H.Params, hybrid: bool, index: nat, p: nat, inputs: seq<Timed<Input>>)
    requires InOrder(inputs) && AllAllowed(inputs, false, true)
    ensures Alive(Begin(params, hybrid, index, p))
    ensures Behind(LiveRun(Begin(params, hybrid, index, p), inputs).w.t.slots)
  {
    MessagesKeepRing(params, hybrid, index, p, inputs);
    MessagesArePaced(params, hybrid, index, p, inputs);
    var w := LiveRun(Begin(params, hybrid, index, p), inputs).w;
    if w.t.slots.previous.InitSent? {
      PreviousCarries(w, index % 0x100_0000);
    }
  }

  lemma {:induction false} FoundNewest(c: Setting, x: Trace)
    requires RunOf(c, x) && !Behind(x.end.w.t.slots)
    ensures Alive(First(c)) && !AlwaysBehind(First(c), c.smallBuffers, c.badKeys)
  {
    LiveLeadsTo(x.start, x.inputs, x.end);
  }

  /** `previous` is always behind if and only if no reply buffer is too small; malformed keys do not
      matter. */
  lemma {:induction false} BehindIff(c: Setting)
    requires Sound(c)
    ensures Alive(First(c))
    ensures AlwaysBehind(First(c), c.smallBuffers, c.badKeys) <==> !c.smallBuffers
  {
    BeginIsAlive(c.params, c.hybrid, c.index, c.p);
    if c.smallBuffers {
      var x := PreviousCarriesNewest(c);
      FoundNewest(c, x);
    } else {
      forall inputs: seq<Timed<Input>> | InOrder(inputs) && AllAllowed(inputs, c.smallBuffers, c.badKeys)
        ensures Behind(LiveRun(First(c), inputs).w.t.slots)
      {
        AllowsMore(inputs, c.smallBuffers, c.badKeys);
        RoomyIsBehind(c.params, c.hybrid, c.index, c.p, inputs);
      }
    }
  }
}

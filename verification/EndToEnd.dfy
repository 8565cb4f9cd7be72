/** From handshake to transport: the sessions that handshakes make are the two ends of a link on
    which the transport theorems hold, in both directions. */
module EndToEnd {
  import opened Wrappers
  import opened HandshakeSpec
  import opened HandshakeRuns
  import opened SessionKeys
  import ReplayWindow
  import Session
  import Transport

  /** Nothing sent, nothing received. */
  predicate Unused(s: Session.State) {
    s.sendingCounter == 0 && s.window == ReplayWindow.Window(0, {})
  }

  predicate AllUnused(made: seq<Made>) {
    forall i | 0 <= i < |made| :: Unused(made[i].session)
  }

  lemma {:induction false} ReplyIsUnused(h: Handshake, m: InitMsg, e: nat, coins: nat, dstLen: nat)
    ensures
      var r := ReceiveInit(h, m, e, coins, dstLen).1;
      r.Ok? ==> Unused(r.value.session)
  {
  }

  lemma {:induction false} TookUnused(w: World, x: Side, m: InitMsg, h: Handshake, r: Result<Reply>)
    requires AllUnused(w.made) && (r.Ok? ==> Unused(r.value.session))
    ensures AllUnused(Took(w, x, m, h, r).made)
  {
  }

  lemma {:induction false} TakenUnused(w: World, x: Side, m: InitMsg, dstLen: nat)
    requires AllUnused(w.made)
    ensures AllUnused(TakesInit(w, x, m, dstLen).made)
  {
    ReplyIsUnused(At(w, x), m, w.drawn, w.drawn + 1, dstLen);
    TookUnused(w, x, m, Taken(w, x, m, dstLen).0, Taken(w, x, m, dstLen).1);
  }

  lemma {:induction false} ResponseUnused(w: World, x: Side, m: RespMsg)
    requires AllUnused(w.made)
    ensures AllUnused(TakesResponse(w, x, m).made)
  {
    if CheckResponse(At(w, x), m).Ok? {
      TakesResponseShape(w, x, m);
    }
  }

  lemma {:induction false} StepUnused(w: World, act: Action)
    requires AllUnused(w.made)
    ensures AllUnused(Step(w, act).made)
  {
    match act
    case Initiate(x, hybrid, dstLen) => SendVerbatim(w, x, hybrid, dstLen);
    case DeliverInit(x, m, dstLen) => TakenUnused(w, x, m, dstLen);
    case DeliverResponse(x, m) => ResponseUnused(w, x, m);
    case Expire(x) =>
    case Tick(d) =>
  }

  lemma {:induction false} MadeUnused(w: World, actions: seq<Action>)
    requires Initial(w)
    ensures AllUnused(Run(w, actions).made)
    decreases |actions|
  {
    if actions == [] {
    } else {
      MadeUnused(w, actions[..|actions| - 1]);
      StepUnused(Run(w, actions[..|actions| - 1]), actions[|actions| - 1]);
    }
  }

  /** One direction of the link between two sessions, before any traffic. */
  function Link(sender: Session.State, receiver: Session.State): Transport.World {
    Transport.World(sender, receiver, [], map[], [])
  }

  /** Every session made as initiator over a network that drops, duplicates, delays and reorders
      responses has a responder session at the other end with which it forms a link, either way. */
  lemma {:induction false} HandshakesMakeLinks(w: World, actions: seq<Action>, i: nat) returns (j: nat)
    requires Initial(w) && Faithful(w, actions)
    requires i < |Run(w, actions).made| && Run(w, actions).made[i].initiator
    ensures
      var made := Run(w, actions).made;
      && j < |made| && Matches(made[i], made[j])
      && Transport.Initial(Link(made[i].session, made[j].session))
      && Transport.Initial(Link(made[j].session, made[i].session))
  {
    FaithfulSessionsAreMirrored(w, actions, i);
    MadeUnused(w, actions);
    var made := Run(w, actions).made;
    var q :| q in made && Matches(made[i], q) && Session.Mirrored(made[i].session, q.session);
    j :| 0 <= j < |made| && made[j] == q;
  }

  /** So whatever two peers and the network did to make a session, and whatever traffic and forgery
      follow: in both directions no packet is delivered twice, and each is delivered as it was sealed. */
  lemma {:induction false} SafeEndToEnd(
    w: World, actions: seq<Action>, i: nat, out: seq<Transport.Action>, back: seq<Transport.Action>)
    returns (j: nat)
    requires Initial(w) && Faithful(w, actions)
    requires i < |Run(w, actions).made| && Run(w, actions).made[i].initiator
    ensures j < |Run(w, actions).made| && Matches(Run(w, actions).made[i], Run(w, actions).made[j])
    ensures
      var made := Run(w, actions).made;
      && Delivers(Transport.Run(Link(made[i].session, made[j].session), out))
      && Delivers(Transport.Run(Link(made[j].session, made[i].session), back))
  {
    j := HandshakesMakeLinks(w, actions, i);
    var made := Run(w, actions).made;
    Transport.DeliveredOnceAndGenuine(Link(made[i].session, made[j].session), out);
    Transport.DeliveredOnceAndGenuine(Link(made[j].session, made[i].session), back);
  }

  /** Delivered at most once each, and as sealed. */
  predicate Delivers(end: Transport.World) {
    && Transport.NoCounterTwice(end.delivered)
    && forall i | 0 <= i < |end.delivered| ::
         Transport.Genuine(end, end.delivered[i].0, end.delivered[i].1)
  }

  /** What one session of a run seals, no other session of the run opens but the other end of its
      exchange: not the session itself, not an earlier or later one of either side, however the network
      redirects the packet. */
  lemma {:induction false} OpensOnlyAtOtherEnd(
    w: World, actions: seq<Action>, i: nat, j: nat, receiver: Session.State, packet: Session.Packet)
    requires Initial(w) && i < |Run(w, actions).made| && j < |Run(w, actions).made|
    requires receiver.receiver == Run(w, actions).made[j].session.receiver
    requires packet.box.Seal? && packet.box.key == Run(w, actions).made[i].session.sender
    ensures Session.OpenPacket(receiver, packet).1.Ok? ==>
              i != j && TwoEnds(Run(w, actions).made[i], Run(w, actions).made[j])
  {
    if i == j {
      OwnKeysDiffer(w, actions, i);
    } else {
      SessionKeysAreDistinct(w, actions, i, j);
    }
  }
}

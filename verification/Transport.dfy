/** Whole runs of one direction of a transport session: any number of receiving threads,
    and a network that loses, repeats, delays, reorders and forges packets. */
module Transport {
  import opened Terms
  import opened ReplayWindow
  import opened Session

  /** A receiving thread between the three critical points of `receive_packet_data`. */
  datatype Phase = Idle | Checked(p: Packet) | Opened(p: Packet, plain: Term)

  datatype World = World(
    sender: State,
    receiver: State,
    sent: seq<Bytes>,                  // payloads by counter
    threads: map<nat, Phase>,
    delivered: seq<(nat, Term)>)       // counter and plaintext, in order of delivery

  datatype Action =
    | Send(payload: Bytes)
    | Check(thread: nat, p: Packet)
    | Decrypt(thread: nat)
    | Finish(thread: nat)

  function PhaseOf(w: World, t: nat): Phase {
    if t in w.threads then w.threads[t] else Idle
  }

  /** The network may hand over any packet at all, except that nobody but the sender can make
      boxes under the sender's key: such a box is a copy of one that was sent. */
  predicate Injectable(w: World, p: Packet) {
    p.box.Seal? && p.box.key == w.sender.sender ==>
      && p.box.nonce < |w.sent|
      && p.box == PacketAt(w.sender, p.box.nonce, w.sent[p.box.nonce]).box
  }

  function Step(w: World, a: Action): World {
    match a
    case Send(payload) =>
      w.(sender := SealPacket(w.sender, payload).0, sent := w.sent + [payload])
    case Check(t, p) =>
      if PhaseOf(w, t).Idle? && Injectable(w, p)
         && p.receiverIdx == w.receiver.receivingIndex && WillAccept(w.receiver.window, p.counter).Ok?
      then w.(threads := w.threads[t := Checked(p)]) else w
    case Decrypt(t) =>
      var ph := PhaseOf(w, t);
      if !ph.Checked? then w
      else
        var plain := Open(w.receiver.receiver, ph.p.counter, ph.p.box, Empty);
        w.(threads := w.threads[t := if plain.Some? then Opened(ph.p, plain.value) else Idle])
    case Finish(t) =>
      var ph := PhaseOf(w, t);
      if !ph.Opened? then w
      else
        var (window, r) := Mark(w.receiver.window, ph.p.counter);
        w.(receiver := w.receiver.(window := window),
           threads := w.threads[t := Idle],
           delivered := if r.Ok? then w.delivered + [(ph.p.counter, ph.plain)] else w.delivered)
  }

  function Run(w: World, actions: seq<Action>): World
    decreases |actions|
  {
    if actions == [] then w else Step(Run(w, actions[..|actions| - 1]), actions[|actions| - 1])
  }

  predicate Initial(w: World) {
    && Mirrored(w.sender, w.receiver)
    && w.sender.sendingCounter == 0 && w.sent == []
    && w.receiver.window == Window(0, {})
    && w.threads == map[] && w.delivered == []
  }

  function Counters(delivered: seq<(nat, Term)>): set<nat> {
    set i | 0 <= i < |delivered| :: delivered[i].0
  }

  /** `plain` is the payload the sender sealed under `counter`. */
  predicate Genuine(w: World, counter: nat, plain: Term) {
    counter < |w.sent| && plain == Data(w.sent[counter])
  }

  predicate NoCounterTwice(delivered: seq<(nat, Term)>) {
    forall i, j | 0 <= i < j < |delivered| :: delivered[i].0 != delivered[j].0
  }

  predicate Inv(w: World) {
    && Mirrored(w.sender, w.receiver)
    && w.sender.sendingCounter == |w.sent|
    && Coherent(w.receiver.window)
    && w.receiver.window.accepted == Counters(w.delivered)
    && w.receiver.window.next <= |w.sent|
    && NoCounterTwice(w.delivered)
    && (forall i | 0 <= i < |w.delivered| :: Genuine(w, w.delivered[i].0, w.delivered[i].1))
    && (forall t | t in w.threads :: InFlight(w, w.threads[t]))
  }

  predicate InFlight(w: World, ph: Phase) {
    match ph
    case Idle => true
    case Checked(p) => Injectable(w, p)
    case Opened(p, plain) => Genuine(w, p.counter, plain)
  }

  lemma {:induction false} SendKeepsInv(w: World, payload: Bytes)
    requires Inv(w)
    ensures Inv(Step(w, Send(payload)))
  {
    var w' := Step(w, Send(payload));
    forall t | t in w'.threads
      ensures InFlight(w', w'.threads[t])
    {
      assert InFlight(w, w.threads[t]);
    }
  }

  lemma {:induction false} FinishKeepsInv(w: World, t: nat)
    requires Inv(w)
    ensures Inv(Step(w, Finish(t)))
  {
    var w' := Step(w, Finish(t));
    var ph := PhaseOf(w, t);
    if ph.Opened? && Mark(w.receiver.window, ph.p.counter).1.Ok? {
      var n := |w.delivered|;
      assert InFlight(w, w.threads[t]);
      assert forall i | 0 <= i < n :: w'.delivered[i] == w.delivered[i];
      assert forall i | 0 <= i < n :: w.delivered[i].0 in Counters(w.delivered);
      forall c
        ensures c in Counters(w'.delivered) <==> c in Counters(w.delivered) || c == ph.p.counter
      {
        if c in Counters(w.delivered) {
          var i :| 0 <= i < n && w.delivered[i].0 == c;
          assert w'.delivered[i].0 == c;
        }
        assert w'.delivered[n].0 == ph.p.counter;
      }
      assert Counters(w'.delivered) == Counters(w.delivered) + {ph.p.counter};
    }
  }

  lemma {:induction false} StepKeepsInv(w: World, a: Action)
    requires Inv(w)
    ensures Inv(Step(w, a))
  {
    match a
    case Send(payload) => SendKeepsInv(w, payload);
    case Finish(t) => FinishKeepsInv(w, t);
    case _ =>
  }

  lemma {:induction false} RunKeepsInv(w: World, actions: seq<Action>)
    requires Initial(w)
    ensures Inv(Run(w, actions))
    decreases |actions|
  {
    if actions == [] {
    } else {
      RunKeepsInv(w, actions[..|actions| - 1]);
      StepKeepsInv(Run(w, actions[..|actions| - 1]), actions[|actions| - 1]);
    }
  }

  /** Safety over every run: no counter is delivered twice, and what is delivered under a
      counter is what the sender sealed under it. */
  lemma {:induction false} DeliveredOnceAndGenuine(w: World, actions: seq<Action>)
    requires Initial(w)
    ensures
      var end := Run(w, actions);
      && NoCounterTwice(end.delivered)
      && forall i | 0 <= i < |end.delivered| ::
           Genuine(end, end.delivered[i].0, end.delivered[i].1)
  {
    RunKeepsInv(w, actions);
  }

  /** Delivery in every reachable state: handing over the packet sealed under `counter`
      delivers its payload if and only if the counter was not delivered before and is at most
      N_BITS behind the newest delivered one. */
  lemma {:induction false} FirstArrivalIsDelivered(w: World, actions: seq<Action>, counter: nat)
    requires Initial(w)
    requires counter < |Run(w, actions).sent|
    ensures
      var end := Run(w, actions);
      var (_, r) := OpenPacket(end.receiver, PacketAt(end.sender, counter, end.sent[counter]));
      && (r.Ok? <==> counter !in Counters(end.delivered) && end.receiver.window.next <= counter + N_BITS)
      && (r.Ok? ==> r.value == Data(end.sent[counter]))
  {
    RunKeepsInv(w, actions);
    var end := Run(w, actions);
    OpensExactly(end.receiver, PacketAt(end.sender, counter, end.sent[counter]));
  }

  /** The same for the three-step form, whatever the other threads did between the steps: the
      marking thread delivers exactly when the counter is still new and in reach. */
  lemma {:induction false} FinishDeliversExactly(w: World, actions: seq<Action>, t: nat)
    requires Initial(w)
    requires PhaseOf(Run(w, actions), t).Opened?
    ensures
      var before := Run(w, actions);
      var p, plain := PhaseOf(before, t).p, PhaseOf(before, t).plain;
      var after := Step(before, Finish(t));
      && Genuine(before, p.counter, plain)
      && after.delivered ==
           (if p.counter !in Counters(before.delivered) && before.receiver.window.next <= p.counter + N_BITS
            then before.delivered + [(p.counter, plain)] else before.delivered)
  {
    RunKeepsInv(w, actions);
    var before := Run(w, actions);
    assert InFlight(before, before.threads[t]);
  }

  // ----- Which counters a whole arrival order delivers -----

  /** Position of the first arrival of `c`, or the end of the order. */
  function First(arrivals: seq<nat>, c: nat): (i: nat)
    ensures i <= |arrivals|
    ensures i < |arrivals| <==> c in arrivals
    ensures i < |arrivals| ==> arrivals[i] == c
    decreases |arrivals|
  {
    if arrivals == [] || arrivals[0] == c then 0
    else 1 + First(arrivals[1..], c)
  }

  /** For every arrival order, with repetitions and losses, a counter ends up delivered exactly
      when it arrives and its first arrival finds the window at most N_BITS ahead. */
  lemma {:induction false} DeliveredIffFirstInReach(w: Window, arrivals: seq<nat>, c: nat)
    requires Coherent(w) && c !in w.accepted
    ensures c in MarkAll(w, arrivals).accepted <==>
            c in arrivals && MarkAll(w, arrivals[..First(arrivals, c)]).next <= c + N_BITS
    decreases |arrivals|
  {
    if arrivals == [] {
    } else {
      var rest := arrivals[1..];
      var w' := Mark(w, arrivals[0]).0;
      if arrivals[0] == c {
        assert arrivals[..0] == [];
        if InReach(w, c) {
          MarkAllMonotone(w', rest);
        } else {
          NeverInReach(w, rest, c);
        }
      } else {
        DeliveredIffFirstInReach(w', rest, c);
        var i := First(rest, c);
        assert arrivals[..i + 1][1..] == rest[..i];
        assert c in arrivals <==> c in rest;
      }
    }
  }

  lemma {:induction false} NeverInReach(w: Window, arrivals: seq<nat>, c: nat)
    requires c !in w.accepted && !InReach(w, c)
    ensures c !in MarkAll(w, arrivals).accepted
    decreases |arrivals|
  {
    if arrivals == [] {
    } else {
      NeverInReach(Mark(w, arrivals[0]).0, arrivals[1..], c);
    }
  }
}

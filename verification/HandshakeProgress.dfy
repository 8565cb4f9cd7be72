/** Progress of the handshake: whatever an active network did before, one exchange that it leaves
    alone completes. */
module HandshakeProgress {
  import opened Wrappers
  import opened Terms
  import opened Tai64N
  import opened HandshakeSpec
  import opened Agreement
  import opened HandshakeRuns
  import Session

  /** A buffer large enough for every handshake message. */
  const SPACE: nat := 2048

  // ----- Stored timestamps come from initiations sent earlier -----

  predicate StampedAt(env: InitEnv, t: nat) { env.stamp == StampBytes(t) }

  predicate SentBefore(env: InitEnv, clock: nat) { exists t: nat :: t < clock && StampedAt(env, t) }

  /** Every initiation on the wire was stamped before `clock`. */
  predicate AllBefore(inits: set<InitEnv>, clock: nat) { forall env | env in inits :: SentBefore(env, clock) }

  /** This timestamp is the zero one or was sent by side x. */
  predicate StampOfInit(inits: set<InitEnv>, x: Side, stamp: Stamp) {
    stamp == ZERO_STAMP || exists env | env in inits :: env.from == x && Parse(env.stamp) == Ok(stamp)
  }

  predicate StampsOk(w: World) {
    && AllBefore(w.inits, w.clock + 1)
    && StampOfInit(w.inits, B, w.a.lastStamp) && StampOfInit(w.inits, A, w.b.lastStamp)
  }

  lemma {:induction false} BeforeGrows(inits: set<InitEnv>, clock: nat, later: nat)
    requires AllBefore(inits, clock) && clock <= later
    ensures AllBefore(inits, later)
  {
    forall env | env in inits
      ensures SentBefore(env, later)
    {
      assert SentBefore(env, clock);
      var t: nat :| t < clock && StampedAt(env, t);
      assert t < later && StampedAt(env, t);
    }
  }

  /** What sending leaves: one more initiation, made and stamped now, and the slot that waits. */
  lemma {:induction false} SentShape(w: World, x: Side, hybrid: bool, dstLen: nat) returns (env: InitEnv)
    requires dstLen >= InitSize(hybrid)
    ensures
      var w' := SendsInit(w, x, hybrid, dstLen);
      var p := At(w, x).params;
      && w'.inits == w.inits + {env} && w'.made == w.made && w'.clock == w.clock
      && env.from == x && StampedAt(env, w.clock) && env.e == w.drawn && env.dk.Some? == hybrid
      && env.msg == MakeInit(p, env.msg.sender, env.e, env.stamp, env.dk)
      && At(w', Other(x)) == At(w, Other(x)) && At(w', x).params == p
      && At(w', x).lastStamp == At(w, x).lastStamp
      && At(w', x).state == Slot(p, env.msg.sender, env.e, env.stamp, env.dk, w.clock)
  {
    var stamp := StampBytes(w.clock);
    var sent := FormatInit(At(w, x), hybrid, w.drawn, w.drawn + 1, stamp, w.clock, dstLen).1.value;
    env := InitEnv(x, w.drawn, stamp, if hybrid then Some(w.drawn + 1) else None, sent.msg);
  }

  lemma {:induction false} SendKeepsStamps(w: World, x: Side, hybrid: bool, dstLen: nat)
    requires StampsOk(w)
    ensures StampsOk(SendsInit(w, x, hybrid, dstLen))
  {
    if dstLen >= InitSize(hybrid) {
      var env := SentShape(w, x, hybrid, dstLen);
      assert w.clock < w.clock + 1 && StampedAt(env, w.clock);
    }
  }

  lemma {:induction false} TookKeepsStamps(w: World, x: Side, m: InitMsg, h: Handshake, r: Result<Reply>)
    requires StampsOk(w) && StampOfInit(w.inits, Other(x), h.lastStamp)
    ensures StampsOk(Took(w, x, m, h, r))
  {
  }

  lemma {:induction false} InitLeavesKnownStamp(w: World, x: Side, m: InitMsg, e: nat, coins: nat, dstLen: nat)
    requires Inv(w) && Injectable(w, m.encStamp) && StampOfInit(w.inits, Other(x), At(w, x).lastStamp)
    ensures StampOfInit(w.inits, Other(x), ReceiveInit(At(w, x), m, e, coins, dstLen).0.lastStamp)
  {
    if CheckInit(At(w, x), m).Ok? {
      var env := AcceptedInitIsGenuine(w, x, m);
      ReceiveInitShape(At(w, x), m, e, coins, dstLen);
    }
  }

  lemma {:induction false} TakeInitKeepsStamps(w: World, x: Side, m: InitMsg, dstLen: nat)
    requires Inv(w) && StampsOk(w) && Injectable(w, m.encStamp)
    ensures StampsOk(TakesInit(w, x, m, dstLen))
  {
    forall h: Handshake, r | StampOfInit(w.inits, Other(x), h.lastStamp)
      ensures StampsOk(Took(w, x, m, h, r))
    {
      TookKeepsStamps(w, x, m, h, r);
    }
    InitLeavesKnownStamp(w, x, m, w.drawn, w.drawn + 1, dstLen);
  }

  lemma {:induction false} TakeResponseKeepsStamps(w: World, x: Side, m: RespMsg)
    requires StampsOk(w)
    ensures StampsOk(TakesResponse(w, x, m))
  {
    if CheckResponse(At(w, x), m).Ok? {
      TakesResponseShape(w, x, m);
    }
  }

  lemma {:induction false} StepKeepsStamps(w: World, act: Action)
    requires Inv(w) && StampsOk(w)
    ensures StampsOk(Step(w, act))
  {
    match act
    case Initiate(x, hybrid, dstLen) => SendKeepsStamps(w, x, hybrid, dstLen);
    case DeliverInit(x, m, dstLen) =>
      if Injectable(w, m.encStamp) {
        TakeInitKeepsStamps(w, x, m, dstLen);
      }
    case DeliverResponse(x, m) => TakeResponseKeepsStamps(w, x, m);
    case Expire(x) =>
    case Tick(d) => BeforeGrows(w.inits, w.clock + 1, w.clock + d + 1);
  }

  lemma {:induction false} RunKeepsStamps(w: World, actions: seq<Action>)
    requires Initial(w)
    ensures StampsOk(Run(w, actions))
    decreases |actions|
  {
    if actions == [] {
    } else {
      RunKeepsStamps(w, actions[..|actions| - 1]);
      RunKeepsInv(w, actions[..|actions| - 1]);
      StepKeepsStamps(Run(w, actions[..|actions| - 1]), actions[|actions| - 1]);
    }
  }

  // ----- One undisturbed exchange -----

  /** A stamp taken after every earlier one is accepted. */
  lemma {:induction false} NewStampIsAfter(inits: set<InitEnv>, x: Side, stamp: Stamp, clock: nat)
    requires AllBefore(inits, clock) && StampOfInit(inits, x, stamp) && Representable(clock)
    ensures Parse(StampBytes(clock)).Ok? && After(Parse(StampBytes(clock)).value, stamp)
  {
    if stamp == ZERO_STAMP {
      StampsKeepClockOrder(clock, clock);
    } else {
      var env :| env in inits && env.from == x && Parse(env.stamp) == Ok(stamp);
      assert SentBefore(env, clock);
      var t: nat :| t < clock && StampedAt(env, t);
      RepresentableBefore(t, clock);
      StampsKeepClockOrder(clock, t);
    }
  }

  lemma {:induction false} RepresentableBefore(t: nat, clock: nat)
    requires t <= clock && Representable(clock)
    ensures Representable(t)
  {
  }

  /** Side x has just sent `env`, whose stamp is new to the other side. */
  predicate JustSent(w: World, x: Side, env: InitEnv) {
    && Setup(w) && SamePsk(w.a.params, w.b.params)
    && env in w.inits && env.from == x
    && env.msg == MakeInit(At(w, x).params, env.msg.sender, env.e, env.stamp, env.dk)
    && At(w, x).state == Slot(At(w, x).params, env.msg.sender, env.e, env.stamp, env.dk, w.clock)
    && Parse(env.stamp).Ok? && After(Parse(env.stamp).value, At(w, Other(x)).lastStamp)
  }

  /** The other side's reply to `env` would be accepted and complete a mirrored pair. */
  predicate Answerable(w: World, x: Side, env: InitEnv, r: Result<Reply>) {
    && Injectable(w, env.msg.encStamp)
    && r.Ok?
    && var made := ReceiveResponse(At(w, x), r.value.msg, w.clock).1;
       made.Ok? && Session.Mirrored(made.value, r.value.session)
  }

  lemma {:induction false} ReplyIsAccepted(w: World, x: Side, env: InitEnv, e: nat, coins: nat)
    requires JustSent(w, x, env)
    ensures Answerable(w, x, env, ReceiveInit(At(w, Other(x)), env.msg, e, coins, SPACE).1)
  {
    var p, g := At(w, x).params, At(w, Other(x));
    GenuineInitPasses(g, p, env.msg.sender, env.e, env.stamp, env.dk);
    var stored := Received(g, env.msg, Parse(env.stamp).value);
    GenuineResponseMirrors(
      At(w, x), env.msg.sender, env.e, env.stamp, env.dk, w.clock, stored, e, coins, SPACE, w.clock);
  }

  /** If there is a reply, it is the one response added to the wire and its session is recorded. */
  predicate Replied(w: World, y: Side, m: InitMsg, w': World, r: Result<Reply>) {
    && At(w', Other(y)) == At(w, Other(y)) && w'.clock == w.clock
    && (r.Ok? ==>
          && |w'.made| == |w.made| + 1 && w'.made[..|w.made|] == w.made
          && !w'.made[|w.made|].initiator && w'.made[|w.made|].owner == y
          && w'.made[|w.made|].session == r.value.session
          && exists env | env in w'.resps :: TheReply(w, w', y, m, env) && env.msg == r.value.msg)
  }

  /** `env` is what side y put on the wire in answer to m, and all it put there. */
  predicate TheReply(w: World, w': World, y: Side, m: InitMsg, env: RespEnv) {
    w'.resps == w.resps + {env} && env.from == y && env.init == m
  }

  lemma {:induction false} TookReplied(w: World, y: Side, m: InitMsg, h: Handshake, r: Result<Reply>)
    ensures Replied(w, y, m, Took(w, y, m, h, r), r)
  {
    if r.Ok? {
      var w' := Took(w, y, m, h, r);
      assert TheReply(w, w', y, m, RespEnv(y, m, h.lastStamp, w.drawn, w.drawn + 1, r.value.msg));
    }
  }

  lemma {:induction false} DeliveredInit(w: World, y: Side, m: InitMsg)
    ensures Replied(w, y, m, TakesInit(w, y, m, SPACE), Taken(w, y, m, SPACE).1)
  {
    TookReplied(w, y, m, Taken(w, y, m, SPACE).0, Taken(w, y, m, SPACE).1);
  }

  lemma {:induction false} DeliveredResponse(w: World, x: Side, m: RespMsg)
    requires ReceiveResponse(At(w, x), m, w.clock).1.Ok?
    ensures
      var w', session := TakesResponse(w, x, m), ReceiveResponse(At(w, x), m, w.clock).1.value;
      && |w'.made| == |w.made| + 1 && w'.made[..|w.made|] == w.made
      && w'.made[|w.made|].initiator && w'.made[|w.made|].owner == x
      && w'.made[|w.made|].session == session
  {
    TakesResponseShape(w, x, m);
  }

  /** The clock has moved since the last initiation, so the next stamp is new to both sides. */
  predicate FreshClock(w: World) {
    && AllBefore(w.inits, w.clock) && Representable(w.clock)
    && StampOfInit(w.inits, B, w.a.lastStamp) && StampOfInit(w.inits, A, w.b.lastStamp)
  }

  /** `env` is the initiation that side x put on the wire, stamped now, and all it put there. */
  predicate TheInit(w: World, w': World, x: Side, hybrid: bool, env: InitEnv) {
    && w'.inits == w.inits + {env} && env !in w.inits
    && env.from == x && env.dk.Some? == hybrid && StampedAt(env, w.clock)
  }

  lemma {:induction false} SendingIsJustSent(w: World, x: Side, hybrid: bool) returns (env: InitEnv)
    requires Setup(w) && WireOk(w) && SamePsk(w.a.params, w.b.params) && FreshClock(w)
    ensures
      var w' := SendsInit(w, x, hybrid, SPACE);
      && TheInit(w, w', x, hybrid, env) && JustSent(w', x, env)
      && w'.made == w.made && w'.clock == w.clock
  {
    env := SentShape(w, x, hybrid, SPACE);
    assert env !in w.inits by {
      assert forall o | o in w.inits :: InitOk(w, o);
    }
    NewStampIsAfter(w.inits, x, At(w, Other(x)).lastStamp, w.clock);
  }

  /** Two sessions were made, one at each end, and they mirror each other. */
  predicate Completed(w: World, x: Side, w': World) {
    var n := |w.made|;
    && |w'.made| == n + 2 && w'.made[..n] == w.made
    && w'.made[n].owner == Other(x) && !w'.made[n].initiator
    && w'.made[n + 1].owner == x && w'.made[n + 1].initiator
    && Session.Mirrored(w'.made[n + 1].session, w'.made[n].session)
  }

  /** The last message: the response on the wire completes the exchange. */
  lemma {:induction false} LastMessage(w: World, x: Side, w1: World, env: InitEnv, w2: World, r: Result<Reply>)
    returns (reply: RespEnv)
    requires w1.made == w.made && Answerable(w1, x, env, r) && Replied(w1, Other(x), env.msg, w2, r)
    ensures TheReply(w1, w2, Other(x), env.msg, reply) && Injectable(w2, reply.msg.encNothing)
    ensures Completed(w, x, TakesResponse(w2, x, reply.msg))
  {
    reply := FindReply(w1, Other(x), env.msg, w2, r);
    ReplyCompletes(w, x, w1, env, w2, r, reply);
  }

  lemma {:induction false} ReplyCompletes(
    w: World, x: Side, w1: World, env: InitEnv, w2: World, r: Result<Reply>, reply: RespEnv)
    requires w1.made == w.made && Answerable(w1, x, env, r) && Replied(w1, Other(x), env.msg, w2, r)
    requires TheReply(w1, w2, Other(x), env.msg, reply) && reply.msg == r.value.msg
    ensures Injectable(w2, reply.msg.encNothing) && Completed(w, x, TakesResponse(w2, x, reply.msg))
  {
    assert At(w2, x) == At(w1, x);
    DeliveredResponse(w2, x, reply.msg);
  }

  lemma {:induction false} FindReply(w: World, y: Side, m: InitMsg, w': World, r: Result<Reply>)
    returns (reply: RespEnv)
    requires Replied(w, y, m, w', r) && r.Ok?
    ensures TheReply(w, w', y, m, reply) && reply.msg == r.value.msg
  {
    reply :| reply in w'.resps && TheReply(w, w', y, m, reply) && reply.msg == r.value.msg;
  }

  lemma {:induction false} TakenIsAnswerable(w: World, x: Side, env: InitEnv)
    requires JustSent(w, x, env)
    ensures Answerable(w, x, env, Taken(w, Other(x), env.msg, SPACE).1)
  {
    forall e, coins
      ensures Answerable(w, x, env, ReceiveInit(At(w, Other(x)), env.msg, e, coins, SPACE).1)
    {
      ReplyIsAccepted(w, x, env, e, coins);
    }
  }

  lemma {:induction false} FinishExchange(w: World, x: Side, w1: World, env: InitEnv) returns (reply: RespEnv)
    requires w1.made == w.made && JustSent(w1, x, env)
    ensures Injectable(w1, env.msg.encStamp)
    ensures
      var w2 := TakesInit(w1, Other(x), env.msg, SPACE);
      && TheReply(w1, w2, Other(x), env.msg, reply)
      && Injectable(w2, reply.msg.encNothing) && Completed(w, x, TakesResponse(w2, x, reply.msg))
  {
    TakenIsAnswerable(w1, x, env);
    DeliveredInit(w1, Other(x), env.msg);
    reply := LastMessage(
      w, x, w1, env, TakesInit(w1, Other(x), env.msg, SPACE), Taken(w1, Other(x), env.msg, SPACE).1);
  }

  lemma {:induction false} ExchangeSteps(w: World, x: Side, hybrid: bool, init: InitMsg, resp: RespMsg)
    requires Injectable(SendsInit(w, x, hybrid, SPACE), init.encStamp)
    requires Injectable(TakesInit(SendsInit(w, x, hybrid, SPACE), Other(x), init, SPACE), resp.encNothing)
    ensures
      var w1 := Step(w, Initiate(x, hybrid, SPACE));
      var w2 := Step(w1, DeliverInit(Other(x), init, SPACE));
      && w1 == SendsInit(w, x, hybrid, SPACE) && w2 == TakesInit(w1, Other(x), init, SPACE)
      && Step(w2, DeliverResponse(x, resp)) == TakesResponse(w2, x, resp)
  {
  }

  /** Side x starts, the other side answers, x completes.  Both messages delivered are the ones sent:
      `init` is the initiation that the first step added to the wire, `reply` the response that the
      second added in answer to it. */
  predicate ExchangeDone(w: World, x: Side, hybrid: bool, init: InitEnv, reply: RespEnv) {
    var w1 := Step(w, Initiate(x, hybrid, SPACE));
    var w2 := Step(w1, DeliverInit(Other(x), init.msg, SPACE));
    && TheInit(w, w1, x, hybrid, init) && TheReply(w1, w2, Other(x), init.msg, reply)
    && Completed(w, x, Step(w2, DeliverResponse(x, reply.msg)))
  }

  lemma {:induction false} ExchangeCompletes(w: World, x: Side, hybrid: bool) returns (init: InitEnv, reply: RespEnv)
    requires Setup(w) && WireOk(w) && SamePsk(w.a.params, w.b.params) && FreshClock(w)
    ensures ExchangeDone(w, x, hybrid, init, reply)
  {
    init := SendingIsJustSent(w, x, hybrid);
    reply := FinishExchange(w, x, SendsInit(w, x, hybrid, SPACE), init);
    ExchangeSteps(w, x, hybrid, init.msg, reply.msg);
  }

  /** From every world that any run can reach, however hostile: once the clock has moved, one
      exchange whose two messages arrive makes mirrored sessions, classical or hybrid. */
  lemma {:induction false} UndisturbedExchangeCompletes(
    start: World, actions: seq<Action>, x: Side, hybrid: bool, d: nat)
    returns (init: InitEnv, reply: RespEnv)
    requires Initial(start) && 0 < d
    requires SamePsk(start.a.params, start.b.params) && Representable(Run(start, actions).clock + d)
    ensures ExchangeDone(Step(Run(start, actions), Tick(d)), x, hybrid, init, reply)
  {
    TickIsFresh(start, actions, d);
    ParamsStay(start, actions);
    init, reply := ExchangeCompletes(Step(Run(start, actions), Tick(d)), x, hybrid);
  }

  /** In particular an end without a preshared key and an end with one of zeros complete handshakes,
      whichever side starts. */
  lemma {:induction false} AbsentPskCompletes(start: World, actions: seq<Action>, x: Side, hybrid: bool, d: nat)
    returns (init: InitEnv, reply: RespEnv)
    requires Initial(start) && 0 < d && Representable(Run(start, actions).clock + d)
    requires start.a.params.psk == None && start.b.params.psk == Some(ZeroKey)
    ensures ExchangeDone(Step(Run(start, actions), Tick(d)), x, hybrid, init, reply)
  {
    init, reply := UndisturbedExchangeCompletes(start, actions, x, hybrid, d);
  }

  /** Once the clock has moved, every world that any run can reach is ready for an exchange. */
  lemma {:induction false} TickIsFresh(start: World, actions: seq<Action>, d: nat)
    requires Initial(start) && 0 < d && Representable(Run(start, actions).clock + d)
    ensures
      var w, w' := Run(start, actions), Step(Run(start, actions), Tick(d));
      && Setup(w') && WireOk(w') && FreshClock(w')
      && w'.a.params == w.a.params && w'.b.params == w.b.params
  {
    RunKeepsInv(start, actions);
    RunKeepsStamps(start, actions);
    TickKeepsInv(Run(start, actions), d);
    TickFreshens(Run(start, actions), d);
  }

  lemma {:induction false} TickFreshens(w: World, d: nat)
    requires StampsOk(w) && 0 < d && Representable(w.clock + d)
    ensures FreshClock(Step(w, Tick(d)))
  {
    BeforeGrows(w.inits, w.clock + 1, w.clock + d);
  }
}

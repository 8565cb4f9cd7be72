/** Where mirrored indices end: the sender and receiver indices of handshake messages are not
    authenticated, so a session has a mirror image at the other end exactly if its response arrived as
    it was sent. */
module MirrorLimits {
  import opened Wrappers
  import opened Tai64N
  import opened HandshakeSpec
  import opened Agreement
  import opened HandshakeRuns
  import opened HandshakeProgress
  import opened SessionKeys
  import Session

  /** Some session mirrors this one, keys and indices. */
  predicate HasMirror(w: World, r: Made) { exists q | q in w.made :: Session.Mirrored(r.session, q.session) }

  lemma {:induction false} MirrorIsMatch(w: World, i: nat, j: nat)
    requires Inv(w) && SecretsOk(w) && i < |w.made| && j < |w.made| && w.made[i].initiator
    requires ShareKey(w.made[i].session, w.made[j].session) && i != j
    ensures Matches(w.made[i], w.made[j])
  {
    SharingIsMatching(w, i, j);
  }

  lemma {:induction false} FindMirror(w: World, r: Made) returns (j: nat)
    requires HasMirror(w, r)
    ensures j < |w.made| && Session.Mirrored(r.session, w.made[j].session)
  {
    var q :| q in w.made && Session.Mirrored(r.session, q.session);
    j :| 0 <= j < |w.made| && w.made[j] == q;
  }

  lemma {:induction false} MirrorMeansVerbatim(w: World, i: nat, j: nat)
    requires Inv(w) && SecretsOk(w) && i < |w.made| && j < |w.made| && w.made[i].initiator
    requires Session.Mirrored(w.made[i].session, w.made[j].session)
    ensures w.made[i].verbatim
  {
    KeysOfOneDiffer(w, w.made[i]);
    MirrorIsMatch(w, i, j);
  }

  lemma {:induction false} VerbatimHasMirror(w: World, r: Made)
    requires RecordsOk(w) && r in w.made && r.initiator && r.verbatim
    ensures HasMirror(w, r)
  {
    assert RecordOk(w, r);
    var q :| q in w.made && Matches(r, q);
  }

  lemma {:induction false} MirrorIsVerbatim(w: World, i: nat)
    requires Inv(w) && SecretsOk(w) && i < |w.made| && w.made[i].initiator
    ensures HasMirror(w, w.made[i]) <==> w.made[i].verbatim
  {
    if w.made[i].verbatim {
      VerbatimHasMirror(w, w.made[i]);
    } else if HasMirror(w, w.made[i]) {
      var j := FindMirror(w, w.made[i]);
      MirrorMeansVerbatim(w, i, j);
    }
  }

  /** Over every run with an active network: a session made as initiator has a mirror image at the other
      end if and only if the response that completed it arrived as it was sent. */
  lemma {:induction false} MirroredIff(w: World, actions: seq<Action>, i: nat)
    requires Initial(w) && i < |Run(w, actions).made| && Run(w, actions).made[i].initiator
    ensures
      var end := Run(w, actions);
      HasMirror(end, end.made[i]) <==> end.made[i].verbatim
  {
    RunKeepsInv(w, actions);
    RunKeepsSecrets(w, actions);
    MirrorIsVerbatim(Run(w, actions), i);
  }

  // ----- An altered sender index -----

  /** No check looks at the sender index of a response: it goes into the session as it is. */
  lemma {:induction false} SenderIsNotChecked(h: Handshake, m: RespMsg, k: nat, now: nat)
    requires ReceiveResponse(h, m, now).1.Ok?
    ensures
      var (h', made) := ReceiveResponse(h, m, now);
      ReceiveResponse(h, m.(sender := k), now) == (h', Ok(made.value.(sendingIndex := k)))
  {
  }

  /** Two sessions were made, one at each end, with crossed keys; the initiator's sends to index k, and
      mirrors the other only if that is the index there. */
  predicate Crossed(w: World, x: Side, w': World, k: nat, sender: nat) {
    var n := |w.made|;
    && |w'.made| == n + 2 && w'.made[n + 1].initiator
    && ShareKey(w'.made[n + 1].session, w'.made[n].session)
    && w'.made[n + 1].session.sendingIndex == k
    && (Session.Mirrored(w'.made[n + 1].session, w'.made[n].session) <==> k == sender)
  }

  lemma {:induction false} AlteredLast(
    w: World, x: Side, w1: World, env: InitEnv, w2: World, r: Result<Reply>, reply: RespEnv, k: nat)
    requires w1.made == w.made && Answerable(w1, x, env, r) && Replied(w1, Other(x), env.msg, w2, r)
    requires r.value.session.receivingIndex == r.value.msg.sender && reply.msg == r.value.msg
    ensures Crossed(w, x, TakesResponse(w2, x, reply.msg.(sender := k)), k, reply.msg.sender)
  {
    assert At(w2, x) == At(w1, x);
    SenderIsNotChecked(At(w2, x), reply.msg, k, w2.clock);
    DeliveredResponse(w2, x, reply.msg.(sender := k));
  }

  lemma {:induction false} ReplySessionIndex(h: Handshake, m: InitMsg, e: nat, coins: nat, dstLen: nat)
    ensures
      var r := ReceiveInit(h, m, e, coins, dstLen).1;
      r.Ok? ==> r.value.session.receivingIndex == r.value.msg.sender
  {
  }

  lemma {:induction false} AlteredFinish(w: World, x: Side, w1: World, env: InitEnv) returns (reply: RespEnv)
    requires w1.made == w.made && JustSent(w1, x, env)
    ensures Injectable(w1, env.msg.encStamp)
    ensures
      var w2 := TakesInit(w1, Other(x), env.msg, SPACE);
      && TheReply(w1, w2, Other(x), env.msg, reply) && Injectable(w2, reply.msg.encNothing)
      && forall k: nat :: Crossed(w, x, TakesResponse(w2, x, reply.msg.(sender := k)), k, reply.msg.sender)
  {
    TakenIsAnswerable(w1, x, env);
    DeliveredInit(w1, Other(x), env.msg);
    ReplySessionIndex(At(w1, Other(x)), env.msg, w1.drawn, w1.drawn + 1, SPACE);
    var w2, r := TakesInit(w1, Other(x), env.msg, SPACE), Taken(w1, Other(x), env.msg, SPACE).1;
    reply := FindReply(w1, Other(x), env.msg, w2, r);
    forall k: nat
      ensures Crossed(w, x, TakesResponse(w2, x, reply.msg.(sender := k)), k, reply.msg.sender)
    {
      AlteredLast(w, x, w1, env, w2, r, reply, k);
    }
  }

  /** The exchange with its last message altered: x initiates, the other side answers, and the answer
      arrives with sender index k. */
  predicate AlteredDone(w: World, x: Side, hybrid: bool, init: InitEnv, reply: RespEnv, k: nat) {
    var w1 := Step(w, Initiate(x, hybrid, SPACE));
    var w2 := Step(w1, DeliverInit(Other(x), init.msg, SPACE));
    && TheInit(w, w1, x, hybrid, init) && TheReply(w1, w2, Other(x), init.msg, reply)
    && Crossed(w, x, Step(w2, DeliverResponse(x, reply.msg.(sender := k))), k, reply.msg.sender)
  }

  lemma {:induction false} AlteredExchange(w: World, x: Side, hybrid: bool) returns (init: InitEnv, reply: RespEnv)
    requires Setup(w) && WireOk(w) && SamePsk(w.a.params, w.b.params) && FreshClock(w)
    ensures forall k: nat :: AlteredDone(w, x, hybrid, init, reply, k)
  {
    init := SendingIsJustSent(w, x, hybrid);
    reply := AlteredFinish(w, x, SendsInit(w, x, hybrid, SPACE), init);
    forall k: nat
      ensures AlteredDone(w, x, hybrid, init, reply, k)
    {
      ExchangeSteps(w, x, hybrid, init.msg, reply.msg.(sender := k));
    }
  }

  lemma {:induction false} RunPlus(w: World, actions: seq<Action>, act: Action)
    ensures Run(w, actions + [act]) == Step(Run(w, actions), act)
  {
    assert (actions + [act])[..|actions|] == actions;
  }

  /** The four actions of such an exchange. */
  function Exchange(x: Side, hybrid: bool, d: nat, init: InitEnv, reply: RespEnv, k: nat): seq<Action> {
    [Tick(d), Initiate(x, hybrid, SPACE), DeliverInit(Other(x), init.msg, SPACE),
     DeliverResponse(x, reply.msg.(sender := k))]
  }

  lemma {:induction false} RunFour(w: World, actions: seq<Action>, a: Action, b: Action, c: Action, e: Action)
    ensures Run(w, actions + [a, b, c, e]) == Step(Step(Step(Step(Run(w, actions), a), b), c), e)
  {
    RunPlus(w, actions, a);
    RunPlus(w, actions + [a], b);
    RunPlus(w, actions + [a] + [b], c);
    RunPlus(w, actions + [a] + [b] + [c], e);
    assert actions + [a, b, c, e] == actions + [a] + [b] + [c] + [e];
  }

  lemma {:induction false} CrossedIsUnmirrored(w: World, x: Side, w': World, k: nat, sender: nat)
    requires Inv(w') && SecretsOk(w') && Crossed(w, x, w', k, sender)
    ensures HasMirror(w', w'.made[|w'.made| - 1]) <==> k == sender
  {
    var n := |w.made|;
    MirrorIsMatch(w', n + 1, n);
    MirrorIsVerbatim(w', n + 1);
  }

  /** After these actions, the exchange with sender index k makes a session, and that session has a
      mirror image if and only if k is the index that was sent. */
  predicate MirrorsOnly(
    start: World, actions: seq<Action>, x: Side, hybrid: bool, d: nat, init: InitEnv, reply: RespEnv, k: nat)
  {
    var end := Run(start, actions + Exchange(x, hybrid, d, init, reply, k));
    && |end.made| > 0 && end.made[|end.made| - 1].initiator
    && (HasMirror(end, end.made[|end.made| - 1]) <==> k == reply.msg.sender)
  }

  lemma {:induction false} AlteredMirrorsOnly(
    start: World, actions: seq<Action>, x: Side, hybrid: bool, d: nat, init: InitEnv, reply: RespEnv, k: nat)
    requires Initial(start) && AlteredDone(Step(Run(start, actions), Tick(d)), x, hybrid, init, reply, k)
    ensures MirrorsOnly(start, actions, x, hybrid, d, init, reply, k)
  {
    var all := actions + Exchange(x, hybrid, d, init, reply, k);
    RunFour(
      start, actions, Tick(d), Initiate(x, hybrid, SPACE), DeliverInit(Other(x), init.msg, SPACE),
      DeliverResponse(x, reply.msg.(sender := k)));
    RunKeepsInv(start, all);
    RunKeepsSecrets(start, all);
    CrossedIsUnmirrored(Step(Run(start, actions), Tick(d)), x, Run(start, all), k, reply.msg.sender);
  }

  /** From every world that any run can reach: x initiates, the other side answers, and whatever sender
      index the network puts into the answer, the answer is accepted; the session is mirrored if and
      only if the index is the one that was sent. */
  lemma {:induction false} AlteredSenderIff(start: World, actions: seq<Action>, x: Side, hybrid: bool, d: nat)
    returns (init: InitEnv, reply: RespEnv)
    requires Initial(start) && 0 < d
    requires SamePsk(start.a.params, start.b.params) && Representable(Run(start, actions).clock + d)
    ensures forall k: nat ::
              && AlteredDone(Step(Run(start, actions), Tick(d)), x, hybrid, init, reply, k)
              && MirrorsOnly(start, actions, x, hybrid, d, init, reply, k)
  {
    TickIsFresh(start, actions, d);
    ParamsStay(start, actions);
    init, reply := AlteredExchange(Step(Run(start, actions), Tick(d)), x, hybrid);
    forall k: nat
      ensures MirrorsOnly(start, actions, x, hybrid, d, init, reply, k)
    {
      AlteredMirrorsOnly(start, actions, x, hybrid, d, init, reply, k);
    }
  }

  // ----- Exactly when all sessions are mirrored -----

  predicate AllMirrored(w: World) { forall r | r in w.made && r.initiator :: HasMirror(w, r) }

  /** In every run of a network that alters responses, or of one that does not. */
  ghost predicate AlwaysMirrored(start: World, altered: bool) {
    forall actions: seq<Action> | altered || Faithful(start, actions) :: AllMirrored(Run(start, actions))
  }

  predicate NoneInitiated(w: World) { forall r | r in w.made :: !r.initiator }

  lemma {:induction false} TookInitiates(w: World, x: Side, m: InitMsg, h: Handshake, r: Result<Reply>)
    requires NoneInitiated(w)
    ensures NoneInitiated(Took(w, x, m, h, r))
  {
  }

  lemma {:induction false} StepNeedsPsk(w: World, act: Action)
    requires Inv(w) && !SamePsk(w.a.params, w.b.params) && NoneInitiated(w)
    ensures NoneInitiated(Step(w, act))
  {
    match act
    case Initiate(x, hybrid, dstLen) => SendVerbatim(w, x, hybrid, dstLen);
    case DeliverInit(x, m, dstLen) => TookInitiates(w, x, m, Taken(w, x, m, dstLen).0, Taken(w, x, m, dstLen).1);
    case DeliverResponse(x, m) =>
      if Injectable(w, m.encNothing) && CheckResponse(At(w, x), m).Ok? {
        var env := AcceptedResponseIsGenuine(w, x, m);
        assert false;
      }
    case Expire(x) =>
    case Tick(d) =>
  }

  /** Ends with different preshared keys never complete a handshake. */
  lemma {:induction false} NoSessionAcrossPsk(start: World, actions: seq<Action>)
    requires Initial(start) && !SamePsk(start.a.params, start.b.params)
    ensures NoneInitiated(Run(start, actions))
    decreases |actions|
  {
    if actions == [] {
    } else {
      var before := actions[..|actions| - 1];
      NoSessionAcrossPsk(start, before);
      RunKeepsInv(start, before);
      ParamsStay(start, before);
      StepNeedsPsk(Run(start, before), actions[|actions| - 1]);
    }
  }

  lemma {:induction false} FaithfulIsMirrored(start: World, actions: seq<Action>)
    requires Initial(start) && Faithful(start, actions)
    ensures AllMirrored(Run(start, actions))
  {
    FaithfulIsVerbatim(start, actions);
    var end := Run(start, actions);
    forall r | r in end.made && r.initiator
      ensures HasMirror(end, r)
    {
      var i :| 0 <= i < |end.made| && end.made[i] == r;
      MirroredIff(start, actions, i);
    }
  }

  lemma {:induction false} AlteredIsUnmirrored(start: World) returns (actions: seq<Action>)
    requires Initial(start) && SamePsk(start.a.params, start.b.params) && Representable(start.clock + 1)
    ensures !AllMirrored(Run(start, actions))
  {
    assert Run(start, []) == start;
    var init, reply := AlteredSenderIff(start, [], A, false, 1);
    var k := if reply.msg.sender == 0 then 1 else 0;
    assert MirrorsOnly(start, [], A, false, 1, init, reply, k);
    actions := [] + Exchange(A, false, 1, init, reply, k);
  }

  /** All sessions are mirrored in every run if and only if the network leaves responses as they are, or
      the preshared keys differ and no session is ever completed. */
  lemma {:induction false} AlwaysMirroredIff(start: World, altered: bool)
    requires Initial(start) && Representable(start.clock + 1)
    ensures AlwaysMirrored(start, altered) <==> !altered || !SamePsk(start.a.params, start.b.params)
  {
    if !SamePsk(start.a.params, start.b.params) {
      forall actions: seq<Action>
        ensures AllMirrored(Run(start, actions))
      {
        NoSessionAcrossPsk(start, actions);
      }
    } else if altered {
      var actions := AlteredIsUnmirrored(start);
    } else {
      forall actions: seq<Action> | Faithful(start, actions)
        ensures AllMirrored(Run(start, actions))
      {
        FaithfulIsMirrored(start, actions);
      }
    }
  }
}

/** Transport keys over whole runs of two peers and a hostile network: no two sessions share one, but
    for the two ends of an exchange. */
module SessionKeys {
  import opened Wrappers
  import opened Terms
  import opened HandshakeSpec
  import opened Agreement
  import opened HandshakeRuns
  import Session

  // ----- Keys name the responder's ephemeral -----

  /** Both transport keys determine the chain and the preshared key they were made of, and no key of
      one direction is a key of the other. */
  lemma {:induction false} FinishKeysInjective(d: Chain, psk: Term, d': Chain, psk': Term)
    ensures
      var x, y := Finish(d, psk), Finish(d', psk');
      && (x.toResponder == y.toResponder || x.toInitiator == y.toInitiator ==> d.key == d'.key && psk == psk')
      && x.toResponder != y.toInitiator
  {
  }

  lemma {:induction false} ClassicalNamesEphemeral(
    c: Chain, e: Term, ee: Term, se: Term, c': Chain, e': Term, ee': Term, se': Term)
    requires ClassicalPart(c, e, ee, se).key == ClassicalPart(c', e', ee', se').key
    ensures e == e'
  {
    var c1, c1' := MixKey(MixHash(c, e), e), MixKey(MixHash(c', e'), e');
    MixKeyInjective(MixKey(c1, ee), se, MixKey(c1', ee'), se');
    MixKeyInjective(c1, ee, c1', ee');
    MixKeyInjective(MixHash(c, e), e, MixHash(c', e'), e');
  }

  lemma {:induction false} KeyNamesEphemeral(
    c: Chain, e: Term, ee: Term, se: Term, kem: Option<Kem>,
    c': Chain, e': Term, ee': Term, se': Term, kem': Option<Kem>)
    requires IsDh(se) && IsDh(se') && KemOk(kem) && KemOk(kem')
    requires BeforePsk(c, e, ee, se, kem).key == BeforePsk(c', e', ee', se', kem').key
    ensures e == e'
  {
    var d, d' := ClassicalPart(c, e, ee, se), ClassicalPart(c', e', ee', se');
    var c2, c2' := MixKey(MixKey(MixHash(c, e), e), ee), MixKey(MixKey(MixHash(c', e'), e'), ee');
    if kem.Some? {
      KemIsNoDh(d, kem.value.secret, c2', se');
    }
    if kem'.Some? {
      KemIsNoDh(d', kem'.value.secret, c2, se);
    }
    if kem.Some? && kem'.Some? {
      MixKeyInjective(d, kem.value.secret, d', kem'.value.secret);
    }
    ClassicalNamesEphemeral(c, e, ee, se, c', e', ee', se');
  }

  predicate CanAnswer(s: State) { s.InitReceived? && (s.ek.Some? ==> s.ek.value.KemPub?) }

  /** A transport key names the ephemeral that the responder drew for it. */
  lemma {:induction false} KeysNameSecret(
    q: Params, s: State, f: nat, coins: nat, q': Params, s': State, f': nat, coins': nat)
    requires CanAnswer(s) && CanAnswer(s')
    ensures
      var x, y := RespondTo(q, s, f, coins), RespondTo(q', s', f', coins');
      && (x.toResponder == y.toResponder || x.toInitiator == y.toInitiator ==> f == f')
      && x.toResponder != y.toInitiator
  {
    var kem := if s.ek.Some? then Some(Kem(KemCt(s.ek.value.dk, coins), KemSecret(s.ek.value.dk, coins))) else None;
    var kem' := if s'.ek.Some?
                then Some(Kem(KemCt(s'.ek.value.dk, coins'), KemSecret(s'.ek.value.dk, coins'))) else None;
    var ee, se := Dh(f, s.peerEphemeral), Dh(f, q.peerPublic);
    var ee', se' := Dh(f', s'.peerEphemeral), Dh(f', q'.peerPublic);
    FinishKeysInjective(
      BeforePsk(s.chain, Pub(f), ee, se, kem), PskOf(q), BeforePsk(s'.chain, Pub(f'), ee', se', kem'), PskOf(q'));
    var x, y := RespondTo(q, s, f, coins), RespondTo(q', s', f', coins');
    if x.toResponder == y.toResponder || x.toInitiator == y.toInitiator {
      KeyNamesEphemeral(s.chain, Pub(f), ee, se, kem, s'.chain, Pub(f'), ee', se', kem');
    }
  }

  // ----- Every responder session comes from a response on the wire -----

  predicate Recorded(w: World, r: Made, env: RespEnv) {
    (env.init.ek.Some? ==> env.init.ek.value.KemPub?) && r == ResponderRecord(w, env)
  }

  predicate FromWire(w: World, r: Made) { exists env | env in w.resps :: Recorded(w, r, env) }

  predicate SecretsOk(w: World) {
    && (forall env | env in w.resps :: env.f < w.drawn)
    && (forall env, env' | env in w.resps && env' in w.resps :: env.f == env'.f ==> env == env')
    && (forall r | r in w.made && !r.initiator :: FromWire(w, r))
  }

  lemma {:induction false} FromWireGrows(w: World, w': World, r: Made)
    requires Grows(w, w') && FromWire(w, r)
    ensures FromWire(w', r)
  {
    var env :| env in w.resps && Recorded(w, r, env);
    assert Recorded(w', r, env);
  }

  /** Nothing is drawn for a response, or one thing more. */
  lemma {:induction false} SameResponses(w: World, w': World)
    requires SecretsOk(w) && Grows(w, w') && w'.resps == w.resps
    requires forall r | r in w'.made && !r.initiator :: r in w.made
    ensures SecretsOk(w')
  {
    forall r | r in w'.made && !r.initiator
      ensures FromWire(w', r)
    {
      FromWireGrows(w, w', r);
    }
  }

  lemma {:induction false} RecordIsFromWire(w: World, env: RespEnv)
    requires env in w.resps && RespOk(w, env)
    ensures FromWire(w, ResponderRecord(w, env))
  {
    assert Recorded(w, ResponderRecord(w, env), env);
  }

  lemma {:induction false} OneResponse(w: World, w': World, env: RespEnv)
    requires SecretsOk(w) && Grows(w, w') && w'.resps == w.resps + {env} && RespOk(w', env)
    requires w.drawn <= env.f < w'.drawn && w'.made == w.made + [ResponderRecord(w', env)]
    ensures SecretsOk(w')
  {
    forall r | r in w'.made && !r.initiator
      ensures FromWire(w', r)
    {
      if r in w.made {
        FromWireGrows(w, w', r);
      } else {
        RecordIsFromWire(w', env);
      }
    }
  }

  lemma {:induction false} TookKeepsSecrets(w: World, x: Side, m: InitMsg, h: Handshake, r: Result<Reply>)
    requires SecretsOk(w) && Outcome(w, x, m, h, r)
    ensures SecretsOk(Took(w, x, m, h, r))
  {
    TookGrows(w, x, m, h, r);
    if r.Ok? {
      EnvelopeOk(w, x, m, h, r);
      OneResponse(w, Took(w, x, m, h, r), Envelope(w, x, m, h, r.value));
    } else {
      SameResponses(w, Took(w, x, m, h, r));
    }
  }

  lemma {:induction false} TakenKeepsSecrets(w: World, x: Side, m: InitMsg, dstLen: nat)
    requires SecretsOk(w) && CheckInit(At(w, x), m).Ok?
    ensures SecretsOk(TakesInit(w, x, m, dstLen))
  {
    TakenIsOutcome(w, x, m, dstLen);
    TookKeepsSecrets(w, x, m, Taken(w, x, m, dstLen).0, Taken(w, x, m, dstLen).1);
  }

  lemma {:induction false} RefusedKeepsSecrets(w: World, x: Side, m: InitMsg, dstLen: nat)
    requires SecretsOk(w) && CheckInit(At(w, x), m).Err?
    ensures SecretsOk(TakesInit(w, x, m, dstLen))
  {
    assert TakesInit(w, x, m, dstLen) == w.(drawn := w.drawn + 2);
    SameResponses(w, w.(drawn := w.drawn + 2));
  }

  lemma {:induction false} ResponseKeepsSecrets(w: World, x: Side, m: RespMsg)
    requires SecretsOk(w) && CheckResponse(At(w, x), m).Ok?
    ensures SecretsOk(TakesResponse(w, x, m))
  {
    TakesResponseShape(w, x, m);
    SameResponses(w, TakesResponse(w, x, m));
  }

  lemma {:induction false} SendKeepsSecrets(w: World, x: Side, hybrid: bool, dstLen: nat)
    requires SecretsOk(w)
    ensures SecretsOk(SendsInit(w, x, hybrid, dstLen))
  {
    SendVerbatim(w, x, hybrid, dstLen);
    SendGrows(w, x, hybrid, dstLen);
    SameResponses(w, SendsInit(w, x, hybrid, dstLen));
  }

  lemma {:induction false} StepKeepsSecrets(w: World, act: Action)
    requires SecretsOk(w)
    ensures SecretsOk(Step(w, act))
  {
    match act
    case Initiate(x, hybrid, dstLen) => SendKeepsSecrets(w, x, hybrid, dstLen);
    case DeliverInit(x, m, dstLen) =>
      if Injectable(w, m.encStamp) {
        if CheckInit(At(w, x), m).Ok? {
          TakenKeepsSecrets(w, x, m, dstLen);
        } else {
          RefusedKeepsSecrets(w, x, m, dstLen);
        }
      }
    case DeliverResponse(x, m) =>
      if Injectable(w, m.encNothing) && CheckResponse(At(w, x), m).Ok? {
        ResponseKeepsSecrets(w, x, m);
      }
    case Expire(x) => SameResponses(w, Step(w, act));
    case Tick(d) => SameResponses(w, Step(w, act));
  }

  lemma {:induction false} RunKeepsSecrets(w: World, actions: seq<Action>)
    requires Initial(w)
    ensures SecretsOk(Run(w, actions))
    decreases |actions|
  {
    if actions == [] {
    } else {
      RunKeepsSecrets(w, actions[..|actions| - 1]);
      StepKeepsSecrets(Run(w, actions[..|actions| - 1]), actions[|actions| - 1]);
    }
  }

  // ----- Sessions and their keys -----

  predicate ShareKey(a: Session.State, b: Session.State) {
    a.sender == b.sender || a.receiver == b.receiver || a.sender == b.receiver || a.receiver == b.sender
  }

  lemma {:induction false} RespondersShareNoKey(w: World, q: Made, p: Made)
    requires SecretsOk(w) && q in w.made && p in w.made && !q.initiator && !p.initiator
    ensures q.session.sender != q.session.receiver
    ensures ShareKey(q.session, p.session) ==> q == p
  {
    assert FromWire(w, q) && FromWire(w, p);
    var env :| env in w.resps && Recorded(w, q, env);
    var env' :| env' in w.resps && Recorded(w, p, env');
    var a, b := At(w, env.from).params, At(w, env'.from).params;
    KeysNameSecret(a, Stored(a, env.init), env.f, env.coins, b, Stored(b, env'.init), env'.f, env'.coins);
    KeysNameSecret(b, Stored(b, env'.init), env'.f, env'.coins, a, Stored(a, env.init), env.f, env.coins);
    KeysNameSecret(a, Stored(a, env.init), env.f, env.coins, a, Stored(a, env.init), env.f, env.coins);
  }

  /** The responder session whose keys an initiator session crosses, or a responder session itself. */
  lemma {:induction false} Responder(w: World, r: Made) returns (q: Made)
    requires Inv(w) && r in w.made
    ensures q in w.made && !q.initiator && (if r.initiator then Matches(r, q) else q == r)
  {
    q := r;
    if r.initiator {
      assert RecordOk(w, r);
      q :| q in w.made && Matches(r, q);
    }
  }

  /** The initiator's and the responder's end of one exchange. */
  predicate TwoEnds(r: Made, q: Made) { (r.initiator && Matches(r, q)) || (q.initiator && Matches(q, r)) }

  /** The same keys, in either direction. */
  predicate SameKeys(r: Made, q: Made) {
    || (r.session.sender == q.session.sender && r.session.receiver == q.session.receiver)
    || (r.session.sender == q.session.receiver && r.session.receiver == q.session.sender)
  }

  /** Two records that are apart, with responder sessions a and b behind them that share no key. */
  lemma {:induction false} ApartShareNoKey(r: Made, q: Made, a: Made, b: Made)
    requires Apart(r, q) || Apart(q, r)
    requires if r.initiator then Matches(r, a) else a == r && !a.initiator
    requires if q.initiator then Matches(q, b) else b == q && !b.initiator
    requires ShareKey(a.session, b.session) ==> a == b
    ensures ShareKey(r.session, q.session) <==> TwoEnds(r, q)
  {
    assert SameKeys(r, a) && SameKeys(q, b);
  }

  /** Two sessions of one run share a key exactly if they are the two ends of one exchange. */
  lemma {:induction false} SharingIsMatching(w: World, i: nat, j: nat)
    requires Inv(w) && SecretsOk(w) && i < |w.made| && j < |w.made| && i != j
    ensures ShareKey(w.made[i].session, w.made[j].session) <==> TwoEnds(w.made[i], w.made[j])
  {
    var a := Responder(w, w.made[i]);
    var b := Responder(w, w.made[j]);
    RespondersShareNoKey(w, a, b);
    ApartShareNoKey(w.made[i], w.made[j], a, b);
  }

  lemma {:induction false} KeysOfOneDiffer(w: World, r: Made)
    requires Inv(w) && SecretsOk(w) && r in w.made
    ensures r.session.sender != r.session.receiver
  {
    var q := Responder(w, r);
    RespondersShareNoKey(w, q, q);
  }

  /** Over every run with an active network the two keys of a session differ. */
  lemma {:induction false} OwnKeysDiffer(w: World, actions: seq<Action>, i: nat)
    requires Initial(w) && i < |Run(w, actions).made|
    ensures Run(w, actions).made[i].session.sender != Run(w, actions).made[i].session.receiver
  {
    RunKeepsInv(w, actions);
    RunKeepsSecrets(w, actions);
    KeysOfOneDiffer(Run(w, actions), Run(w, actions).made[i]);
  }

  /** Over every run with an active network two sessions share a key if and only if they are the
      initiator's and the responder's end of one exchange. */
  lemma {:induction false} SessionKeysAreDistinct(w: World, actions: seq<Action>, i: nat, j: nat)
    requires Initial(w) && i < |Run(w, actions).made| && j < |Run(w, actions).made| && i != j
    ensures
      var r, q := Run(w, actions).made[i], Run(w, actions).made[j];
      ShareKey(r.session, q.session) <==> TwoEnds(r, q)
  {
    RunKeepsInv(w, actions);
    RunKeepsSecrets(w, actions);
    SharingIsMatching(Run(w, actions), i, j);
  }
}

/** Whole runs of two peers over a hostile network.  Both peers initiate and respond, classical
    and hybrid, in any order; the network loses, repeats, delays and reorders messages, rewrites
    every field, mixes fields of different messages and types, and invents its own. */
module HandshakeRuns {
  import opened Wrappers
  import opened Terms
  import opened Tai64N
  import opened HandshakeSpec
  import opened Agreement
  import Session

  datatype Side = A | B

  function Other(x: Side): Side { if x.A? then B else A }

  /** A message on the wire together with the secrets of whoever made it. */
  datatype InitEnv = InitEnv(from: Side, e: nat, stamp: Bytes, dk: Option<nat>, msg: InitMsg)

  datatype RespEnv = RespEnv(from: Side, init: InitMsg, stamp: Stamp, f: nat, coins: nat, msg: RespMsg)

  /** A session somebody made: ephemerals, encapsulation key and (for responders) the timestamp
      it came from; `verbatim` when the completing response was exactly one that was sent. */
  datatype Made = Made(
    owner: Side, initiator: bool, session: Session.State,
    e: Term, f: Term, ek: Option<Term>, stamp: Stamp, verbatim: bool)

  datatype World = World(
    a: Handshake, b: Handshake,
    inits: set<InitEnv>, resps: set<RespEnv>,
    made: seq<Made>,
    drawn: nat,          // every secret below was drawn
    clock: nat)

  function At(w: World, x: Side): Handshake { if x.A? then w.a else w.b }

  function Put(w: World, x: Side, h: Handshake): World { if x.A? then w.(a := h) else w.(b := h) }

  /** The secret shared by the two static keys. */
  function StaticShared(w: World): Term { Dh(w.a.params.staticPrivate, w.a.params.peerPublic) }

  /** Computing `key` needs `secret`. */
  predicate Depends(key: Term, secret: Term) {
    key.Hmac? && (key.data == secret || Depends(key.key, secret))
  }

  predicate OnWire(w: World, box: Term) {
    || (exists env | env in w.inits :: env.msg.encStamp == box)
    || (exists env | env in w.resps :: env.msg.encNothing == box)
  }

  /** The network can put any term into a message, except that it cannot seal under a key that
      needs the static-static secret: such a box is a copy of one that was sent. */
  predicate Injectable(w: World, box: Term) {
    box.Seal? && Depends(box.key, StaticShared(w)) ==> OnWire(w, box)
  }

  predicate Sent(w: World, m: RespMsg) {
    exists env | env in w.resps :: env.msg == m
  }

  datatype Action =
    | Initiate(x: Side, hybrid: bool, dstLen: nat)
    | DeliverInit(x: Side, init: InitMsg, dstLen: nat)
    | DeliverResponse(x: Side, resp: RespMsg)
    | Expire(x: Side)
    | Tick(d: nat)

  function SendsInit(w: World, x: Side, hybrid: bool, dstLen: nat): World {
    var stamp := StampBytes(w.clock);
    var (h, r) := FormatInit(At(w, x), hybrid, w.drawn, w.drawn + 1, stamp, w.clock, dstLen);
    match r
    case Err(_) => w
    case Ok(sent) =>
      Put(w, x, h).(
        inits := w.inits + {InitEnv(x, w.drawn, stamp, if hybrid then Some(w.drawn + 1) else None, sent.msg)},
        drawn := w.drawn + 2)
  }

  function TakesInit(w: World, x: Side, m: InitMsg, dstLen: nat): World {
    Took(w, x, m, Taken(w, x, m, dstLen).0, Taken(w, x, m, dstLen).1)
  }

  function Taken(w: World, x: Side, m: InitMsg, dstLen: nat): (Handshake, Result<Reply>) {
    ReceiveInit(At(w, x), m, w.drawn, w.drawn + 1, dstLen)
  }

  /** Records the outcome of receiving `m`: the new handshake, and the reply if there is one. */
  function Took(w: World, x: Side, m: InitMsg, h: Handshake, r: Result<Reply>): World {
    var w' := Put(w, x, h).(drawn := w.drawn + 2);
    match r
    case Err(_) => w'
    case Ok(reply) =>
      w'.(resps := w.resps + {RespEnv(x, m, h.lastStamp, w.drawn, w.drawn + 1, reply.msg)},
          made := w.made + [Made(x, false, reply.session, m.ephemeral, Pub(w.drawn), m.ek, h.lastStamp, true)])
  }

  function TakesResponse(w: World, x: Side, m: RespMsg): World {
    var (h, r) := ReceiveResponse(At(w, x), m, w.clock);
    match r
    case Err(_) => w
    case Ok(session) =>
      var s := Awaiting(At(w, x), m.receiver).value;
      Put(w, x, h).(made := w.made + [InitiatorRecord(x, s, m, session, Sent(w, m))])
  }

  function InitiatorRecord(x: Side, s: State, m: RespMsg, session: Session.State, verbatim: bool): Made
    requires s.InitSent?
  {
    Made(x, true, session, Pub(s.ephemeral), m.ephemeral,
         if s.dk.Some? then Some(KemPub(s.dk.value)) else None, ZERO_STAMP, verbatim)
  }

  function Step(w: World, act: Action): World {
    match act
    case Initiate(x, hybrid, dstLen) => SendsInit(w, x, hybrid, dstLen)
    case DeliverInit(x, m, dstLen) => if Injectable(w, m.encStamp) then TakesInit(w, x, m, dstLen) else w
    case DeliverResponse(x, m) => if Injectable(w, m.encNothing) then TakesResponse(w, x, m) else w
    case Expire(x) => Put(w, x, SetExpired(At(w, x)))
    case Tick(d) => w.(clock := w.clock + d)
  }

  function Run(w: World, actions: seq<Action>): World
    decreases |actions|
  {
    if actions == [] then w else Step(Run(w, actions[..|actions| - 1]), actions[|actions| - 1])
  }

  /** Two ends of one tunnel, each configured with the other's public key; the preshared keys
      are whatever each end was given. */
  predicate Setup(w: World) {
    && w.a.params.peerPublic == Pub(w.b.params.staticPrivate)
    && w.b.params.peerPublic == Pub(w.a.params.staticPrivate)
    && w.a.params.staticPrivate != w.b.params.staticPrivate
  }

  predicate Initial(w: World) {
    && Setup(w)
    && w.a == New(w.a.params, w.a.nextIndex) && w.b == New(w.b.params, w.b.nextIndex)
    && w.inits == {} && w.resps == {} && w.made == []
  }

  // ----- The invariant -----

  predicate InitOk(w: World, env: InitEnv) {
    && env.msg == MakeInit(At(w, env.from).params, env.msg.sender, env.e, env.stamp, env.dk)
    && env.e < w.drawn
  }

  function ResponderRecord(w: World, env: RespEnv): Made
    requires env.init.ek.Some? ==> env.init.ek.value.KemPub?
  {
    var q := At(w, env.from).params;
    var d := RespondTo(q, Stored(q, env.init), env.f, env.coins);
    Made(env.from, false, Session.New(env.msg.sender, env.msg.receiver, d.toResponder, d.toInitiator),
         env.init.ephemeral, Pub(env.f), env.init.ek, env.stamp, true)
  }

  /** The ciphertext for the encapsulation key of m. */
  function CtOf(m: InitMsg, coins: nat): Option<Term>
    requires m.ek.Some? ==> m.ek.value.KemPub?
  {
    if m.ek.Some? then Some(KemCt(m.ek.value.dk, coins)) else None
  }

  predicate RespOk(w: World, env: RespEnv) {
    && (env.init.ek.Some? ==> env.init.ek.value.KemPub?)
    && (var q := At(w, env.from).params;
        env.msg.encNothing == RespondTo(q, Stored(q, env.init), env.f, env.coins).box)
    && env.msg.ephemeral == Pub(env.f) && env.msg.ct == CtOf(env.init, env.coins)
    && ResponderRecord(w, env) in w.made
  }

  /** `env` is the initiation that slot `s` of side `x` waits for. */
  predicate Backs(w: World, x: Side, s: State, env: InitEnv)
    requires s.InitSent?
  {
    && env.from == x && env.e == s.ephemeral && env.dk == s.dk && env.msg.sender == s.localIndex
    && s.chain == InitiatorChain(At(w, x).params, env.e, env.msg)
  }

  predicate SlotOk(w: World, x: Side, s: State) {
    s.InitSent? ==> exists env | env in w.inits :: Backs(w, x, s, env)
  }

  predicate SlotsOk(w: World, x: Side) {
    var h := At(w, x);
    && SlotOk(w, x, h.state) && SlotOk(w, x, h.previous)
    && (h.state.InitSent? && h.previous.InitSent? ==> h.state.ephemeral != h.previous.ephemeral)
  }

  predicate WireOk(w: World) {
    && (forall env | env in w.inits :: InitOk(w, env))
    && (forall env, env' | env in w.inits && env' in w.inits :: env.e == env'.e ==> env == env')
    && (forall env | env in w.resps :: RespOk(w, env))
  }

  /** The initiation a responder session answers is a genuine one of the other side. */
  predicate Answers(w: World, r: Made, env: InitEnv) {
    env.from == Other(r.owner) && r.e == Pub(env.e) && Parse(env.stamp) == Ok(r.stamp)
  }

  /** Crossed keys, the same ephemerals and encapsulation key; crossed indices too exactly when the
      response arrived as it was sent. */
  predicate Matches(r: Made, q: Made) {
    && q.owner == Other(r.owner) && !q.initiator
    && r.session.sender == q.session.receiver && r.session.receiver == q.session.sender
    && r.e == q.e && r.f == q.f && r.ek == q.ek
    && (r.verbatim <==> Session.Mirrored(r.session, q.session))
  }

  predicate Spent(w: World, x: Side, e: Term) {
    var h := At(w, x);
    && e.Pub? && e.secret < w.drawn
    && (h.state.InitSent? ==> h.state.ephemeral != e.secret)
    && (h.previous.InitSent? ==> h.previous.ephemeral != e.secret)
  }

  predicate RecordOk(w: World, r: Made) {
    if r.initiator
    then Spent(w, r.owner, r.e) && exists q | q in w.made :: Matches(r, q)
    else NotBefore(At(w, r.owner).lastStamp, r.stamp) && exists env | env in w.inits :: Answers(w, r, env)
  }

  predicate Apart(r: Made, q: Made) {
    r.owner == q.owner && r.initiator == q.initiator ==>
      if r.initiator then r.e != q.e else After(q.stamp, r.stamp)
  }

  predicate RecordsOk(w: World) {
    && (forall r | r in w.made :: RecordOk(w, r))
    && (forall i, j | 0 <= i < j < |w.made| :: Apart(w.made[i], w.made[j]))
  }

  predicate Inv(w: World) {
    Setup(w) && WireOk(w) && SlotsOk(w, A) && SlotsOk(w, B) && RecordsOk(w)
  }

  // ----- Keys that need the static-static secret -----

  lemma {:induction false} MixKeepsDepends(c: Chain, data: Term, secret: Term)
    requires Depends(c.key, secret) || data == secret
    ensures Depends(MixKey(c, data).key, secret)
    ensures Depends(CipherKey(c, data), secret)
  {
    assert Depends(Hmac(c.key, data), secret);
  }

  lemma {:induction false} ClassicalDepends(c: Chain, e: Term, ee: Term, se: Term, secret: Term)
    requires Depends(c.key, secret)
    ensures Depends(ClassicalPart(c, e, ee, se).key, secret)
  {
    var c1 := MixKey(MixHash(c, e), e);
    MixKeepsDepends(MixHash(c, e), e, secret);
    MixKeepsDepends(c1, ee, secret);
    MixKeepsDepends(MixKey(c1, ee), se, secret);
  }

  lemma {:induction false} BeforePskDepends(c: Chain, e: Term, ee: Term, se: Term, kem: Option<Kem>, secret: Term)
    requires Depends(c.key, secret)
    ensures Depends(BeforePsk(c, e, ee, se, kem).key, secret)
  {
    ClassicalDepends(c, e, ee, se, secret);
    if kem.Some? {
      MixKeepsDepends(ClassicalPart(c, e, ee, se), kem.value.secret, secret);
    }
  }

  lemma {:induction false} FinishDepends(d: Chain, psk: Term, secret: Term)
    requires Depends(d.key, secret)
    ensures Depends(Finish(d, psk).box.key, secret)
  {
    assert Depends(Hmac(d.key, psk), secret);
  }

  lemma {:induction false} ResponseKeyDepends(
    c: Chain, e: Term, ee: Term, se: Term, kem: Option<Kem>, psk: Term, secret: Term)
    requires Depends(c.key, secret)
    ensures Depends(Respond(c, e, ee, se, kem, psk).box.key, secret)
  {
    BeforePskDepends(c, e, ee, se, kem, secret);
    FinishDepends(BeforePsk(c, e, ee, se, kem), psk, secret);
  }

  lemma {:induction false} SharedBothWays(w: World, x: Side)
    requires Setup(w)
    ensures Dh(At(w, x).params.staticPrivate, At(w, x).params.peerPublic) == StaticShared(w)
  {
    DhCommutes(w.a.params.staticPrivate, w.b.params.staticPrivate);
  }

  /** Timestamp boxes and confirmation boxes are never mistaken for one another. */
  lemma {:induction false} ResponseBoxDiffers(q: Params, s: State, f: nat, coins: nat, c: Chain, ss: Term, plain: Term)
    requires s.InitReceived? && (s.ek.Some? ==> s.ek.value.KemPub?)
    ensures RespondTo(q, s, f, coins).box != StampBox(c, ss, plain)
  {
  }

  // ----- What acceptance yields -----

  /** What the checks establish about the timestamp box. */
  lemma {:induction false} CheckedStampBox(h: Handshake, m: InitMsg)
    requires CheckInit(h, m).Ok?
    ensures m.encStamp.Seal? && m.encStamp.plain.Data?
    ensures m.encStamp == StampBox(
              ResponderNamed(h.params, m), Dh(h.params.staticPrivate, h.params.peerPublic), m.encStamp.plain)
    ensures Parse(m.encStamp.plain.bytes) == CheckInit(h, m)
  {
  }

  /** A timestamp box under the static-static secret comes from an initiation that was sent. */
  lemma {:induction false} StampBoxWasSent(w: World, c: Chain, plain: Term) returns (env: InitEnv)
    requires Setup(w) && WireOk(w)
    requires Injectable(w, StampBox(c, StaticShared(w), plain))
    ensures env in w.inits && env.msg.encStamp == StampBox(c, StaticShared(w), plain)
  {
    var ss := StaticShared(w);
    var box := StampBox(c, ss, plain);
    StampKeyDepends(c, ss, plain);
    assert OnWire(w, box);
    forall other | other in w.resps
      ensures other.msg.encNothing != box
    {
      SentResponseDiffers(w, other, c, ss, plain);
    }
    env :| env in w.inits && env.msg.encStamp == box;
  }

  lemma {:induction false} StampKeyDepends(c: Chain, ss: Term, plain: Term)
    ensures StampBox(c, ss, plain).Seal? && Depends(StampBox(c, ss, plain).key, ss)
  {
    MixKeepsDepends(c, ss, ss);
  }

  lemma {:induction false} SentResponseDiffers(w: World, env: RespEnv, c: Chain, ss: Term, plain: Term)
    requires WireOk(w) && env in w.resps
    ensures env.msg.encNothing != StampBox(c, ss, plain)
  {
    assert RespOk(w, env);
    var q := At(w, env.from).params;
    ResponseBoxDiffers(q, Stored(q, env.init), env.f, env.coins, c, ss, plain);
  }

  lemma {:induction false} SentStampBox(w: World, env: InitEnv)
    requires Setup(w) && InitOk(w, env)
    ensures
      var o := At(w, env.from).params;
      env.msg.encStamp == StampBox(
        Named(env.dk.Some?, o.peerPublic, Pub(env.e), Dh(env.e, o.peerPublic), env.msg.encStatic),
        StaticShared(w), Data(env.stamp))
  {
    SharedBothWays(w, env.from);
  }

  /** An accepted initiation is, but for its sender index and encapsulation key, one that the
      other side made. */
  lemma {:induction false} AcceptedInitIsGenuine(w: World, x: Side, m: InitMsg) returns (env: InitEnv)
    requires Setup(w) && WireOk(w) && Injectable(w, m.encStamp)
    requires CheckInit(At(w, x), m).Ok?
    ensures env in w.inits && env.from == Other(x)
    ensures m.ephemeral == Pub(env.e) && m.encStatic == env.msg.encStatic && m.encStamp == env.msg.encStamp
    ensures m.ek.Some? == env.dk.Some?
    ensures Parse(env.stamp) == CheckInit(At(w, x), m)
  {
    var p := At(w, x).params;
    CheckedStampBox(At(w, x), m);
    SharedBothWays(w, x);
    env := StampBoxWasSent(w, ResponderNamed(p, m), m.encStamp.plain);
    assert InitOk(w, env);
    SentStampBox(w, env);
    var o := At(w, env.from).params;
    StampBoxInjective(
      ResponderNamed(p, m), m.encStamp.plain,
      Named(env.dk.Some?, o.peerPublic, Pub(env.e), Dh(env.e, o.peerPublic), env.msg.encStatic),
      Data(env.stamp), StaticShared(w));
    NamedInjective(
      m.ek.Some?, Pub(p.staticPrivate), m.ephemeral, Dh(p.staticPrivate, m.ephemeral), m.encStatic,
      env.dk.Some?, o.peerPublic, Pub(env.e), Dh(env.e, o.peerPublic), env.msg.encStatic);
  }

  lemma {:induction false} StampBoxInjective(c: Chain, plain: Term, c': Chain, plain': Term, ss: Term)
    requires StampBox(c, ss, plain) == StampBox(c', ss, plain')
    ensures c == c' && plain == plain'
  {
  }

  lemma {:induction false} NamedInjective(
    hybrid: bool, r: Term, e: Term, es: Term, encStatic: Term,
    hybrid': bool, r': Term, e': Term, es': Term, encStatic': Term)
    requires Named(hybrid, r, e, es, encStatic) == Named(hybrid', r', e', es', encStatic')
    ensures hybrid == hybrid' && r == r' && e == e' && es == es' && encStatic == encStatic'
  {
    assert Hmac(InitialKey(hybrid), e) == Hmac(InitialKey(hybrid'), e');
    ConstructionsDiffer();
  }

  /** The confirmation box an initiator accepts needs the static-static secret. */
  lemma {:induction false} ConfirmDepends(w: World, x: Side, s: State, env: InitEnv, m: RespMsg)
    requires Setup(w) && s.InitSent? && Backs(w, x, s, env)
    requires m.ct.Some? ==> s.dk.Some?
    ensures Depends(Confirm(At(w, x).params, s, m).box.key, StaticShared(w))
  {
    var p := At(w, x).params;
    SharedBothWays(w, x);
    var named := Named(env.msg.ek.Some?, p.peerPublic, env.msg.ephemeral, Dh(env.e, p.peerPublic), env.msg.encStatic);
    MixKeepsDepends(named, StaticShared(w), StaticShared(w));
    assert s.chain.key == MixKey(named, StaticShared(w)).key;
    var kem := if m.ct.Some? then Some(Kem(m.ct.value, Decap(s.dk.value, m.ct.value))) else None;
    ResponseKeyDepends(s.chain, m.ephemeral, Dh(s.ephemeral, m.ephemeral), Dh(p.staticPrivate, m.ephemeral),
                       kem, PskOf(p), StaticShared(w));
  }

  lemma {:induction false} ConfirmBoxDiffers(p: Params, s: State, m: RespMsg, c: Chain, ss: Term, plain: Term)
    requires s.InitSent? && (m.ct.Some? ==> s.dk.Some?)
    ensures Confirm(p, s, m).box != StampBox(c, ss, plain)
  {
  }

  /** A confirmation box under the static-static secret comes from a response that was sent, and
      from this very one if the message arrived as it was sent. */
  lemma {:induction false} ConfirmBoxWasSent(
    w: World, x: Side, s: State, ie: InitEnv, m: RespMsg) returns (env: RespEnv)
    requires Setup(w) && WireOk(w) && s.InitSent? && Backs(w, x, s, ie)
    requires m.ct.Some? ==> s.dk.Some?
    requires m.encNothing == Confirm(At(w, x).params, s, m).box && Injectable(w, m.encNothing)
    ensures env in w.resps && env.msg.encNothing == m.encNothing
    ensures Sent(w, m) ==> env.msg == m
  {
    ConfirmDepends(w, x, s, ie, m);
    assert OnWire(w, m.encNothing);
    forall other | other in w.inits
      ensures other.msg.encStamp != m.encNothing
    {
      assert InitOk(w, other);
      SentStampBox(w, other);
      var o := At(w, other.from).params;
      ConfirmBoxDiffers(At(w, x).params, s, m,
        Named(other.dk.Some?, o.peerPublic, Pub(other.e), Dh(other.e, o.peerPublic), other.msg.encStatic),
        StaticShared(w), Data(other.stamp));
    }
    if Sent(w, m) {
      env :| env in w.resps && env.msg == m;
    } else {
      env :| env in w.resps && env.msg.encNothing == m.encNothing;
    }
  }

  function EkOf(dk: Option<nat>): Option<Term> { if dk.Some? then Some(KemPub(dk.value)) else None }

  /** An accepted response is one the other side made for this very initiation. */
  lemma {:induction false} AcceptedResponseIsGenuine(w: World, x: Side, m: RespMsg) returns (env: RespEnv)
    requires Setup(w) && WireOk(w) && SlotsOk(w, x) && Injectable(w, m.encNothing)
    requires CheckResponse(At(w, x), m).Ok?
    ensures env in w.resps && env.from == Other(x)
    ensures env.init.ek.Some? ==> env.init.ek.value.KemPub?
    ensures Sent(w, m) ==> env.msg == m
    ensures m == env.msg.(sender := m.sender, receiver := m.receiver)
    ensures SamePsk(w.a.params, w.b.params)
    ensures
      var s := Awaiting(At(w, x), m.receiver).value;
      var q := At(w, env.from).params;
      && CheckResponse(At(w, x), m).value == RespondTo(q, Stored(q, env.init), env.f, env.coins)
      && env.init.ephemeral == Pub(s.ephemeral) && env.init.ek == EkOf(s.dk)
      && m.ephemeral == Pub(env.f)
  {
    var p := At(w, x).params;
    var s := Awaiting(At(w, x), m.receiver).value;
    assert SlotOk(w, x, s);
    var ie :| ie in w.inits && Backs(w, x, s, ie);
    assert InitOk(w, ie);
    env := ConfirmBoxWasSent(w, x, s, ie, m);
    assert RespOk(w, env);
    var q := At(w, env.from).params;
    AcceptedMeansAgreed(p, s, s.localIndex, ie.e, ie.stamp, ie.dk, s.timeSent,
                        q, env.init, env.f, env.coins, m);
  }

  // ----- Steps keep the invariant -----

  /** Everything recorded stays recorded. */
  predicate Grows(w: World, w': World) {
    && w'.a.params == w.a.params && w'.b.params == w.b.params
    && w.inits <= w'.inits && w.resps <= w'.resps
    && w.made <= w'.made
    && w.drawn <= w'.drawn
  }

  lemma {:induction false} WireGrows(w: World, w': World)
    requires WireOk(w) && Grows(w, w')
    ensures forall env | env in w.inits :: InitOk(w', env)
    ensures forall env | env in w.resps :: RespOk(w', env)
  {
    forall env | env in w.inits
      ensures InitOk(w', env)
    {
      assert InitOk(w, env);
    }
    forall env | env in w.resps
      ensures RespOk(w', env)
    {
      assert RespOk(w, env);
      assert ResponderRecord(w', env) == ResponderRecord(w, env);
    }
  }

  lemma {:induction false} SlotGrows(w: World, w': World, x: Side, s: State)
    requires SlotOk(w, x, s) && Grows(w, w')
    ensures SlotOk(w', x, s)
  {
    if s.InitSent? {
      var env :| env in w.inits && Backs(w, x, s, env);
      assert env in w'.inits && Backs(w', x, s, env);
    }
  }

  lemma {:induction false} OtherSideGrows(w: World, w': World, x: Side)
    requires SlotsOk(w, x) && Grows(w, w') && At(w', x) == At(w, x)
    ensures SlotsOk(w', x)
  {
    SlotGrows(w, w', x, At(w, x).state);
    SlotGrows(w, w', x, At(w, x).previous);
  }

  /** An outstanding initiation of `g` was already outstanding in `h`, or uses a new secret. */
  predicate NoOldSlot(h: Handshake, g: Handshake, drawn: nat) {
    && (g.state.InitSent? ==> g.state == h.state || g.state == h.previous || drawn <= g.state.ephemeral)
    && (g.previous.InitSent? ==> g.previous == h.state || g.previous == h.previous)
    && NotBefore(g.lastStamp, h.lastStamp)
  }

  lemma {:induction false} RecordGrows(w: World, w': World, r: Made)
    requires RecordOk(w, r) && Grows(w, w')
    requires NoOldSlot(At(w, r.owner), At(w', r.owner), w.drawn)
    ensures RecordOk(w', r)
  {
    if r.initiator {
      var q :| q in w.made && Matches(r, q);
      assert q in w'.made;
    } else {
      var env :| env in w.inits && Answers(w, r, env);
      assert env in w'.inits && Answers(w', r, env);
    }
  }

  lemma {:induction false} OldRecordsGrow(w: World, w': World)
    requires RecordsOk(w) && Grows(w, w')
    requires NoOldSlot(w.a, w'.a, w.drawn) && NoOldSlot(w.b, w'.b, w.drawn)
    ensures forall r | r in w.made :: RecordOk(w', r)
  {
    forall r | r in w.made
      ensures RecordOk(w', r)
    {
      RecordGrows(w, w', r);
    }
  }

  lemma {:induction false} OldSlotIsOld(w: World, x: Side, s: State)
    requires WireOk(w) && SlotOk(w, x, s)
    ensures s.InitSent? ==> s.ephemeral < w.drawn
  {
    if s.InitSent? {
      var env :| env in w.inits && Backs(w, x, s, env);
      assert InitOk(w, env);
    }
  }

  /** What sending adds: one initiation with a new secret, and the slot that waits for it. */
  lemma {:induction false} SendsInitShape(w: World, x: Side, hybrid: bool, dstLen: nat) returns (env: InitEnv)
    requires dstLen >= InitSize(hybrid)
    ensures
      var w' := SendsInit(w, x, hybrid, dstLen);
      && env.e == w.drawn && w'.inits == w.inits + {env} && w'.resps == w.resps && w'.made == w.made
      && Grows(w, w') && InitOk(w', env)
      && At(w', Other(x)) == At(w, Other(x))
      && At(w', x).state.InitSent? && At(w', x).state.ephemeral == w.drawn
      && Backs(w', x, At(w', x).state, env)
      && At(w', x).previous == At(w, x).state
      && NoOldSlot(w.a, w'.a, w.drawn) && NoOldSlot(w.b, w'.b, w.drawn)
  {
    var stamp := StampBytes(w.clock);
    var sent := FormatInit(At(w, x), hybrid, w.drawn, w.drawn + 1, stamp, w.clock, dstLen).1.value;
    env := InitEnv(x, w.drawn, stamp, if hybrid then Some(w.drawn + 1) else None, sent.msg);
  }

  /** The invariant after one new initiation, whoever made it and however. */
  lemma {:induction false} OneMoreInit(w: World, w': World, x: Side, env: InitEnv)
    requires Inv(w) && Grows(w, w') && env.e == w.drawn && InitOk(w', env)
    requires w'.inits == w.inits + {env} && w'.resps == w.resps && w'.made == w.made
    requires At(w', Other(x)) == At(w, Other(x)) && At(w', x).previous == At(w, x).state
    requires At(w', x).state.InitSent? && At(w', x).state.ephemeral == w.drawn
    requires Backs(w', x, At(w', x).state, env)
    requires NoOldSlot(w.a, w'.a, w.drawn) && NoOldSlot(w.b, w'.b, w.drawn)
    ensures Inv(w')
  {
    OneMoreOnWire(w, w', env);
    OneMoreSlot(w, w', x, env);
    OtherSideGrows(w, w', Other(x));
    OldRecordsGrow(w, w');
  }

  lemma {:induction false} OneMoreOnWire(w: World, w': World, env: InitEnv)
    requires WireOk(w) && Grows(w, w') && env.e == w.drawn && InitOk(w', env)
    requires w'.inits == w.inits + {env} && w'.resps == w.resps
    ensures WireOk(w')
  {
    WireGrows(w, w');
    UniqueStays(w, env);
  }

  lemma {:induction false} OneMoreSlot(w: World, w': World, x: Side, env: InitEnv)
    requires Inv(w) && Grows(w, w') && env in w'.inits
    requires At(w', x).state.InitSent? && At(w', x).state.ephemeral == w.drawn
    requires Backs(w', x, At(w', x).state, env) && At(w', x).previous == At(w, x).state
    ensures SlotsOk(w', x)
  {
    SlotGrows(w, w', x, At(w, x).state);
    OldSlotIsOld(w, x, At(w, x).state);
  }

  lemma {:induction false} SendsInitKeepsInv(w: World, x: Side, hybrid: bool, dstLen: nat)
    requires Inv(w) && dstLen >= InitSize(hybrid)
    ensures Inv(SendsInit(w, x, hybrid, dstLen))
  {
    var env := SendsInitShape(w, x, hybrid, dstLen);
    OneMoreInit(w, SendsInit(w, x, hybrid, dstLen), x, env);
  }

  lemma {:induction false} UniqueStays(w: World, env: InitEnv)
    requires WireOk(w) && env.e == w.drawn
    ensures forall o, o' | o in w.inits + {env} && o' in w.inits + {env} :: o.e == o'.e ==> o == o'
  {
    forall o | o in w.inits
      ensures o.e < w.drawn
    {
      assert InitOk(w, o);
    }
  }

  /** Adding one record that is fine and apart from the earlier ones. */
  lemma {:induction false} RecordsPlusOne(w: World, w': World, r: Made)
    requires RecordsOk(w) && w'.made == w.made + [r]
    requires forall q | q in w.made :: RecordOk(w', q)
    requires RecordOk(w', r)
    requires forall q | q in w.made :: Apart(q, r)
    ensures RecordsOk(w')
  {
    forall i, j | 0 <= i < j < |w'.made|
      ensures Apart(w'.made[i], w'.made[j])
    {
      if j < |w.made| {
        assert Apart(w.made[i], w.made[j]);
      } else {
        assert w.made[i] in w.made;
      }
    }
  }

  // ----- Taking an initiation -----

  /** A checked initiation replaces the current slot by one that waits for nothing. */
  lemma {:induction false} ReceiveInitShape(h: Handshake, m: InitMsg, ephemeral: nat, coins: nat, dstLen: nat)
    requires CheckInit(h, m).Ok?
    ensures
      var (h', r) := ReceiveInit(h, m, ephemeral, coins, dstLen);
      && h'.params == h.params
      && h'.lastStamp == CheckInit(h, m).value && After(h'.lastStamp, h.lastStamp)
      && !h'.state.InitSent? && h'.previous == h.state
      && (r.Err? <==> LateRefusal(m, dstLen))
  {
  }

  /** The reply to a checked initiation is the derivation from the stored slot. */
  lemma {:induction false} ReceiveInitReply(h: Handshake, m: InitMsg, ephemeral: nat, coins: nat, dstLen: nat)
    requires CheckInit(h, m).Ok? && !LateRefusal(m, dstLen)
    ensures
      var d := RespondTo(h.params, Stored(h.params, m), ephemeral, coins);
      var reply := ReceiveInit(h, m, ephemeral, coins, dstLen).1.value;
      && reply.msg.encNothing == d.box
      && reply.msg.ephemeral == Pub(ephemeral) && reply.msg.ct == CtOf(m, coins)
      && reply.session == Session.New(reply.msg.sender, reply.msg.receiver, d.toResponder, d.toInitiator)
  {
  }

  /** The outcome `h`, `r` of a checked initiation, without the checks themselves. */
  predicate Outcome(w: World, x: Side, m: InitMsg, h: Handshake, r: Result<Reply>) {
    && h.params == At(w, x).params
    && After(h.lastStamp, At(w, x).lastStamp)
    && !h.state.InitSent? && h.previous == At(w, x).state
    && (r.Ok? ==>
          && (m.ek.Some? ==> m.ek.value.KemPub?)
          && var d := RespondTo(h.params, Stored(h.params, m), w.drawn, w.drawn + 1);
             && r.value.msg.encNothing == d.box
             && r.value.msg.ephemeral == Pub(w.drawn) && r.value.msg.ct == CtOf(m, w.drawn + 1)
             && r.value.session ==
                  Session.New(r.value.msg.sender, r.value.msg.receiver, d.toResponder, d.toInitiator))
  }

  /** The envelope of the response; its session is recorded together with it. */
  function Envelope(w: World, x: Side, m: InitMsg, h: Handshake, reply: Reply): RespEnv {
    RespEnv(x, m, h.lastStamp, w.drawn, w.drawn + 1, reply.msg)
  }

  lemma {:induction false} EnvelopeOk(w: World, x: Side, m: InitMsg, h: Handshake, r: Result<Reply>)
    requires Outcome(w, x, m, h, r) && r.Ok?
    ensures
      var w', env := Took(w, x, m, h, r), Envelope(w, x, m, h, r.value);
      && w'.resps == w.resps + {env}
      && w'.made == w.made + [ResponderRecord(w', env)]
      && RespOk(w', env)
  {
    var w', env := Took(w, x, m, h, r), Envelope(w, x, m, h, r.value);
    assert At(w', x) == h;
    assert w'.made == w.made + [ResponderRecord(w', env)];
    assert ResponderRecord(w', env) in w'.made;
  }

  lemma {:induction false} MoreResponses(w: World, w': World, more: set<RespEnv>)
    requires WireOk(w) && Grows(w, w') && w'.inits == w.inits && w'.resps == w.resps + more
    requires forall env | env in more :: RespOk(w', env)
    ensures WireOk(w')
  {
    WireGrows(w, w');
  }

  lemma {:induction false} TookKeepsWire(w: World, x: Side, m: InitMsg, h: Handshake, r: Result<Reply>)
    requires WireOk(w) && Outcome(w, x, m, h, r)
    ensures WireOk(Took(w, x, m, h, r))
  {
    TookGrows(w, x, m, h, r);
    if r.Ok? {
      EnvelopeOk(w, x, m, h, r);
      OneMoreResponse(w, Took(w, x, m, h, r), Envelope(w, x, m, h, r.value));
    } else {
      MoreResponses(w, Took(w, x, m, h, r), {});
    }
  }

  lemma {:induction false} OneMoreResponse(w: World, w': World, env: RespEnv)
    requires WireOk(w) && Grows(w, w') && w'.inits == w.inits && w'.resps == w.resps + {env} && RespOk(w', env)
    ensures WireOk(w')
  {
    MoreResponses(w, w', {env});
  }

  lemma {:induction false} TookGrows(w: World, x: Side, m: InitMsg, h: Handshake, r: Result<Reply>)
    requires h.params == At(w, x).params
    ensures Grows(w, Took(w, x, m, h, r)) && Took(w, x, m, h, r).inits == w.inits
    ensures r.Err? ==> Took(w, x, m, h, r).resps == w.resps
  {
  }

  lemma {:induction false} TookKeepsSlots(w: World, x: Side, m: InitMsg, h: Handshake, r: Result<Reply>)
    requires Inv(w) && Outcome(w, x, m, h, r)
    ensures
      var w' := Took(w, x, m, h, r);
      && Setup(w') && SlotsOk(w', A) && SlotsOk(w', B)
      && forall q | q in w.made :: RecordOk(w', q)
  {
    var w' := Took(w, x, m, h, r);
    SlotGrows(w, w', x, At(w, x).state);
    OtherSideGrows(w, w', Other(x));
    OldRecordsGrow(w, w');
  }

  lemma {:induction false} NewResponderRecord(w: World, w': World, r: Made, ie: InitEnv)
    requires RecordsOk(w) && w'.made == w.made + [r] && !r.initiator
    requires After(r.stamp, At(w, r.owner).lastStamp) && At(w', r.owner).lastStamp == r.stamp
    requires ie in w'.inits && Answers(w', r, ie)
    requires forall q | q in w.made :: RecordOk(w', q)
    ensures RecordsOk(w')
  {
    assert RecordOk(w', r);
    forall q | q in w.made
      ensures Apart(q, r)
    {
      assert RecordOk(w, q);
    }
    RecordsPlusOne(w, w', r);
  }

  lemma {:induction false} TookKeepsInv(w: World, x: Side, m: InitMsg, h: Handshake, r: Result<Reply>, ie: InitEnv)
    requires Inv(w) && Outcome(w, x, m, h, r)
    requires ie in w.inits && ie.from == Other(x) && m.ephemeral == Pub(ie.e) && Parse(ie.stamp) == Ok(h.lastStamp)
    ensures Inv(Took(w, x, m, h, r))
  {
    var w' := Took(w, x, m, h, r);
    TookKeepsWire(w, x, m, h, r);
    TookKeepsSlots(w, x, m, h, r);
    if r.Ok? {
      NewResponderRecord(w, w', w'.made[|w.made|], ie);
    }
  }

  lemma {:induction false} TakesInitKeepsInv(w: World, x: Side, m: InitMsg, dstLen: nat)
    requires Inv(w) && Injectable(w, m.encStamp) && CheckInit(At(w, x), m).Ok?
    ensures Inv(TakesInit(w, x, m, dstLen))
  {
    TakenIsOutcome(w, x, m, dstLen);
    var ie := AcceptedInitIsGenuine(w, x, m);
    TookKeepsInv(w, x, m, Taken(w, x, m, dstLen).0, Taken(w, x, m, dstLen).1, ie);
  }

  lemma {:induction false} TakenIsOutcome(w: World, x: Side, m: InitMsg, dstLen: nat)
    requires CheckInit(At(w, x), m).Ok?
    ensures
      var (h, r) := Taken(w, x, m, dstLen);
      Outcome(w, x, m, h, r) && Ok(h.lastStamp) == CheckInit(At(w, x), m)
  {
    ReceiveInitShape(At(w, x), m, w.drawn, w.drawn + 1, dstLen);
    if Taken(w, x, m, dstLen).1.Ok? {
      ReceiveInitReply(At(w, x), m, w.drawn, w.drawn + 1, dstLen);
    }
  }

  lemma {:induction false} RefusedInitKeepsInv(w: World, x: Side, m: InitMsg, dstLen: nat)
    requires Inv(w) && CheckInit(At(w, x), m).Err?
    ensures Inv(TakesInit(w, x, m, dstLen))
  {
    var w' := TakesInit(w, x, m, dstLen);
    assert w' == w.(drawn := w.drawn + 2);
    WireGrows(w, w');
    OtherSideGrows(w, w', A);
    OtherSideGrows(w, w', B);
    OldRecordsGrow(w, w');
  }

  // ----- Taking a response -----

  lemma {:induction false} TakesResponseShape(w: World, x: Side, m: RespMsg)
    requires CheckResponse(At(w, x), m).Ok?
    ensures
      var w', s := TakesResponse(w, x, m), Awaiting(At(w, x), m.receiver).value;
      && s.InitSent? && s.localIndex == m.receiver
      && Grows(w, w') && w'.inits == w.inits && w'.resps == w.resps && w'.drawn == w.drawn
      && At(w', Other(x)) == At(w, Other(x))
      && At(w', x).lastStamp == At(w, x).lastStamp
      && ((s == At(w, x).state && At(w', x).state == Idle && At(w', x).previous == At(w, x).previous)
          || (s == At(w, x).previous && At(w', x).previous == Idle && At(w', x).state == At(w, x).state))
      && w'.made == w.made + [InitiatorRecord(
           x, s, m,
           Session.New(s.localIndex, m.sender,
             CheckResponse(At(w, x), m).value.toInitiator, CheckResponse(At(w, x), m).value.toResponder),
           Sent(w, m))]
  {
  }

  lemma {:induction false} CompletedMatches(w: World, x: Side, m: RespMsg, r: Made)
    requires Inv(w) && Injectable(w, m.encNothing) && CheckResponse(At(w, x), m).Ok?
    requires
      var s, d := Awaiting(At(w, x), m.receiver).value, CheckResponse(At(w, x), m).value;
      && s.localIndex == m.receiver
      && r == InitiatorRecord(x, s, m, Session.New(s.localIndex, m.sender, d.toInitiator, d.toResponder), Sent(w, m))
    ensures exists q | q in w.made :: Matches(r, q)
  {
    var env := AcceptedResponseIsGenuine(w, x, m);
    assert RespOk(w, env);
    var q := ResponderRecord(w, env);
    assert q in w.made && Matches(r, q);
  }

  lemma {:induction false} CompletedRecordsOk(w: World, w': World, x: Side, m: RespMsg, r: Made)
    requires Inv(w) && Injectable(w, m.encNothing) && CheckResponse(At(w, x), m).Ok?
    requires
      var s, d := Awaiting(At(w, x), m.receiver).value, CheckResponse(At(w, x), m).value;
      && s.localIndex == m.receiver
      && r == InitiatorRecord(x, s, m, Session.New(s.localIndex, m.sender, d.toInitiator, d.toResponder), Sent(w, m))
      && Spent(w', x, Pub(s.ephemeral))
      && s in {At(w, x).state, At(w, x).previous}
    requires w'.made == w.made + [r]
    requires forall q | q in w.made :: RecordOk(w', q)
    ensures RecordsOk(w')
  {
    CompletedMatches(w, x, m, r);
    var q :| q in w.made && Matches(r, q);
    NewInitiatorRecord(w, w', x, Awaiting(At(w, x), m.receiver).value, r, q);
  }

  /** A record for a slot that was outstanding is apart from all earlier ones. */
  lemma {:induction false} NewInitiatorRecord(w: World, w': World, x: Side, s: State, r: Made, q: Made)
    requires RecordsOk(w) && s.InitSent? && s in {At(w, x).state, At(w, x).previous}
    requires r.owner == x && r.initiator && r.e == Pub(s.ephemeral) && Spent(w', x, r.e)
    requires q in w.made && Matches(r, q)
    requires w'.made == w.made + [r] && forall o | o in w.made :: RecordOk(w', o)
    ensures RecordsOk(w')
  {
    assert q in w'.made;
    assert RecordOk(w', r);
    forall o | o in w.made
      ensures Apart(o, r)
    {
      assert RecordOk(w, o);
    }
    RecordsPlusOne(w, w', r);
  }

  lemma {:induction false} TakesResponseKeepsInv(w: World, x: Side, m: RespMsg)
    requires Inv(w) && Injectable(w, m.encNothing) && CheckResponse(At(w, x), m).Ok?
    ensures Inv(TakesResponse(w, x, m))
  {
    var w' := TakesResponse(w, x, m);
    TakesResponseShape(w, x, m);
    var s := Awaiting(At(w, x), m.receiver).value;
    WireGrows(w, w');
    SlotGrows(w, w', x, At(w', x).state);
    SlotGrows(w, w', x, At(w', x).previous);
    OtherSideGrows(w, w', Other(x));
    OldRecordsGrow(w, w');
    OldSlotIsOld(w, x, s);
    CompletedRecordsOk(w, w', x, m, w'.made[|w.made|]);
  }

  // ----- All runs -----

  lemma {:induction false} StepKeepsInv(w: World, act: Action)
    requires Inv(w)
    ensures Inv(Step(w, act))
  {
    match act
    case Initiate(x, hybrid, dstLen) =>
      if dstLen >= InitSize(hybrid) {
        SendsInitKeepsInv(w, x, hybrid, dstLen);
      }
    case DeliverInit(x, m, dstLen) =>
      if Injectable(w, m.encStamp) {
        if CheckInit(At(w, x), m).Ok? {
          TakesInitKeepsInv(w, x, m, dstLen);
        } else {
          RefusedInitKeepsInv(w, x, m, dstLen);
        }
      }
    case DeliverResponse(x, m) =>
      if Injectable(w, m.encNothing) && CheckResponse(At(w, x), m).Ok? {
        TakesResponseKeepsInv(w, x, m);
      }
    case Expire(x) => ExpireKeepsInv(w, x);
    case Tick(d) => TickKeepsInv(w, d);
  }

  lemma {:induction false} ExpireKeepsInv(w: World, x: Side)
    requires Inv(w)
    ensures Inv(Step(w, Expire(x)))
  {
    var w' := Step(w, Expire(x));
    WireGrows(w, w');
    OtherSideGrows(w, w', Other(x));
    OldRecordsGrow(w, w');
  }

  lemma {:induction false} TickKeepsInv(w: World, d: nat)
    requires Inv(w)
    ensures Inv(Step(w, Tick(d)))
  {
    var w' := Step(w, Tick(d));
    WireGrows(w, w');
    OtherSideGrows(w, w', A);
    OtherSideGrows(w, w', B);
    OldRecordsGrow(w, w');
  }

  lemma {:induction false} RunKeepsInv(w: World, actions: seq<Action>)
    requires Initial(w)
    ensures Inv(Run(w, actions))
    decreases |actions|
  {
    if actions == [] {
    } else {
      RunKeepsInv(w, actions[..|actions| - 1]);
      StepKeepsInv(Run(w, actions[..|actions| - 1]), actions[|actions| - 1]);
    }
  }

  lemma {:induction false} SendGrows(w: World, x: Side, hybrid: bool, dstLen: nat)
    ensures
      var w' := SendsInit(w, x, hybrid, dstLen);
      Grows(w, w') && w'.resps == w.resps
  {
  }

  lemma {:induction false} ReceiveKeepsParams(h: Handshake, m: InitMsg, e: nat, coins: nat, dstLen: nat)
    ensures ReceiveInit(h, m, e, coins, dstLen).0.params == h.params
  {
  }

  lemma {:induction false} StepKeepsParams(w: World, act: Action)
    ensures Step(w, act).a.params == w.a.params && Step(w, act).b.params == w.b.params
  {
    match act
    case Initiate(x, hybrid, dstLen) => SendGrows(w, x, hybrid, dstLen);
    case DeliverInit(x, m, dstLen) =>
      ReceiveKeepsParams(At(w, x), m, w.drawn, w.drawn + 1, dstLen);
    case DeliverResponse(x, m) =>
      if CheckResponse(At(w, x), m).Ok? {
        TakesResponseShape(w, x, m);
      }
    case Expire(x) =>
    case Tick(d) =>
  }

  /** Nothing that happens in these runs changes the configuration of an end. */
  lemma {:induction false} ParamsStay(start: World, actions: seq<Action>)
    ensures Run(start, actions).a.params == start.a.params && Run(start, actions).b.params == start.b.params
    decreases |actions|
  {
    if actions == [] {
    } else {
      ParamsStay(start, actions[..|actions| - 1]);
      StepKeepsParams(Run(start, actions[..|actions| - 1]), actions[|actions| - 1]);
    }
  }

  /** Agreement over whole runs: every session made as initiator, classical or hybrid, has a
      responder session at the other end with crossed keys, the same two ephemerals and the same
      ML-KEM key; the indices are crossed as well exactly when the response arrived unaltered. */
  lemma {:induction false} InitiatorSessionsAreMirrored(w: World, actions: seq<Action>, i: nat)
    requires Initial(w)
    requires i < |Run(w, actions).made| && Run(w, actions).made[i].initiator
    ensures exists q | q in Run(w, actions).made :: Matches(Run(w, actions).made[i], q)
  {
    RunKeepsInv(w, actions);
    var end := Run(w, actions);
    assert RecordOk(end, end.made[i]);
  }

  /** One initiation yields at most one session on each side: two sessions of one side and one
      role never share the initiator ephemeral. */
  lemma {:induction false} OneSessionPerInitiation(w: World, actions: seq<Action>, i: nat, j: nat)
    requires Initial(w)
    requires i < j < |Run(w, actions).made|
    ensures
      var r, q := Run(w, actions).made[i], Run(w, actions).made[j];
      r.owner == q.owner && r.initiator == q.initiator ==> r.e != q.e
  {
    RunKeepsInv(w, actions);
    var end := Run(w, actions);
    var r, q := end.made[i], end.made[j];
    assert RecordOk(end, r) && RecordOk(end, q) && Apart(r, q);
    if !r.initiator && !q.initiator && r.owner == q.owner {
      SameInitiationSameStamp(end, r, q);
    }
  }

  lemma {:induction false} SameInitiationSameStamp(w: World, r: Made, q: Made)
    requires WireOk(w) && RecordOk(w, r) && RecordOk(w, q) && !r.initiator && !q.initiator
    ensures r.e == q.e ==> r.stamp == q.stamp
  {
    var env :| env in w.inits && Answers(w, r, env);
    var env' :| env' in w.inits && Answers(w, q, env');
    assert r.e == q.e ==> env.e == env'.e;
  }

  /** Responder sessions come from genuine initiations of the other side only. */
  lemma {:induction false} ResponderSessionsAreInvited(w: World, actions: seq<Action>, i: nat)
    requires Initial(w)
    requires i < |Run(w, actions).made| && !Run(w, actions).made[i].initiator
    ensures exists env | env in Run(w, actions).inits :: Answers(Run(w, actions), Run(w, actions).made[i], env)
  {
    RunKeepsInv(w, actions);
    var end := Run(w, actions);
    assert RecordOk(end, end.made[i]);
  }

  /** The network only drops, duplicates, delays and reorders responses. */
  predicate Faithful(w: World, actions: seq<Action>)
    decreases |actions|
  {
    actions == [] ||
    (var before, last := actions[..|actions| - 1], actions[|actions| - 1];
     Faithful(w, before) && (last.DeliverResponse? ==> Sent(Run(w, before), last.resp)))
  }

  predicate AllVerbatim(made: seq<Made>) {
    forall i | 0 <= i < |made| && made[i].initiator :: made[i].verbatim
  }

  lemma {:induction false} TookVerbatim(w: World, x: Side, m: InitMsg, h: Handshake, r: Result<Reply>)
    requires AllVerbatim(w.made)
    ensures AllVerbatim(Took(w, x, m, h, r).made)
  {
  }

  lemma {:induction false} ResponseVerbatim(w: World, x: Side, m: RespMsg)
    requires AllVerbatim(w.made) && Sent(w, m)
    ensures AllVerbatim(TakesResponse(w, x, m).made)
  {
    if ReceiveResponse(At(w, x), m, w.clock).1.Ok? {
      var s := Awaiting(At(w, x), m.receiver).value;
      var session := ReceiveResponse(At(w, x), m, w.clock).1.value;
      assert InitiatorRecord(x, s, m, session, true).verbatim;
      assert TakesResponse(w, x, m).made == w.made + [InitiatorRecord(x, s, m, session, true)];
    }
  }

  lemma {:induction false} InitVerbatim(w: World, x: Side, m: InitMsg, dstLen: nat)
    requires AllVerbatim(w.made)
    ensures AllVerbatim(TakesInit(w, x, m, dstLen).made)
  {
    forall h, r
      ensures AllVerbatim(Took(w, x, m, h, r).made)
    {
      TookVerbatim(w, x, m, h, r);
    }
  }

  lemma {:induction false} SendVerbatim(w: World, x: Side, hybrid: bool, dstLen: nat)
    ensures SendsInit(w, x, hybrid, dstLen).made == w.made
  {
  }

  lemma {:induction false} StepVerbatim(w: World, act: Action)
    requires AllVerbatim(w.made) && (act.DeliverResponse? ==> Sent(w, act.resp))
    ensures AllVerbatim(Step(w, act).made)
  {
    match act
    case Initiate(x, hybrid, dstLen) => SendVerbatim(w, x, hybrid, dstLen);
    case DeliverInit(x, m, dstLen) => InitVerbatim(w, x, m, dstLen);
    case DeliverResponse(x, m) => ResponseVerbatim(w, x, m);
    case Expire(x) =>
    case Tick(d) =>
  }

  lemma {:induction false} FaithfulIsVerbatim(w: World, actions: seq<Action>)
    requires Initial(w) && Faithful(w, actions)
    ensures AllVerbatim(Run(w, actions).made)
    decreases |actions|
  {
    if actions == [] {
    } else {
      FaithfulIsVerbatim(w, actions[..|actions| - 1]);
      StepVerbatim(Run(w, actions[..|actions| - 1]), actions[|actions| - 1]);
    }
  }

  /** Under such a network every session made as initiator has a responder session with mirrored
      keys and mirrored indices. */
  lemma {:induction false} FaithfulSessionsAreMirrored(w: World, actions: seq<Action>, i: nat)
    requires Initial(w) && Faithful(w, actions)
    requires i < |Run(w, actions).made| && Run(w, actions).made[i].initiator
    ensures exists q | q in Run(w, actions).made ::
              Matches(Run(w, actions).made[i], q) && Session.Mirrored(Run(w, actions).made[i].session, q.session)
  {
    InitiatorSessionsAreMirrored(w, actions, i);
    FaithfulIsVerbatim(w, actions);
    var end := Run(w, actions);
    var q :| q in end.made && Matches(end.made[i], q);
  }
}

/** An independent definition of the handshake: an interpreter of message patterns as the Noise Protocol
    Framework (revision 34) gives it, run on the pattern IKpsk2 with the two extra tokens of the hybrid
    form.  The key schedule of module HandshakeSpec is proved to be what it computes. */
module NoiseReference {
  import opened Wrappers
  import opened Terms
  import H = HandshakeSpec

  // ----- Symmetric state, section 5.2 -----

  datatype Symmetric = Symmetric(ck: Term, h: Term, k: Term)

  /** Three outputs of HKDF, section 4.3. */
  datatype Outputs = Outputs(first: Term, second: Term, third: Term)

  function Hkdf(ck: Term, input: Term): Outputs {
    var temp := Hmac(ck, input);
    var first := Hmac(temp, Tag(1));
    var second := Hmac(temp, Pair(first, Tag(2)));
    Outputs(first, second, Hmac(temp, Pair(second, Tag(3))))
  }

  function MixHash(s: Symmetric, data: Term): Symmetric { s.(h := Hash(s.h, data)) }

  function MixKey(s: Symmetric, input: Term): Symmetric {
    var out := Hkdf(s.ck, input);
    s.(ck := out.first, k := out.second)
  }

  function MixKeyAndHash(s: Symmetric, input: Term): Symmetric {
    var out := Hkdf(s.ck, input);
    MixHash(s, out.second).(ck := out.first, k := out.third)
  }

  /** Every message key is used once, so the nonce is 0. */
  function Encrypt(s: Symmetric, plain: Term): Term { Seal(s.k, 0, plain, s.h) }

  /** The protocol name is hashed because it is longer than the hash, section 5.2; then comes the
      prologue, section 5.3, and the responder's static key as the premessage of IK, section 7.5. */
  function Start(hybrid: bool, prologue: string, responder: Term): Symmetric {
    var name := "Noise_IKpsk2_" + (if hybrid then "25519+MLKEM768" else "25519") + "_ChaChaPoly_BLAKE2s";
    var h := Hash(Label(name), Empty);
    MixHash(MixHash(Symmetric(h, h, Empty), Label(prologue)), responder)
  }

  // ----- Tokens, sections 5.3 and 9 -----

  datatype Token =
    | E1 | E2              // an ephemeral key; with a psk it is mixed into the key as well, section 9.2
    | S                    // the initiator's static key, encrypted
    | EE | ES | SE | SS
    | Psk
    | Stamp | Nothing      // payloads
    | Ek                   // ML-KEM: the encapsulation key is hashed
    | Kem                  // ML-KEM: the secret goes into the key, the ciphertext into the hash

  /** What the tokens stand for in one exchange. */
  datatype Values = Values(
    e1: Term, e2: Term, s: Term, ee: Term, es: Term, se: Term, ss: Term, psk: Term, stamp: Term,
    ek: Term, ct: Term, secret: Term)

  function Apply(s: Symmetric, token: Token, v: Values): (Symmetric, seq<Term>) {
    match token
    case E1 => (MixKey(MixHash(s, v.e1), v.e1), [])
    case E2 => (MixKey(MixHash(s, v.e2), v.e2), [])
    case S => (MixHash(s, Encrypt(s, v.s)), [Encrypt(s, v.s)])
    case EE => (MixKey(s, v.ee), [])
    case ES => (MixKey(s, v.es), [])
    case SE => (MixKey(s, v.se), [])
    case SS => (MixKey(s, v.ss), [])
    case Psk => (MixKeyAndHash(s, v.psk), [])
    case Stamp => (MixHash(s, Encrypt(s, v.stamp)), [Encrypt(s, v.stamp)])
    case Nothing => (MixHash(s, Encrypt(s, Empty)), [Encrypt(s, Empty)])
    case Ek => (MixHash(s, v.ek), [])
    case Kem => (MixHash(MixKey(s, v.secret), v.ct), [])
  }

  /** The state after the tokens, and the boxes they put into the message. */
  function Process(s: Symmetric, tokens: seq<Token>, v: Values): (Symmetric, seq<Term>)
    decreases |tokens|
  {
    if tokens == [] then (s, [])
    else
      var (s1, boxes) := Apply(s, tokens[0], v);
      var (s2, more) := Process(s1, tokens[1..], v);
      (s2, boxes + more)
  }

  function FirstMessage(hybrid: bool): seq<Token> { [E1, ES, S, SS, Stamp] + if hybrid then [Ek] else [] }

  function SecondMessage(hybrid: bool): seq<Token> {
    [E2, EE, SE] + (if hybrid then [Kem] else []) + [Psk, Nothing]
  }

  /** One token at a time. */
  lemma {:induction false} ProcessCons(s: Symmetric, token: Token, rest: seq<Token>, v: Values)
    ensures
      var (s1, boxes) := Apply(s, token, v);
      Process(s, [token] + rest, v) == (Process(s1, rest, v).0, boxes + Process(s1, rest, v).1)
  {
    assert ([token] + rest)[1..] == rest;
  }

  lemma {:induction false} ProcessSilent(s: Symmetric, token: Token, rest: seq<Token>, v: Values)
    requires Apply(s, token, v).1 == []
    ensures Process(s, [token] + rest, v) == Process(Apply(s, token, v).0, rest, v)
  {
    ProcessCons(s, token, rest, v);
    var more := Process(Apply(s, token, v).0, rest, v).1;
    assert [] + more == more;
  }

  // ----- The names -----

  lemma {:induction false} ClassicalName()
    ensures "Noise_IKpsk2_" + "25519" + "_ChaChaPoly_BLAKE2s" == H.CONSTRUCTION
  {
  }

  lemma {:induction false} HybridName()
    ensures "Noise_IKpsk2_" + "25519+MLKEM768" + "_ChaChaPoly_BLAKE2s" == H.CONSTRUCTION_PQ
  {
  }

  /** The chain of module HandshakeSpec as a symmetric state. */
  predicate Agrees(c: H.Chain, s: Symmetric) { c.key == s.ck && c.hash == s.h }

  lemma {:induction false} StartAgrees(hybrid: bool, responder: Term)
    ensures Agrees(H.MixHash(H.InitialChain(hybrid), responder), Start(hybrid, H.IDENTIFIER, responder))
  {
    if hybrid {
      HybridName();
    } else {
      ClassicalName();
    }
  }

  // ----- The first message -----

  /** The states between the tokens of the first message. */
  function Greeting(s: Symmetric, v: Values): Symmetric { MixKey(MixKey(MixHash(s, v.e1), v.e1), v.es) }

  function Naming(s: Symmetric, v: Values): Symmetric { MixKey(MixHash(s, Encrypt(s, v.s)), v.ss) }

  function Stamping(s: Symmetric, v: Values): Symmetric { MixHash(s, Encrypt(s, v.stamp)) }

  lemma {:induction false} StampTail(s: Symmetric, hybrid: bool, v: Values)
    ensures
      var tail := if hybrid then [Ek] else [];
      var s' := Stamping(s, v);
      Process(s, [Stamp] + tail, v) == (if hybrid then MixHash(s', v.ek) else s', [Encrypt(s, v.stamp)])
  {
    var tail: seq<Token> := if hybrid then [Ek] else [];
    ProcessCons(s, Stamp, tail, v);
    var s' := Stamping(s, v);
    if hybrid {
      ProcessSilent(s', Ek, [], v);
      assert [Ek] + [] == tail;
    }
    assert [Encrypt(s, v.stamp)] + [] == [Encrypt(s, v.stamp)];
  }

  lemma {:induction false} NamingTail(s: Symmetric, rest: seq<Token>, v: Values)
    ensures
      var (s', boxes) := Process(Naming(s, v), rest, v);
      Process(s, [S, SS] + rest, v) == (s', [Encrypt(s, v.s)] + boxes)
  {
    ProcessCons(s, S, [SS] + rest, v);
    ProcessSilent(MixHash(s, Encrypt(s, v.s)), SS, rest, v);
    assert [S] + ([SS] + rest) == [S, SS] + rest;
  }

  lemma {:induction false} GreetingTail(s: Symmetric, rest: seq<Token>, v: Values)
    ensures Process(s, [E1, ES] + rest, v) == Process(Greeting(s, v), rest, v)
  {
    ProcessSilent(s, E1, [ES] + rest, v);
    ProcessSilent(MixKey(MixHash(s, v.e1), v.e1), ES, rest, v);
    assert [E1] + ([ES] + rest) == [E1, ES] + rest;
  }

  /** The first message, token by token. */
  lemma {:induction false} FirstProcessed(s: Symmetric, hybrid: bool, v: Values)
    ensures
      var s1 := Greeting(s, v);
      var s2 := Naming(s1, v);
      var s3 := Stamping(s2, v);
      Process(s, FirstMessage(hybrid), v)
      == (if hybrid then MixHash(s3, v.ek) else s3, [Encrypt(s1, v.s), Encrypt(s2, v.stamp)])
  {
    var tail: seq<Token> := if hybrid then [Ek] else [];
    assert FirstMessage(hybrid) == [E1, ES] + ([S, SS] + ([Stamp] + tail));
    GreetingTail(s, [S, SS] + ([Stamp] + tail), v);
    NamingTail(Greeting(s, v), [Stamp] + tail, v);
    StampTail(Naming(Greeting(s, v), v), hybrid, v);
    var a, b := Encrypt(Greeting(s, v), v.s), Encrypt(Naming(Greeting(s, v), v), v.stamp);
    assert [a] + [b] == [a, b];
  }

  lemma {:induction false} GreetingAgrees(c: H.Chain, s: Symmetric, v: Values)
    requires Agrees(c, s)
    ensures
      var d := H.MixKey(H.MixHash(c, v.e1), v.e1);
      && Agrees(H.MixKey(d, v.es), Greeting(s, v))
      && Greeting(s, v).k == H.CipherKey(d, v.es) && Greeting(s, v).h == d.hash
  {
  }

  lemma {:induction false} NamingAgrees(c: H.Chain, s: Symmetric, v: Values, ss: Term)
    requires Agrees(c, s) && v.ss == ss
    ensures
      var d := H.MixHash(c, Encrypt(s, v.s));
      && Agrees(H.MixKey(d, ss), Naming(s, v))
      && Naming(s, v).k == H.CipherKey(d, ss) && Naming(s, v).h == d.hash
  {
  }

  /** What the values stand for in the initiation that p writes. */
  function InitValues(p: H.Params, e: nat, stamp: Bytes, dk: Option<nat>): Values {
    Values(Pub(e), Empty, Pub(p.staticPrivate), Empty, Dh(e, p.peerPublic), Empty, Dh(p.staticPrivate, p.peerPublic),
           Empty, Data(stamp), if dk.Some? then KemPub(dk.value) else Empty, Empty, Empty)
  }

  /** The initiation is the first message of the pattern, and the initiator keeps the state it leaves. */
  lemma {:induction false} InitiationIsNoise(p: H.Params, sender: nat, e: nat, stamp: Bytes, dk: Option<nat>)
    ensures
      var m := H.MakeInit(p, sender, e, stamp, dk);
      var (s, boxes) := Process(
        Start(dk.Some?, H.IDENTIFIER, p.peerPublic), FirstMessage(dk.Some?), InitValues(p, e, stamp, dk));
      && m.ephemeral == Pub(e) && [m.encStatic, m.encStamp] == boxes
      && Agrees(H.InitiatorChain(p, e, m), s)
  {
    var v := InitValues(p, e, stamp, dk);
    var s0 := Start(dk.Some?, H.IDENTIFIER, p.peerPublic);
    StartAgrees(dk.Some?, p.peerPublic);
    FirstProcessed(s0, dk.Some?, v);
    GreetingAgrees(H.MixHash(H.InitialChain(dk.Some?), p.peerPublic), s0, v);
    NamingAgrees(
      H.MixKey(H.Greeted(dk.Some?, p.peerPublic, Pub(e)), v.es), Greeting(s0, v), v, Dh(p.staticPrivate, p.peerPublic));
  }

  // ----- The second message -----

  function Meeting(s: Symmetric, v: Values): Symmetric { MixKey(MixKey(MixKey(MixHash(s, v.e2), v.e2), v.ee), v.se) }

  function Encapsulating(s: Symmetric, hybrid: bool, v: Values): Symmetric {
    if hybrid then MixHash(MixKey(s, v.secret), v.ct) else s
  }

  function Confirming(s: Symmetric, v: Values): Symmetric { MixKeyAndHash(s, v.psk) }

  lemma {:induction false} MeetingTail(s: Symmetric, rest: seq<Token>, v: Values)
    ensures Process(s, [E2, EE, SE] + rest, v) == Process(Meeting(s, v), rest, v)
  {
    var s1 := MixKey(MixHash(s, v.e2), v.e2);
    ProcessSilent(s, E2, [EE] + ([SE] + rest), v);
    ProcessSilent(s1, EE, [SE] + rest, v);
    ProcessSilent(MixKey(s1, v.ee), SE, rest, v);
    assert [E2] + ([EE] + ([SE] + rest)) == [E2, EE, SE] + rest;
  }

  lemma {:induction false} ConfirmingTail(s: Symmetric, v: Values)
    ensures
      var s' := Confirming(s, v);
      Process(s, [Psk, Nothing], v) == (MixHash(s', Encrypt(s', Empty)), [Encrypt(s', Empty)])
  {
    ProcessSilent(s, Psk, [Nothing], v);
    ProcessCons(Confirming(s, v), Nothing, [], v);
    assert [Psk] + [Nothing] == [Psk, Nothing] && [Nothing] + [] == [Nothing];
    var box := Encrypt(Confirming(s, v), Empty);
    assert [box] + [] == [box];
  }

  /** The second message, token by token. */
  lemma {:induction false} SecondProcessed(s: Symmetric, hybrid: bool, v: Values)
    ensures
      var s' := Confirming(Encapsulating(Meeting(s, v), hybrid, v), v);
      Process(s, SecondMessage(hybrid), v) == (MixHash(s', Encrypt(s', Empty)), [Encrypt(s', Empty)])
  {
    var end := [Psk, Nothing];
    var rest := (if hybrid then [Kem] else []) + end;
    assert SecondMessage(hybrid) == [E2, EE, SE] + rest;
    MeetingTail(s, rest, v);
    if hybrid {
      ProcessSilent(Meeting(s, v), Kem, end, v);
    } else {
      assert rest == end;
    }
    ConfirmingTail(Encapsulating(Meeting(s, v), hybrid, v), v);
  }

  lemma {:induction false} MeetingAgrees(c: H.Chain, s: Symmetric, v: Values)
    requires Agrees(c, s)
    ensures Agrees(H.ClassicalPart(c, v.e2, v.ee, v.se), Meeting(s, v))
  {
  }

  lemma {:induction false} BeforePskAgrees(c: H.Chain, s: Symmetric, kem: Option<H.Kem>, v: Values)
    requires Agrees(c, s) && (kem.Some? ==> kem.value == H.Kem(v.ct, v.secret))
    ensures Agrees(H.BeforePsk(c, v.e2, v.ee, v.se, kem), Encapsulating(Meeting(s, v), kem.Some?, v))
  {
    MeetingAgrees(c, s, v);
  }

  /** Split, section 5.2: the initiator sends with the first key, the responder with the second. */
  lemma {:induction false} FinishAgrees(d: H.Chain, s: Symmetric, v: Values)
    requires Agrees(d, s)
    ensures
      var s', out := Confirming(s, v), H.Finish(d, v.psk);
      var split := Hkdf(s'.ck, Empty);
      out == H.Derived(Encrypt(s', Empty), split.first, split.second)
  {
  }

  /** What the values stand for in the response of q to a stored initiation; an absent preshared key is
      32 bytes of zeros. */
  function RespValues(q: H.Params, s: H.State, f: nat, coins: nat): Values
    requires s.InitReceived?
  {
    var ek := match s.ek case Some(KemPub(dk)) => Some(dk) case _ => None;
    Values(Empty, Pub(f), Empty, Dh(f, s.peerEphemeral), Empty, Dh(f, q.peerPublic), Empty,
           match q.psk case Some(psk) => psk case None => ZeroKey,
           Empty, Empty,
           if ek.Some? then KemCt(ek.value, coins) else Empty,
           if ek.Some? then KemSecret(ek.value, coins) else Empty)
  }

  /** The response is the second message of the pattern, from the state the initiation left, and the
      transport keys are the two keys of its split. */
  lemma {:induction false} ResponseIsNoise(q: H.Params, s: H.State, f: nat, coins: nat, start: Symmetric)
    requires s.InitReceived? && (s.ek.Some? ==> s.ek.value.KemPub?) && Agrees(s.chain, start)
    ensures
      var d := H.RespondTo(q, s, f, coins);
      var v := RespValues(q, s, f, coins);
      var (end, boxes) := Process(start, SecondMessage(s.ek.Some?), v);
      var split := Hkdf(end.ck, Empty);
      boxes == [d.box] && d.toResponder == split.first && d.toInitiator == split.second
  {
    var v := RespValues(q, s, f, coins);
    var kem := if s.ek.Some? then Some(H.Kem(v.ct, v.secret)) else None;
    SecondProcessed(start, s.ek.Some?, v);
    BeforePskAgrees(s.chain, start, kem, v);
    FinishAgrees(H.BeforePsk(s.chain, v.e2, v.ee, v.se, kem), Encapsulating(Meeting(start, v), s.ek.Some?, v), v);
  }

  /** The responder's session receives under the first of these keys and sends under the second. */
  lemma {:induction false} SessionsUseSplit(h: H.Handshake, e: nat, coins: nat, dstLen: nat)
    requires h.state.InitReceived?
    ensures
      var r := H.FormatResponse(h, e, coins, dstLen).1;
      r.Ok? ==>
        var d := H.RespondTo(h.params, h.state, e, coins);
        r.value.session.receiver == d.toResponder && r.value.session.sender == d.toInitiator
  {
  }
}

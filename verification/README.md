# Verified model of the WireGuard tunnel and its hybrid handshake

This project models, in Dafny, the tunnel logic of a userspace WireGuard implementation with an
ML-KEM hybrid handshake, and proves properties of that model over every input, every run and every
interleaving. `dafny verify dfyconfig.toml` checks all of it.

The code under `boringtun/src/noise` does no input or output: it is a state machine fed by packets,
clock readings and random values. Objects that the source updates in place are classes here
(`CounterValidator`, `Session`, `Handshake`, `Tunn`, `IndexLfsr`, `Device`, `RateLimiter`); each
method is proved to act on the value of its object as a specification function does, and the
theorems are about those functions. The device lock is a transition system of atomic steps.

| files | what they hold |
|---|---|
| `ReplayWindow`, `Session`, `Transport` | the anti-replay bitmap refines the set of accepted counters; sealing and opening; whole runs with many receiving threads |
| `Terms`, `HandshakeSpec`, `Handshake`, `Tai64N` | symbolic cryptography, the key schedule written once, the message-by-message object, timestamps |
| `NoiseReference` | an interpreter of Noise handshake patterns; the key schedule is IKpsk2 |
| `Agreement`, `HandshakeRuns`, `HandshakeProgress` | what acceptance proves; two peers and an active network over whole runs; progress from every reachable world |
| `SessionKeys`, `MirrorLimits`, `EndToEnd` | the sessions made: whose keys they share, when they mirror each other, traffic over them |
| `LocalIndex`, `HandshakeSlots` | index allocation; the part of the handshake that the tunnel sees, proved exact |
| `TunnelSpec`, `Tunnel`, `TunnelParts`, `FlushSpec`, `LossSpec` | timers, session ring, packet queue, flush loop, loss estimate; the object with its handshake and limiter |
| `TunnelRuns`, `TunnelHistory`, `TunnelPace` | whole runs of one tunnel: indices, key lifetime, pace of initiations |
| `TimerRules`, `TimerAccount`, `TimerRuns` | what the periodic call does in clock readings; what every timer and wish means; so the clock alone decides, over whole runs |
| `Conversation` | which session is used; two tunnels shake hands and talk |
| `TunnelMessages`, `MessageRuns` | the tunnel with its whole handshake: every call and message is an event of the tunnel, so runs with messages inherit what holds over runs |
| `PeerMessages`, `TunnelPaceLimits`, `TunnelSlotLimits` | runs against a peer that writes its own messages: the exact limits of spacing, resends and slot numbering |
| `DevLock` | the upgradable device lock for any number of threads |
| `IndexLfsr`, `LfsrField`, `Divisors`, `LfsrPeriod` | peer indices: all distinct, and how many there are |
| `AllowedIps`, `Device` | routing, the three peer tables |
| `RateLimiterSpec`, `RateLimiter`, `CookieExchange` | rate bound and cookie round trip |

## Modelling decisions

- Cryptography is symbolic: hash, HMAC, seal, MAC and ML-KEM values are injective constructors of
  `Terms.Term`; opening and decapsulating inspect terms. Commutativity of X25519 and the behaviour
  of ML-KEM implicit rejection (section 6.3 of FIPS 203) are lemmas. The network of `HandshakeRuns`
  may inject any term except boxes under keys that need the secret shared by the two static keys;
  the network of `Transport` any packet except boxes under the sender's key that were not sent.
- Clock readings, random values and fresh keys are parameters. Each call reads the clock once and
  the clock never goes backward; times are nanoseconds since the tunnel started.
- Panics that the source uses as contracts are preconditions: a data packet into a small buffer,
  changing an existing peer, a peer beyond the 2^24 - 2 that the index register allows, a counter
  within 1024 of 2^64.
- A received handshake message enters `TunnelRuns` by its outcome: accepted, or refused late. That
  these outcomes are what the messages themselves bring about, and that any other message changes
  nothing, is `TunnelMessages.EveryInputIsEvent`.
- The failing runs below assume a peer that holds a private key for the configured public key; its
  messages are computed by the same functions that the tunnel uses for its own.
- Where code and whitepaper differ the model follows the code; see the next section.
- Every lemma carries `{:induction false}`: no proof rests on automatic induction.

## Where the code differs from what one would expect

- Spacing of initiations. Two initiations emitted by `update_timers` can be less than REKEY_TIMEOUT
  apart. `TunnelPaceLimits.SpacingIff` says exactly when they cannot: persistent keepalive is off, no
  peer initiation meets a reply buffer that is too small, and none with a malformed ML-KEM key comes
  to a hybrid tunnel. With persistent keepalive on, let the sessions of a responder die of age, then
  an attempt begin and resend once: if the peer's own initiation is answered now, the attempt ends
  and the new session is not the one in use, so the keepalive that is due finds no session and
  initiates at once (`TunnelPaceLimits.KeepaliveBreaksSpacing`).
- Resends. The bound of 17 resends per attempt holds exactly if no reply buffer is too small; a
  malformed key does not break it (`TunnelPaceLimits.BoundIff`).
- Late refusals. An initiation that passes all checks but meets a small reply buffer or carries a
  malformed ML-KEM key has already consumed its timestamp and moved the handshake state
  (`Agreement.RejectedInitUnchangedIff`).
- Flushing into a buffer too small for the initiation that is needed queues the first packet twice
  (`FlushSpec.FlushKeepsPackets`, `FlushSpec.FlushDuplicates`).
- Sender and receiver indices of handshake messages are not authenticated. A session has a mirror
  image at the other end, keys and indices, exactly if its response arrived as it was sent
  (`MirrorLimits.MirroredIff`), and a network that alters the sender index makes one without
  (`MirrorLimits.AlteredSenderIff`); the keys are crossed in any case
  (`HandshakeRuns.InitiatorSessionsAreMirrored`).
- An IPv4 address and the IPv6 address made of it and twelve zero octets share their cookies
  (`CookieExchange.SharedCookies`).
- `previous` carries the same index as the newest one, not the one before, exactly while a stored but
  unanswered peer initiation occupies `state` (`TunnelHistory.PreviousCarries`); such states are
  reached exactly if a reply buffer may be too small (`TunnelSlotLimits.BehindIff`).
- An IPv4 packet whose header states a length below 20 is delivered, cut to that length
  (`TunnelSpec.ComesOutWellFormedIff`, `TunnelSpec.ShortPacketComesOut`).
- A periodic call whose buffer cannot take the initiation it owes fails and forgets that it owed it
  (`TimerAccount.SmallBufferSpendsWish`); with large enough buffers the clock alone decides
  (`TimerRuns.ClockDecides`).
- Changing the private key keeps the outstanding initiation, but no answer to it is accepted any more
  (`Agreement.KeyChangeEndsHandshake`).

## Model

| member | source | states |
|---|---|---|
| `ReplayWindow.CounterValidator.constructor` | boringtun/src/noise/session.rs:39-47 | the empty bitmap stands for the empty set of accepted counters |
| `ReplayWindow.WithBit` | boringtun/src/noise/session.rs:51-56 | setting one bit of a 64-bit word changes the test of that bit only |
| `ReplayWindow.WithoutBit` | boringtun/src/noise/session.rs:59-64 | clearing one bit of a 64-bit word changes the test of that bit only |
| `ReplayWindow.CounterValidator.SetBit` | boringtun/src/noise/session.rs:51-56 | the ring, read as 1024 booleans, changes at position idx mod 1024 only |
| `ReplayWindow.CounterValidator.ClearBit` | boringtun/src/noise/session.rs:59-64 | likewise for clearing |
| `ReplayWindow.CounterValidator.ClearWord` | boringtun/src/noise/session.rs:68-72 | exactly the 64 positions of the word of idx become false |
| `ReplayWindow.CounterValidator.CheckBit` | boringtun/src/noise/session.rs:76-81 | reads the ring at idx mod 1024 |
| `ReplayWindow.CounterValidator.QuickCheck` | boringtun/src/noise/session.rs:85-99 | the bitmap answers as the set of accepted counters does, with the same error for too old and for repeated |
| `ReplayWindow.CounterValidator.ClearSkipped` | boringtun/src/noise/session.rs:131-146 | the bit-wise, word-wise and bit-wise loops together clear exactly the positions of the skipped counters [next, counter), including the masked step and spans that wrap around the ring |
| `ReplayWindow.CounterValidator.ClearAll` | boringtun/src/noise/session.rs:125-129 | all positions are clear |
| `ReplayWindow.CounterValidator.MarkDidReceive` | boringtun/src/noise/session.rs:104-151 | in every reachable state the bitmap is the characteristic function of the accepted counters in [next - 1024, next), so marking succeeds exactly when the counter is new and counter + 1024 >= next, through all branches |
| `ReplayWindow.SlideReuses` | boringtun/src/noise/session.rs:124-150 | sliding the window reuses exactly the ring positions of the counters that leave it |
| `ReplayWindow.MarkAllMonotone` | boringtun/src/noise/session.rs:104-151 | along any marks the window only moves forward and only remembers more |
| `ReplayWindow.QuickCheckIsSound` | boringtun/src/noise/session.rs:85-99 | a counter the quick check rejects is rejected by the mark in every later state, whatever other threads mark in between |
| `ReplayWindow.QuickCheckIsExact` | boringtun/src/noise/session.rs:85-151 | with no mark in between the quick check predicts the mark, both ways |
| `ReplayWindow.AtMostOneSuccess` | boringtun/src/noise/session.rs:184-191 | in any order of any number of marks, at most one mark per counter succeeds |
| `ReplayWindow.AcceptedFits` | boringtun/src/noise/session.rs:184-191 | no more counters are accepted than lie below next |
| `Session.Session.constructor` | boringtun/src/noise/session.rs:154-170 | a new session with both counters at zero |
| `Session.Session.FormatPacketData` | boringtun/src/noise/session.rs:196-229 | seals under the next counter and consumes it |
| `Session.Session.ReceivingCounterMark` | boringtun/src/noise/session.rs:184-191 | marks, and receive_cnt stays the size of the accepted set |
| `Session.Session.ReceivePacketData` | boringtun/src/noise/session.rs:236-268 | index check, quick check, decryption and mark act as opening on the set view does; the panic for a small destination is the precondition |
| `Session.Session.CurrentPacketCnt` | boringtun/src/noise/session.rs:271-274 | the counts are next and the size of the accepted set, and received <= expected |
| `Session.OpensExactly` | boringtun/src/noise/session.rs:236-268 | a packet opens if and only if it is sealed for this key and counter and the counter is new and in reach; it yields the sealed payload; a refused packet changes nothing |
| `Session.RefusalSays` | boringtun/src/noise/session.rs:85-99 | the error of a refused packet says why: another index, a counter more than 1024 behind, one accepted before, or a box that does not open, in this order |
| `Transport.DeliveredOnceAndGenuine` | boringtun/src/noise/session.rs:196-268 | over every run of any number of receiving threads and a network that loses, repeats, delays, reorders and forges: no counter is delivered twice, and what is delivered under a counter is what was sealed under it |
| `Transport.FirstArrivalIsDelivered` | boringtun/src/noise/session.rs:236-268 | in every reachable state, handing over the packet of a counter delivers it if and only if the counter was not delivered before and counter + 1024 >= next |
| `Transport.FinishDeliversExactly` | boringtun/src/noise/session.rs:249-268 | the same for the three-step form with other threads running between the steps |
| `Transport.DeliveredIffFirstInReach` | boringtun/src/noise/session.rs:104-151 | for every arrival order, a counter ends up accepted if and only if it arrives and its first arrival finds the window at most 1024 ahead |
| `Transport.RunKeepsInv` | boringtun/src/noise/session.rs:178-268 | the invariant behind these: accepted set equals delivered counters, all genuine, also for packets in flight |
| `Handshake.Handshake.constructor` | boringtun/src/noise/handshake.rs:448-473 | a new handshake: both slots free, zero timestamp, no cookie |
| `Handshake.Handshake.SetExpired` | boringtun/src/noise/handshake.rs:486-489 | both slots become expired |
| `Handshake.Handshake.IncIndex` | boringtun/src/noise/handshake.rs:504-509 | the low byte wraps, the upper 24 bits stay |
| `Handshake.Handshake.AppendMac1AndMac2` | boringtun/src/noise/handshake.rs:730-755 | mac1 under the peer key, mac2 under the held cookie or zeros; index and mac1 are remembered |
| `Handshake.Handshake.FormatHandshakeInitiation` | boringtun/src/noise/handshake.rs:757-837 | the statement-by-statement key schedule writes the type 1 message of the Noise chain, and the old state becomes previous |
| `Handshake.Handshake.FormatPqHandshakeInitiation` | boringtun/src/noise/handshake.rs:937-1009 | the same for type 5, with the encapsulation key mixed in and the decapsulation key kept |
| `Handshake.Handshake.ReceiveHandshakeInitialization` | boringtun/src/noise/handshake.rs:519-603 | checks in order (both boxes, peer key, timestamp), then stores and answers |
| `Handshake.Handshake.ReceivePqHandshakeInitialization` | boringtun/src/noise/handshake.rs:1012-1082 | the same for type 5 |
| `Handshake.Handshake.FormatHandshakeResponse` | boringtun/src/noise/handshake.rs:839-932 | the type 2 message and the responder session |
| `Handshake.Handshake.FormatPqHandshakeResponse` | boringtun/src/noise/handshake.rs:1085-1180 | the type 6 message; a malformed encapsulation key is an error after the index was issued |
| `Handshake.Handshake.FindAwaiting` | boringtun/src/noise/handshake.rs:610-614 | the outstanding initiation of this index, the newer one first |
| `Handshake.Handshake.Complete` | boringtun/src/noise/handshake.rs:684-692 | frees the slot that was answered and records the round-trip time |
| `Handshake.Handshake.ReceiveHandshakeResponse` | boringtun/src/noise/handshake.rs:605-693 | type 2 completes a classical initiation or leaves everything unchanged |
| `Handshake.Handshake.ReceivePqHandshakeResponse` | boringtun/src/noise/handshake.rs:1183-1258 | type 6 completes a hybrid initiation or leaves everything unchanged |
| `Handshake.Handshake.ReceiveCookieReply` | boringtun/src/noise/handshake.rs:695-727 | opens the cookie under the peer key and the last mac1 and keeps it if it has the length of a cookie, or changes nothing |
| `Handshake.Handshake.SetStaticPrivate` | boringtun/src/noise/handshake.rs:511-517 | a new private key; outstanding handshakes keep what they have |
| `Handshake.Handshake.ClearCookie` | boringtun/src/noise/handshake.rs:499-501 | drops the cookie only |
| `Tai64N.BigEndianRoundTrip` | boringtun/src/noise/handshake.rs:225-226 | writing n bytes most significant first and reading them back is the identity |
| `Tai64N.StampRoundTrip` | boringtun/src/noise/handshake.rs:221-256 | every representable clock reading survives stamp and parse |
| `Tai64N.StampsKeepClockOrder` | boringtun/src/noise/handshake.rs:221-262 | stamps are ordered exactly as the clock readings, and all after the zero stamp |
| `Tai64N.EpochLabel` | boringtun/src/noise/handshake.rs:220-229 | the epoch is the label 2^62 plus the 37 leap seconds of the source |
| `HandshakeSpec.RttCountsMillis` | boringtun/src/noise/handshake.rs:684-692 | the round-trip time is the whole milliseconds since the initiation went out |
| `HandshakeSpec.CookieHas16Bytes` | boringtun/src/noise/handshake.rs:707-722 | a cookie of another length is refused and nothing changes |
| `HandshakeSpec.BodiesDiffer` | boringtun/src/noise/handshake.rs:730-745 | the bytes under mac1 tell every message from every other, of any type |
| `Agreement.AcceptedMeansAgreed` | boringtun/src/noise/handshake.rs:627-667 | if an initiator accepts a response, the responder that sealed its box saw the same initiation, each is configured with the static key of the other, both hold the same preshared key (absent counts as zeros) and used the same ephemerals, ML-KEM key and ciphertext; both derive the same keys |
| `Agreement.MismatchIsRejected` | boringtun/src/noise/handshake.rs:1196-1242 | a response sealed by a responder with another preshared key, for other static keys, for another initiation, or with a changed ephemeral or ciphertext, is always refused |
| `Agreement.TamperedCiphertextChangesKeys` | boringtun/src/noise/handshake.rs:1215-1245 | although decapsulation never fails, another ciphertext changes the confirmation box and both transport keys |
| `Agreement.FinishInjective` | boringtun/src/noise/handshake.rs:653-682 | the key schedule after the preshared key loses nothing |
| `Agreement.BeforePskInjective` | boringtun/src/noise/handshake.rs:1123-1169 | nor does the part before it, with or without the ML-KEM step |
| `Agreement.InitiatedInjective` | boringtun/src/noise/handshake.rs:757-837 | nor does the chain of the initiation, and classical and hybrid chains differ |
| `Agreement.GenuineInitPasses` | boringtun/src/noise/handshake.rs:519-585 | a genuine initiation passes every check exactly when its timestamp is newer, and both ends hold the same chain |
| `Agreement.StrangerIsRefused` | boringtun/src/noise/handshake.rs:554-567 | one made by anybody but the configured peer is refused for its key |
| `Agreement.GenuineResponseMirrors` | boringtun/src/noise/handshake.rs:605-693 | the response to a genuine initiation is accepted and the two sessions mirror each other, keys and indices |
| `Agreement.AbsentPskIsZeros` | boringtun/src/noise/handshake.rs:654-657 | an absent preshared key counts as zeros: an end without one and an end with one of zeros accept the responses of each other, and their sessions mirror each other |
| `Agreement.KeyChangeEndsHandshake` | boringtun/src/noise/handshake.rs:511-517 | after a change of the private key no responder's answer to an initiation made under the old key is accepted |
| `Agreement.NewKeyAnswers` | boringtun/src/noise/handshake.rs:511-567 | after a change of the private key, whatever else happens, an initiation by the peer passes exactly if it is addressed to the new public key and is later than the last; addressed to any other key it does not open |
| `Agreement.RetypedInitIsRejected` | boringtun/src/noise/handshake.rs:46-71 | any message that carries the static-key box of an initiation under the other type fails at the first box, whatever its other fields are |
| `Agreement.ResponseTypesDoNotMix` | boringtun/src/noise/handshake.rs:616-622 | type 2 never completes a hybrid initiation, type 6 never a classical one |
| `Agreement.RefusedMessagesAreHarmless` | boringtun/src/noise/handshake.rs:554-584 | any number of refused messages in any order leaves the whole handshake unchanged, so the genuine one still meets the state it needs |
| `Agreement.RejectedInitUnchangedIff` | boringtun/src/noise/handshake.rs:1038-1082 | a rejected initiation leaves the state unchanged if and only if the checks up to the timestamp refused it; the two later refusals have consumed the timestamp |
| `Agreement.AcceptedStampsAscend` | boringtun/src/noise/handshake.rs:580-585 | along any run mixing types 1 and 5 the accepted timestamps strictly increase |
| `Agreement.NoInitAcceptedTwice` | boringtun/src/noise/handshake.rs:1059-1063 | whatever happens in between, cookies, expiry and key changes included, an accepted initiation is never accepted again: its timestamp stays behind, or under another private key its first box does not open |
| `HandshakeRuns.InitiatorSessionsAreMirrored` | boringtun/src/noise/handshake.rs:605-693 | two peers and an active network over whole runs: every session made as initiator has a responder session at the other end with crossed keys, the same ephemerals and the same ML-KEM key; the indices are crossed as well exactly if the response arrived as it was sent |
| `HandshakeRuns.FaithfulSessionsAreMirrored` | boringtun/src/noise/handshake.rs:839-932 | under a network that only drops, duplicates, delays and reorders responses, the indices are mirrored as well |
| `MirrorLimits.MirroredIff` | boringtun/src/noise/handshake.rs:605-693 | over every run with an active network: a session made as initiator has a mirror image, keys and indices, if and only if the response that completed it arrived as it was sent |
| `MirrorLimits.SenderIsNotChecked` | boringtun/src/noise/handshake.rs:624-692 | no check looks at the sender index of a response; it goes into the session as it is |
| `MirrorLimits.AlteredSenderIff` | boringtun/src/noise/handshake.rs:605-693 | from every reachable world, one exchange whose response arrives with any sender index k makes a session, and that session has a mirror image if and only if k is the index that was sent |
| `MirrorLimits.NoSessionAcrossPsk` | boringtun/src/noise/handshake.rs:653-667 | over every run, ends with different preshared keys never complete a handshake |
| `MirrorLimits.AlwaysMirroredIff` | boringtun/src/noise/handshake.rs:605-693 | all sessions are mirrored in every run if and only if the network leaves responses as they are, or the preshared keys differ |
| `SessionKeys.KeysNameSecret` | boringtun/src/noise/handshake.rs:895-931 | a transport key determines the ephemeral that the responder drew for it, and no key of one direction is one of the other |
| `SessionKeys.OwnKeysDiffer` | boringtun/src/noise/handshake.rs:668-693 | over every run with an active network the two keys of a session differ |
| `SessionKeys.SessionKeysAreDistinct` | boringtun/src/noise/handshake.rs:519-1258 | over every run with an active network two sessions, of either side and role, share a transport key if and only if they are the two ends of one exchange |
| `HandshakeRuns.OneSessionPerInitiation` | boringtun/src/noise/handshake.rs:519-693 | each initiation yields at most one session on each side |
| `HandshakeRuns.ResponderSessionsAreInvited` | boringtun/src/noise/handshake.rs:519-603 | every responder session answers an initiation that the other side really sent |
| `HandshakeRuns.AcceptedInitIsGenuine` | boringtun/src/noise/handshake.rs:554-584 | an initiation that passes the checks is, but for its unauthenticated fields, one that was sent |
| `HandshakeRuns.AcceptedResponseIsGenuine` | boringtun/src/noise/handshake.rs:654-667 | a response that is accepted was made by the other side for this very initiation |
| `HandshakeRuns.RunKeepsInv` | boringtun/src/noise/handshake.rs:519-1258 | the invariant over all interleavings of both peers and the network |
| `HandshakeProgress.UndisturbedExchangeCompletes` | boringtun/src/noise/handshake.rs:519-1258 | from every world that any run with an active network can reach, once the clock has moved: side x initiates, exactly that initiation is delivered and answered, exactly that answer is delivered, and two mirrored sessions are made, classical or hybrid |
| `HandshakeProgress.AbsentPskCompletes` | boringtun/src/noise/handshake.rs:519-1258 | so do an end without a preshared key and an end with one of zeros, from every reachable world, whichever side starts |
| `NoiseReference.InitiationIsNoise` | boringtun/src/noise/handshake.rs:757-837 | against an interpreter of the Noise pattern tokens (sections 5 and 9 of the Noise Protocol Framework): the two boxes of the initiation are those that processing the first message of IKpsk2 yields, and the initiator keeps the symmetric state it leaves; the hybrid form adds one token |
| `NoiseReference.ResponseIsNoise` | boringtun/src/noise/handshake.rs:839-932 | likewise the box of the response, from the state the initiation left; the two transport keys are those of Split |
| `NoiseReference.FinishAgrees` | boringtun/src/noise/handshake.rs:895-931 | psk token, confirmation box and Split, derived as the Noise framework says |
| `NoiseReference.SessionsUseSplit` | boringtun/src/noise/handshake.rs:918-931 | the responder session receives under the first key of Split and sends under the second |
| `HandshakeProgress.RunKeepsStamps` | boringtun/src/noise/handshake.rs:580-585 | over every run each stored timestamp is zero or one that the other side really sent, never from the future |
| `HandshakeProgress.NewStampIsAfter` | boringtun/src/noise/handshake.rs:221-262 | a stamp taken after all earlier ones passes the replay check |
| `EndToEnd.HandshakesMakeLinks` | boringtun/src/noise/mod.rs:381-432 | every session that a handshake makes as initiator, under a network that drops, duplicates, delays and reorders responses, has a responder session with which it starts a transport link in both directions |
| `EndToEnd.SafeEndToEnd` | boringtun/src/noise/session.rs:196-268 | so for sessions that handshakes really make: whatever traffic, loss, reordering and forgery follow, in both directions no counter is delivered twice and each packet is delivered as it was sealed |
| `EndToEnd.OpensOnlyAtOtherEnd` | boringtun/src/noise/session.rs:236-268 | what one session of a run seals, no session of the run opens but the other end of its exchange, however the network redirects it |
| `HandshakeSlots.FormatInitOnSlots` | boringtun/src/noise/handshake.rs:757-837 | on slots and indices, formatting an initiation acts as the tunnel model says |
| `HandshakeSlots.ReceiveInitOnSlots` | boringtun/src/noise/handshake.rs:519-603 | likewise receiving one, in all three outcomes |
| `HandshakeSlots.ReceiveResponseOnSlots` | boringtun/src/noise/handshake.rs:605-693 | likewise receiving a response |
| `LocalIndex.NthIssued` | boringtun/src/noise/handshake.rs:503-509 | the n-th index lies in slot n mod 8 for every n despite the 8-bit wrap, and names its peer |
| `DevLock.WriterIsAlone` | boringtun/src/device/dev_lock.rs:60-99 | for any number of threads and any interleaving: one holder of the writer token, alone inside mut_func, and the value it gets is the one its prep_func saw |
| `DevLock.StepWrites` | boringtun/src/device/dev_lock.rs:83-90 | the value changes where mut_func runs, to what it writes, and nowhere else |
| `DevLock.ValueIsLastWritten` | boringtun/src/device/dev_lock.rs:83-90 | over every run the value is what the last mut_func wrote, whoever ran it |
| `DevLock.ValueIsKept` | boringtun/src/device/dev_lock.rs:28-99 | and the start value if none ran |
| `DevLock.EachCallMutatesOnce` | boringtun/src/device/dev_lock.rs:60-99 | over every run each call of try_writeable runs prep_func and then mut_func exactly once |
| `DevLock.ReturnedHoldsGuard` | boringtun/src/device/dev_lock.rs:68-99 | a thread back from read or try_writeable holds its read guard, none of the other locks, and all its calls have written |
| `DevLock.ReadersOnlyLeave` | boringtun/src/device/dev_lock.rs:60-99 | while the token is held the set of other read holders never grows |
| `DevLock.BlockedWaitsOnRunning` | boringtun/src/device/dev_lock.rs:28-99 | every blocked thread waits, through at most three links, on a thread that can step or runs outside with a read guard |
| `DevLock.BlockedKinds` | boringtun/src/device/dev_lock.rs:28-40 | nobody ever waits to read the inner lock because of its writer |
| `DevLock.RunKeepsInv` | boringtun/src/device/dev_lock.rs:28-99 | the invariant over all interleavings, spurious wake-ups included |
| `Tunnel.Tunn.constructor` | boringtun/src/noise/mod.rs:253-283 | a new tunnel with its handshake, its first index shifted left by 8, and the given limiter or one of its own, which only then is the one to reset |
| `Tunnel.Tunn.TimerTick` | boringtun/src/noise/timers.rs:112-127 | sets one timer to the current one, and the two wishes for packets received and sent |
| `Tunnel.Tunn.TimerTickSessionEstablished` | boringtun/src/noise/timers.rs:129-138 | starts the session timer of the ring slot |
| `Tunnel.Tunn.ClearTimers` | boringtun/src/noise/timers.rs:88-95 | all nine timers restart |
| `Tunnel.Tunn.ClearSessions` | boringtun/src/noise/timers.rs:143-145 | every slot is emptied |
| `Tunnel.Tunn.ClearAll` | boringtun/src/noise/timers.rs:142-150 | sessions and queue are emptied and the timers restart |
| `Tunnel.Tunn.UpdateSessionTimers` | boringtun/src/noise/timers.rs:152-166 | exactly the slots whose timer is older than REJECT_AFTER_TIME are emptied |
| `Tunnel.Tunn.FormatMessage` | boringtun/src/noise/mod.rs:564-567 | the plain or the hybrid message of the handshake, which on the tunnel takes the next index |
| `Tunnel.Tunn.StartOrResend` | boringtun/src/noise/mod.rs:558-580 | a message is formatted and sent; a new attempt restarts its clock |
| `Tunnel.Tunn.FormatHandshakeInitiation` | boringtun/src/noise/mod.rs:549-581 | no initiation while one is in progress unless forced; on tunnel and handshake it acts as that input of the whole |
| `Tunnel.Tunn.QueuePacket` | boringtun/src/noise/mod.rs:645-650 | appends, unless 256 packets wait |
| `Tunnel.Tunn.RequeuePacket` | boringtun/src/noise/mod.rs:653-658 | puts back in front, unless 256 packets wait |
| `Tunnel.Tunn.DequeuePacket` | boringtun/src/noise/mod.rs:660-662 | takes the first packet |
| `Tunnel.Tunn.SealInCurrent` | boringtun/src/noise/mod.rs:311-321 | seals in the session in use and restarts its timers |
| `Tunnel.Tunn.Encapsulate` | boringtun/src/noise/mod.rs:309-327 | seals in the current session, or queues and initiates; on tunnel and handshake it acts as that input of the whole |
| `TunnelParts.SendIsTaken` | boringtun/src/noise/mod.rs:309-327 | what encapsulate does to tunnel and handshake is what that input does to the whole |
| `TunnelParts.Mac1CoversMessage` | boringtun/src/noise/rate_limiter.rs:153-183 | mac1 covers the whole message: a handshake message with any field or its type changed has a wrong mac1 under every key |
| `TunnelParts.FlushIsTaken` | boringtun/src/noise/mod.rs:631-642 | likewise for one step of the flush |
| `TunnelParts.HandshakeIsTaken` | boringtun/src/noise/mod.rs:549-581 | likewise for asking for a handshake |
| `Tunnel.Tunn.SendFirst` | boringtun/src/noise/mod.rs:631-642 | sends the first packet of the queue, or puts it back |
| `Tunnel.Tunn.SendQueuedPacket` | boringtun/src/noise/mod.rs:631-642 | one step of the flush; on tunnel and handshake it acts as that input of the whole |
| `Tunnel.Tunn.FlushQueue` | boringtun/src/device/mod.rs:683-690 | the flush loop ends and acts as the recursive flush; the handshake has sent the one initiation that is returned, or none |
| `Tunnel.Tunn.SetCurrentSession` | boringtun/src/noise/mod.rs:506-519 | changes the session in use only to one installed no earlier, unless the current slot is empty |
| `Tunnel.Tunn.InstallAnswered` | boringtun/src/noise/mod.rs:392-398 | the responder session goes to its slot without being used yet |
| `Tunnel.Tunn.HandleHandshakeInit` | boringtun/src/noise/mod.rs:381-404 | the type 1 message is checked and answered by the handshake; tunnel, handshake and reply are those of the whole, in all outcomes |
| `Tunnel.Tunn.HandlePqHandshakeInit` | boringtun/src/noise/mod.rs:453-475 | the same for type 5 |
| `Tunnel.Tunn.InstallConfirmed` | boringtun/src/noise/mod.rs:419-427 | the initiator session seals its first packet, goes to its slot and is considered for use |
| `Tunnel.Tunn.HandleHandshakeResponse` | boringtun/src/noise/mod.rs:406-432 | the type 2 message is checked by the handshake and completes it, or changes nothing |
| `Tunnel.Tunn.HandlePqHandshakeResponse` | boringtun/src/noise/mod.rs:478-503 | the same for type 6 |
| `Tunnel.Tunn.HandleCookieReply` | boringtun/src/noise/mod.rs:434-450 | the handshake opens and keeps the cookie and its timer restarts, or nothing changes |
| `Tunnel.GivenOrOwn` | boringtun/src/noise/mod.rs:278-280 | the given limiter, or a new one for this public key with the limit of 10 |
| `Tunnel.Tunn.SetStaticPrivate` | boringtun/src/noise/mod.rs:286-301 | replaces key and limiter and drops every session; the new limiter is reset by the tunnel exactly if it is its own |
| `Tunnel.Tunn.HandleData` | boringtun/src/noise/mod.rs:522-545 | the slot of the index opens the packet, and its decrypted bytes decide what happens next, or nothing changes; the panic for a small destination is the precondition |
| `Tunnel.Tunn.ValidateDecapsulatedPacket` | boringtun/src/noise/mod.rs:585-628 | the bytes are classified by version, header size and stated length, cut to that length, and counted |
| `Tunnel.Tunn.HandleVerifiedPacket` | boringtun/src/noise/mod.rs:363-379 | each kind of packet acts as that input of the whole |
| `Tunnel.Tunn.Decapsulate` | boringtun/src/noise/mod.rs:335-361 | the limiter judges the packet first; only an accepted one reaches the tunnel, and a refused one leaves it unchanged; a handshake message whose mac1 was not made with the key of this tunnel is refused and leaves tunnel and limiter unchanged |
| `Tunnel.Tunn.HandshakeRequired` | boringtun/src/noise/timers.rs:238-277 | the conditions for a new handshake and the wish they consume |
| `Tunnel.Tunn.KeepaliveRequired` | boringtun/src/noise/timers.rs:279-299 | the conditions for a keepalive and what they consume |
| `Tunnel.Tunn.MaintainSession` | boringtun/src/noise/timers.rs:237-311 | the branch without an outstanding initiation |
| `Tunnel.Tunn.RetryHandshake` | boringtun/src/noise/timers.rs:228-236 | the branch with an outstanding initiation |
| `Tunnel.Tunn.GiveUp` | boringtun/src/noise/timers.rs:205-226 | the handshake expires and everything restarts |
| `Tunnel.Tunn.Refresh` | boringtun/src/noise/timers.rs:180-200 | the clock is read, old sessions go, an old cookie goes unless the handshake has expired |
| `Tunnel.Tunn.Attend` | boringtun/src/noise/timers.rs:189-312 | all that follows: give up, retry, rekey or keep alive |
| `Tunnel.Tunn.ResetLimiter` | boringtun/src/noise/timers.rs:174-176 | resets the limiter exactly if it is the tunnel's own |
| `Tunnel.Tunn.UpdateTimers` | boringtun/src/noise/timers.rs:168-312 | the whole periodic call acts as that input of the whole, sends the initiation that the handshake formats, and resets its own limiter |
| `Tunnel.Tunn.TimeSinceLastHandshake` | boringtun/src/noise/timers.rs:314-324 | the age of the session in use, if there is one |
| `Tunnel.Tunn.EstimateLoss` | boringtun/src/noise/mod.rs:664-692 | the loop computes the weighted mean over the live sessions, which lies in [0,1] and is 0 exactly when no live session misses a packet |
| `FlushSpec.FlushProgress` | boringtun/src/device/mod.rs:683-690 | the flush loop always ends: with a session one call per packet, without one at most one more |
| `FlushSpec.InitiatesOnce` | boringtun/src/device/mod.rs:683-690 | after a call that sent an initiation the next one sends nothing |
| `FlushSpec.FlushTurn` | boringtun/src/device/mod.rs:683-690 | one turn of the loop: what was sent grows, the loop comes closer to its end, and no second initiation follows |
| `FlushSpec.FlushSendsInOrder` | boringtun/src/noise/mod.rs:631-642 | with a session the loop sends the whole queue, each packet once, in order, under consecutive counters |
| `FlushSpec.FlushWithoutSession` | boringtun/src/noise/mod.rs:309-344 | without a session the loop ends within two calls, sends one initiation exactly when one is needed and fits, and the queue stays within 256 |
| `FlushSpec.FlushKeepsPackets` | boringtun/src/noise/mod.rs:631-658 | without a session the packets kept are exactly those queued, unless the buffer cannot take a needed initiation and the queue has room: then the first packet is there once more |
| `FlushSpec.FlushDuplicates` | boringtun/src/noise/mod.rs:631-658 | a concrete queue of one packet that is two packets after a flush into a small buffer |
| `LossSpec.SessionLossInUnit` | boringtun/src/noise/mod.rs:674-680 | the loss of one session lies in [0,1] and is 0 exactly when all expected packets arrived |
| `LossSpec.LossCountsMissing` | boringtun/src/noise/mod.rs:674-680 | the loss of a session times the packets expected is the number of counters that did not arrive |
| `LossSpec.EverySlotVisited` | boringtun/src/noise/mod.rs:671-672 | the backward walk with wrapping subtraction visits every slot |
| `LossSpec.EachWeighsThird` | boringtun/src/noise/mod.rs:682-688 | the i-th loss, from the session in use backward, weighs 3^-i of the first |
| `LossSpec.WeightsAddUp` | boringtun/src/noise/mod.rs:682-688 | the weights add up to the geometric sum |
| `LossSpec.MeanInUnit` | boringtun/src/noise/mod.rs:682-691 | the weighted mean stays in [0,1] and is 0 exactly when all losses are |
| `LossSpec.EstimateInUnit` | boringtun/src/noise/mod.rs:664-692 | the estimate of any tunnel with coherent windows lies in [0,1], and is 0 exactly when nothing was lost |
| `TunnelSpec.PaddingIsRemoved` | boringtun/src/noise/mod.rs:585-628 | a packet whose header states its own length comes out as it went in, whatever padding follows it; nothing that comes out is more than was sealed |
| `TunnelSpec.ComesOutIff` | boringtun/src/noise/mod.rs:585-628 | decrypted bytes come out if and only if they hold a whole header of version 4 or 6 that states a length that is there, and then that many of them |
| `TunnelSpec.ComesOutWellFormedIff` | boringtun/src/noise/mod.rs:585-628 | what comes out states its own length in a whole header if and only if it is IPv6, or IPv4 with a stated length of at least 20 |
| `TunnelSpec.ShortPacketComesOut` | boringtun/src/noise/mod.rs:589-597 | twenty bytes whose IPv4 header claims three come out as three |
| `TunnelSpec.UnsentIsQueued` | boringtun/src/noise/mod.rs:322-326 | without a session in use a packet goes to the end of the queue, unless 256 wait |
| `TimerRules.GivesUpIff` | boringtun/src/noise/timers.rs:189-226 | the periodic call reports expiry if and only if the handshake has expired, nothing was established for 540 s, or an attempt has gone unanswered for 90 s; then sessions, queue and handshake are gone and every timer restarts |
| `TimerRules.RetriesIff` | boringtun/src/noise/timers.rs:228-236 | an outstanding initiation is sent again 5 s after the last time and not before |
| `TimerRules.InitiatesWhenDue` | boringtun/src/noise/timers.rs:237-277 | a tunnel that waits for nothing initiates if its session is stale or its data went unheard for 15 s |
| `TimerRules.InitiatorRekeys` | boringtun/src/noise/timers.rs:238-250 | the initiator of a session that has sent data replaces it at 120 s |
| `TimerRules.ResponderDoesNotRekey` | boringtun/src/noise/timers.rs:238-262 | the responder of a session does not, however old it is |
| `TimerRules.KeepaliveIff` | boringtun/src/noise/timers.rs:279-309 | with a session in use an empty packet goes out if and only if data was received and nothing sent for 10 s, or the persistent keepalive is due; and the timers it restarts |
| `TimerRules.KeepaliveWithoutSession` | boringtun/src/noise/timers.rs:301-311 | without one the same keepalive asks for a handshake, unless one is in progress |
| `TimerRules.AgeDecides` | boringtun/src/noise/timers.rs:152-200 | the call leaves exactly the sessions at most 180 s old, restarts the timers of the other slots, and leaves the cookie exactly if it is less than 120 s old |
| `TimerAccount.EveryCallIsAccounted` | boringtun/src/noise/timers.rs:112-312 | after any of the eleven kinds of call all nine timers, both wishes, the role and both byte counters are what the call and its outcome say they must be, as a caller can see them |
| `TimerAccount.SmallBufferSpendsWish` | boringtun/src/noise/timers.rs:268-305 | a buffer too small for the initiation spends the wish for a handshake although data is still unheard |
| `TimerRuns.RoleAndBytes` | boringtun/src/noise/timers.rs:129-138 | over every run the role is that of the last handshake, and the byte counters are the bytes of all payloads sealed and of all packets delivered |
| `TimerRuns.SilentUntilHandshake` | boringtun/src/noise/mod.rs:286-301 | over every run, a new tunnel and one whose private key was changed send and deliver no data until a handshake makes a session |
| `TimerRuns.WishesOverRuns` | boringtun/src/noise/timers.rs:112-127 | over every run with large enough buffers, whoever sent data and heard nothing since wants a handshake, and whoever received data and sent nothing since wants a keepalive |
| `TimerRuns.ClockDecides` | boringtun/src/noise/timers.rs:168-312 | over every run with large enough buffers the next periodic call initiates, keeps alive or gives up if and only if the clock says so, and only the initiator of the last handshake rekeys for age |
| `TimerRuns.AgeOfHandshake` | boringtun/src/noise/timers.rs:314-324 | over every run a tunnel with a session in use says how long ago its last handshake was, on the clock of its periodic calls; one without says nothing |
| `Conversation.OpenedIsUsed` | boringtun/src/noise/mod.rs:522-545 | a packet that opens while no session is in use puts its session in use |
| `Conversation.LaterIsUsed` | boringtun/src/noise/mod.rs:506-519 | with a live session in use, the one of the two installed later is in use afterwards |
| `Conversation.UnopenedChangesNothing` | boringtun/src/noise/mod.rs:522-545 | a packet that does not open changes nothing |
| `Conversation.ResponseIsUsed` | boringtun/src/noise/mod.rs:406-432 | an accepted response installs its session and puts it in use |
| `Conversation.AnswerIsNewest` | boringtun/src/noise/mod.rs:381-404 | an answered initiation installs the newest session |
| `Conversation.NewestIsUsed` | boringtun/src/noise/mod.rs:506-545 | the first packet that opens in the newest session puts it in use |
| `Conversation.AnsweredThenTalks` | boringtun/src/noise/mod.rs:309-545 | from any reachable state: after an answered initiation and the first packet of its session, what is sent goes out under the key of that session |
| `Conversation.EverythingIsHeard` | boringtun/src/noise/mod.rs:309-628 | two tunnels that use the two ends of one exchange can send in any order of turns for ever: everything sent is heard, and a well-formed packet comes out as it went in |
| `Conversation.HandshakeThenDialogue` | boringtun/src/noise/mod.rs:253-628 | from any two reachable tunnels that belong together: one initiates, the other answers, the first confirms, and any dialogue that follows is heard in full |
| `TunnelMessages.EveryInputIsEvent` | boringtun/src/noise/mod.rs:253-628 | for a tunnel with its real handshake, every call and every message, genuine, forged or replayed, is one event of the tunnel model or, if the checks refuse it, changes nothing at all; the tunnel always sees its handshake as it is |
| `TunnelMessages.InitIsEvent` | boringtun/src/noise/mod.rs:381-404 | an initiation that passes the checks is an answered one or one of the two late refusals |
| `TunnelMessages.ResponseIsEvent` | boringtun/src/noise/mod.rs:406-432 | a response completes the awaited initiation or changes nothing |
| `MessageRuns.EveryRunProjects` | boringtun/src/noise/mod.rs:253-628 | whatever calls and messages a tunnel takes, its own part goes through a run of the tunnel model; that run has refusals for want of space only if some buffer is small, and for a malformed key only if one came to a hybrid tunnel |
| `MessageRuns.MessagesKeepRing` | boringtun/src/noise/handshake.rs:503-509 | indices and ring slots over every run of calls and messages |
| `MessageRuns.MessagesAreSafe` | boringtun/src/noise/timers.rs:112-166 | dated sessions, nothing left after expiry, coherent replay windows, over every run of calls and messages |
| `MessageRuns.MessagesKeepLifetime` | boringtun/src/noise/timers.rs:152-183 | after the periodic call no session is older than REJECT_AFTER_TIME, over every run of calls and messages |
| `MessageRuns.LateRefusalHasCause` | boringtun/src/noise/handshake.rs:839-848 | an initiation is refused late for want of space only if its buffer is small, and for its key only if that is malformed and the tunnel is a hybrid one |
| `MessageRuns.MessagesArePaced` | boringtun/src/noise/timers.rs:215-305 | over every run of calls and messages with large enough reply buffers, malformed keys included: at most 17 resends an attempt; and without persistent keepalive and, in a hybrid tunnel, malformed keys: emissions REKEY_TIMEOUT apart |
| `PeerMessages.PeerCalls` | boringtun/src/noise/handshake.rs:519-603 | at any point of any run, a peer that holds its key and whose clock has moved can open a handshake, and is answered |
| `PeerMessages.PeerIsRefused` | boringtun/src/noise/handshake.rs:1062-1110 | at any point of any run, such a peer can meet either late refusal |
| `PeerMessages.PeerAnswers` | boringtun/src/noise/handshake.rs:605-693 | such a peer can answer the outstanding initiation, classical or hybrid, and is accepted |
| `PeerMessages.DrawsNeverRepeat` | boringtun/src/noise/handshake.rs:757-787 | along these runs no ephemeral is drawn twice, and none is a static key |
| `TunnelRuns.ApplyEffect` | boringtun/src/noise/timers.rs:168-312 | what each of the eleven kinds of call does to slots, ring and timers; no timer moves back |
| `TunnelRuns.UpdateEffect` | boringtun/src/noise/timers.rs:168-312 | the periodic call gives up, or at most sends an initiation that is due, and leaves no session older than REJECT_AFTER_TIME |
| `TunnelHistory.NoUnderflow` | boringtun/src/noise/timers.rs:180-324 | over every run of any calls at nondecreasing times no timer subtraction underflows, and the queue holds at most 256 packets |
| `TunnelHistory.IndicesAndSlots` | boringtun/src/noise/handshake.rs:503-509 | over every run the issued-th index is the newest, state carries it, previous the one before, and the session in ring slot i is a k-th issue with k = i mod 8 whose handshake is over |
| `TunnelHistory.NeverCollide` | boringtun/src/noise/handshake.rs:610-614 | two outstanding initiations never share an index |
| `TunnelHistory.PreviousCarries` | boringtun/src/noise/handshake.rs:590-600 | the older outstanding initiation carries the newest index if and only if an unanswered initiation of the peer occupies state, and the index before it if and only if none does |
| `TunnelSlotLimits.PreviousCarriesNewest` | boringtun/src/noise/handshake.rs:587-603 | a run of messages that ends with the older slot carrying the newest index |
| `TunnelSlotLimits.BehindIff` | boringtun/src/noise/handshake.rs:587-603 | the older slot is behind over all runs of calls and messages if and only if no reply buffer is too small; malformed keys do not matter |
| `TunnelHistory.DisplacesOnlyOld` | boringtun/src/noise/mod.rs:393-423 | an installed session goes to the slot of its issue number and displaces only one issued at least 8 earlier |
| `TunnelHistory.EmittedIndex` | boringtun/src/noise/handshake.rs:823-834 | every index put into a handshake message is the next issue |
| `TunnelHistory.EmittedNamesPeer` | boringtun/src/noise/mod.rs:268 | over every run, any emitted index shifted right by 8 is the index the tunnel was built with |
| `TunnelHistory.RunsAreSafe` | boringtun/src/noise/timers.rs:112-166 | over every run: session timers are never later than the installation, an expired handshake has an expired previous one and no sessions, replay windows are coherent |
| `TunnelHistory.KeyLifetime` | boringtun/src/noise/timers.rs:152-183 | after every periodic call no session is left that was installed more than REJECT_AFTER_TIME before |
| `TunnelHistory.EstimateOverRuns` | boringtun/src/noise/mod.rs:664-692 | over every run the loss estimate lies in [0,1] |
| `TunnelPace.EmissionsAreSpaced` | boringtun/src/noise/timers.rs:215-305 | without persistent keepalive and late refusals, any two initiations emitted by the timers are at least REKEY_TIMEOUT apart, over every run |
| `TunnelPace.ResendsAreBounded` | boringtun/src/noise/timers.rs:215-236 | one attempt gets at most 17 timer-driven resends, over every run in which no reply buffer is too small, malformed keys included |
| `TunnelPace.AttemptExpires` | boringtun/src/noise/timers.rs:217-226 | an attempt unanswered for REKEY_ATTEMPT_TIME is given up by the next periodic call |
| `TunnelPaceLimits.ResendsReachBound` | boringtun/src/noise/timers.rs:228-236 | a run that reaches all 17 resends, for every tunnel |
| `TunnelPaceLimits.KeepaliveBreaksSpacing` | boringtun/src/noise/timers.rs:290-309 | for every persistent keepalive p > 0 and every configuration, a run of calls and of messages that the peer writes, without a change of keys and with late refusals only where the configuration allows them, with two emissions as close to each other as one likes |
| `TunnelPaceLimits.LateRefusalBreaksSpacing` | boringtun/src/noise/timers.rs:268-305 | whatever the keepalive, a run of calls and messages with two emissions a quarter of a second apart around an initiation that is refused late, for either reason |
| `TunnelPaceLimits.SpacingIff` | boringtun/src/noise/timers.rs:215-311 | the spacing holds over all runs of calls and messages if and only if persistent keepalive is off, no reply buffer is too small, and no malformed key comes to a hybrid tunnel |
| `TunnelPaceLimits.SmallBufferBreaksBound` | boringtun/src/noise/timers.rs:268-305 | with small reply buffers one attempt can get any number of resends |
| `TunnelPaceLimits.BoundIff` | boringtun/src/noise/timers.rs:215-236 | the bound of 17 resends holds over all runs of calls and messages if and only if no reply buffer is too small; malformed keys do not matter |
| `IndexLfsr.ShiftInverts` | boringtun/src/device/mod.rs:878-885 | one step maps nonzero 24-bit states to nonzero 24-bit states and can be undone |
| `IndexLfsr.StatesDistinct` | boringtun/src/device/mod.rs:878-887 | until the register returns to its seed all its states differ (the orbit argument) |
| `IndexLfsr.MaskInjective` | boringtun/src/device/mod.rs:882-886 | decrementing and masking lose nothing |
| `IndexLfsr.MaskReachesAllButOne` | boringtun/src/device/mod.rs:882-886 | decremented and masked, the states give every 24-bit value but the complement of the mask |
| `LfsrPeriod.ReturnsIff` | boringtun/src/device/mod.rs:878-885 | the register returns to its seed after n steps if and only if n is a multiple of 2^24 - 1, whatever the seed: its polynomial is primitive |
| `LfsrPeriod.ExhaustedIff` | boringtun/src/device/mod.rs:884-885 | so the assertion against too many peers fails exactly when 2^24 - 2 indices have been issued |
| `LfsrPeriod.StateIsProduct` | boringtun/src/device/mod.rs:878-885 | n steps of the register are one product in the field of 2^24 elements |
| `LfsrField.TimesCommute` | boringtun/src/device/mod.rs:881-883 | products in that field commute, by Horner's rule over the bits of the register |
| `LfsrField.MulIsTimes` | boringtun/src/device/mod.rs:881-883 | the product written out is the recursive one |
| `IndexLfsr.IndexLfsr.constructor` | boringtun/src/device/mod.rs:890-898 | a generator with any seed and mask |
| `IndexLfsr.IndexLfsr.Next` | boringtun/src/device/mod.rs:878-887 | the index is below 2^24 and was never issued before |
| `IndexLfsr.IndexLfsr.AllDistinct` | boringtun/src/device/mod.rs:878-887 | all indices issued so far are pairwise distinct |
| `AllowedIps.FindsLongest` | boringtun/src/device/allowed_ips.rs:51-53 | lookup returns the entry with the most bits, and none only if no prefix is present |
| `AllowedIps.SameNetworkIff` | boringtun/src/device/allowed_ips.rs:42-49 | two addresses share an n-bit network if and only if family and first n bits agree |
| `AllowedIps.RemovalKeepsOthers` | boringtun/src/device/allowed_ips.rs:55-57 | removing an owner removes its entries and keeps every entry of the others |
| `AllowedIps.FindAfterRemoval` | boringtun/src/device/allowed_ips.rs:51-57 | a lookup that found another owner finds it still, and none finds the one removed |
| `AllowedIps.InsertAllOwns` | boringtun/src/device/allowed_ips.rs:42-49 | inserting a list gives exactly its truncated networks the new owner |
| `Device.Peer.constructor` | boringtun/src/device/peer.rs:53-71 | the peer with the table of its own networks |
| `Device.Device.constructor` | boringtun/src/device/mod.rs:376-379 | empty tables |
| `Device.Device.UpdatePeer` | boringtun/src/device/mod.rs:305-353 | adding or removing keeps the tables coherent and changes nothing else; adding needs fewer than 2^24 - 2 peers added in all |
| `Device.Device.AddPeer` | boringtun/src/device/mod.rs:327-350 | the new peer is in all tables under an index never issued before |
| `Device.Device.AddRoutes` | boringtun/src/device/mod.rs:346-349 | the routing table after the loop |
| `Device.Device.RemovePeer` | boringtun/src/device/mod.rs:289-302 | the peer disappears from all three tables, the rest is untouched |
| `Device.Device.RemovalKeepsRoutes` | boringtun/src/device/mod.rs:289-302 | removing a peer leaves every other peer its addresses, and routes none to the one removed |
| `Device.Device.ClearPeers` | boringtun/src/device/mod.rs:503-507 | all three tables are empty |
| `Device.Device.PeerForReceiver` | boringtun/src/device/mod.rs:640-646 | finds a peer if and only if one has the index receiver >> 8, and finds that one |
| `Device.Device.IndicesDiffer` | boringtun/src/device/mod.rs:342-344 | no two peers share an index |
| `Device.Device.RoutedIsAllowed` | boringtun/src/device/peer.rs:147-149 | whenever an address is routed to a peer, that peer accepts it as a source |
| `Device.Device.EmittedIndexFindsPeer` | boringtun/src/device/mod.rs:640-646 | whatever the tunnel of a peer went through, an index that it emits leads back to that peer and no other |
| `RateLimiter.RateLimiter.constructor` | boringtun/src/noise/rate_limiter.rs:55-69 | keys derived from the public key, counters at zero |
| `RateLimiter.RateLimiter.ResetCount` | boringtun/src/noise/rate_limiter.rs:78-86 | resets the count at most once per second |
| `RateLimiter.RateLimiter.Nonce` | boringtun/src/noise/rate_limiter.rs:105-109 | a nonce per counter value, each used once |
| `RateLimiter.RateLimiter.IsUnderLoad` | boringtun/src/noise/rate_limiter.rs:111-113 | counts the message and compares the count before it |
| `RateLimiter.RateLimiter.FormatCookieReply` | boringtun/src/noise/rate_limiter.rs:115-150 | seals the cookie for the sender under its mac1 |
| `RateLimiter.RateLimiter.VerifyPacket` | boringtun/src/noise/rate_limiter.rs:153-204 | mac1, then load, then mac2, with the reply or error of each case |
| `RateLimiterSpec.RateBound` | boringtun/src/noise/rate_limiter.rs:78-204 | over any run and in any window of T seconds at most limit * (floor(T) + 2) handshake messages without a valid mac2 are accepted |
| `RateLimiterSpec.WrongMac1IsRefused` | boringtun/src/noise/rate_limiter.rs:176-183 | a handshake message with a wrong mac1 is refused at any load and not counted |
| `RateLimiterSpec.RightMac1IsLimited` | boringtun/src/noise/rate_limiter.rs:185-204 | one with the right mac1 is counted and passes if and only if the limit is not used up or its mac2 is valid; otherwise it gets a cookie, or an error if there is no address or no space |
| `RateLimiterSpec.ResetsAfterSecond` | boringtun/src/noise/rate_limiter.rs:78-86 | a reset clears the count if and only if the last one is a second old |
| `RateLimiterSpec.LimitIsAdmitted` | boringtun/src/noise/rate_limiter.rs:111-113 | after a reset the next limit messages with the right mac1 pass, whatever their addresses |
| `RateLimiterSpec.NoNonceTwice` | boringtun/src/noise/rate_limiter.rs:105-150 | over any run no two cookie replies use one nonce |
| `RateLimiterSpec.EpochSpans` | boringtun/src/noise/rate_limiter.rs:89-103 | the k-th epoch is the k-th span of COOKIE_REFRESH seconds |
| `RateLimiterSpec.CountsInWindow` | boringtun/src/noise/rate_limiter.rs:78-113 | the invariant behind the bound: passes per reset, resets per second |
| `CookieExchange.MessagesAreMarked` | boringtun/src/noise/handshake.rs:730-755 | every handshake message carries mac1 under the peer key and mac2 under the held cookie |
| `CookieExchange.Mac1Verifies` | boringtun/src/noise/rate_limiter.rs:176-183 | mac1 always verifies at the limiter of the peer |
| `CookieExchange.MessagesAlwaysVerify` | boringtun/src/noise/rate_limiter.rs:153-183 | whatever handshake and limiter went through, no message is refused for its mac by a limiter made for the peer, and it passes below the limit |
| `CookieExchange.CookieArrives` | boringtun/src/noise/handshake.rs:695-727 | the cookie reply to the latest message is accepted and yields the current cookie |
| `CookieExchange.CookieAnswersLatest` | boringtun/src/noise/handshake.rs:695-727 | until the handshake sends again it accepts a cookie reply if and only if the reply names the index of its latest message and its box holds a cookie sealed under the peer's cookie key for that message's mac1 |
| `CookieExchange.NoCookieUnasked` | boringtun/src/noise/handshake.rs:695-700 | a handshake that has sent nothing accepts no cookie, whatever else it went through |
| `CookieExchange.Mac2PassesIff` | boringtun/src/noise/rate_limiter.rs:185-200 | with a cookie held, a message passes a loaded limiter if and only if it comes in the same epoch from the same padded address |
| `CookieExchange.CookieLapses` | boringtun/src/noise/rate_limiter.rs:89-103 | once COOKIE_REFRESH seconds have gone by, a message marked with the old cookie no longer passes a loaded limiter, from any address |
| `CookieExchange.SharedCookies` | boringtun/src/noise/rate_limiter.rs:90-95 | two addresses share cookies exactly if one is IPv4 and the other is it padded with zeros |
| `CookieExchange.CookieRoundTrip` | boringtun/src/noise/rate_limiter.rs:89-204 | message, cookie reply, then any events on both sides: as long as the cookie is kept, every later message passes from the same address in the same epoch |
| `CookieExchange.CookieStays` | boringtun/src/noise/handshake.rs:695-755 | only an accepted cookie reply or its expiry changes the cookie held, and nothing changes the peer |
| `Terms.DhCommutes` | boringtun/src/noise/handshake.rs:541-546 | both ends of an X25519 exchange compute the same secret |
| `Terms.DecapInjective` | boringtun/src/noise/handshake.rs:1215-1232 | with implicit rejection a changed ciphertext always changes the decapsulated secret |

## Left out

- The cryptographic primitives themselves (ChaCha20-Poly1305, BLAKE2s, X25519, ML-KEM): library code, replaced by terms.
- Byte layouts of handshake and data packets, `parse_incoming_packet` and the two anonymous parsers: messages are records of their fields. A datagram in `Tunnel` is one of the four kinds of packet.
- `dst_address`, and the source address returned with a delivered packet: both only read an address out of it.
- Sessions inside `Tunnel` are values of `Session.State`, not `Session` objects; that the object behaves as the value is proved in module `Session`.
- Counter wrap at 2^64, overflow of byte and rate counters, and 32-bit floating-point rounding in `estimate_loss`.
- Tai64N.StampRoundTrip: stated for clock readings whose label fits 64 bits, as the source adds the TAI64 base without a check.
- RateLimiterSpec.RateBound: stated for calls whose effects follow the order of their clock readings; `reset_count` reads the clock before it takes its mutex, so with many threads the effects can come in another order.
- Sockets, endpoints, connected UDP sockets, the tun device, epoll and kqueue: system calls.
- `api.rs` and `serialization.rs`: text configuration and key decoding.
- The trie behind `AllowedIps`: a map from network to owner with longest-prefix lookup.
- Logging, the language bindings, the command line, benches and scripts.
- Fairness of the device lock, unwinding when a closure panics inside it, and a thread that takes a second read guard while it holds one: a thread of `DevLock` holds at most one.

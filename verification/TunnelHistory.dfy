/** What holds over every run of one tunnel: indices and ring slots, key lifetime, timer
    arithmetic, and the pace of handshake initiations. */
module TunnelHistory {
  import opened Clock
  import opened HandshakeSlots
  import opened LocalIndex
  import opened TunnelSpec
  import opened TunnelRuns
  import LossSpec

  type Call = Timed<Event>

  /** Every timer is in the past, whenever the next call comes. */
  predicate Sane(w: World) {
    Timely(w.t, w.now) && |w.h.slotIssue| == N_SESSIONS && |w.h.installedAt| == N_SESSIONS
  }

  lemma {:induction false} SaneIsReady(w: World, now: nat)
    requires Sane(w) && w.now <= now
    ensures Ready(w, now) && Timely(w.t, now)
  {
    TimelyLater(w.t, w.now, now);
  }

  lemma {:induction false} EffectMoves(t: Tunn, e: Event, now: nat, t': Tunn, r: Outcome)
    requires Timely(t, now) && Effect(t, e, now, t', r)
    ensures Moves(t, now, t')
  {
  }

  /** One call at time `w'.now` leads from w to w', with outcome r. */
  predicate Follows(w: World, e: Event, w': World, r: Outcome)
    requires Sane(w)
  {
    && w.now <= w'.now && Sane(w')
    && w'.h == Recorded(w, e, w'.now, r)
    && Effect(w.t, e, w'.now, w'.t, r)
    && Moves(w.t, w'.now, w'.t)
  }

  lemma {:induction false} EffectFollows(w: World, now: nat, e: Event, res: (Tunn, Outcome))
    requires Sane(w) && w.now <= now && Effect(w.t, e, now, res.0, res.1)
    ensures Follows(w, e, Advanced(w, now, e, res), res.1)
  {
    SaneIsReady(w, now);
    EffectMoves(w.t, e, now, res.0, res.1);
  }

  lemma {:induction false} StepFollows(w: World, now: nat, e: Event)
    requires Sane(w) && w.now <= now
    ensures Ready(w, now) && Follows(w, e, Step(w, now, e), OutcomeOf(w, now, e))
  {
    SaneIsReady(w, now);
    ApplyEffect(w.t, e, now);
    EffectFollows(w, now, e, Apply(w.t, e, now));
  }

  lemma {:induction false} StartIsSane(hybrid: bool, index: nat, p: nat)
    ensures Sane(Start(hybrid, index, p))
  {
  }

  function Next(w: World, c: Call): (w': World)
    requires Sane(w) && w.now <= c.now
    ensures Sane(w') && w'.now == c.now
  {
    StepFollows(w, c.now, c.event);
    Step(w, c.now, c.event)
  }

  lemma {:induction false} NextFollows(w: World, c: Call) returns (r: Outcome)
    requires Sane(w) && w.now <= c.now
    ensures Ready(w, c.now) && r == OutcomeOf(w, c.now, c.event)
    ensures Follows(w, c.event, Next(w, c), r)
  {
    StepFollows(w, c.now, c.event);
    r := OutcomeOf(w, c.now, c.event);
  }

  /** The call comes after the others. */
  predicate Last(calls: seq<Call>, c: Call) { calls != [] ==> calls[|calls| - 1].now <= c.now }

  /** A new tunnel after any calls, in any order. */
  function Run(start: World, calls: seq<Call>): (w: World)
    requires Sane(start) && start.now == 0 && InOrder(calls)
    ensures Sane(w) && w.now == if calls == [] then 0 else calls[|calls| - 1].now
  {
    if calls == [] then start
    else Next(Run(start, calls[..|calls| - 1]), calls[|calls| - 1])
  }

  /** Marks calls; it only controls when the verifier opens the definition of their run. */
  predicate Opens(calls: seq<Call>) { true }

  /** The calls are a run that ends in w. */
  predicate Leads(start: World, calls: seq<Call>, w: World) {
    && Sane(start) && start.now == 0 && InOrder(calls) && Sane(w)
    && forall c: seq<Call> {:trigger Opens(c)} | c == calls && Opens(c) :: Run(start, c) == w
  }

  lemma {:induction false} LeadsTo(start: World, calls: seq<Call>, w: World)
    requires Leads(start, calls, w)
    ensures Run(start, calls) == w
  {
    assert Opens(calls);
  }

  lemma {:induction false} ExtendAny(start: World, calls: seq<Call>, w: World, c: Call)
    requires Leads(start, calls, w) && w.now <= c.now
    ensures Leads(start, calls + [c], Next(w, c))
  {
    LeadsTo(start, calls, w);
    assert (calls + [c])[..|calls|] == calls;
    assert Run(start, calls + [c]) == Next(w, c);
  }

  /** No subtraction of timer readings underflows, in any call of any run. */
  lemma {:induction false} NoUnderflow(hybrid: bool, index: nat, p: nat, calls: seq<Call>, now: nat)
    requires InOrder(calls) && forall i | 0 <= i < |calls| :: calls[i].now <= now
    ensures Sane(Start(hybrid, index, p))
    ensures
      var w := Run(Start(hybrid, index, p), calls);
      Past(w.t, now) && |w.t.queue| <= MAX_QUEUE_DEPTH
  {
    StartIsSane(hybrid, index, p);
    SaneIsReady(Run(Start(hybrid, index, p), calls), now);
  }

  // ----- Indices and ring slots -----

  /** The issue number of an initiation kept as `previous`. */
  function PreviousIssue(s: Slots, issued: nat): nat {
    if s.state.InitReceived? || issued == 0 then issued else issued - 1
  }

  /** The newest index is the issued-th; `state` carries it, `previous` the one before. */
  predicate Numbered(s: Slots, base: nat, issued: nat) {
    && s.nextIndex == Nth(base, issued)
    && (s.state.InitSent? ==> issued >= 1 && s.state.localIndex == Nth(base, issued))
    && (s.previous.InitSent? ==> && PreviousIssue(s, issued) >= 1
                                 && s.previous.localIndex == Nth(base, PreviousIssue(s, issued)))
  }

  predicate Outstanding(s: Slots, issued: nat, k: nat) {
    (s.state.InitSent? && k == issued) || (s.previous.InitSent? && k == PreviousIssue(s, issued))
  }

  /** A session in slot i is the k-th issue with k = i modulo 8, and its handshake is over. */
  predicate Placed(t: Tunn, h: History, base: nat, i: nat)
    requires WellFormed(t) && |h.slotIssue| == N_SESSIONS && i < N_SESSIONS
  {
    t.sessions[i].Some? ==>
      var k := h.slotIssue[i];
      && 1 <= k <= h.issued && k % N_SESSIONS == i
      && t.sessions[i].value.receivingIndex == Nth(base, k)
      && !Outstanding(t.slots, h.issued, k)
  }

  predicate Ring(w: World, base: nat) {
    && Sane(w)
    && Numbered(w.t.slots, base, w.h.issued)
    && forall i | 0 <= i < N_SESSIONS :: Placed(w.t, w.h, base, i)
  }

  lemma {:induction false} Apart(base: nat, n: nat)
    ensures Nth(base, n) != Nth(base, n + 1)
  {
    assert n % 256 != (n + 1) % 256;
  }

  /** The two slots never hold the same index, so a response names one of them. */
  lemma {:induction false} AwaitedIssue(s: Slots, base: nat, issued: nat, index: nat)
    requires Numbered(s, base, issued) && IsAwaited(s, index)
    ensures
      var k := IssueOf(s, issued, index);
      && index == Nth(base, k) && 1 <= k <= issued <= k + 1 && Outstanding(s, issued, k)
      && !Outstanding(Complete(s, index), issued, k)
    ensures !(s.state.InitSent? && s.previous.InitSent? && s.state.localIndex == s.previous.localIndex)
  {
    if issued > 0 {
      Apart(base, issued - 1);
    }
  }

  lemma {:induction false} InitiateNumbers(s: Slots, base: nat, issued: nat, now: nat)
    requires Numbered(s, base, issued)
    ensures Numbered(Initiate(s, now), base, issued + 1)
    ensures forall k | 1 <= k <= issued && !Outstanding(s, issued, k) ::
              !Outstanding(Initiate(s, now), issued + 1, k)
  {
    NthIssued(base, issued);
  }

  lemma {:induction false} AnswerNumbers(s: Slots, base: nat, issued: nat)
    requires Numbered(s, base, issued)
    ensures Numbered(Answer(s), base, issued + 1)
    ensures forall k | 1 <= k <= issued && !Outstanding(s, issued, k) ::
              !Outstanding(Answer(s), issued + 1, k)
    ensures !Outstanding(Answer(s), issued + 1, issued + 1)
  {
    NthIssued(base, issued);
  }

  lemma {:induction false} StoreNumbers(s: Slots, base: nat, issued: nat)
    requires Numbered(s, base, issued)
    ensures Numbered(Store(s), base, issued)
    ensures forall k | 1 <= k <= issued && !Outstanding(s, issued, k) :: !Outstanding(Store(s), issued, k)
  {
  }

  lemma {:induction false} CompleteNumbers(s: Slots, base: nat, issued: nat, index: nat)
    requires Numbered(s, base, issued) && IsAwaited(s, index)
    ensures Numbered(Complete(s, index), base, issued)
    ensures forall k | 1 <= k <= issued && !Outstanding(s, issued, k) ::
              !Outstanding(Complete(s, index), issued, k)
  {
  }

  /** Sessions stay placed when none is installed. */
  lemma {:induction false} KeptStaysPlaced(w: World, base: nat, t': Tunn, h': History)
    requires Ring(w, base) && WellFormed(t') && RingKept(w.t, t')
    requires h'.slotIssue == w.h.slotIssue && h'.issued >= w.h.issued
    requires forall k | 1 <= k <= w.h.issued && !Outstanding(w.t.slots, w.h.issued, k) ::
               !Outstanding(t'.slots, h'.issued, k)
    ensures forall i | 0 <= i < N_SESSIONS :: Placed(t', h', base, i)
  {
    forall i | 0 <= i < N_SESSIONS
      ensures Placed(t', h', base, i)
    {
      assert Placed(w.t, w.h, base, i);
    }
  }

  /** What `Placed` needs to carry over from one set of outstanding issues to another. */
  predicate Settles(s: Slots, issued: nat, s': Slots, issued': nat) {
    issued <= issued' &&
    forall j | 1 <= j <= issued && !Outstanding(s, issued, j) :: !Outstanding(s', issued', j)
  }

  /** The facts about installing the k-th issue. */
  predicate InstallsIssue(w: World, base: nat, now: nat, t': Tunn, h': History, k: nat)
    requires Sane(w)
  {
    && InstallsIn(w.t, now, t', Nth(base, k))
    && h'.slotIssue == w.h.slotIssue[k % N_SESSIONS := k]
    && 1 <= k <= h'.issued && w.h.issued <= k + 1
    && (k <= w.h.issued ==> Outstanding(w.t.slots, w.h.issued, k))
    && !Outstanding(t'.slots, h'.issued, k)
    && Settles(w.t.slots, w.h.issued, t'.slots, h'.issued)
  }

  /** Installing the k-th issue displaces at most a session issued at least 8 earlier. */
  lemma {:induction false} InstallDisplaces(w: World, base: nat, now: nat, t': Tunn, h': History, k: nat)
    requires Ring(w, base) && InstallsIssue(w, base, now, t', h', k)
    ensures w.t.sessions[k % N_SESSIONS].Some? ==> w.h.slotIssue[k % N_SESSIONS] + 8 <= k
  {
    var i := k % N_SESSIONS;
    assert Placed(w.t, w.h, base, i);
    if w.t.sessions[i].Some? {
      TurnApart(w.h.slotIssue[i], k);
    }
  }

  lemma {:induction false} TurnApart(j: nat, k: nat)
    requires j % N_SESSIONS == k % N_SESSIONS && j != k && j <= k + 1
    ensures j + 8 <= k
  {
  }

  lemma {:induction false} InstallPlaces(w: World, base: nat, now: nat, t': Tunn, h': History, k: nat)
    requires Ring(w, base) && InstallsIssue(w, base, now, t', h', k)
    ensures Placed(t', h', base, k % N_SESSIONS)
  {
    NthIssued(base, k);
  }

  lemma {:induction false} InstallKeepsPlaced(w: World, base: nat, now: nat, t': Tunn, h': History, k: nat, i: nat)
    requires Ring(w, base) && InstallsIssue(w, base, now, t', h', k)
    requires i < N_SESSIONS && i != k % N_SESSIONS
    ensures Placed(t', h', base, i)
  {
    NthIssued(base, k);
    assert Placed(w.t, w.h, base, i);
  }

  lemma {:induction false} InstallStaysPlaced(w: World, base: nat, now: nat, t': Tunn, h': History, k: nat)
    requires Ring(w, base) && InstallsIssue(w, base, now, t', h', k)
    ensures forall i | 0 <= i < N_SESSIONS :: Placed(t', h', base, i)
  {
    forall i | 0 <= i < N_SESSIONS
      ensures Placed(t', h', base, i)
    {
      if i == k % N_SESSIONS {
        InstallPlaces(w, base, now, t', h', k);
      } else {
        InstallKeepsPlaced(w, base, now, t', h', k, i);
      }
    }
  }

  lemma {:induction false} GotInitKeepsRing(w: World, base: nat, e: Event, w': World, r: Outcome)
    requires Ring(w, base) && e.GotInit? && Follows(w, e, w', r)
    ensures Ring(w', base)
  {
    AnswerNumbers(w.t.slots, base, w.h.issued);
    InstallStaysPlaced(w, base, w'.now, w'.t, w'.h, w.h.issued + 1);
  }

  lemma {:induction false} GotResponseKeepsRing(w: World, base: nat, e: Event, w': World, r: Outcome)
    requires Ring(w, base) && e.GotResponse? && Follows(w, e, w', r) && IsAwaited(w.t.slots, e.index)
    ensures Ring(w', base)
  {
    AwaitedIssue(w.t.slots, base, w.h.issued, e.index);
    CompleteNumbers(w.t.slots, base, w.h.issued, e.index);
    InstallStaysPlaced(w, base, w'.now, w'.t, w'.h, IssueOf(w.t.slots, w.h.issued, e.index));
  }

  lemma {:induction false} SendKeepsRing(w: World, base: nat, e: Event, w': World, r: Outcome)
    requires Ring(w, base) && Follows(w, e, w', r) && MaySend(w.t, w'.now, w'.t, r)
    requires !e.GotInit? && !e.GotResponse? && !e.GotInitBadKey?
    ensures Ring(w', base)
  {
    InitiateNumbers(w.t.slots, base, w.h.issued, w'.now);
    KeptStaysPlaced(w, base, w'.t, w'.h);
  }

  lemma {:induction false} RefusalKeepsRing(w: World, base: nat, e: Event, w': World, r: Outcome)
    requires Ring(w, base) && Follows(w, e, w', r) && (e.GotInitNoSpace? || e.GotInitBadKey?)
    ensures Ring(w', base)
  {
    AnswerNumbers(w.t.slots, base, w.h.issued);
    StoreNumbers(w.t.slots, base, w.h.issued);
    KeptStaysPlaced(w, base, w'.t, w'.h);
  }

  lemma {:induction false} StepKeepsRing(w: World, base: nat, e: Event, w': World, r: Outcome)
    requires Ring(w, base) && Follows(w, e, w', r)
    ensures Ring(w', base)
  {
    match e
    case GotInit(_, _, _) => GotInitKeepsRing(w, base, e, w', r);
    case GotResponse(index, _, _, _) =>
      if IsAwaited(w.t.slots, index) {
        GotResponseKeepsRing(w, base, e, w', r);
      }
    case GotInitNoSpace => RefusalKeepsRing(w, base, e, w', r);
    case GotInitBadKey => RefusalKeepsRing(w, base, e, w', r);
    case _ =>
      if MaySend(w.t, w'.now, w'.t, r) {
        SendKeepsRing(w, base, e, w', r);
      }
  }

  lemma {:induction false} StartNumbers(index: nat)
    ensures index * 256 % 0x1_0000_0000 == Nth(index % 0x100_0000, 0)
  {
    var q, m := index / 0x100_0000, index % 0x100_0000;
    assert index == q * 0x100_0000 + m;
    LowWord(q, 256 * m);
  }

  lemma {:induction false} LowWord(q: nat, r: nat)
    requires r < 0x1_0000_0000
    ensures (q * 0x1_0000_0000 + r) % 0x1_0000_0000 == r
  {
  }

  /** Over every run: the newest index is the issued-th, `state` carries it and `previous` the one
      before (the same one while an unanswered initiation of the peer occupies `state`), and the
      session in ring slot i is the k-th issue for a k = i modulo 8. */
  lemma {:induction false} IndicesAndSlots(hybrid: bool, index: nat, p: nat, calls: seq<Call>)
    requires InOrder(calls)
    ensures Sane(Start(hybrid, index, p))
    ensures Ring(Run(Start(hybrid, index, p), calls), index % 0x100_0000)
    decreases |calls|
  {
    var start, base := Start(hybrid, index, p), index % 0x100_0000;
    StartIsSane(hybrid, index, p);
    if calls == [] {
      StartNumbers(index);
    } else {
      IndicesAndSlots(hybrid, index, p, calls[..|calls| - 1]);
      var w := Run(start, calls[..|calls| - 1]);
      var last := calls[|calls| - 1];
      var r := NextFollows(w, last);
      StepKeepsRing(w, base, last.event, Next(w, last), r);
    }
  }

  /** The two initiations a response can answer never share an index. */
  lemma {:induction false} NeverCollide(w: World, base: nat)
    requires Ring(w, base) && w.t.slots.state.InitSent? && w.t.slots.previous.InitSent?
    ensures w.t.slots.state.localIndex != w.t.slots.previous.localIndex
  {
    AwaitedIssue(w.t.slots, base, w.h.issued, w.t.slots.state.localIndex);
  }

  /** The initiation kept as `previous` carries the newest index exactly while an unanswered
      initiation of the peer occupies `state`, and the index before it otherwise. */
  lemma {:induction false} PreviousCarries(w: World, base: nat)
    requires Ring(w, base) && w.t.slots.previous.InitSent?
    ensures w.t.slots.previous.localIndex == w.t.slots.nextIndex <==> w.t.slots.state.InitReceived?
    ensures w.h.issued >= 1
    ensures w.t.slots.previous.localIndex == Nth(base, w.h.issued - 1) <==> !w.t.slots.state.InitReceived?
  {
    Apart(base, w.h.issued - 1);
  }

  /** A session that is installed goes to the slot of its issue number, touches no other slot, and
      what it displaces was issued at least 8 issues earlier. */
  lemma {:induction false} DisplacesOnlyOld(w: World, base: nat, e: Event, w': World, r: Outcome)
    requires Ring(w, base) && Follows(w, e, w', r) && Installs(e, r)
    ensures
      var k := InstalledIssue(w, e);
      var i := k % N_SESSIONS;
      && w'.t.sessions[i].Some? && w'.t.sessions[i].value.receivingIndex == Nth(base, k)
      && (w.t.sessions[i].Some? ==> w.h.slotIssue[i] + 8 <= k)
      && forall j | 0 <= j < N_SESSIONS && j != i :: w'.t.sessions[j] == w.t.sessions[j]
  {
    var k := InstalledIssue(w, e);
    NthIssued(base, k);
    if e.GotResponse? {
      AwaitedIssue(w.t.slots, base, w.h.issued, e.index);
      CompleteNumbers(w.t.slots, base, w.h.issued, e.index);
    } else {
      AnswerNumbers(w.t.slots, base, w.h.issued);
    }
    InstallDisplaces(w, base, w'.now, w'.t, w'.h, k);
  }

  /** Every index the tunnel puts into a handshake message is the next issue and names the peer
      in its upper bits. */
  lemma {:induction false} EmittedIndex(w: World, base: nat, e: Event, w': World, r: Outcome)
    requires Ring(w, base) && Follows(w, e, w', r) && (r.SendInit? || r.SendResponse?)
    ensures r.index == Nth(base, w'.h.issued) && w'.h.issued == w.h.issued + 1
    ensures r.index / 256 == base
  {
    StepKeepsRing(w, base, e, w', r);
    NthIssued(base, w'.h.issued);
  }

  /** After the calls, one more call makes the tunnel put `out` into a handshake message. */
  predicate PutsOut(hybrid: bool, index: nat, p: nat, calls: seq<Call>, c: Call, out: nat) {
    && InOrder(calls) && Last(calls, c)
    && Sane(Start(hybrid, index, p))
    && var w := Run(Start(hybrid, index, p), calls);
       && Ready(w, c.now)
       && var r := OutcomeOf(w, c.now, c.event);
          (r.SendInit? || r.SendResponse?) && r.index == out
  }

  lemma {:induction false} NextNamesPeer(w: World, base: nat, c: Call)
    requires Ring(w, base) && w.now <= c.now
    ensures
      && Ready(w, c.now)
      && var r := OutcomeOf(w, c.now, c.event);
         (r.SendInit? || r.SendResponse?) ==> r.index / 256 == base
  {
    var r := NextFollows(w, c);
    if r.SendInit? || r.SendResponse? {
      EmittedIndex(w, base, c.event, Next(w, c), r);
    }
  }

  /** Shifting any emitted index right by 8 gives the 24 bits the tunnel was built with. */
  lemma {:induction false} EmittedNamesPeer(hybrid: bool, index: nat, p: nat, calls: seq<Call>, c: Call, out: nat)
    requires PutsOut(hybrid, index, p, calls, c, out)
    ensures out / 256 == index % 0x100_0000
  {
    IndicesAndSlots(hybrid, index, p, calls);
    NextNamesPeer(Run(Start(hybrid, index, p), calls), index % 0x100_0000, c);
  }

  // ----- Key lifetime -----

  /** The timer of a live session never reads later than its installation. */
  predicate Dated(w: World)
    requires Sane(w)
  {
    forall i | 0 <= i < N_SESSIONS && w.t.sessions[i].Some? ::
      w.t.sessionTimers[i] <= w.h.installedAt[i] <= w.now
  }

  /** An expired handshake leaves nothing to use or to complete. */
  predicate ExpiredMeansEmpty(t: Tunn) {
    t.slots.state.Expired? ==>
      t.slots.previous.Expired? && forall i | 0 <= i < |t.sessions| :: t.sessions[i].None?
  }

  lemma {:induction false} KeptStaysDated(w: World, w': World)
    requires Sane(w) && Sane(w') && Dated(w) && RingKept(w.t, w'.t)
    requires w'.h.installedAt == w.h.installedAt && w.now <= w'.now
    ensures Dated(w')
  {
  }

  lemma {:induction false} InstallStaysDated(w: World, base: nat, e: Event, w': World, r: Outcome, index: nat)
    requires Ring(w, base) && Follows(w, e, w', r) && Dated(w) && Installs(e, r)
    requires InstallsIn(w.t, w'.now, w'.t, index)
    requires index == if e.GotResponse? then e.index else Nth(base, w.h.issued + 1)
    ensures Dated(w')
  {
    var k := InstalledIssue(w, e);
    NthIssued(base, k);
    if e.GotResponse? {
      AwaitedIssue(w.t.slots, base, w.h.issued, e.index);
    }
    assert index % N_SESSIONS == k % N_SESSIONS;
  }

  lemma {:induction false} StepKeepsDated(w: World, base: nat, e: Event, w': World, r: Outcome)
    requires Ring(w, base) && Follows(w, e, w', r) && Dated(w)
    ensures Dated(w')
  {
    match e
    case GotInit(_, _, _) =>
      AnswerNumbers(w.t.slots, base, w.h.issued);
      InstallStaysDated(w, base, e, w', r, w'.t.slots.nextIndex);
    case GotResponse(index, _, _, _) =>
      if IsAwaited(w.t.slots, index) {
        InstallStaysDated(w, base, e, w', r, index);
      }
    case Timers(_) =>
      if MaySend(w.t, w'.now, w'.t, r) {
        KeptStaysDated(w, w');
      }
    case _ => KeptStaysDated(w, w');
  }

  lemma {:induction false} StepKeepsWindows(w: World, e: Event, w': World, r: Outcome)
    requires Sane(w) && Follows(w, e, w', r) && WindowsCoherent(w.t)
    ensures WindowsCoherent(w'.t)
  {
  }

  lemma {:induction false} StepKeepsExpired(w: World, e: Event, w': World, r: Outcome)
    requires Sane(w) && Follows(w, e, w', r) && ExpiredMeansEmpty(w.t)
    ensures ExpiredMeansEmpty(w'.t)
  {
  }

  /** Over every run: timers of live sessions are dated, an expired handshake means no session and
      nothing to complete, replay windows are coherent. */
  lemma {:induction false} RunsAreSafe(hybrid: bool, index: nat, p: nat, calls: seq<Call>)
    requires InOrder(calls)
    ensures Sane(Start(hybrid, index, p))
    ensures
      var w := Run(Start(hybrid, index, p), calls);
      Dated(w) && ExpiredMeansEmpty(w.t) && WindowsCoherent(w.t)
    decreases |calls|
  {
    var start := Start(hybrid, index, p);
    StartIsSane(hybrid, index, p);
    if calls == [] {
    } else {
      var before := calls[..|calls| - 1];
      RunsAreSafe(hybrid, index, p, before);
      IndicesAndSlots(hybrid, index, p, before);
      var w, last := Run(start, before), calls[|calls| - 1];
      var r := NextFollows(w, last);
      StepKeepsDated(w, index % 0x100_0000, last.event, Next(w, last), r);
      StepKeepsWindows(w, last.event, Next(w, last), r);
      StepKeepsExpired(w, last.event, Next(w, last), r);
    }
  }

  /** After a periodic call at time `now`, every session left was installed at most
      REJECT_AFTER_TIME before. */
  lemma {:induction false} KeyLifetime(hybrid: bool, index: nat, p: nat, calls: seq<Call>)
    requires InOrder(calls) && calls != [] && calls[|calls| - 1].event.Timers?
    ensures Sane(Start(hybrid, index, p))
    ensures
      var w := Run(Start(hybrid, index, p), calls);
      forall i | 0 <= i < N_SESSIONS && w.t.sessions[i].Some? ::
        w.now <= w.h.installedAt[i] + REJECT_AFTER_TIME
  {
    RunsAreSafe(hybrid, index, p, calls);
    var w := Run(Start(hybrid, index, p), calls[..|calls| - 1]);
    var r := NextFollows(w, calls[|calls| - 1]);
  }

  /** Over every run the loss estimate lies in [0, 1], and is 0 exactly when nothing was lost. */
  lemma {:induction false} EstimateOverRuns(hybrid: bool, index: nat, p: nat, calls: seq<Call>)
    requires InOrder(calls)
    ensures Sane(Start(hybrid, index, p))
    ensures
      var t := Run(Start(hybrid, index, p), calls).t;
      var loss := LossSpec.Mean(LossSpec.Losses(LossSpec.Rounds(t)));
      0.0 <= loss <= 1.0 && (loss == 0.0 <==> LossSpec.NothingLost(t))
  {
    RunsAreSafe(hybrid, index, p, calls);
    LossSpec.EstimateInUnit(Run(Start(hybrid, index, p), calls).t);
  }
}

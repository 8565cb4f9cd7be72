/** The device lock of boringtun/src/device/dev_lock.rs: a read/write lock whose readers can
    upgrade in two stages.  The lock is a mutex, a condition variable, the flag `wants_write`
    and an inner read/write lock; the model is every interleaving of the atomic steps of any
    number of threads. */
module DevLock {
  import opened Wrappers

  type Thread = nat

  /** Where a thread stands.  `Out` and `Holding` are outside the lock code, without and with
      a read guard; R* are inside `Lock::read`, W* inside `LockReadGuard::try_writeable`. */
  datatype Pc =
    | Out
    | Holding
    | RLock | RTest | RParked | RRelock | RAcquire | RRelease
    | WLock | WUnread | WTest | WParked | WRelock
    | WMarked | WReread | WPrep | WDrop | WWant | WWait | WMutate | WUnwrite | WReread2 | WLock2
    | WClear | WNotify | WRelease

  predicate Parked(pc: Pc) { match pc case RParked | WParked => true case _ => false }

  predicate WantsMutex(pc: Pc) { match pc case RLock | RRelock | WLock | WRelock | WLock2 => true case _ => false }

  predicate HasMutex(pc: Pc) {
    match pc
    case RTest | RAcquire | RRelease | WUnread | WTest | WMarked | WClear | WNotify | WRelease => true
    case _ => false
  }

  predicate HasRead(pc: Pc) {
    match pc
    case Holding | RRelease | WLock | WUnread | WPrep | WDrop | WLock2 | WClear | WNotify | WRelease => true
    case _ => false
  }

  /** From setting `wants_write` until clearing it. */
  predicate HasToken(pc: Pc) {
    match pc
    case WMarked | WReread | WPrep | WDrop | WWant | WWait | WMutate | WUnwrite | WReread2 | WLock2 | WClear => true
    case _ => false
  }

  /** Holds the writer bit of the inner lock; readers may still be leaving in `WWait`. */
  predicate HasWriter(pc: Pc) { match pc case WWait | WMutate | WUnwrite => true case _ => false }

  /** From the end of `prep_func` until `mut_func` has run. */
  predicate Prepared(pc: Pc) { match pc case WDrop | WWant | WWait | WMutate => true case _ => false }

  datatype State = State(
    mutex: Option<Thread>,
    wantsWrite: bool,
    readers: set<Thread>,
    writer: Option<Thread>,
    value: int,
    pc: map<Thread, Pc>,
    token: Option<Thread>,      // history: who set `wants_write`
    seen: map<Thread, int>)     // history: the value `prep_func` was shown

  function PcOf(s: State, t: Thread): Pc {
    if t in s.pc then s.pc[t] else Out
  }

  datatype Action =
    | CallRead(t: Thread)
    | DropGuard(t: Thread)
    | CallTryWriteable(t: Thread)
    | Advance(t: Thread, v: int)      // next atomic step inside the lock; `mut_func` writes v
    | SpuriousWake(t: Thread)

  /** Can the thread take its next step inside the lock code now? */
  predicate CanStep(s: State, t: Thread) {
    match PcOf(s, t)
    case Out | Holding | RParked | WParked => false
    case RLock | RRelock | WLock | WRelock | WLock2 => s.mutex.None?
    case RAcquire | WReread | WReread2 => s.writer.None?
    case WWant => s.writer.None?
    case WWait => s.readers == {}
    case _ => true
  }

  function Goto(s: State, t: Thread, pc: Pc): State {
    s.(pc := s.pc[t := pc])
  }

  /** `notify_all`: every parked thread goes on to take the mutex again. */
  function Woken(pc: map<Thread, Pc>): map<Thread, Pc> {
    map t | t in pc :: WokenPc(pc[t])
  }

  function WokenPc(pc: Pc): Pc {
    match pc case RParked => RRelock case WParked => WRelock case other => other
  }

  function Advanced(s: State, t: Thread, v: int): State
    requires CanStep(s, t)
  {
    match PcOf(s, t)
    // Lock::read
    case RLock => Goto(s, t, RTest).(mutex := Some(t))
    case RTest => if s.wantsWrite then Goto(s, t, RParked).(mutex := None) else Goto(s, t, RAcquire)
    case RRelock => Goto(s, t, RTest).(mutex := Some(t))
    case RAcquire => Goto(s, t, RRelease).(readers := s.readers + {t})
    case RRelease => Goto(s, t, Holding).(mutex := None)
    // try_writeable, first stage
    case WLock => Goto(s, t, WUnread).(mutex := Some(t))
    case WUnread => Goto(s, t, WTest).(readers := s.readers - {t})
    case WTest =>
      if s.wantsWrite then Goto(s, t, WParked).(mutex := None)
      else Goto(s, t, WMarked).(wantsWrite := true, token := Some(t))
    case WRelock => Goto(s, t, WTest).(mutex := Some(t))
    case WMarked => Goto(s, t, WReread).(mutex := None)
    case WReread => Goto(s, t, WPrep).(readers := s.readers + {t})
    // second stage
    case WPrep => Goto(s, t, WDrop).(seen := s.seen[t := s.value])
    // third stage
    case WDrop => Goto(s, t, WWant).(readers := s.readers - {t})
    case WWant => Goto(s, t, WWait).(writer := Some(t))
    case WWait => Goto(s, t, WMutate)
    case WMutate => Goto(s, t, WUnwrite).(value := v)
    case WUnwrite => Goto(s, t, WReread2).(writer := None)
    case WReread2 => Goto(s, t, WLock2).(readers := s.readers + {t})
    // release
    case WLock2 => Goto(s, t, WClear).(mutex := Some(t))
    case WClear => Goto(s, t, WNotify).(wantsWrite := false, token := None)
    case WNotify => s.(pc := Woken(s.pc)[t := WRelease])
    case WRelease => Goto(s, t, Holding).(mutex := None)
  }

  function Step(s: State, a: Action): State {
    match a
    case CallRead(t) => if PcOf(s, t).Out? then Goto(s, t, RLock) else s
    case DropGuard(t) =>
      if PcOf(s, t).Holding? then Goto(s, t, Out).(readers := s.readers - {t}) else s
    case CallTryWriteable(t) => if PcOf(s, t).Holding? then Goto(s, t, WLock) else s
    case Advance(t, v) => if CanStep(s, t) then Advanced(s, t, v) else s
    case SpuriousWake(t) =>
      match PcOf(s, t)
      case RParked => Goto(s, t, RRelock)
      case WParked => Goto(s, t, WRelock)
      case _ => s
  }

  function Start(value: int): State {
    State(None, false, {}, None, value, map[], None, map[])
  }

  function Run(s: State, actions: seq<Action>): State
    decreases |actions|
  {
    if actions == [] then s else Step(Run(s, actions[..|actions| - 1]), actions[|actions| - 1])
  }

  // ----- What every step keeps -----

  /** The shared fields say exactly what the threads' positions say, for one thread. */
  predicate ThreadOk(s: State, t: Thread) {
    var pc := PcOf(s, t);
    && (s.mutex == Some(t) <==> HasMutex(pc))
    && (t in s.readers <==> HasRead(pc))
    && (s.token == Some(t) <==> HasToken(pc))
    && (s.writer == Some(t) <==> HasWriter(pc))
    && (pc.RAcquire? ==> !s.wantsWrite)
    && (pc.WMutate? ==> s.readers == {})
    && (Parked(pc) ==> s.wantsWrite || (s.mutex.Some? && PcOf(s, s.mutex.value).WNotify?))
    && (Prepared(pc) ==> t in s.seen && s.seen[t] == s.value)
  }

  ghost predicate Inv(s: State) {
    && (s.wantsWrite <==> s.token.Some?)
    && forall t: Thread :: ThreadOk(s, t)
  }

  lemma {:induction false} CallKeepsInv(s: State, a: Action)
    requires Inv(s) && !a.Advance?
    ensures Inv(Step(s, a))
  {
    var s' := Step(s, a);
    forall t: Thread
      ensures ThreadOk(s', t)
    {
      assert ThreadOk(s, t) && ThreadOk(s, a.t);
    }
  }

  predicate SelfOk(s: State, t: Thread) {
    (s.wantsWrite <==> s.token.Some?) && ThreadOk(s, t)
  }

  predicate Reading(pc: Pc) {
    match pc case RLock | RTest | RRelock | RAcquire | RRelease => true case _ => false
  }

  predicate Marking(pc: Pc) {
    match pc case WLock | WUnread | WTest | WRelock | WMarked | WReread | WPrep => true case _ => false
  }

  lemma {:induction false} ReadKeepsSelf(s: State, t: Thread, v: int)
    requires SelfOk(s, t) && CanStep(s, t) && Reading(PcOf(s, t))
    ensures SelfOk(Advanced(s, t, v), t)
  {
  }

  lemma {:induction false} MarkKeepsSelf(s: State, t: Thread, v: int)
    requires SelfOk(s, t) && CanStep(s, t) && Marking(PcOf(s, t))
    ensures SelfOk(Advanced(s, t, v), t)
  {
  }

  predicate Writing(pc: Pc) {
    match pc case WDrop | WWant | WWait | WMutate | WUnwrite => true case _ => false
  }

  lemma {:induction false} WriteKeepsSelf(s: State, t: Thread, v: int)
    requires SelfOk(s, t) && CanStep(s, t) && Writing(PcOf(s, t))
    ensures SelfOk(Advanced(s, t, v), t)
  {
  }

  lemma {:induction false} ReleaseKeepsSelf(s: State, t: Thread, v: int)
    requires SelfOk(s, t) && CanStep(s, t)
    requires !Reading(PcOf(s, t)) && !Marking(PcOf(s, t)) && !Writing(PcOf(s, t))
    ensures SelfOk(Advanced(s, t, v), t)
  {
  }

  lemma {:induction false} AdvanceKeepsSelf(s: State, t: Thread, v: int)
    requires SelfOk(s, t) && CanStep(s, t)
    ensures SelfOk(Advanced(s, t, v), t)
  {
    if Reading(PcOf(s, t)) {
      ReadKeepsSelf(s, t, v);
    } else if Marking(PcOf(s, t)) {
      MarkKeepsSelf(s, t, v);
    } else if Writing(PcOf(s, t)) {
      WriteKeepsSelf(s, t, v);
    } else {
      ReleaseKeepsSelf(s, t, v);
    }
  }

  lemma {:induction false} AdvanceKeepsOther(s: State, t: Thread, v: int, u: Thread)
    requires s.wantsWrite <==> s.token.Some?
    requires ThreadOk(s, t) && ThreadOk(s, u) && CanStep(s, t) && u != t
    ensures ThreadOk(Advanced(s, t, v), u)
  {
    var s' := Advanced(s, t, v);
    var pc := PcOf(s, u);
    assert PcOf(s', u) == (if PcOf(s, t).WNotify? then WokenPc(pc) else pc);
    if s.mutex.Some? {
      assert PcOf(s', s.mutex.value).WNotify? ==> s.mutex.value == t || PcOf(s, s.mutex.value).WNotify?;
    }
  }

  lemma {:induction false} AdvanceKeepsInv(s: State, t: Thread, v: int)
    requires Inv(s) && CanStep(s, t)
    ensures Inv(Advanced(s, t, v))
  {
    assert ThreadOk(s, t);
    AdvanceKeepsSelf(s, t, v);
    forall u: Thread
      ensures ThreadOk(Advanced(s, t, v), u)
    {
      if u != t {
        assert ThreadOk(s, u);
        AdvanceKeepsOther(s, t, v, u);
      }
    }
  }

  lemma {:induction false} StepKeepsInv(s: State, a: Action)
    requires Inv(s)
    ensures Inv(Step(s, a))
  {
    if a.Advance? {
      if CanStep(s, a.t) {
        AdvanceKeepsInv(s, a.t, a.v);
      }
    } else {
      CallKeepsInv(s, a);
    }
  }

  lemma {:induction false} RunKeepsInv(value: int, actions: seq<Action>)
    ensures Inv(Run(Start(value), actions))
    decreases |actions|
  {
    if actions == [] {
    } else {
      RunKeepsInv(value, actions[..|actions| - 1]);
      StepKeepsInv(Run(Start(value), actions[..|actions| - 1]), actions[|actions| - 1]);
    }
  }

  // ----- Safety -----

  /** In every reachable state at most one thread is between setting and clearing
      `wants_write`; a thread inside `mut_func` is alone on the value; and the value it is
      given is the one its `prep_func` saw. */
  lemma {:induction false} WriterIsAlone(value: int, actions: seq<Action>, t: Thread, u: Thread)
    requires HasToken(PcOf(Run(Start(value), actions), t))
    ensures
      var s := Run(Start(value), actions);
      && (HasToken(PcOf(s, u)) ==> u == t)
      && (PcOf(s, t).WMutate? && u != t ==> !HasRead(PcOf(s, u)) && !HasWriter(PcOf(s, u)))
      && (Prepared(PcOf(s, t)) ==> t in s.seen && s.seen[t] == s.value)
  {
    RunKeepsInv(value, actions);
    var s := Run(Start(value), actions);
    assert ThreadOk(s, t) && ThreadOk(s, u);
  }

  /** The token stays with `t` from `s` through every prefix of `actions`. */
  predicate Keeps(s: State, actions: seq<Action>, t: Thread) {
    forall k | 0 <= k <= |actions| :: Run(s, actions[..k]).token == Some(t)
  }

  /** While a thread holds the token, the set of other read holders never grows, however the
      other threads run. */
  lemma {:induction false} ReadersOnlyLeave(s: State, actions: seq<Action>, t: Thread)
    requires Inv(s) && Keeps(s, actions, t)
    ensures Inv(Run(s, actions))
    ensures Run(s, actions).readers - {t} <= s.readers - {t}
    decreases |actions|
  {
    assert actions[..|actions|] == actions;
    if actions == [] {
    } else {
      var n := |actions| - 1;
      var before := actions[..n];
      assert forall k | 0 <= k <= n :: before[..k] == actions[..k];
      ReadersOnlyLeave(s, before, t);
      StepKeepsInv(Run(s, before), actions[n]);
      StepAddsNoReader(Run(s, before), actions[n], t);
    }
  }

  lemma {:induction false} StepAddsNoReader(s: State, a: Action, t: Thread)
    requires Inv(s)
    requires s.token == Some(t) && Step(s, a).token == Some(t)
    ensures Step(s, a).readers - {t} <= s.readers - {t}
  {
    assert ThreadOk(s, a.t);
  }

  // ----- What a call does -----

  /** This action runs `mut_func`. */
  predicate Mutates(s: State, a: Action) { a.Advance? && PcOf(s, a.t).WMutate? }

  /** This action runs `prep_func`. */
  predicate Prepares(s: State, a: Action) { a.Advance? && PcOf(s, a.t).WPrep? }

  /** This action calls `try_writeable`. */
  predicate Upgrades(s: State, a: Action) { a.CallTryWriteable? && PcOf(s, a.t).Holding? }

  /** The value changes where `mut_func` runs, to what it writes, and nowhere else. */
  lemma {:induction false} StepWrites(s: State, a: Action)
    ensures Step(s, a).value == if Mutates(s, a) then a.v else s.value
  {
  }

  /** The k-th action of the run runs `mut_func`. */
  predicate MutatesAt(value: int, actions: seq<Action>, k: nat) {
    k < |actions| && Mutates(Run(Start(value), actions[..k]), actions[k])
  }

  /** The k-th action is the last one that runs `mut_func`. */
  predicate LastMutation(value: int, actions: seq<Action>, k: nat) {
    MutatesAt(value, actions, k) && forall j | k < j < |actions| :: !MutatesAt(value, actions, j)
  }

  predicate NoMutation(value: int, actions: seq<Action>) {
    forall k | 0 <= k < |actions| :: !MutatesAt(value, actions, k)
  }

  lemma {:induction false} MutatesEarlier(value: int, actions: seq<Action>, k: nat)
    requires k < |actions| - 1
    ensures MutatesAt(value, actions, k) <==> MutatesAt(value, actions[..|actions| - 1], k)
  {
    assert actions[..|actions| - 1][..k] == actions[..k];
  }

  lemma {:induction false} LastAction(value: int, actions: seq<Action>)
    requires actions != []
    ensures
      var n := |actions| - 1;
      Run(Start(value), actions).value
      == if MutatesAt(value, actions, n) then actions[n].v else Run(Start(value), actions[..n]).value
  {
    StepWrites(Run(Start(value), actions[..|actions| - 1]), actions[|actions| - 1]);
  }

  /** Over every run the value is what the last `mut_func` wrote. */
  lemma {:induction false} ValueIsLastWritten(value: int, actions: seq<Action>, k: nat)
    requires LastMutation(value, actions, k)
    ensures Run(Start(value), actions).value == actions[k].v
    decreases |actions|
  {
    var n := |actions| - 1;
    LastAction(value, actions);
    if k == n {
    } else {
      forall j | k <= j < n
        ensures MutatesAt(value, actions, j) <==> MutatesAt(value, actions[..n], j)
      {
        MutatesEarlier(value, actions, j);
      }
      ValueIsLastWritten(value, actions[..n], k);
    }
  }

  /** And the start value if none ran. */
  lemma {:induction false} ValueIsKept(value: int, actions: seq<Action>)
    requires NoMutation(value, actions)
    ensures Run(Start(value), actions).value == value
    decreases |actions|
  {
    if actions == [] {
    } else {
      var n := |actions| - 1;
      LastAction(value, actions);
      forall j | 0 <= j < n
        ensures !MutatesAt(value, actions[..n], j)
      {
        MutatesEarlier(value, actions, j);
      }
      ValueIsKept(value, actions[..n]);
    }
  }

  /** How often thread t has called `try_writeable`, and how often its two closures have run. */
  datatype Tally = Tally(calls: nat, preps: nat, mutations: nat)

  function Tallied(value: int, actions: seq<Action>, t: Thread): Tally
    decreases |actions|
  {
    if actions == [] then Tally(0, 0, 0)
    else
      var before, a := actions[..|actions| - 1], actions[|actions| - 1];
      var s, n := Run(Start(value), before), Tallied(value, before, t);
      if a.t != t then n
      else Tally(n.calls + (if Upgrades(s, a) then 1 else 0),
                 n.preps + (if Prepares(s, a) then 1 else 0),
                 n.mutations + (if Mutates(s, a) then 1 else 0))
  }

  /** Called, and `prep_func` has not run yet. */
  predicate BeforePrep(pc: Pc) {
    match pc
    case WLock | WUnread | WTest | WParked | WRelock | WMarked | WReread | WPrep => true
    case _ => false
  }

  /** Called, and `mut_func` has not run yet. */
  predicate BeforeMutation(pc: Pc) {
    BeforePrep(pc) || match pc case WDrop | WWant | WWait | WMutate => true case _ => false
  }

  predicate TallyOk(n: Tally, pc: Pc) {
    && n.calls == n.preps + (if BeforePrep(pc) then 1 else 0)
    && n.calls == n.mutations + if BeforeMutation(pc) then 1 else 0
  }

  lemma {:induction false} StepKeepsOtherStage(s: State, a: Action, t: Thread)
    requires a.t != t
    ensures BeforePrep(PcOf(Step(s, a), t)) == BeforePrep(PcOf(s, t))
    ensures BeforeMutation(PcOf(Step(s, a), t)) == BeforeMutation(PcOf(s, t))
  {
    if a.Advance? && CanStep(s, a.t) && PcOf(s, a.t).WNotify? {
      assert PcOf(Step(s, a), t) == WokenPc(PcOf(s, t));
    }
  }

  lemma {:induction false} StepTallies(s: State, a: Action, n: Tally, n': Tally)
    requires TallyOk(n, PcOf(s, a.t))
    requires n' == Tally(n.calls + (if Upgrades(s, a) then 1 else 0),
                         n.preps + (if Prepares(s, a) then 1 else 0),
                         n.mutations + (if Mutates(s, a) then 1 else 0))
    ensures TallyOk(n', PcOf(Step(s, a), a.t))
  {
  }

  /** Over every run, each call of `try_writeable` runs `prep_func` and then `mut_func` exactly once: the
      counts agree whenever the thread is outside the call, and never differ by more than the call
      under way. */
  lemma {:induction false} EachCallMutatesOnce(value: int, actions: seq<Action>, t: Thread)
    ensures TallyOk(Tallied(value, actions, t), PcOf(Run(Start(value), actions), t))
    decreases |actions|
  {
    if actions == [] {
    } else {
      var before, a := actions[..|actions| - 1], actions[|actions| - 1];
      EachCallMutatesOnce(value, before, t);
      if a.t == t {
        StepTallies(Run(Start(value), before), a, Tallied(value, before, t), Tallied(value, actions, t));
      } else {
        StepKeepsOtherStage(Run(Start(value), before), a, t);
      }
    }
  }

  /** A thread that is back from `read` or `try_writeable` holds its read guard and nothing else, and all
      its calls have written. */
  lemma {:induction false} ReturnedHoldsGuard(value: int, actions: seq<Action>, t: Thread)
    requires PcOf(Run(Start(value), actions), t).Holding?
    ensures
      var s, n := Run(Start(value), actions), Tallied(value, actions, t);
      && t in s.readers && s.mutex != Some(t) && s.token != Some(t) && s.writer != Some(t)
      && n.calls == n.preps == n.mutations
  {
    RunKeepsInv(value, actions);
    assert ThreadOk(Run(Start(value), actions), t);
    EachCallMutatesOnce(value, actions, t);
  }

  // ----- Progress -----

  /** Inside the lock code and unable to take the next step. */
  predicate Blocked(s: State, t: Thread) {
    !PcOf(s, t).Out? && !PcOf(s, t).Holding? && !CanStep(s, t)
  }

  /** Whom a blocked thread waits for. */
  predicate WaitsOn(s: State, t: Thread, u: Thread) {
    var pc := PcOf(s, t);
    if Parked(pc) then (if s.wantsWrite then s.token else s.mutex) == Some(u)
    else if WantsMutex(pc) then s.mutex == Some(u)
    else if pc.WWait? then u in s.readers
    else s.writer == Some(u)
  }

  /** Outside the lock code with a read guard, or able to step. */
  predicate Runs(s: State, t: Thread) {
    PcOf(s, t).Holding? || CanStep(s, t)
  }

  predicate Chain(s: State, chain: seq<Thread>, t: Thread) {
    && chain != [] && chain[0] == t
    && (forall i | 0 <= i < |chain| - 1 :: Blocked(s, chain[i]) && WaitsOn(s, chain[i], chain[i + 1]))
    && Runs(s, chain[|chain| - 1])
  }

  /** The order that waiting descends: parked, then waiting for readers, then for the mutex. */
  function Rank(pc: Pc): nat {
    if Parked(pc) then 3 else if pc.WWait? then 2 else if WantsMutex(pc) then 1 else 0
  }

  /** The inner lock alone never blocks anyone: nobody waits to read while it has a writer. */
  lemma {:induction false} BlockedKinds(s: State, t: Thread)
    requires Inv(s) && Blocked(s, t)
    ensures Parked(PcOf(s, t)) || WantsMutex(PcOf(s, t)) || PcOf(s, t).WWait?
  {
    assert ThreadOk(s, t);
    if s.writer.Some? {
      assert ThreadOk(s, s.writer.value);
    }
  }

  lemma {:induction false} NextInChain(s: State, t: Thread) returns (u: Thread)
    requires Inv(s) && Blocked(s, t)
    ensures WaitsOn(s, t, u)
    ensures Runs(s, u) || (Blocked(s, u) && Rank(PcOf(s, u)) < Rank(PcOf(s, t)))
  {
    var pc := PcOf(s, t);
    assert ThreadOk(s, t);
    BlockedKinds(s, t);
    if Parked(pc) {
      u := if s.wantsWrite then s.token.value else s.mutex.value;
    } else if WantsMutex(pc) {
      u := s.mutex.value;
    } else {
      u :| u in s.readers;
    }
    assert ThreadOk(s, u);
    if Blocked(s, u) {
      BlockedKinds(s, u);
    }
  }

  /** In every reachable state every blocked thread waits, through at most three links, on a
      thread that runs: no interleaving deadlocks. */
  lemma {:induction false} BlockedWaitsOnRunning(
    value: int, actions: seq<Action>, t: Thread) returns (chain: seq<Thread>)
    requires Blocked(Run(Start(value), actions), t)
    ensures Chain(Run(Start(value), actions), chain, t)
    ensures |chain| <= 4
  {
    RunKeepsInv(value, actions);
    chain := BuildChain(Run(Start(value), actions), t);
  }

  lemma {:induction false} BuildChain(s: State, t: Thread) returns (chain: seq<Thread>)
    requires Inv(s) && Blocked(s, t)
    ensures Chain(s, chain, t)
    ensures |chain| <= 1 + Rank(PcOf(s, t))
    decreases Rank(PcOf(s, t))
  {
    BlockedKinds(s, t);
    var u := NextInChain(s, t);
    if Runs(s, u) {
      chain := [t, u];
    } else {
      var rest := BuildChain(s, u);
      chain := [t] + rest;
    }
  }
}

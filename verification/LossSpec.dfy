/** The packet-loss estimate of boringtun/src/noise/mod.rs, over the reals: a mean of the losses
    of the live sessions, newest first, each weighing a third of the one before. */
module LossSpec {
  import opened Wrappers
  import opened LocalIndex
  import opened TunnelSpec
  import ReplayWindow
  import Session

  /** `wrapping_sub` on a 64-bit machine word. */
  function WrappingSub(a: nat, b: nat): nat { (a - b) % 0x1_0000_0000_0000_0000 }

  /** The ring slot looked at in round i. */
  function SlotBack(current: nat, i: nat): (slot: nat)
    ensures slot < N_SESSIONS
  {
    WrappingSub(current, i) % N_SESSIONS
  }

  /** Going back 8 rounds visits every slot, whatever the current index and despite the wrap. */
  lemma {:induction false} EverySlotVisited(current: nat, slot: nat)
    requires slot < N_SESSIONS
    ensures exists i :: 0 <= i < N_SESSIONS && SlotBack(current, i) == slot
  {
    var i := (current - slot) % N_SESSIONS;
    WrapKeepsSlot(current, i);
    assert (current - i) % N_SESSIONS == slot;
  }

  lemma {:induction false} WrapKeepsSlot(current: nat, i: nat)
    ensures SlotBack(current, i) == (current - i) % N_SESSIONS
  {
    var d := current - i;
    var q, m := d / 0x1_0000_0000_0000_0000, d % 0x1_0000_0000_0000_0000;
    assert d == 8 * (0x2000_0000_0000_0000 * q) + m;
    MultipleOfEight(0x2000_0000_0000_0000 * q, m);
  }

  lemma {:induction false} MultipleOfEight(k: int, m: int)
    ensures (8 * k + m) % 8 == m % 8
  {
  }

  /** The share of expected packets that did not arrive. */
  function SessionLoss(s: Session.State): real {
    if s.window.next == 0 then 0.0 else 1.0 - |s.window.accepted| as real / s.window.next as real
  }

  lemma {:induction false} SessionLossInUnit(s: Session.State)
    requires ReplayWindow.Coherent(s.window)
    ensures 0.0 <= SessionLoss(s) <= 1.0
    ensures SessionLoss(s) == 0.0 <==> |s.window.accepted| == s.window.next
  {
    ReplayWindow.AcceptedFits(s.window);
    if s.window.next != 0 {
      RatioInUnit(|s.window.accepted| as real, s.window.next as real);
    }
  }

  /** The counters that were expected and did not arrive. */
  function Missing(w: ReplayWindow.Window): set<nat> { set c | 0 <= c < w.next && c !in w.accepted }

  /** The loss is the share of the expected packets that are missing. */
  lemma {:induction false} LossCountsMissing(s: Session.State)
    requires ReplayWindow.Coherent(s.window)
    ensures SessionLoss(s) * s.window.next as real == |Missing(s.window)| as real
  {
    var w := s.window;
    var all := Missing(w) + w.accepted;
    assert Missing(w) !! w.accepted && forall c :: c in all <==> 0 <= c < w.next;
    AllBelow(all, w.next);
  }

  lemma {:induction false} AllBelow(s: set<nat>, n: nat)
    requires forall c :: c in s <==> 0 <= c < n
    ensures |s| == n
  {
    if n == 0 {
      assert s == {};
    } else {
      AllBelow(s - {n - 1}, n - 1);
    }
  }

  lemma {:induction false} RatioInUnit(a: real, n: real)
    requires 0.0 <= a <= n && 0.0 < n
    ensures 0.0 <= a / n <= 1.0
    ensures a / n == 1.0 <==> a == n
    ensures a / n == 0.0 <==> a == 0.0
  {
    var q := a / n;
    assert q * n == a;
    SignOf(q, n);
    SignOf(1.0 - q, n);
  }

  lemma {:induction false} SignOf(x: real, n: real)
    requires 0.0 < n && 0.0 <= x * n
    ensures 0.0 <= x
  {
  }

  /** The slots in the order the loop looks at them: the current one first, then backward. */
  function Rounds(t: Tunn): seq<Option<Session.State>>
    requires WellFormed(t)
  {
    seq(N_SESSIONS, i requires 0 <= i => t.sessions[SlotBack(t.current, i)])
  }

  /** The losses of the live sessions among these slots. */
  function Losses(slots: seq<Option<Session.State>>): seq<real> {
    if slots == [] then []
    else (if slots[0].Some? then [SessionLoss(slots[0].value)] else []) + Losses(slots[1..])
  }

  function Weighted(losses: seq<real>, weight: real): real {
    if losses == [] then 0.0 else losses[0] * weight + Weighted(losses[1..], weight / 3.0)
  }

  function Weights(count: nat, weight: real): real {
    if count == 0 then 0.0 else weight + Weights(count - 1, weight / 3.0)
  }

  function Power3(n: nat): (p: real)
    ensures p > 0.0
  {
    if n == 0 then 1.0 else 3.0 * Power3(n - 1)
  }

  /** The i-th loss, counted from the session in use, weighs 3^-i of the first one: that is how much a
      change of it changes the sum. */
  lemma {:induction false} EachWeighsThird(losses: seq<real>, weight: real, i: nat, x: real)
    requires i < |losses|
    ensures Weighted(losses[i := x], weight) == Weighted(losses, weight) + (x - losses[i]) * (weight / Power3(i))
    decreases i
  {
    if i == 0 {
      assert losses[0 := x][1..] == losses[1..];
    } else {
      assert losses[i := x][1..] == losses[1..][i - 1 := x];
      EachWeighsThird(losses[1..], weight / 3.0, i - 1, x);
      DivideAgain(weight, Power3(i - 1));
    }
  }

  lemma {:induction false} DivideAgain(w: real, p: real)
    requires p > 0.0
    ensures w / 3.0 / p == w / (3.0 * p)
  {
    var q := w / 3.0 / p;
    assert q * p == w / 3.0;
    assert q * (3.0 * p) == 3.0 * (q * p);
  }

  /** The weights add up to 3/2 of the first, less what is missing to infinitely many. */
  lemma {:induction false} WeightsAddUp(count: nat, weight: real)
    ensures Weights(count, weight) == 1.5 * (weight - weight / Power3(count))
  {
    if count == 0 {
    } else {
      WeightsAddUp(count - 1, weight / 3.0);
      DivideAgain(weight, Power3(count - 1));
    }
  }

  lemma {:induction false} LossesCons(slots: seq<Option<Session.State>>, i: nat)
    requires i < |slots|
    ensures
      Losses(slots[i..]) == if slots[i].None? then Losses(slots[i + 1..])
                            else [SessionLoss(slots[i].value)] + Losses(slots[i + 1..])
  {
    assert slots[i..][1..] == slots[i + 1..];
    if slots[i].None? {
      assert Losses(slots[i..]) == [] + Losses(slots[i + 1..]);
    }
  }

  lemma {:induction false} WeightedCons(x: real, rest: seq<real>, weight: real)
    ensures Weighted([x] + rest, weight) == x * weight + Weighted(rest, weight / 3.0)
    ensures Weights(|[x] + rest|, weight) == weight + Weights(|rest|, weight / 3.0)
  {
    assert ([x] + rest)[1..] == rest;
  }

  /** `sum` and `total` and what the losses still to come add to them make up the two sums. */
  predicate SumsUp(all: seq<real>, losses: seq<real>, weight: real, sum: real, total: real) {
    && Weighted(all, 9.0) == sum + Weighted(losses, weight)
    && Weights(|all|, 9.0) == total + Weights(|losses|, weight)
  }

  lemma {:induction false} AddLoss(all: seq<real>, x: real, rest: seq<real>, weight: real, sum: real, total: real)
    requires SumsUp(all, [x] + rest, weight, sum, total)
    ensures SumsUp(all, rest, weight / 3.0, sum + x * weight, total + weight)
  {
    WeightedCons(x, rest, weight);
  }

  function Average(sum: real, total: real): real {
    if total == 0.0 then 0.0 else sum / total
  }

  function Mean(losses: seq<real>): real {
    Average(Weighted(losses, 9.0), Weights(|losses|, 9.0))
  }

  predicate InUnit(losses: seq<real>) { forall i | 0 <= i < |losses| :: 0.0 <= losses[i] <= 1.0 }

  predicate AllZero(losses: seq<real>) { forall i | 0 <= i < |losses| :: losses[i] == 0.0 }

  lemma {:induction false} WeightedBounds(losses: seq<real>, weight: real)
    requires InUnit(losses) && 0.0 < weight
    ensures 0.0 <= Weighted(losses, weight) <= Weights(|losses|, weight)
    ensures Weighted(losses, weight) == 0.0 <==> AllZero(losses)
    ensures losses != [] ==> Weights(|losses|, weight) > 0.0
  {
    if losses == [] {
    } else {
      InUnitCons(losses);
      WeightedBounds(losses[1..], weight / 3.0);
      AddScaled(losses[0], weight, Weighted(losses[1..], weight / 3.0), Weights(|losses| - 1, weight / 3.0));
    }
  }

  lemma {:induction false} AddScaled(x: real, weight: real, sum: real, weights: real)
    requires 0.0 <= x <= 1.0 && 0.0 < weight && 0.0 <= sum <= weights
    ensures 0.0 <= x * weight + sum <= weight + weights && 0.0 < weight + weights
    ensures x * weight + sum == 0.0 <==> x == 0.0 && sum == 0.0
  {
    ScaleInUnit(x, weight);
  }

  lemma {:induction false} InUnitCons(losses: seq<real>)
    requires losses != []
    ensures InUnit(losses) <==> 0.0 <= losses[0] <= 1.0 && InUnit(losses[1..])
    ensures AllZero(losses) <==> losses[0] == 0.0 && AllZero(losses[1..])
  {
    assert losses == [losses[0]] + losses[1..];
  }

  lemma {:induction false} ScaleInUnit(x: real, weight: real)
    requires 0.0 <= x <= 1.0 && 0.0 < weight
    ensures 0.0 <= x * weight <= weight && (x * weight == 0.0 <==> x == 0.0)
  {
    assert x * weight <= 1.0 * weight;
    if x > 0.0 {
      assert x * weight > 0.0;
    }
  }

  lemma {:induction false} MeanInUnit(losses: seq<real>)
    requires InUnit(losses)
    ensures 0.0 <= Mean(losses) <= 1.0
    ensures Mean(losses) == 0.0 <==> AllZero(losses)
  {
    WeightedBounds(losses, 9.0);
    if losses != [] {
      RatioInUnit(Weighted(losses, 9.0), Weights(|losses|, 9.0));
    }
  }

  /** No live session misses a packet it expected. */
  predicate NothingLost(t: Tunn) {
    forall i | 0 <= i < |t.sessions| :: MissesNone(t.sessions[i])
  }

  /** This slot holds no session that misses a packet. */
  predicate MissesNone(slot: Option<Session.State>) {
    slot.Some? ==> |slot.value.window.accepted| == slot.value.window.next
  }

  predicate CoherentSlot(slot: Option<Session.State>) {
    slot.Some? ==> ReplayWindow.Coherent(slot.value.window)
  }

  lemma {:induction false} LossesInUnit(slots: seq<Option<Session.State>>)
    requires forall i | 0 <= i < |slots| :: CoherentSlot(slots[i])
    ensures InUnit(Losses(slots))
    ensures AllZero(Losses(slots)) <==> forall i | 0 <= i < |slots| :: MissesNone(slots[i])
  {
    if slots == [] {
    } else {
      LossesInUnit(slots[1..]);
      assert slots == [slots[0]] + slots[1..];
      assert (forall i | 0 <= i < |slots| :: MissesNone(slots[i])) <==>
             MissesNone(slots[0]) && forall i | 0 <= i < |slots[1..]| :: MissesNone(slots[1..][i]);
      if slots[0].Some? {
        SessionLossInUnit(slots[0].value);
        assert Losses(slots)[1..] == Losses(slots[1..]);
        InUnitCons(Losses(slots));
      } else {
        assert Losses(slots) == Losses(slots[1..]);
      }
    }
  }

  lemma {:induction false} RoundsCoverSlots(t: Tunn)
    requires WellFormed(t)
    ensures NothingLost(t) <==> forall i | 0 <= i < N_SESSIONS :: MissesNone(Rounds(t)[i])
  {
    if forall i | 0 <= i < N_SESSIONS :: MissesNone(Rounds(t)[i]) {
      forall j | 0 <= j < N_SESSIONS
        ensures MissesNone(t.sessions[j])
      {
        EverySlotVisited(t.current, j);
        var i :| 0 <= i < N_SESSIONS && SlotBack(t.current, i) == j;
        assert MissesNone(Rounds(t)[i]);
      }
    }
  }

  /** The estimate lies in [0, 1], and it is 0 exactly when nothing was lost. */
  lemma {:induction false} EstimateInUnit(t: Tunn)
    requires WellFormed(t) && WindowsCoherent(t)
    ensures 0.0 <= Mean(Losses(Rounds(t))) <= 1.0
    ensures Mean(Losses(Rounds(t))) == 0.0 <==> NothingLost(t)
  {
    LossesInUnit(Rounds(t));
    MeanInUnit(Losses(Rounds(t)));
    RoundsCoverSlots(t);
  }
}

/** Prices of carbon. With diminishing returns the value of a pass's pick is a price that separates what
    the schedule has taken from what it has left, and a schedule that is best slot by slot at a price is
    best as a whole. The order of ties is never assumed. */
module Pricing {
  import opened Profiles
  import opened Planner
  import opened PlannerInvariants
  import opened PlannerResults

  /** Carbon a schedule emits under the forecast. */
  function Carbon(ps: Params, s: seq<int>): real
    requires |s| <= |ps.ci|
  {
    if s == [] then 0.0
    else
      var last := |s| - 1;
      Carbon(ps, s[..last]) + Power(ps, s[last]) * ps.ci[last] * ps.slotLength
  }

  /** Level j + 1 gives no more throughput per unit of power than level j. */
  ghost predicate Diminishing(profile: map<int, Profile>, j: int) {
    var p, q := Lookup(profile, j), Lookup(profile, j + 1);
    p.marginalThroughput * q.marginalPower >= q.marginalThroughput * p.marginalPower
  }

  ghost predicate DiminishingFrom(profile: map<int, Profile>, low: int, max: int) {
    forall j :: low <= j < max ==> Diminishing(profile, j)
  }

  // ----- arithmetic -----

  lemma QuotientAtLeast(x: real, d: real, price: real)
    requires d > 0.0
    ensures x / d >= price <==> x >= price * d
  {
    assert x == (x / d) * d;
  }

  lemma QuotientAtMost(x: real, d: real, price: real)
    requires d > 0.0
    ensures x / d <= price <==> x <= price * d
  {
    assert x == (x / d) * d;
  }

  lemma ProductPositive(a: real, b: real)
    requires a > 0.0 && b > 0.0
    ensures a * b > 0.0
  {
  }

  lemma QuotientPositive(a: real, b: real)
    requires a > 0.0 && b > 0.0
    ensures a / b > 0.0
  {
    assert (a / b) * b == a;
  }

  lemma RatioFalls(t0: real, p0: real, t1: real, p1: real, c: real)
    requires p0 > 0.0 && p1 > 0.0 && c > 0.0 && t0 * p1 >= t1 * p0
    ensures p0 * c > 0.0 && p1 * c > 0.0 && t0 / (p0 * c) >= t1 / (p1 * c)
  {
    var q := t1 / (p1 * c);
    assert q * (p1 * c) == t1;
    assert t0 * p1 >= (q * (p1 * c)) * p0;
    assert (q * (p1 * c)) * p0 == (q * (p0 * c)) * p1;
    assert t0 >= q * (p0 * c);
    QuotientAtLeast(t0, p0 * c, q);
  }

  // ----- levels of one slot -----

  lemma SoundRankable(ps: Params, j: int, t: nat)
    requires Sound(ps) && 1 <= j <= ps.max && t < ps.slots
    ensures GainT(ps, j) > 0.0 && GainP(ps, j) > 0.0 && ps.ci[t] > 0.0
    ensures GainP(ps, j) * ps.ci[t] > 0.0 && Rankable(ps, j, t) && Value(ps, j, t) > 0.0
  {
    assert GoodLevel(ps.profile, j);
    ProductPositive(GainP(ps, j), ps.ci[t]);
    QuotientPositive(GainT(ps, j), GainP(ps, j) * ps.ci[t]);
  }

  lemma NextValueFalls(ps: Params, k: int, t: nat)
    requires Sound(ps) && 1 < k <= ps.max && t < ps.slots && Diminishing(ps.profile, k - 1)
    ensures Rankable(ps, k - 1, t) && Rankable(ps, k, t) && Value(ps, k - 1, t) >= Value(ps, k, t)
  {
    SoundRankable(ps, k - 1, t);
    SoundRankable(ps, k, t);
    RatioFalls(GainT(ps, k - 1), GainP(ps, k - 1), GainT(ps, k), GainP(ps, k), ps.ci[t]);
  }

  lemma {:induction false} ValueFalls(ps: Params, low: int, j: int, k: int, t: nat)
    requires Sound(ps) && 1 <= low <= j <= k <= ps.max && t < ps.slots
    requires DiminishingFrom(ps.profile, low, ps.max)
    ensures Rankable(ps, j, t) && Rankable(ps, k, t) && Value(ps, j, t) >= Value(ps, k, t)
    decreases k
  {
    hide Value, Diminishing, GoodProfile;
    SoundRankable(ps, j, t);
    SoundRankable(ps, k, t);
    if j < k {
      ValueFalls(ps, low, j, k - 1, t);
      assert Diminishing(ps.profile, k - 1);
      NextValueFalls(ps, k, t);
    }
  }

  // ----- the threshold -----

  ghost predicate Applied(ps: Params, s: seq<int>, j: int, t: nat)
    requires |s| == ps.slots
  {
    t < ps.slots && ps.min <= j <= ps.max && j <= s[t]
  }

  ghost predicate Left(ps: Params, s: seq<int>, j: int, t: nat)
    requires |s| == ps.slots
  {
    t < ps.slots && ps.min <= j <= ps.max && j > s[t]
  }

  /** Every applied candidate is worth at least `price`, and no candidate left is worth more. */
  ghost predicate Separates(ps: Params, s: seq<int>, price: real)
    requires WellFormed(ps) && |s| == ps.slots
  {
    && (forall j: int, t: nat :: Applied(ps, s, j, t) ==> Value(ps, j, t) >= price)
    && (forall j: int, t: nat :: Left(ps, s, j, t) ==> Value(ps, j, t) <= price)
  }

  /** Every applied candidate is worth at least as much as every candidate left. */
  ghost predicate Threshold(ps: Params, s: seq<int>)
    requires WellFormed(ps) && |s| == ps.slots
  {
    forall j: int, t: nat, k: int, u: nat ::
      Applied(ps, s, j, t) && Left(ps, s, k, u) ==> Value(ps, j, t) >= Value(ps, k, u)
  }

  /** With diminishing returns the best raise is worth as much as any candidate left, so its value
      separates the schedule before it and the schedule after it. */
  lemma BestRaiseSeparates(ps: Params, s: seq<int>, t: nat)
    requires Sound(ps) && WellFormed(ps) && Feasible(ps, s) && Threshold(ps, s)
    requires DiminishingFrom(ps.profile, ps.min, ps.max) && BestRaise(ps, s, t)
    ensures var price := Value(ps, Next(ps, s[t]), t);
      && price > 0.0
      && Separates(ps, s, price) && Separates(ps, s[t := Next(ps, s[t])], price)
    ensures Threshold(ps, s[t := Next(ps, s[t])])
  {
    var j := Next(ps, s[t]);
    var s' := s[t := j];
    var price := Value(ps, j, t);
    SoundRankable(ps, j, t);
    forall k: int, u: nat | Left(ps, s, k, u) ensures Value(ps, k, u) <= price {
      assert Allowed(ps, s[u]);
      ValueFalls(ps, ps.min, Next(ps, s[u]), k, u);
    }
    assert Left(ps, s, j, t);
    forall k: int, u: nat | Applied(ps, s', k, u) ensures Value(ps, k, u) >= price {
      if k != j || u != t {
        assert Allowed(ps, s[t]);
        assert Applied(ps, s, k, u);
      }
    }
    forall k: int, u: nat | Left(ps, s', k, u) ensures Value(ps, k, u) <= price {
      assert Left(ps, s, k, u);
    }
  }

  lemma AdvanceThreshold(ps: Params, st: State)
    requires Sound(ps) && WellFormed(ps) && Inv(ps, st) && InRange(st.list, |st.schedule|)
    requires DiminishingFrom(ps.profile, ps.min, ps.max) && Threshold(ps, st.schedule)
    ensures Threshold(ps, Advance(ps, st).schedule)
    ensures CanStep(ps, st) ==>
              && Picked(ps, st).value > 0.0
              && Separates(ps, st.schedule, Picked(ps, st).value)
              && Separates(ps, Step(ps, st).schedule, Picked(ps, st).value)
  {
    if CanStep(ps, st) {
      PickedIsNext(ps, st);
      PickedIsBest(ps, st);
      BestRaiseSeparates(ps, st.schedule, Picked(ps, st).time);
    }
  }

  /** Threshold structure: with diminishing returns every applied candidate is, at every pass, worth
      at least as much as every candidate left. */
  lemma {:induction false} ReachThreshold(ps: Params, order: seq<Candidate>, k: nat)
    requires Sound(ps) && WellFormed(ps) && SortedFrom(ps, order)
    requires DiminishingFrom(ps.profile, ps.min, ps.max)
    ensures InRange(order, ps.slots) && Threshold(ps, Reach(ps, order, k).schedule)
  {
    hide Advance, Inv, SortedFrom, CanStep;
    StartInv(ps, order);
    if k > 0 {
      ReachThreshold(ps, order, k - 1);
      ReachInv(ps, order, k - 1);
      AdvanceThreshold(ps, Reach(ps, order, k - 1));
    }
  }

  /** The value of pass k's pick separates the schedules before and after it. */
  lemma PickSeparates(ps: Params, order: seq<Candidate>, k: nat)
    requires Sound(ps) && WellFormed(ps) && SortedFrom(ps, order)
    requires DiminishingFrom(ps.profile, ps.min, ps.max)
    requires InRange(order, ps.slots) && CanStep(ps, Reach(ps, order, k))
    ensures var price := Picked(ps, Reach(ps, order, k)).value;
      && price > 0.0
      && Separates(ps, Reach(ps, order, k).schedule, price)
      && Separates(ps, Reach(ps, order, k + 1).schedule, price)
  {
    hide Inv, SortedFrom, CanStep, Step, Separates, Threshold;
    ReachThreshold(ps, order, k);
    ReachInv(ps, order, k);
    AdvanceThreshold(ps, Reach(ps, order, k));
  }

  /** Successive picks never gain in value. */
  lemma PicksFall(ps: Params, order: seq<Candidate>, k: nat)
    requires Sound(ps) && WellFormed(ps) && SortedFrom(ps, order)
    requires DiminishingFrom(ps.profile, ps.min, ps.max)
    requires InRange(order, ps.slots)
    requires CanStep(ps, Reach(ps, order, k)) && CanStep(ps, Reach(ps, order, k + 1))
    ensures Picked(ps, Reach(ps, order, k)).value >= Picked(ps, Reach(ps, order, k + 1)).value
  {
    hide Inv, SortedFrom, CanStep, Step, Threshold;
    PickSeparates(ps, order, k);
    ReachInv(ps, order, k + 1);
    PickedIsNext(ps, Reach(ps, order, k + 1));
    var c := Picked(ps, Reach(ps, order, k + 1));
    assert Left(ps, Reach(ps, order, k + 1).schedule, c.nodes, c.time);
  }

  // ----- the gap to any other schedule -----

  /** What slot t costs at n nodes when a unit of carbon is charged `price` units of throughput. */
  function Penalty(ps: Params, price: real, n: int, t: nat): real
    requires t < |ps.ci|
  {
    price * (Power(ps, n) * ps.ci[t]) - Throughput(ps, n)
  }

  lemma PenaltyStep(price: real, p: real, p0: real, ci: real, x: real, x0: real)
    ensures (price * (p * ci) - x) - (price * (p0 * ci) - x0) == price * ((p - p0) * ci) - (x - x0)
  {
  }

  /** One more node costs at most nothing when its level is worth the price, and at least nothing when
      it is not. */
  lemma PenaltyOfLevel(ps: Params, price: real, j: int, t: nat)
    requires Sound(ps) && 1 <= j <= ps.max && t < ps.slots && Rankable(ps, j, t)
    ensures Value(ps, j, t) >= price ==> Penalty(ps, price, j, t) <= Penalty(ps, price, j - 1, t)
    ensures Value(ps, j, t) <= price ==> Penalty(ps, price, j, t) >= Penalty(ps, price, j - 1, t)
  {
    SoundRankable(ps, j, t);
    assert GoodLevel(ps.profile, j);
    var d := GainP(ps, j) * ps.ci[t];
    QuotientAtLeast(GainT(ps, j), d, price);
    QuotientAtMost(GainT(ps, j), d, price);
    PenaltyStep(price, Power(ps, j), Power(ps, j - 1), ps.ci[t], Throughput(ps, j), Throughput(ps, j - 1));
  }

  /** Levels worth the price lower the penalty. */
  lemma {:induction false} PenaltyFalls(ps: Params, price: real, a: int, b: int, t: nat)
    requires Sound(ps) && 0 <= a <= b <= ps.max && t < ps.slots
    requires forall j :: a < j <= b ==> Rankable(ps, j, t) && Value(ps, j, t) >= price
    ensures Penalty(ps, price, b, t) <= Penalty(ps, price, a, t)
    decreases b
  {
    if a < b {
      PenaltyFalls(ps, price, a, b - 1, t);
      PenaltyOfLevel(ps, price, b, t);
    }
  }

  /** Levels not worth the price raise it. */
  lemma {:induction false} PenaltyRises(ps: Params, price: real, a: int, b: int, t: nat)
    requires Sound(ps) && 0 <= a <= b <= ps.max && t < ps.slots
    requires forall j :: a < j <= b ==> Rankable(ps, j, t) && Value(ps, j, t) <= price
    ensures Penalty(ps, price, a, t) <= Penalty(ps, price, b, t)
    decreases b
  {
    if a < b {
      PenaltyRises(ps, price, a, b - 1, t);
      PenaltyOfLevel(ps, price, b, t);
    }
  }

  /** The first step of a slot is worth the price if g takes it, and is not if g leaves the slot idle. The
      planner ranks that step by its last node only, so above MinReplicas 1 this depends on the profile. */
  ghost predicate FairlyOpened(ps: Params, g: seq<int>, price: real)
    requires |g| == ps.slots <= |ps.ci|
  {
    forall t: nat :: t < ps.slots ==>
      if g[t] == 0 then Penalty(ps, price, ps.min, t) >= 0.0 else Penalty(ps, price, ps.min, t) <= 0.0
  }

  /** In every slot g has a level that is best at the price. */
  ghost predicate Supports(ps: Params, g: seq<int>, price: real) {
    && |g| == ps.slots <= |ps.ci|
    && forall t: nat, v: int :: t < ps.slots && Allowed(ps, v) ==>
         Penalty(ps, price, g[t], t) <= Penalty(ps, price, v, t)
  }

  lemma SlotIsBest(ps: Params, g: seq<int>, price: real, t: nat, v: int)
    requires Sound(ps) && WellFormed(ps) && Feasible(ps, g) && Allowed(ps, v) && t < ps.slots
    requires Separates(ps, g, price)
    requires if g[t] == 0 then Penalty(ps, price, ps.min, t) >= 0.0 else Penalty(ps, price, ps.min, t) <= 0.0
    ensures Penalty(ps, price, g[t], t) <= Penalty(ps, price, v, t)
  {
    assert Allowed(ps, g[t]) && Penalty(ps, price, 0, t) == 0.0;
    if v < g[t] {
      var a := if v == 0 then ps.min else v;
      forall j | a < j <= g[t] ensures Rankable(ps, j, t) && Value(ps, j, t) >= price {
        assert Applied(ps, g, j, t);
      }
      PenaltyFalls(ps, price, a, g[t], t);
    } else if g[t] < v {
      var a := if g[t] == 0 then ps.min else g[t];
      forall j | a < j <= v ensures Rankable(ps, j, t) && Value(ps, j, t) <= price {
        assert Left(ps, g, j, t);
      }
      PenaltyRises(ps, price, a, v, t);
    }
  }

  lemma SeparatedIsSupported(ps: Params, g: seq<int>, price: real)
    requires Sound(ps) && WellFormed(ps) && Feasible(ps, g)
    requires Separates(ps, g, price) && FairlyOpened(ps, g, price)
    ensures Supports(ps, g, price)
  {
    hide Penalty, Separates;
    forall t: nat, v: int | t < ps.slots && Allowed(ps, v)
      ensures Penalty(ps, price, g[t], t) <= Penalty(ps, price, v, t)
    {
      SlotIsBest(ps, g, price, t, v);
    }
  }

  lemma GapOfSlot(price: real, c: real, w: real, c': real, w': real,
                  a: real, b: real, a': real, b': real, len: real)
    requires len > 0.0 && price * c - w <= price * c' - w' && price * a - b <= price * a' - b'
    ensures price * (c + a * len) - (w + b * len) <= price * (c' + a' * len) - (w' + b' * len)
  {
    var x, y := price * a - b, price * a' - b';
    assert x * len <= y * len;
    assert price * (c + a * len) - (w + b * len) == (price * c - w) + x * len;
    assert price * (c' + a' * len) - (w' + b' * len) == (price * c' - w') + y * len;
  }

  /** If g has the least penalty slot by slot, then it has the least carbon charged at that price. */
  lemma {:induction false} GapOfSlots(ps: Params, g: seq<int>, s: seq<int>, price: real)
    requires |g| == |s| <= |ps.ci| && ps.slotLength > 0.0
    requires forall t: nat :: t < |g| ==> Penalty(ps, price, g[t], t) <= Penalty(ps, price, s[t], t)
    ensures price * Carbon(ps, g) - Work(ps, g) <= price * Carbon(ps, s) - Work(ps, s)
  {
    hide Power, Throughput;
    if g != [] {
      var t := |g| - 1;
      var g', s' := g[..t], s[..t];
      forall u: nat | u < |g'| ensures Penalty(ps, price, g'[u], u) <= Penalty(ps, price, s'[u], u) {
        assert g'[u] == g[u] && s'[u] == s[u];
      }
      GapOfSlots(ps, g', s', price);
      assert Penalty(ps, price, g[t], t) <= Penalty(ps, price, s[t], t);
      GapOfSlot(price, Carbon(ps, g'), Work(ps, g'), Carbon(ps, s'), Work(ps, s'),
                Power(ps, g[t]) * ps.ci[t], Throughput(ps, g[t]),
                Power(ps, s[t]) * ps.ci[t], Throughput(ps, s[t]), ps.slotLength);
    }
  }

  lemma GapAsQuotient(price: real, c: real, w: real, c': real, w': real)
    requires price > 0.0 && price * c - w <= price * c' - w'
    ensures c - c' <= (w - w') / price
  {
    QuotientAtLeast(w - w', price, c - c');
    assert price * (c - c') <= w - w';
  }

  /** A supported schedule has the least carbon when work is credited at the price. */
  lemma SupportedGap(ps: Params, g: seq<int>, s: seq<int>, price: real)
    requires Supports(ps, g, price) && Feasible(ps, s) && ps.slotLength > 0.0
    ensures price * Carbon(ps, g) - Work(ps, g) <= price * Carbon(ps, s) - Work(ps, s)
  {
    hide Penalty, Carbon, Work;
    forall t: nat | t < |g| ensures Penalty(ps, price, g[t], t) <= Penalty(ps, price, s[t], t) {
      assert Allowed(ps, s[t]);
    }
    GapOfSlots(ps, g, s, price);
  }

  // ----- carbon -----

  lemma {:induction false} PowerIsNonNegative(ps: Params, n: int)
    requires Sound(ps) && 0 <= n <= ps.max
    ensures Power(ps, n) >= 0.0
  {
    if n > 0 {
      PowerIsNonNegative(ps, n - 1);
      assert GoodLevel(ps.profile, n);
    }
  }

  lemma {:induction false} CarbonIsNonNegative(ps: Params, s: seq<int>)
    requires Sound(ps) && |s| <= ps.slots && forall t :: 0 <= t < |s| ==> Allowed(ps, s[t])
    ensures Carbon(ps, s) >= 0.0
    ensures (forall t :: 0 <= t < |s| ==> s[t] == 0) ==> Carbon(ps, s) == 0.0
  {
    if s != [] {
      var t := |s| - 1;
      CarbonIsNonNegative(ps, s[..t]);
      if s[t] != 0 {
        PowerIsNonNegative(ps, s[t]);
      }
      NonNegative(Power(ps, s[t]), ps.ci[t], ps.slotLength);
    }
  }

  lemma NonNegative(p: real, ci: real, len: real)
    requires p >= 0.0 && ci > 0.0 && len > 0.0
    ensures p * ci * len >= 0.0
  {
    assert p * ci >= 0.0;
  }

  /** Changing one slot changes the carbon by that slot's change of power. */
  lemma {:induction false} CarbonOfRaise(ps: Params, s: seq<int>, t: nat, v: int, gain: real)
    requires t < |s| <= |ps.ci| && gain == Power(ps, v) - Power(ps, s[t])
    ensures Carbon(ps, s[t := v]) == Carbon(ps, s) + gain * ps.ci[t] * ps.slotLength
  {
    var last := |s| - 1;
    if t < last {
      assert s[t := v][..last] == s[..last][t := v];
      CarbonOfRaise(ps, s[..last], t, v, gain);
    } else {
      assert s[t := v][..last] == s[..last];
      var p, q, c := Power(ps, v), Power(ps, s[t]), ps.ci[t];
      assert (p - q) * c == p * c - q * c;
      assert (p - q) * c * ps.slotLength == p * c * ps.slotLength - q * c * ps.slotLength;
    }
  }
}

/** How close the greedy plan is to the least carbon, when its ranking is fair. */
module Optimality {
  import opened Common
  import opened Profiles
  import opened Planner
  import opened PlannerInvariants
  import opened PlannerResults
  import opened Pricing

  /** The last of the MinReplicas nodes has the throughput per power of all of them. */
  predicate FairFirstStep(profile: map<int, Profile>, min: int) {
    var p := Lookup(profile, min);
    p.throughput * p.marginalPower == p.marginalThroughput * p.power
  }

  /** What a caller can check in the profile: no scaling at all, or a fairly ranked first step and returns
      that diminish from MinReplicas on. MinReplicas 1 always has the former. */
  ghost predicate FairlyRanked(profile: map<int, Profile>, min: int, max: int) {
    min >= max || (FairFirstStep(profile, min) && DiminishingFrom(profile, min, max))
  }

  lemma OneNodeIsFair(profile: map<int, Profile>, max: int)
    requires GoodProfile(profile, max) && DiminishingFrom(profile, 1, max)
    ensures FairlyRanked(profile, 1, max)
  {
    if 1 < max {
      assert GoodLevel(profile, 1);
    }
  }

  lemma FairIsDiminishing(ps: Params)
    requires 1 <= ps.min && FairlyRanked(ps.profile, ps.min, ps.max)
    ensures DiminishingFrom(ps.profile, ps.min, ps.max)
  {
  }

  lemma {:induction false} ThroughputIsPositive(ps: Params, n: int)
    requires Sound(ps) && 1 <= n <= ps.max
    ensures Throughput(ps, n) > 0.0 && Power(ps, n) > 0.0
  {
    assert GoodLevel(ps.profile, n);
    if n > 1 {
      ThroughputIsPositive(ps, n - 1);
    }
  }

  // ----- the price of a pass -----

  lemma FairFirst(t: real, p: real, mt: real, mp: real, ci: real, price: real)
    requires t * mp == mt * p && mp > 0.0 && p > 0.0
    ensures mt <= price * (mp * ci) ==> price * (p * ci) >= t
    ensures mt >= price * (mp * ci) ==> price * (p * ci) <= t
  {
    assert (price * (mp * ci)) * p == (price * (p * ci)) * mp;
    assert (price * (p * ci) - t) * mp == (price * (mp * ci) - mt) * p;
  }

  /** A fair first step is worth the price exactly when its last node is. */
  lemma FairSupports(ps: Params, g: seq<int>, price: real)
    requires Sound(ps) && WellFormed(ps) && Feasible(ps, g) && ps.min <= ps.max
    requires FairFirstStep(ps.profile, ps.min) && Separates(ps, g, price)
    ensures Supports(ps, g, price)
  {
    forall t: nat | t < ps.slots
      ensures if g[t] == 0 then Penalty(ps, price, ps.min, t) >= 0.0 else Penalty(ps, price, ps.min, t) <= 0.0
    {
      assert Allowed(ps, g[t]);
      assert if g[t] == 0 then Left(ps, g, ps.min, t) else Applied(ps, g, ps.min, t);
      SoundRankable(ps, ps.min, t);
      ThroughputIsPositive(ps, ps.min);
      QuotientAtMost(GainT(ps, ps.min), GainP(ps, ps.min) * ps.ci[t], price);
      QuotientAtLeast(GainT(ps, ps.min), GainP(ps, ps.min) * ps.ci[t], price);
      FairFirst(Throughput(ps, ps.min), Power(ps, ps.min), GainT(ps, ps.min), GainP(ps, ps.min),
                ps.ci[t], price);
    }
    SeparatedIsSupported(ps, g, price);
  }

  lemma ScaledPrice(t: real, p: real, mt: real, mp: real, ci: real, price: real, scaled: real)
    requires mt > 0.0 && p > 0.0 && mp > 0.0 && t > 0.0 && ci > 0.0
    requires scaled * (p * mt) == price * (t * mp)
    ensures mt >= price * (mp * ci) ==> scaled * (p * ci) <= t
    ensures mt <= price * (mp * ci) ==> scaled * (p * ci) >= t
    ensures mt == price * (mp * ci) ==> scaled * (p * ci) == t
  {
    assert (scaled * (p * ci)) * mt == (scaled * (p * mt)) * ci;
    assert (scaled * (p * ci)) * mt == (price * (mp * ci)) * t;
  }

  lemma Rescale(x: real, y: real, price: real) returns (scaled: real)
    requires x > 0.0 && y > 0.0 && price > 0.0
    ensures scaled > 0.0 && scaled * x == price * y
  {
    scaled := (price * y) / x;
    ProductPositive(price, y);
    QuotientPositive(price * y, x);
  }

  /** When scaling is off, all steps are alike, so the ranking by the last node's marginals is the
      ranking by carbon intensity, and a multiple of the price supports the schedule. */
  lemma NoScalingSupports(ps: Params, g: seq<int>, price: real, scaled: real)
    requires Sound(ps) && WellFormed(ps) && Feasible(ps, g)
    requires 1 <= ps.min == ps.max && Separates(ps, g, price)
    requires scaled * (Power(ps, ps.min) * GainT(ps, ps.min))
          == price * (Throughput(ps, ps.min) * GainP(ps, ps.min))
    ensures Supports(ps, g, scaled)
  {
    var m := ps.min;
    forall t: nat, v: int | t < ps.slots && Allowed(ps, v)
      ensures Penalty(ps, scaled, g[t], t) <= Penalty(ps, scaled, v, t)
    {
      assert Allowed(ps, g[t]);
      SoundRankable(ps, m, t);
      ThroughputIsPositive(ps, m);
      assert Applied(ps, g, m, t) || Left(ps, g, m, t);
      QuotientAtLeast(GainT(ps, m), GainP(ps, m) * ps.ci[t], price);
      QuotientAtMost(GainT(ps, m), GainP(ps, m) * ps.ci[t], price);
      ScaledPrice(Throughput(ps, m), Power(ps, m), GainT(ps, m), GainP(ps, m), ps.ci[t], price, scaled);
    }
  }

  /** The price at which the raise of slot t from v to j costs in carbon what it gains in work. */
  ghost predicate BreaksEven(ps: Params, price: real, v: int, j: int, t: nat)
    requires t < |ps.ci|
  {
    price * ((Power(ps, j) - Power(ps, v)) * ps.ci[t]) == Throughput(ps, j) - Throughput(ps, v)
  }

  lemma ValueBreaksEven(ps: Params, v: int, t: nat)
    requires Sound(ps) && Allowed(ps, v) && Next(ps, v) <= ps.max && t < ps.slots
    requires v != 0 || FairFirstStep(ps.profile, ps.min)
    ensures BreaksEven(ps, Value(ps, Next(ps, v), t), v, Next(ps, v), t)
  {
    var j := Next(ps, v);
    SoundRankable(ps, j, t);
    assert GoodLevel(ps.profile, j);
    var d, price := GainP(ps, j) * ps.ci[t], Value(ps, j, t);
    assert price * d == GainT(ps, j);
    if v == 0 {
      ThroughputIsPositive(ps, j);
      FairFirst(Throughput(ps, j), Power(ps, j), GainT(ps, j), GainP(ps, j), ps.ci[t], price);
    }
  }

  /** A price of the pass: it is what the raise is worth, and it supports the schedule before the pass
      and the one after it. */
  ghost predicate PassPrice(ps: Params, st: State, price: real)
    requires WellFormed(ps) && CanStep(ps, st)
  {
    var c := Picked(ps, st);
    && price > 0.0
    && Supports(ps, st.schedule, price) && Supports(ps, Step(ps, st).schedule, price)
    && c.time < |st.schedule| && c.time < |ps.ci|
    && BreaksEven(ps, price, st.schedule[c.time], c.nodes, c.time)
  }

  /** With a fair first step the price is the value the planner ranked by. */
  lemma FairPass(ps: Params, st: State)
    requires Sound(ps) && WellFormed(ps) && ps.min < ps.max
    requires FairFirstStep(ps.profile, ps.min) && DiminishingFrom(ps.profile, ps.min, ps.max)
    requires Inv(ps, st) && InRange(st.list, |st.schedule|) && Threshold(ps, st.schedule) && CanStep(ps, st)
    ensures PassPrice(ps, st, Picked(ps, st).value)
  {
    hide Pick, PickFrom, Separates, Supports, BreaksEven, FairFirstStep, Inv, Step, Threshold;
    AdvanceThreshold(ps, st);
    StepRaises(ps, st);
    PickedIsNext(ps, st);
    ValueBreaksEven(ps, st.schedule[Picked(ps, st).time], Picked(ps, st).time);
    FairSupports(ps, st.schedule, Picked(ps, st).value);
    FairSupports(ps, Step(ps, st).schedule, Picked(ps, st).value);
  }

  lemma NoScalingPass(ps: Params, st: State) returns (price: real)
    requires Sound(ps) && WellFormed(ps) && ps.min == ps.max
    requires Inv(ps, st) && InRange(st.list, |st.schedule|) && Threshold(ps, st.schedule) && CanStep(ps, st)
    ensures PassPrice(ps, st, price)
  {
    hide Pick, PickFrom, Separates, Supports, BreaksEven, Inv, Step, Threshold;
    assert DiminishingFrom(ps.profile, ps.min, ps.max);
    AdvanceThreshold(ps, st);
    StepRaises(ps, st);
    PickedIsNext(ps, st);
    var c, m := Picked(ps, st), ps.min;
    SoundRankable(ps, m, c.time);
    ThroughputIsPositive(ps, m);
    ProductPositive(Power(ps, m), GainT(ps, m));
    ProductPositive(Throughput(ps, m), GainP(ps, m));
    price := Rescale(Power(ps, m) * GainT(ps, m), Throughput(ps, m) * GainP(ps, m), c.value);
    NoScalingSupports(ps, st.schedule, c.value, price);
    NoScalingSupports(ps, Step(ps, st).schedule, c.value, price);
    ScaledBreaksEven(ps, c.value, price, c.time);
  }

  lemma ScaledBreaksEven(ps: Params, price: real, scaled: real, t: nat)
    requires Sound(ps) && 1 <= ps.min == ps.max && t < ps.slots && Rankable(ps, ps.min, t)
    requires price == Value(ps, ps.min, t)
    requires scaled * (Power(ps, ps.min) * GainT(ps, ps.min))
          == price * (Throughput(ps, ps.min) * GainP(ps, ps.min))
    ensures BreaksEven(ps, scaled, 0, ps.min, t)
  {
    var m := ps.min;
    SoundRankable(ps, m, t);
    ThroughputIsPositive(ps, m);
    assert price * (GainP(ps, m) * ps.ci[t]) == GainT(ps, m);
    ScaledPrice(Throughput(ps, m), Power(ps, m), GainT(ps, m), GainP(ps, m), ps.ci[t], price, scaled);
  }

  lemma ReachHasPrice(ps: Params, order: seq<Candidate>, k: nat) returns (price: real)
    requires Sound(ps) && WellFormed(ps) && SortedFrom(ps, order) && FairlyRanked(ps.profile, ps.min, ps.max)
    requires InRange(order, ps.slots) && CanStep(ps, Reach(ps, order, k))
    ensures PassPrice(ps, Reach(ps, order, k), price)
    ensures ps.min < ps.max ==> price == Picked(ps, Reach(ps, order, k)).value
  {
    hide SortedFrom, CanStep, Step, Reach, Inv, Picked, PassPrice, Threshold, FairFirstStep;
    FairIsDiminishing(ps);
    ReachInv(ps, order, k);
    ReachThreshold(ps, order, k);
    CanStepIsRaise(ps, Reach(ps, order, k));
    if ps.min < ps.max {
      price := Picked(ps, Reach(ps, order, k)).value;
      FairPass(ps, Reach(ps, order, k));
    } else {
      price := NoScalingPass(ps, Reach(ps, order, k));
    }
  }

  lemma CanStepIsRaise(ps: Params, st: State)
    requires WellFormed(ps) && Inv(ps, st) && CanStep(ps, st)
    ensures ps.min <= ps.max
  {
    PickedIsNext(ps, st);
  }

  // ----- the gap -----

  lemma Scaled(price: real, p: real, t: real, ci: real, len: real)
    requires price * (p * ci) == t && price > 0.0 && len > 0.0 && t > 0.0
    ensures price * (p * ci * len) == t * len && p * ci * len > 0.0 && t * len > 0.0
  {
    ProductPositive(t, len);
    assert price * (p * ci * len) == t * len;
    assert p * ci * len <= 0.0 ==> price * (p * ci * len) <= 0.0;
  }

  /** The pass adds work and carbon, in the ratio of its price. */
  lemma PassGains(ps: Params, st: State, price: real)
    requires Sound(ps) && WellFormed(ps) && Inv(ps, st) && CanStep(ps, st) && PassPrice(ps, st, price)
    ensures var b, a := st.schedule, Step(ps, st).schedule;
      && |b| == |a| == ps.slots <= |ps.ci|
      && Work(ps, a) > Work(ps, b) && Carbon(ps, a) > Carbon(ps, b)
      && price * (Carbon(ps, a) - Carbon(ps, b)) == Work(ps, a) - Work(ps, b)
  {
    hide Pick, PickFrom, Supports, Inv, Work, Carbon;
    StepRaises(ps, st);
    PickedIsNext(ps, st);
    var c := Picked(ps, st);
    var v, j := st.schedule[c.time], c.nodes;
    assert Allowed(ps, v);
    NextGains(ps, v);
    WorkOfRaise(ps, st.schedule, c.time, j, Throughput(ps, j) - Throughput(ps, v));
    CarbonOfRaise(ps, st.schedule, c.time, j, Power(ps, j) - Power(ps, v));
    Scaled(price, Power(ps, j) - Power(ps, v), Throughput(ps, j) - Throughput(ps, v), ps.ci[c.time],
           ps.slotLength);
  }

  lemma NextGains(ps: Params, v: int)
    requires Sound(ps) && Allowed(ps, v) && Next(ps, v) <= ps.max
    ensures Throughput(ps, Next(ps, v)) > Throughput(ps, v)
  {
    assert GoodLevel(ps.profile, Next(ps, v));
    if v == 0 {
      ThroughputIsPositive(ps, ps.min);
    }
  }

  /** Work gained per carbon emitted from one schedule to another. */
  ghost function Worth(ps: Params, b: seq<int>, a: seq<int>): real
    requires |b| <= |ps.ci| && |a| <= |ps.ci| && Carbon(ps, a) != Carbon(ps, b)
  {
    (Work(ps, a) - Work(ps, b)) / (Carbon(ps, a) - Carbon(ps, b))
  }

  lemma PriceIsQuotient(price: real, x: real, y: real)
    requires price * x == y && x > 0.0
    ensures y / x == price
  {
    assert (y / x) * x == y;
    assert (y / x - price) * x == 0.0;
  }

  /** The optimality gap, at every pass. With a fair ranking, take the schedules b before pass k and a
      after it: either emits at most (extra work) / (work per carbon of the pass) more carbon than any
      schedule s. Where there is scaling, the work per carbon of the pass is the value of its pick. */
  lemma OptimalityGap(ps: Params, order: seq<Candidate>, k: nat, g: seq<int>, s: seq<int>)
    requires Sound(ps) && WellFormed(ps) && SortedFrom(ps, order) && FairlyRanked(ps.profile, ps.min, ps.max)
    requires InRange(order, ps.slots) && CanStep(ps, Reach(ps, order, k)) && Feasible(ps, s)
    requires g == Reach(ps, order, k).schedule || g == Reach(ps, order, k + 1).schedule
    ensures var b, a := Reach(ps, order, k).schedule, Reach(ps, order, k + 1).schedule;
      && ps.slots <= |ps.ci|
      && Work(ps, a) > Work(ps, b) && Carbon(ps, a) > Carbon(ps, b) && Worth(ps, b, a) > 0.0
      && Carbon(ps, g) - Carbon(ps, s) <= (Work(ps, g) - Work(ps, s)) / Worth(ps, b, a)
      && (ps.min < ps.max ==> Worth(ps, b, a) == Picked(ps, Reach(ps, order, k)).value)
  {
    hide Inv, SortedFrom, Step, Picked, Pick, PickFrom, Supports, BreaksEven, Carbon, Work, FairlyRanked;
    var price := ReachHasPrice(ps, order, k);
    var st := Reach(ps, order, k);
    var b, a := st.schedule, Reach(ps, order, k + 1).schedule;
    assert a == Step(ps, st).schedule;
    ReachInv(ps, order, k);
    PassGains(ps, st, price);
    SupportedGap(ps, g, s, price);
    GapAsQuotient(price, Carbon(ps, g), Work(ps, g), Carbon(ps, s), Work(ps, s));
    PriceIsQuotient(price, Carbon(ps, a) - Carbon(ps, b), Work(ps, a) - Work(ps, b));
  }

  // ----- the plan -----

  lemma LessWorkLessCarbon(price: real, c: real, w: real, c': real, w': real)
    requires price > 0.0 && price * c - w <= price * c' - w'
    ensures w <= w' ==> c <= c'
    ensures w < w' ==> c < c'
  {
    assert c > c' ==> price * (c - c') > 0.0;
  }

  /** A schedule supported at a positive price emits no more than any that does its work, and less than
      any that does more. */
  lemma SupportedIsLeast(ps: Params, g: seq<int>, s: seq<int>, price: real)
    requires Supports(ps, g, price) && Feasible(ps, s) && ps.slotLength > 0.0 && price > 0.0
    ensures Work(ps, g) <= Work(ps, s) ==> Carbon(ps, g) <= Carbon(ps, s)
    ensures Work(ps, g) < Work(ps, s) ==> Carbon(ps, g) < Carbon(ps, s)
  {
    hide Penalty, Carbon, Work;
    SupportedGap(ps, g, s, price);
    LessWorkLessCarbon(price, Carbon(ps, g), Work(ps, g), Carbon(ps, s), Work(ps, s));
  }

  /** No feasible schedule that does the work of the plan emits less. */
  ghost predicate LeastForItsWork(ps: Params, g: seq<int>) {
    && |g| == ps.slots <= |ps.ci|
    && forall s :: Feasible(ps, s) && Work(ps, s) >= Work(ps, g) ==> Carbon(ps, s) >= Carbon(ps, g)
  }

  /** Greedy-optimal: with a fair ranking, no schedule that does the plan's work emits less. */
  lemma LeastCarbonForItsWork(ps: Params, order: seq<Candidate>, target: real)
    requires Sound(ps) && WellFormed(ps) && SortedFrom(ps, order) && FairlyRanked(ps.profile, ps.min, ps.max)
    requires InRange(order, ps.slots) && Plan(ps, order, target) != None
    ensures LeastForItsWork(ps, Plan(ps, order, target).value)
  {
    hide SortedFrom, CanStep, Plan, Work, Carbon, Reach, Supports, FairlyRanked, Picked, Step, BreaksEven;
    var g := Plan(ps, order, target).value;
    PlanIsSound(ps, order, target, g);
    if target > 0.0 {
      var n, before, t := RaisedLast(ps, order, target, g);
      var price := ReachHasPrice(ps, order, n);
      ReachStep(ps, order, n);
      forall s | Feasible(ps, s) && Work(ps, s) >= Work(ps, g) ensures Carbon(ps, s) >= Carbon(ps, g) {
        SupportedIsLeast(ps, g, s, price);
      }
    } else {
      forall s | Feasible(ps, s) ensures Carbon(ps, s) >= Carbon(ps, g) {
        CarbonIsNonNegative(ps, g);
        CarbonIsNonNegative(ps, s);
      }
    }
  }

  lemma ReachStep(ps: Params, order: seq<Candidate>, k: nat)
    requires InRange(order, ps.slots) && CanStep(ps, Reach(ps, order, k))
    ensures Reach(ps, order, k + 1) == Step(ps, Reach(ps, order, k))
  {
  }

  /** The schedule before the plan's last raise emits strictly less than any that meets the demand. */
  ghost predicate ShortEmitsLess(ps: Params, before: seq<int>, target: real) {
    && |before| == ps.slots <= |ps.ci|
    && forall s :: Feasible(ps, s) && Work(ps, s) >= target ==> Carbon(ps, before) < Carbon(ps, s)
  }

  /** Within one raise: with a fair ranking, the plan without its last raise emits strictly less than
      any schedule that meets the demand, so the plan exceeds every one of them by less than that
      raise: the power it adds, at its slot's intensity. */
  lemma WithinOneRaise(ps: Params, order: seq<Candidate>, target: real, n: nat)
    requires Sound(ps) && WellFormed(ps) && SortedFrom(ps, order) && FairlyRanked(ps.profile, ps.min, ps.max)
    requires InRange(order, ps.slots) && StopsAt(ps, order, target, 0, n + 1)
    ensures CanStep(ps, Reach(ps, order, n))
    ensures Plan(ps, order, target) == Some(Reach(ps, order, n + 1).schedule)
    ensures var before, g := Reach(ps, order, n).schedule, Reach(ps, order, n + 1).schedule;
            var t := Picked(ps, Reach(ps, order, n)).time;
      && ShortEmitsLess(ps, before, target)
      && t < ps.slots && g == before[t := Next(ps, before[t])]
      && Carbon(ps, g) == Carbon(ps, before)
           + (Power(ps, Next(ps, before[t])) - Power(ps, before[t])) * ps.ci[t] * ps.slotLength
  {
    hide SortedFrom, Plan, Work, Carbon, Supports, FairlyRanked, Picked, Step, BreaksEven, Inv, CanStep;
    StopsIsPlan(ps, order, target, n + 1);
    assert Working(ps, order, target, n);
    var st := Reach(ps, order, n);
    DoneIsWork(ps, order, n);
    ReachInv(ps, order, n);
    ReachStep(ps, order, n);
    StepRaises(ps, st);
    var price := ReachHasPrice(ps, order, n);
    var before, t := st.schedule, Picked(ps, st).time;
    CarbonOfRaise(ps, before, t, Next(ps, before[t]), Power(ps, Next(ps, before[t])) - Power(ps, before[t]));
    forall s | Feasible(ps, s) && Work(ps, s) >= target ensures Carbon(ps, before) < Carbon(ps, s) {
      SupportedIsLeast(ps, before, s, price);
    }
  }
}

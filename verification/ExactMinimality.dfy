/** When the greedy plan really has the minimum carbon footprint. The overshoot of the last raise can
    cost more than another schedule that also meets the demand; here is exactly when it never does. */
module ExactMinimality {
  import opened Common
  import opened Profiles
  import opened Planner
  import opened PlannerInvariants
  import opened PlannerResults
  import opened Pricing
  import opened Optimality
  import opened Waypoints
  import opened ExactRanking

  /** No feasible schedule that does the target work emits less than the plan. */
  ghost predicate MinimalOn(ps: Params, order: seq<Candidate>, target: real) {
    Sound(ps) && WellFormed(ps) && SortedFrom(ps, order) && InRange(order, ps.slots)
    && Plan(ps, order, target) != None ==>
      var g := Plan(ps, order, target).value;
      && |g| <= |ps.ci|
      && forall s :: Feasible(ps, s) && Work(ps, s) >= target ==> Carbon(ps, g) <= Carbon(ps, s)
  }

  /** The promise of the project's summary: minimum carbon, whatever the forecast, the demand and the
      order of ties. */
  ghost predicate AlwaysMinimal(profile: map<int, Profile>, min: int, max: int, len: real) {
    forall ci: seq<real>, order: seq<Candidate>, target: real ::
      MinimalOn(Params(profile, min, max, ci, |ci|, len), order, target)
  }

  /** Every further node adds as much throughput as MinReplicas nodes do together. */
  ghost predicate EqualSteps(profile: map<int, Profile>, min: int, max: int) {
    forall j :: min < j <= max ==> Lookup(profile, j).marginalThroughput == Lookup(profile, min).throughput
  }

  /** What a caller can check in the profile: no scaling, or scaling in equal, fairly ranked steps. */
  ghost predicate EvenProfile(profile: map<int, Profile>, min: int, max: int) {
    min >= max || (EqualSteps(profile, min, max) && FairFirstStep(profile, min))
  }

  // ----- equal steps are enough -----

  function Steps(ps: Params, n: int): int {
    if n == 0 then 0 else n - ps.min + 1
  }

  function StepCount(ps: Params, s: seq<int>): int {
    if s == [] then 0 else StepCount(ps, s[..|s| - 1]) + Steps(ps, s[|s| - 1])
  }

  lemma {:induction false} EqualThroughput(ps: Params, n: int)
    requires Sound(ps) && EqualSteps(ps.profile, ps.min, ps.max) && Allowed(ps, n)
    ensures Throughput(ps, n) == Steps(ps, n) as real * Throughput(ps, ps.min)
    decreases n
  {
    if n > ps.min {
      EqualThroughput(ps, n - 1);
      assert GoodLevel(ps.profile, n);
    }
  }

  lemma StepWork(ps: Params, n: int)
    requires Sound(ps) && EqualSteps(ps.profile, ps.min, ps.max) && Allowed(ps, n)
    ensures Throughput(ps, n) * ps.slotLength
         == Steps(ps, n) as real * (Throughput(ps, ps.min) * ps.slotLength)
  {
    EqualThroughput(ps, n);
    Regroup(Steps(ps, n) as real, Throughput(ps, ps.min), ps.slotLength);
  }

  lemma Regroup(a: real, b: real, c: real)
    ensures a * b * c == a * (b * c)
  {
  }

  lemma AddSteps(a: int, b: int, unit: real)
    ensures a as real * unit + b as real * unit == (a + b) as real * unit
  {
    assert (a + b) as real == a as real + b as real;
  }

  /** The work of one step, which opens a slot or adds a node to it. */
  ghost predicate StepUnit(ps: Params, unit: real) {
    unit == Throughput(ps, ps.min) * ps.slotLength
  }

  lemma {:induction false} WorkOfSteps(ps: Params, s: seq<int>, unit: real)
    requires Sound(ps) && EqualSteps(ps.profile, ps.min, ps.max) && StepUnit(ps, unit)
    requires forall t :: 0 <= t < |s| ==> Allowed(ps, s[t])
    ensures Work(ps, s) == StepCount(ps, s) as real * unit
  {
    hide Sound, EqualSteps, Throughput, Steps;
    if s != [] {
      var t := |s| - 1;
      WorkOfSteps(ps, s[..t], unit);
      StepWork(ps, s[t]);
      AddSteps(StepCount(ps, s[..t]), Steps(ps, s[t]), unit);
    }
  }

  lemma {:induction false} StepCountOfRaise(ps: Params, s: seq<int>, t: nat, v: int)
    requires t < |s| && v == Next(ps, s[t]) && 1 <= ps.min && Allowed(ps, s[t])
    ensures StepCount(ps, s[t := v]) == StepCount(ps, s) + 1
  {
    var last := |s| - 1;
    if t < last {
      assert s[t := v][..last] == s[..last][t := v];
      StepCountOfRaise(ps, s[..last], t, v);
    } else {
      assert s[t := v][..last] == s[..last];
    }
  }

  lemma CompareSteps(a: int, b: int, unit: real)
    requires unit > 0.0
    ensures a as real * unit < b as real * unit <==> a < b
  {
    if a < b {
      assert (b - a) as real * unit > 0.0;
    } else {
      assert (a - b) as real * unit >= 0.0;
    }
  }

  lemma OneStepShort(b: int, g: int, s: int, unit: real, target: real, wb: real, wg: real, ws: real)
    requires unit > 0.0 && g == b + 1
    requires wb == b as real * unit && wg == g as real * unit && ws == s as real * unit
    requires wb < target <= ws
    ensures g <= s && wg <= ws
  {
    CompareSteps(b, s, unit);
    var more := s - g;
    assert ws == wg + more as real * unit by { AddSteps(g, more, unit); }
  }

  /** With equal steps, the plan takes the fewest of them that any schedule meeting the demand takes.
      When scaling is off a step is a whole slot, so the plan has the fewest active slots. */
  lemma FewestSteps(ps: Params, order: seq<Candidate>, target: real, s: seq<int>)
    requires Sound(ps) && WellFormed(ps) && SortedFrom(ps, order) && InRange(order, ps.slots)
    requires EqualSteps(ps.profile, ps.min, ps.max) || ps.min >= ps.max
    requires Plan(ps, order, target) != None && target > 0.0
    requires Feasible(ps, s) && Work(ps, s) >= target
    ensures var g := Plan(ps, order, target).value;
      StepCount(ps, g) <= StepCount(ps, s) && Work(ps, g) <= Work(ps, s)
  {
    hide SortedFrom, Plan, Work, StepCount, Reach, CanStep, Sound;
    SoundParts(ps);
    var g := Plan(ps, order, target).value;
    var n, before, t := RaisedLast(ps, order, target, g);
    StepCountOfRaise(ps, before, t, Next(ps, before[t]));
    ThroughputIsPositive(ps, ps.min);
    ProductPositive(Throughput(ps, ps.min), ps.slotLength);
    var unit := Throughput(ps, ps.min) * ps.slotLength;
    WorkOfSteps(ps, before, unit);
    WorkOfSteps(ps, g, unit);
    WorkOfSteps(ps, s, unit);
    OneStepShort(StepCount(ps, before), StepCount(ps, g), StepCount(ps, s), unit, target,
                 Work(ps, before), Work(ps, g), Work(ps, s));
  }

  lemma SoundParts(ps: Params)
    requires Sound(ps)
    ensures GoodProfile(ps.profile, ps.max) && 1 <= ps.min && ps.slotLength > 0.0
  {
  }

  /** The slots in which a schedule runs the job at all. */
  ghost function ActiveSlots(s: seq<int>): set<int> {
    set t | 0 <= t < |s| && s[t] != 0
  }

  lemma {:induction false} StepsAreActiveSlots(ps: Params, s: seq<int>)
    requires 1 <= ps.min == ps.max && forall t :: 0 <= t < |s| ==> Allowed(ps, s[t])
    ensures StepCount(ps, s) == |ActiveSlots(s)|
  {
    if s != [] {
      var last := |s| - 1;
      StepsAreActiveSlots(ps, s[..last]);
      assert ActiveSlots(s) == ActiveSlots(s[..last]) + if s[last] != 0 then {last} else {};
    }
  }

  /** Scaling off, MinReplicas equal to the node limit: the plan runs in the fewest slots that cover the
      demand and has the least carbon of all schedules that do, for any profile with positive marginals. */
  lemma NoScalingIsExact(ps: Params, order: seq<Candidate>, target: real, s: seq<int>)
    requires Sound(ps) && WellFormed(ps) && SortedFrom(ps, order) && InRange(order, ps.slots)
    requires ps.min == ps.max && Plan(ps, order, target) != None && target > 0.0
    requires Feasible(ps, s) && Work(ps, s) >= target
    ensures var g := Plan(ps, order, target).value;
      && |g| == ps.slots <= |ps.ci|
      && |ActiveSlots(g)| <= |ActiveSlots(s)| && Carbon(ps, g) <= Carbon(ps, s)
  {
    hide SortedFrom, Plan, Work, Carbon, StepCount;
    var g := Plan(ps, order, target).value;
    PlanIsSound(ps, order, target, g);
    FewestSteps(ps, order, target, s);
    StepsAreActiveSlots(ps, g);
    StepsAreActiveSlots(ps, s);
    LeastCarbonForItsWork(ps, order, target);
  }

  /** An even profile gives the minimum for every forecast, demand and tie order. */
  lemma EvenIsMinimal(ps: Params, order: seq<Candidate>, target: real)
    requires EvenProfile(ps.profile, ps.min, ps.max) && FairlyRanked(ps.profile, ps.min, ps.max)
    ensures MinimalOn(ps, order, target)
  {
    hide SortedFrom, Plan, Work, Carbon, StepCount, FairlyRanked;
    if Sound(ps) && WellFormed(ps) && SortedFrom(ps, order) && InRange(order, ps.slots)
       && Plan(ps, order, target) != None
    {
      var g := Plan(ps, order, target).value;
      PlanIsSound(ps, order, target, g);
      LeastCarbonForItsWork(ps, order, target);
      forall s | Feasible(ps, s) && Work(ps, s) >= target ensures Carbon(ps, g) <= Carbon(ps, s) {
        if target > 0.0 {
          FewestSteps(ps, order, target, s);
        } else {
          CarbonIsNonNegative(ps, g);
          CarbonIsNonNegative(ps, s);
        }
      }
    }
  }

  // ----- equal steps are needed: two slots and a demand on which the plan overshoots -----

  lemma Refuted(ps: Params, order: seq<Candidate>, target: real, g: seq<int>, s: seq<int>)
    requires Sound(ps) && WellFormed(ps) && SortedFrom(ps, order) && InRange(order, ps.slots)
    requires Plan(ps, order, target) == Some(g) && |g| == ps.slots == |ps.ci|
    requires Feasible(ps, s) && Work(ps, s) >= target && Carbon(ps, s) < Carbon(ps, g)
    ensures !AlwaysMinimal(ps.profile, ps.min, ps.max, ps.slotLength)
  {
    hide Plan, SortedFrom, Work, Carbon, Sound, WellFormed;
    var q := Params(ps.profile, ps.min, ps.max, ps.ci, |ps.ci|, ps.slotLength);
    assert q == ps;
    assert !MinimalOn(q, order, target);
  }

  /** The totals of two slots. */
  lemma PairTotals(ps: Params, x: real, a: int, b: int)
    requires Blocks(ps, 1, 1, x)
    ensures Work(ps, [a, b]) == (Throughput(ps, a) + Throughput(ps, b)) * ps.slotLength
    ensures Carbon(ps, [a, b]) == (Power(ps, a) + Power(ps, b) * x) * ps.slotLength
  {
    hide Work, Carbon, Sound, WellFormed;
    assert Block(1, 1, a, b) == [a, b];
    BlockTotals(ps, 1, 1, x, a, b);
  }

  /** Two slots, the second x times as carbon-intensive, and an order of ties that favours level j of the
      first slot alone. */
  lemma PairInstance(profile: map<int, Profile>, min: int, max: int, len: real, x: real, j: int, price: real)
    returns (ps: Params, order: seq<Candidate>)
    requires Scaling(profile, min, max, len) && x > 0.0
    requires FitsLevel(profile, min, max, j, 1.0, price) && FitsLevel(profile, min, max, 0, x, price)
    ensures ps == Params(profile, min, max, [1.0, x], 2, len) && Blocks(ps, 1, 1, x)
    ensures Sound(ps) && WellFormed(ps) && SortedFrom(ps, order)
    ensures InRange(order, 2) && Feasible(ps, [j, 0]) && Favours(ps, order, [j, 0])
  {
    hide FitsLevel, Favours, Fits, SortedFrom;
    ps := BlockInstance(profile, min, max, len, 1, 1, x);
    assert Block(1, 1, 1.0, x) == [1.0, x] && Block(1, 1, j, 0) == [j, 0];
    BlockFits(ps, 1, 1, x, j, 0, price);
    order := FittingOrder(ps, [j, 0], price);
  }

  lemma Scale(a: real, b: real, len: real)
    requires len > 0.0
    ensures a * len < b * len <==> a < b
    ensures a * len <= b * len <==> a <= b
    ensures a > 0.0 ==> a * len > 0.0
  {
  }

  /** A demand that level j of the first slot meets and the level under it does not is planned there. */
  lemma PlanFirstSlot(ps: Params, x: real, order: seq<Candidate>, w: real, target: real, j: int)
    requires Blocks(ps, 1, 1, x) && Sound(ps) && WellFormed(ps) && SortedFrom(ps, order) && ps.min <= j <= ps.max
    requires InRange(order, 2) && Feasible(ps, [j, 0]) && Favours(ps, order, [j, 0])
    requires target == w * ps.slotLength && Throughput(ps, j - 1) < w <= Throughput(ps, j)
    ensures Plan(ps, order, target) == Some([j, 0])
  {
    hide Plan, SortedFrom, Work, Carbon, Sound, WellFormed, Favours;
    SoundParts(ps);
    PairTotals(ps, x, j, 0);
    Scale(w, Throughput(ps, j), ps.slotLength);
    var s := PlanExists(ps, order, target, [j, 0]);
    PlanStaysBelow(ps, order, [j, 0], target, s);
    PlanIsSound(ps, order, target, s);
    assert Allowed(ps, s[0]) && Allowed(ps, s[1]) && s == [s[0], 0];
    PairTotals(ps, x, s[0], 0);
    Scale(w, Throughput(ps, s[0]), ps.slotLength);
    TopThroughputs(ps);
  }

  /** A demand just over what the full first slot does opens the second. */
  lemma PlanSecondSlot(ps: Params, x: real, order: seq<Candidate>, w: real, target: real)
    requires Blocks(ps, 1, 1, x) && Sound(ps) && WellFormed(ps) && SortedFrom(ps, order) && ps.min <= ps.max
    requires InRange(order, 2) && Feasible(ps, [ps.max, 0]) && Favours(ps, order, [ps.max, 0])
    requires target == w * ps.slotLength
    requires Throughput(ps, ps.max) < w <= Throughput(ps, ps.max) + Throughput(ps, ps.min)
    ensures Plan(ps, order, target) == Some([ps.max, ps.min])
  {
    hide Plan, SortedFrom, Work, Carbon, Sound, WellFormed, Favours;
    SoundParts(ps);
    TopThroughputs(ps);
    var g, h := [ps.max, 0], [ps.max, ps.min];
    PairTotals(ps, x, ps.max, 0);
    PairTotals(ps, x, ps.max, ps.min);
    Scale(Throughput(ps, ps.max), w, ps.slotLength);
    Scale(w, Throughput(ps, ps.max) + Throughput(ps, ps.min), ps.slotLength);
    Scale(w, w, ps.slotLength);
    assert g[1 := ps.min] == h && Feasible(ps, h);
    var s := PlanExists(ps, order, target, h);
    var t := PlanIsNextRaise(ps, order, g, target);
    assert t == 1;
  }

  /** If level j of the first slot is preferred to opening the second, though i nodes in the first and
      MinReplicas in the second would do for less carbon, the plan is not minimal. */
  lemma Overtake(profile: map<int, Profile>, min: int, max: int, len: real, i: int, j: int, x: real, price: real)
    requires Scaling(profile, min, max, len) && min <= i < j <= max && x > 0.0
    requires FitsLevel(profile, min, max, j, 1.0, price) && FitsLevel(profile, min, max, 0, x, price)
    requires Lookup(profile, j - 1).throughput
           < Lookup(profile, i).throughput + Lookup(profile, min).throughput
          <= Lookup(profile, j).throughput
    requires Lookup(profile, min).power * x < Lookup(profile, j).power - Lookup(profile, i).power
    ensures !AlwaysMinimal(profile, min, max, len)
  {
    hide Plan, SortedFrom, Work, Carbon, AlwaysMinimal, FitsLevel, Favours, Blocks;
    var ps, order := PairInstance(profile, min, max, len, x, j, price);
    var w := Throughput(ps, i) + Throughput(ps, min);
    PlanFirstSlot(ps, x, order, w, w * len, j);
    PairTotals(ps, x, i, min);
    PairTotals(ps, x, j, 0);
    Scale(Power(ps, i) + Power(ps, min) * x, Power(ps, j) + Power(ps, 0) * x, len);
    Refuted(ps, order, w * len, [j, 0], [i, min]);
  }

  /** An intensity at which opening a slot is worth less than every level of a slot at intensity 1. */
  lemma {:induction false} LargeIntensity(profile: map<int, Profile>, min: int, max: int, len: real, top: int)
    returns (x: real)
    requires Scaling(profile, min, max, len) && min - 1 <= top <= max
    ensures x > 0.0 && OpensLast(profile, min, top, x)
    decreases top
  {
    hide OpensAfter, GoodProfile;
    if top < min {
      x := 1.0;
    } else {
      var m, q := Lookup(profile, min), Lookup(profile, top);
      GoodLevels(profile, max, min);
      GoodLevels(profile, max, top);
      var rest := LargeIntensity(profile, min, max, len, top - 1);
      var here := Above(m.marginalThroughput * q.marginalPower, q.marginalThroughput, m.marginalPower);
      AfterHere(profile, min, top, here);
      x := if rest > here then rest else here;
      forall k | min <= k <= top ensures OpensAfter(profile, min, k, x) {
        StillAfter(profile, min, max, len, k, if k == top then here else rest, x);
      }
    }
  }

  lemma AfterHere(profile: map<int, Profile>, min: int, k: int, x: real)
    requires var m, p := Lookup(profile, min), Lookup(profile, k);
      p.marginalThroughput * (m.marginalPower * x) > m.marginalThroughput * p.marginalPower
    ensures OpensAfter(profile, min, k, x)
  {
  }

  lemma StillAfter(profile: map<int, Profile>, min: int, max: int, len: real, k: int, y: real, x: real)
    requires Scaling(profile, min, max, len) && min <= k <= max && OpensAfter(profile, min, k, y) && x >= y
    ensures OpensAfter(profile, min, k, x)
  {
    assert GoodLevel(profile, min) && GoodLevel(profile, k);
    StillAbove(Lookup(profile, k).marginalThroughput, Lookup(profile, min).marginalPower, y, x);
  }

  lemma StillAbove(b: real, c: real, y: real, x: real)
    requires b > 0.0 && c > 0.0 && x >= y
    ensures b * (c * x) >= b * (c * y)
  {
    assert c * x >= c * y;
  }

  /** If the last node adds less than MinReplicas nodes do, opening the second slot for a little more
      work overshoots: one node fewer in the first slot would have done. This needs no assumption on
      returns. */
  lemma Overshoot(profile: map<int, Profile>, min: int, max: int, len: real)
    requires Scaling(profile, min, max, len)
    requires Lookup(profile, max).marginalThroughput < Lookup(profile, min).throughput
    ensures !AlwaysMinimal(profile, min, max, len)
  {
    hide Plan, SortedFrom, Work, Carbon, AlwaysMinimal, FitsLevel, Favours, Blocks, OpensLast;
    assert GoodLevel(profile, min) && GoodLevel(profile, max);
    var x := LargeIntensity(profile, min, max, len, max);
    var price := OpeningPrice(profile, min, max, len, x);
    var ps, order := PairInstance(profile, min, max, len, x, max, price);
    var w := Throughput(ps, max - 1) + Throughput(ps, min);
    PlanSecondSlot(ps, x, order, w, w * len);
    PairTotals(ps, x, max - 1, min);
    PairTotals(ps, x, max, min);
    Scale(Power(ps, max - 1) + Power(ps, min) * x, Power(ps, max) + Power(ps, min) * x, len);
    Refuted(ps, order, w * len, [max, min], [max - 1, min]);
  }

  lemma Above(a: real, b: real, c: real) returns (x: real)
    requires b > 0.0 && c > 0.0
    ensures x > 0.0 && b * (c * x) > a
  {
    var d := b * c;
    ProductPositive(b, c);
    x := (if a > 0.0 then a else 0.0) / d + 1.0;
    assert d * x == (if a > 0.0 then a else 0.0) + d by {
      assert ((if a > 0.0 then a else 0.0) / d) * d == if a > 0.0 then a else 0.0;
    }
    assert b * (c * x) == d * x;
    if a > 0.0 {
      QuotientPositive(a, d);
    }
  }

  lemma QuotientLess(a: real, b: real, c: real, d: real)
    requires b > 0.0 && d > 0.0 && c * b > a * d
    ensures a / b < c / d
  {
    var q, r := c / d, a / b;
    assert (q * b) * d == c * b by { assert q * d == c; }
    assert (r * b) * d == a * d;
    assert q * b > r * b;
  }

  /** A ratio strictly between two others. */
  lemma Between(a: real, b: real, p: real, d: real) returns (x: real)
    requires a > 0.0 && b > 0.0 && p > 0.0 && a * p < d * b
    ensures x > 0.0 && b * x > a && p * x < d
  {
    var lo, hi := a / b, d / p;
    assert lo * b == a && hi * p == d;
    QuotientPositive(a, b);
    QuotientLess(a, b, d, p);
    x := (lo + hi) / 2.0;
    assert lo < x < hi;
    assert b * x > b * lo;
    assert p * x < p * hi;
  }

  /** With diminishing returns, level j at intensity 1 and opening a slot at an intensity at which it is
      worth no more fit a price. */
  lemma LevelPrice(profile: map<int, Profile>, min: int, max: int, len: real, j: int, x: real)
    returns (price: real)
    requires Scaling(profile, min, max, len) && DiminishingFrom(profile, min, max) && min <= j <= max
    requires var q := Lookup(profile, j);
      RatioAtMost(profile, min, x, q.marginalThroughput, q.marginalPower)
    ensures FitsLevel(profile, min, max, j, 1.0, price) && FitsLevel(profile, min, max, 0, x, price)
  {
    hide DiminishingFrom, RatioAtLeast, RatioAtMost, LevelWorth, LevelWorthAtMost;
    var q := Lookup(profile, j);
    assert GoodLevel(profile, j);
    price := q.marginalThroughput / q.marginalPower;
    forall k | min <= k <= j ensures LevelWorth(profile, k, 1.0, price) {
      RatiosAround(profile, min, max, j, k);
      RatioIsWorth(profile, k, 1.0, q.marginalThroughput, q.marginalPower);
    }
    if j < max {
      RatiosAround(profile, min, max, j, j + 1);
      RatioIsWorth(profile, j + 1, 1.0, q.marginalThroughput, q.marginalPower);
    }
    RatioIsWorth(profile, min, x, q.marginalThroughput, q.marginalPower);
  }

  lemma RatiosAround(profile: map<int, Profile>, min: int, max: int, j: int, k: int)
    requires GoodProfile(profile, max) && DiminishingFrom(profile, min, max)
    requires 1 <= min <= j <= max && min <= k <= max
    ensures var q := Lookup(profile, j);
      && (k <= j ==> RatioAtLeast(profile, k, 1.0, q.marginalThroughput, q.marginalPower))
      && (j <= k ==> RatioAtMost(profile, k, 1.0, q.marginalThroughput, q.marginalPower))
  {
    if k <= j {
      RatiosFall(profile, min, k, j, max);
    }
    if j <= k {
      RatiosFall(profile, min, j, k, max);
    }
  }

  lemma OvertakeSomewhere(profile: map<int, Profile>, min: int, max: int, len: real, i: int, j: int)
    requires Scaling(profile, min, max, len) && DiminishingFrom(profile, min, max) && min <= i < j <= max
    requires Lookup(profile, j - 1).throughput
           < Lookup(profile, i).throughput + Lookup(profile, min).throughput
          <= Lookup(profile, j).throughput
    requires var m, q := Lookup(profile, min), Lookup(profile, j);
      m.marginalThroughput * q.marginalPower * m.power
      < (q.power - Lookup(profile, i).power) * (q.marginalThroughput * m.marginalPower)
    ensures !AlwaysMinimal(profile, min, max, len)
  {
    hide AlwaysMinimal, FitsLevel, DiminishingFrom;
    var m, q := Lookup(profile, min), Lookup(profile, j);
    assert GoodLevel(profile, min) && GoodLevel(profile, j);
    PowerPositive(profile, min, max);
    ProductPositive(m.marginalThroughput, q.marginalPower);
    ProductPositive(q.marginalThroughput, m.marginalPower);
    var x := Between(m.marginalThroughput * q.marginalPower, q.marginalThroughput * m.marginalPower,
                     m.power, q.power - Lookup(profile, i).power);
    Regroup(q.marginalThroughput, m.marginalPower, x);
    var price := LevelPrice(profile, min, max, len, j, x);
    Overtake(profile, min, max, len, i, j, x, price);
  }

  /** Whatever the returns, scaling that is off is always minimal. */
  lemma NoScalingIsMinimal(profile: map<int, Profile>, min: int, max: int, len: real)
    requires min >= max
    ensures AlwaysMinimal(profile, min, max, len)
  {
    hide MinimalOn;
    forall ci: seq<real>, order: seq<Candidate>, target: real
      ensures MinimalOn(Params(profile, min, max, ci, |ci|, len), order, target)
    {
      EvenIsMinimal(Params(profile, min, max, ci, |ci|, len), order, target);
    }
  }

  /** Where the first step is ranked by its worth, a minimal plan for every forecast forces every further
      node to be an equal step, from the last one down. */
  lemma {:induction false} StepsAreEven(profile: map<int, Profile>, min: int, max: int, len: real, k: int)
    requires Scaling(profile, min, max, len) && DiminishingFrom(profile, min, max)
    requires FairFirstStep(profile, min) && AlwaysMinimal(profile, min, max, len)
    requires min < k <= max
    ensures forall j :: k <= j <= max ==>
              Lookup(profile, j).marginalThroughput == Lookup(profile, min).throughput
    decreases max - k
  {
    hide AlwaysMinimal, DiminishingFrom;
    var m, p := Lookup(profile, min), Lookup(profile, k);
    assert GoodLevel(profile, min) && GoodLevel(profile, k);
    PowerPositive(profile, min, max);
    if k < max {
      StepsAreEven(profile, min, max, len, k + 1);
    }
    if p.marginalThroughput > m.throughput {
      BiggerStep(m.throughput, m.power, m.marginalThroughput, m.marginalPower,
                 p.marginalThroughput, p.marginalPower);
      OvertakeSomewhere(profile, min, max, len, k - 1, k);
    } else if p.marginalThroughput < m.throughput && k == max {
      Overshoot(profile, min, max, len);
    } else if p.marginalThroughput < m.throughput {
      var q := Lookup(profile, k + 1);
      assert GoodLevel(profile, k + 1);
      SkipOne(m.throughput, m.power, m.marginalThroughput, m.marginalPower,
              p.marginalPower, q.marginalPower);
      OvertakeSomewhere(profile, min, max, len, k - 1, k + 1);
    }
  }

  lemma SkipOne(t: real, p: real, mt: real, mp: real, dp: real, qp: real)
    requires t * mp == mt * p && dp > 0.0 && t > 0.0 && mp > 0.0
    ensures mt * qp * p < (dp + qp) * (t * mp)
  {
    assert mt * qp * p == qp * (t * mp);
    ProductPositive(t, mp);
    ProductPositive(dp, t * mp);
    assert (dp + qp) * (t * mp) == dp * (t * mp) + qp * (t * mp);
  }

  lemma BiggerStep(t: real, p: real, mt: real, mp: real, dt: real, dp: real)
    requires t * mp == mt * p && dp > 0.0 && dt > t && mp > 0.0
    ensures mt * dp * p < dp * (dt * mp)
  {
    assert mt * dp * p == dp * (t * mp);
    assert t * mp < dt * mp;
  }

  /** A plan is also the plan for exactly the work it does. */
  lemma PlanOfItsWork(ps: Params, order: seq<Candidate>, target: real, g: seq<int>)
    requires InRange(order, ps.slots) && Throughput(ps, 0) == 0.0 && Plan(ps, order, target) == Some(g)
    ensures Plan(ps, order, Work(ps, g)) == Some(g)
  {
    var n := PlanStops(ps, order, target, 0);
    DoneIsWork(ps, order, n);
    assert forall i: nat :: Working(ps, order, target, i) ==> Working(ps, order, Work(ps, g), i);
    StopsIsPlan(ps, order, Work(ps, g), n);
  }

  /** So a plan that is minimal for every demand is the least for the work it does. */
  lemma MinimalIsLeast(profile: map<int, Profile>, min: int, max: int, len: real)
    requires AlwaysMinimal(profile, min, max, len)
    ensures AlwaysLeast(profile, min, max, len)
  {
    hide SortedFrom, Plan, Work, Carbon, MinimalOn;
    forall ci: seq<real>, order: seq<Candidate>, target: real
      ensures LeastOn(Params(profile, min, max, ci, |ci|, len), order, target)
    {
      var ps := Params(profile, min, max, ci, |ci|, len);
      if Sound(ps) && WellFormed(ps) && SortedFrom(ps, order) && InRange(order, ps.slots)
         && Plan(ps, order, target) != None
      {
        var g := Plan(ps, order, target).value;
        PlanOfItsWork(ps, order, target, g);
        assert MinimalOn(ps, order, Work(ps, g));
        MinimalHere(ps, order, target, g);
      }
    }
  }

  lemma MinimalHere(ps: Params, order: seq<Candidate>, target: real, g: seq<int>)
    requires Sound(ps) && WellFormed(ps) && SortedFrom(ps, order) && InRange(order, ps.slots)
    requires Plan(ps, order, target) == Some(g) && Plan(ps, order, Work(ps, g)) == Some(g)
    requires MinimalOn(ps, order, Work(ps, g)) && ps.slots == |ps.ci|
    ensures LeastForItsWork(ps, g)
  {
    hide SortedFrom, Plan, Work, Carbon;
    PlanIsSound(ps, order, target, g);
  }

  /** Exactly when the summary's promise holds. For a profile with positive marginals whose returns
      diminish from MinReplicas on, the greedy plan has the minimum carbon footprint for every forecast,
      every demand and every order of ties if and only if the profile is even. */
  lemma MinimalIffEven(profile: map<int, Profile>, min: int, max: int, len: real)
    requires 1 <= min && len > 0.0
    requires GoodProfile(profile, max) && DiminishingFrom(profile, min, max)
    ensures AlwaysMinimal(profile, min, max, len) <==> EvenProfile(profile, min, max)
  {
    if EvenProfile(profile, min, max) {
      forall ci: seq<real>, order: seq<Candidate>, target: real
        ensures MinimalOn(Params(profile, min, max, ci, |ci|, len), order, target)
      {
        EvenIsMinimal(Params(profile, min, max, ci, |ci|, len), order, target);
      }
    } else if AlwaysMinimal(profile, min, max, len) {
      hide AlwaysMinimal, AlwaysLeast, AlwaysWithin;
      MinimalIsLeast(profile, min, max, len);
      GreedyOptimalIffFair(profile, min, max, len);
      StepsAreEven(profile, min, max, len, min + 1);
    }
  }

  /** A profile whose second node adds half of what the first does, and two slots, the second three
      times as carbon-intensive. */
  const UNEVEN := map[0 := Profile(0.0, 0.0, 0.0, 0.0), 1 := Profile(2.0, 2.0, 1.0, 1.0),
                      2 := Profile(3.0, 1.0, 2.0, 1.0)]
  const TWO_SLOTS := Params(UNEVEN, 1, 2, [1.0, 3.0], 2, 1.0)

  lemma UnevenIsGood()
    ensures GoodProfile(UNEVEN, 2) && DiminishingFrom(UNEVEN, 1, 2)
  {
    assert forall j :: 1 <= j <= 2 ==> GoodLevel(UNEVEN, j);
  }

  /** The promise fails: for 4 units of work the plan is (2, 1) with 5 units of carbon, though (1, 1)
      does exactly that work with 4. */
  lemma PromiseFails(order: seq<Candidate>)
    requires WellFormed(TWO_SLOTS) && SortedFrom(TWO_SLOTS, order)
    ensures Sound(TWO_SLOTS) && DiminishingFrom(UNEVEN, 1, 2)
    ensures InRange(order, 2) && Plan(TWO_SLOTS, order, 4.0) == Some([2, 1])
    ensures Carbon(TWO_SLOTS, [2, 1]) == 5.0
    ensures Feasible(TWO_SLOTS, [1, 1]) && Work(TWO_SLOTS, [1, 1]) == 4.0
    ensures Carbon(TWO_SLOTS, [1, 1]) == 4.0
  {
    hide Plan, SortedFrom, Work, Carbon, Favours;
    var ps := TWO_SLOTS;
    UnevenIsGood();
    assert Block(1, 1, 1.0, 3.0) == [1.0, 3.0] && Block(1, 1, 2, 0) == [2, 0];
    assert Blocks(ps, 1, 1, 3.0);
    PairTotals(ps, 3.0, 1, 1);
    PairTotals(ps, 3.0, 2, 1);
    StrictBlockIsPlanned(ps, order, 1, 1, 3.0, 2, 0, 0.8);
    PlanSecondSlot(ps, 3.0, order, 4.0, 4.0);
  }
}

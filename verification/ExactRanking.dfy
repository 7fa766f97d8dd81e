/** When the greedy plan is optimal for the work it does. The first step of a slot is ranked by its last
    node only; here is exactly when that never costs carbon. */
module ExactRanking {
  import opened Common
  import opened Profiles
  import opened Planner
  import opened PlannerInvariants
  import opened PlannerResults
  import opened Pricing
  import opened Optimality
  import opened Waypoints

  /** The plan has the least carbon of all schedules that do its work. */
  ghost predicate LeastOn(ps: Params, order: seq<Candidate>, target: real) {
    Sound(ps) && WellFormed(ps) && SortedFrom(ps, order) && InRange(order, ps.slots) ==>
      Plan(ps, order, target) != None ==> LeastForItsWork(ps, Plan(ps, order, target).value)
  }

  /** Greedy-optimal, whatever the forecast, the demand and the order of ties. */
  ghost predicate AlwaysLeast(profile: map<int, Profile>, min: int, max: int, len: real) {
    forall ci: seq<real>, order: seq<Candidate>, target: real ::
      LeastOn(Params(profile, min, max, ci, |ci|, len), order, target)
  }

  /** The plan without its last raise emits less than any schedule that meets the demand. */
  ghost predicate WithinOn(ps: Params, order: seq<Candidate>, target: real, n: nat) {
    Sound(ps) && WellFormed(ps) && SortedFrom(ps, order) && InRange(order, ps.slots) ==>
      StopsAt(ps, order, target, 0, n + 1) ==> ShortEmitsLess(ps, Reach(ps, order, n).schedule, target)
  }

  ghost predicate AlwaysWithin(profile: map<int, Profile>, min: int, max: int, len: real) {
    forall ci: seq<real>, order: seq<Candidate>, target: real, n: nat ::
      WithinOn(Params(profile, min, max, ci, |ci|, len), order, target, n)
  }

  // ----- blocks of equal slots -----

  function Copies<T>(n: nat, a: T): seq<T> {
    seq(n, _ => a)
  }

  /** Two values in i slots and then j slots. */
  function Block<T>(i: nat, j: nat, a: T, b: T): seq<T> {
    Copies(i, a) + Copies(j, b)
  }

  /** i slots of intensity 1, then j slots of intensity x. */
  ghost predicate Blocks(ps: Params, i: nat, j: nat, x: real) {
    Sound(ps) && WellFormed(ps) && ps.slots == i + j && ps.ci == Block(i, j, 1.0, x)
  }

  ghost function Times(j: nat, unit: real): real {
    if j == 0 then 0.0 else Times(j - 1, unit) + unit
  }

  lemma {:induction false} TimesIsProduct(j: nat, unit: real)
    ensures Times(j, unit) == j as real * unit
  {
    if j > 0 {
      TimesIsProduct(j - 1, unit);
      assert (j - 1) as real == j as real - 1.0;
    }
  }

  lemma WorkOfOneMore(ps: Params, s: seq<int>, n: int, unit: real)
    requires unit == Throughput(ps, n) * ps.slotLength
    ensures Work(ps, s + [n]) == Work(ps, s) + unit
  {
    assert (s + [n])[..|s|] == s;
  }

  /** j more slots of n nodes add j times the work of one. */
  lemma {:induction false} AppendWork(ps: Params, s: seq<int>, j: nat, n: int, unit: real)
    requires unit == Throughput(ps, n) * ps.slotLength
    ensures Work(ps, s + Copies(j, n)) == Work(ps, s) + Times(j, unit)
  {
    hide Throughput, Work;
    if j == 0 {
      assert s + Copies(j, n) == s;
    } else {
      var shorter := s + Copies(j - 1, n);
      assert s + Copies(j, n) == shorter + [n];
      AppendWork(ps, s, j - 1, n, unit);
      WorkOfOneMore(ps, shorter, n, unit);
    }
  }

  lemma CarbonOfOneMore(ps: Params, s: seq<int>, n: int, x: real, unit: real)
    requires |s| < |ps.ci| && ps.ci[|s|] == x && unit == Power(ps, n) * x * ps.slotLength
    ensures Carbon(ps, s + [n]) == Carbon(ps, s) + unit
  {
    assert (s + [n])[..|s|] == s;
  }

  /** And at one intensity j times its carbon. */
  lemma {:induction false} AppendCarbon(ps: Params, s: seq<int>, j: nat, n: int, x: real, unit: real)
    requires unit == Power(ps, n) * x * ps.slotLength && |s| + j <= |ps.ci|
    requires forall t :: |s| <= t < |s| + j ==> ps.ci[t] == x
    ensures Carbon(ps, s + Copies(j, n)) == Carbon(ps, s) + Times(j, unit)
  {
    hide Power, Carbon;
    if j == 0 {
      assert s + Copies(j, n) == s;
    } else {
      var shorter := s + Copies(j - 1, n);
      assert s + Copies(j, n) == shorter + [n];
      AppendCarbon(ps, s, j - 1, n, x, unit);
      CarbonOfOneMore(ps, shorter, n, x, unit);
    }
  }

  /** The throughput of a nodes in i slots and b nodes in j slots. */
  function BlockThroughput(profile: map<int, Profile>, i: nat, j: nat, a: int, b: int): real {
    i as real * Lookup(profile, a).throughput + j as real * Lookup(profile, b).throughput
  }

  /** Their power, weighted by the intensities 1 and x. */
  function BlockPower(profile: map<int, Profile>, i: nat, j: nat, x: real, a: int, b: int): real {
    i as real * Lookup(profile, a).power + j as real * (Lookup(profile, b).power * x)
  }

  lemma BlockSum(i: nat, j: nat, a: real, b: real, len: real, wa: real, wb: real, total: real)
    requires wa == a * len && wb == b * len && total == i as real * a + j as real * b
    ensures Times(i, wa) + Times(j, wb) == total * len
  {
    hide Times;
    TimesIsProduct(i, wa);
    TimesIsProduct(j, wb);
    Distribute(i as real, j as real, a, b, len, wa, wb, total);
  }

  lemma Distribute(i: real, j: real, a: real, b: real, len: real, wa: real, wb: real, total: real)
    requires wa == a * len && wb == b * len && total == i * a + j * b
    ensures i * wa + j * wb == total * len
  {
    assert i * wa == (i * a) * len && j * wb == (j * b) * len;
  }

  /** The totals of two blocks. */
  lemma BlockTotals(ps: Params, i: nat, j: nat, x: real, a: int, b: int)
    requires ps.ci == Block(i, j, 1.0, x)
    ensures Work(ps, Block(i, j, a, b)) == BlockThroughput(ps.profile, i, j, a, b) * ps.slotLength
    ensures Carbon(ps, Block(i, j, a, b)) == BlockPower(ps.profile, i, j, x, a, b) * ps.slotLength
  {
    hide Times, Work, Carbon;
    var p, q, len := Lookup(ps.profile, a), Lookup(ps.profile, b), ps.slotLength;
    var wa, wb, ca, cb := p.throughput * len, q.throughput * len, p.power * len, q.power * x * len;
    BlockWork(ps, i, j, a, b, wa, wb);
    BlockSum(i, j, p.throughput, q.throughput, len, wa, wb, BlockThroughput(ps.profile, i, j, a, b));
    BlockCarbon(ps, i, j, x, a, b, ca, cb);
    BlockSum(i, j, p.power, q.power * x, len, ca, cb, BlockPower(ps.profile, i, j, x, a, b));
  }

  lemma BlockWork(ps: Params, i: nat, j: nat, a: int, b: int, wa: real, wb: real)
    requires wa == Throughput(ps, a) * ps.slotLength && wb == Throughput(ps, b) * ps.slotLength
    ensures Work(ps, Block(i, j, a, b)) == Times(i, wa) + Times(j, wb)
  {
    hide Times, Copies, Throughput;
    assert [] + Copies(i, a) == Copies(i, a);
    AppendWork(ps, [], i, a, wa);
    AppendWork(ps, Copies(i, a), j, b, wb);
  }

  lemma BlockCarbon(ps: Params, i: nat, j: nat, x: real, a: int, b: int, ca: real, cb: real)
    requires ps.ci == Block(i, j, 1.0, x)
    requires ca == Power(ps, a) * ps.slotLength && cb == Power(ps, b) * x * ps.slotLength
    ensures Carbon(ps, Block(i, j, a, b)) == Times(i, ca) + Times(j, cb)
  {
    hide Times, Power;
    assert [] + Copies(i, a) == Copies(i, a);
    AppendCarbon(ps, [], i, a, 1.0, ca);
    AppendCarbon(ps, Copies(i, a), j, b, x, cb);
  }

  // ----- which pairs of levels are waypoints -----

  /** Level k is worth at least the price at intensity x. */
  ghost predicate LevelWorth(profile: map<int, Profile>, k: int, x: real, price: real) {
    var p := Lookup(profile, k);
    p.marginalThroughput >= price * (p.marginalPower * x)
  }

  /** Level k is worth at most the price at intensity x. */
  ghost predicate LevelWorthAtMost(profile: map<int, Profile>, k: int, x: real, price: real) {
    var p := Lookup(profile, k);
    p.marginalThroughput <= price * (p.marginalPower * x)
  }

  /** At intensity x, level a is worth its price level by level, and the next level is worth no more. */
  ghost predicate FitsLevel(profile: map<int, Profile>, min: int, max: int, a: int, x: real, price: real) {
    && (a == 0 || min <= a <= max)
    && (forall k :: min <= k <= a ==> LevelWorth(profile, k, x, price))
    && var next := if a == 0 then min else a + 1;
       next <= max ==> LevelWorthAtMost(profile, next, x, price)
  }

  lemma BlockFits(ps: Params, i: nat, j: nat, x: real, a: int, b: int, price: real)
    requires Blocks(ps, i, j, x)
    requires FitsLevel(ps.profile, ps.min, ps.max, a, 1.0, price)
    requires FitsLevel(ps.profile, ps.min, ps.max, b, x, price)
    ensures Feasible(ps, Block(i, j, a, b)) && Fits(ps, Block(i, j, a, b), price)
  {
    hide Value, Sound, WellFormed, LevelWorth, LevelWorthAtMost;
    var g := Block(i, j, a, b);
    BlocksSound(ps, i, j, x);
    forall k: int, t: nat | t < ps.slots && ps.min <= k <= g[t] ensures Value(ps, k, t) >= price {
      assert g[t] == if t < i then a else b;
      ValueAgainst(ps, k, t, price);
    }
    forall t: nat | t < ps.slots && Next(ps, g[t]) <= ps.max ensures Value(ps, Next(ps, g[t]), t) <= price {
      ValueAgainst(ps, Next(ps, g[t]), t, price);
    }
  }

  lemma ValueAgainst(ps: Params, k: int, t: nat, price: real)
    requires Sound(ps) && ps.min <= k <= ps.max && t < ps.slots
    ensures Value(ps, k, t) >= price <==> LevelWorth(ps.profile, k, ps.ci[t], price)
    ensures Value(ps, k, t) <= price <==> LevelWorthAtMost(ps.profile, k, ps.ci[t], price)
  {
    SoundRankable(ps, k, t);
    QuotientAtLeast(GainT(ps, k), GainP(ps, k) * ps.ci[t], price);
    QuotientAtMost(GainT(ps, k), GainP(ps, k) * ps.ci[t], price);
  }

  // ----- a waypoint that loses -----

  /** Scaling is on, with a good profile. */
  ghost predicate Scaling(profile: map<int, Profile>, min: int, max: int, len: real) {
    1 <= min < max && len > 0.0 && GoodProfile(profile, max)
  }

  lemma BlockInstance(profile: map<int, Profile>, min: int, max: int, len: real, i: nat, j: nat, x: real)
    returns (ps: Params)
    requires Scaling(profile, min, max, len) && x > 0.0
    ensures ps == Params(profile, min, max, Block(i, j, 1.0, x), i + j, len) && |ps.ci| == i + j
    ensures Blocks(ps, i, j, x)
  {
    ps := Params(profile, min, max, Block(i, j, 1.0, x), i + j, len);
    SoundIsWellFormed(ps);
  }

  lemma LeastRefuted(ps: Params, order: seq<Candidate>, target: real, g: seq<int>, s: seq<int>)
    requires Sound(ps) && WellFormed(ps) && SortedFrom(ps, order) && InRange(order, ps.slots)
    requires Plan(ps, order, target) == Some(g) && |g| == ps.slots == |ps.ci|
    requires Feasible(ps, s) && Work(ps, s) >= Work(ps, g) && Carbon(ps, s) < Carbon(ps, g)
    ensures !AlwaysLeast(ps.profile, ps.min, ps.max, ps.slotLength)
  {
    hide SortedFrom, Plan, Work, Carbon, Sound, WellFormed;
    var q := Params(ps.profile, ps.min, ps.max, ps.ci, |ps.ci|, ps.slotLength);
    assert q == ps;
    assert !LeastOn(q, order, target);
  }

  lemma WithinRefuted(ps: Params, order: seq<Candidate>, target: real, n: nat, s: seq<int>)
    requires Sound(ps) && WellFormed(ps) && SortedFrom(ps, order) && InRange(order, ps.slots)
    requires StopsAt(ps, order, target, 0, n + 1) && ps.slots == |ps.ci|
    requires Feasible(ps, s) && Work(ps, s) >= target && Carbon(ps, s) <= Carbon(ps, Reach(ps, order, n).schedule)
    ensures !AlwaysWithin(ps.profile, ps.min, ps.max, ps.slotLength)
  {
    hide SortedFrom, Work, Carbon, Sound, WellFormed, StopsAt, Reach;
    var q := Params(ps.profile, ps.min, ps.max, ps.ci, |ps.ci|, ps.slotLength);
    assert q == ps;
    assert !WithinOn(q, order, target, n);
  }

  lemma AtMostScaled(p: real, top: real, c: real, bound: real, len: real)
    requires 0.0 <= p <= top && 0.0 < c <= bound && len > 0.0
    ensures p * c * len <= top * bound * len
  {
    assert p * c <= top * c;
    assert top * c <= top * bound;
  }

  /** No raise costs more than a full slot at the highest intensity. */
  lemma RaiseCost(ps: Params, before: seq<int>, t: nat, bound: real)
    requires Sound(ps) && Feasible(ps, before) && t < ps.slots == |ps.ci| && Next(ps, before[t]) <= ps.max
    requires ps.ci[t] <= bound
    ensures Carbon(ps, before[t := Next(ps, before[t])])
         <= Carbon(ps, before) + Power(ps, ps.max) * bound * ps.slotLength
  {
    hide Carbon, Power;
    var v, w := before[t], Next(ps, before[t]);
    assert Allowed(ps, v);
    ThroughputGrows(ps, v, w);
    PowerIsNonNegative(ps, v);
    if w < ps.max { ThroughputGrows(ps, w, ps.max); }
    CarbonOfRaise(ps, before, t, w, Power(ps, w) - Power(ps, v));
    AtMostScaled(Power(ps, w) - Power(ps, v), Power(ps, ps.max), ps.ci[t], bound, ps.slotLength);
  }

  /** If a waypoint of two blocks is beaten by other levels in the blocks, then some plan is not the least
      for its work; and if it is beaten by more than any raise can cost, then not even without it. */
  lemma BeatenIsRefuted(profile: map<int, Profile>, min: int, max: int, len: real, i: nat, j: nat, x: real,
                        a: int, b: int, c: int, d: int, price: real, slack: real)
    requires Scaling(profile, min, max, len) && x > 0.0
    requires FitsLevel(profile, min, max, a, 1.0, price) && FitsLevel(profile, min, max, b, x, price)
    requires (c == 0 || min <= c <= max) && (d == 0 || min <= d <= max)
    requires 0.0 < BlockThroughput(profile, i, j, a, b) <= BlockThroughput(profile, i, j, c, d)
    requires BlockPower(profile, i, j, x, c, d) + slack <= BlockPower(profile, i, j, x, a, b) && slack > 0.0
    ensures !AlwaysLeast(profile, min, max, len)
    ensures slack >= Lookup(profile, max).power * (1.0 + x) ==> !AlwaysWithin(profile, min, max, len)
  {
    hide AlwaysLeast, AlwaysWithin, BlockThroughput, BlockPower, FitsLevel, Favours, Fits, Sound, WellFormed;
    hide SortedFrom, Plan, Work, Carbon, StopsAt, Reach;
    var ps := BlockInstance(profile, min, max, len, i, j, x);
    var g, s := Block(i, j, a, b), Block(i, j, c, d);
    BlockFits(ps, i, j, x, a, b, price);
    BlocksSound(ps, i, j, x);
    var order := FittingOrder(ps, g, price);
    PlanIsWaypoint(ps, order, g);
    BlockTotals(ps, i, j, x, a, b);
    BlockTotals(ps, i, j, x, c, d);
    ScaledGap(BlockThroughput(profile, i, j, a, b), BlockThroughput(profile, i, j, c, d), 0.0, len);
    ScaledGap(BlockPower(profile, i, j, x, c, d), BlockPower(profile, i, j, x, a, b), slack, len);
    assert Feasible(ps, s);
    LeastRefuted(ps, order, Work(ps, g), g, s);
    if slack >= Power(ps, max) * (1.0 + x) {
      var n, before, t := RaisedLast(ps, order, Work(ps, g), g);
      RaiseCost(ps, before, t, 1.0 + x);
      ScaledGap(Power(ps, max) * (1.0 + x), slack, 0.0, len);
      WithinRefuted(ps, order, Work(ps, g), n, s);
    }
  }

  lemma BlocksSound(ps: Params, i: nat, j: nat, x: real)
    requires Blocks(ps, i, j, x)
    ensures Sound(ps) && WellFormed(ps) && |ps.ci| == ps.slots == i + j && ps.slotLength > 0.0 && ps.min >= 1
    ensures Throughput(ps, 0) == 0.0 && (j > 0 ==> x > 0.0)
    ensures forall t :: 0 <= t < i + j ==> ps.ci[t] == if t < i then 1.0 else x
  {
    assert j > 0 ==> ps.ci[i] == x;
  }

  lemma ScaledGap(a: real, b: real, slack: real, len: real)
    requires a + slack <= b && len > 0.0 && slack >= 0.0
    ensures a * len + slack * len <= b * len
    ensures slack > 0.0 ==> a * len < b * len
    ensures a > 0.0 ==> a * len > 0.0
  {
    assert (a + slack) * len <= b * len;
    assert slack > 0.0 ==> slack * len > 0.0;
  }

  // ----- a first step not ranked by its worth is refuted -----

  /** Whole numbers in a ratio below t/d and above p/q, as far above as asked. */
  lemma Counts(d: real, t: real, q: real, p: real, slack: real) returns (i: nat, j: nat)
    requires d > 0.0 && t > 0.0 && q > 0.0 && p > 0.0 && slack > 0.0 && p * d < t * q
    ensures i > 0 && j > 0 && i as real * d <= j as real * t
    ensures i as real * q >= j as real * p + slack
  {
    var e, need := t * q - p * d, d * (q + slack);
    ProductPositive(d, q + slack);
    var f := need / e;
    assert f * e == need;
    QuotientPositive(need, e);
    j := f.Floor + 1;
    var n := j as real;
    assert (n - f) * e > 0.0;
    i := MostSteps(n * t, d);
    EnoughLeft(i as real, n, d, t, q, p, slack);
  }

  lemma MostSteps(room: real, d: real) returns (i: nat)
    requires room >= 0.0 && d > 0.0
    ensures i as real * d <= room < i as real * d + d
  {
    var f := room / d;
    assert f * d == room;
    assert f < 0.0 ==> f * d < 0.0;
    i := f.Floor;
    Around(f, i as real, d, room);
  }

  lemma Around(f: real, n: real, d: real, room: real)
    requires n <= f < n + 1.0 && d > 0.0 && f * d == room
    ensures n * d <= room < n * d + d
  {
    var above, below := f - n, n + 1.0 - f;
    assert above * d >= 0.0;
    assert below * d > 0.0;
    assert below * d == n * d + d - room;
  }

  lemma EnoughLeft(i: real, n: real, d: real, t: real, q: real, p: real, slack: real)
    requires d > 0.0 && q > 0.0 && n > 0.0 && p > 0.0 && slack > 0.0
    requires n * t < i * d + d && n * (t * q - p * d) >= d * (q + slack)
    ensures i * q >= n * p + slack && i > 0.0
  {
    assert (n * t) * q < (i * d + d) * q;
    assert (n * t) * q == n * (t * q);
    assert n * (t * q) >= n * (p * d) + d * (q + slack);
    assert (i * d + d) * q == (i * q) * d + q * d;
    assert n * (p * d) == (n * p) * d;
    assert ((i * q) - (n * p) - slack) * d > 0.0;
    ProductPositive(n, p);
    assert i <= 0.0 ==> i * q <= 0.0;
  }

  /** At intensity x, opening a slot is worth no more than level k of a slot at intensity 1. */
  ghost predicate OpensAfter(profile: map<int, Profile>, min: int, k: int, x: real) {
    var m, p := Lookup(profile, min), Lookup(profile, k);
    p.marginalThroughput * (m.marginalPower * x) >= m.marginalThroughput * p.marginalPower
  }

  ghost predicate OpensLast(profile: map<int, Profile>, min: int, max: int, x: real) {
    forall k :: min <= k <= max ==> OpensAfter(profile, min, k, x)
  }

  /** Level k at intensity x gives at least a units of throughput for b of carbon. */
  ghost predicate RatioAtLeast(profile: map<int, Profile>, k: int, x: real, a: real, b: real) {
    var p := Lookup(profile, k);
    p.marginalThroughput * b >= a * (p.marginalPower * x)
  }

  ghost predicate RatioAtMost(profile: map<int, Profile>, k: int, x: real, a: real, b: real) {
    var p := Lookup(profile, k);
    p.marginalThroughput * b <= a * (p.marginalPower * x)
  }

  /** The last level at intensity 1 is worth no more than any level under it, nor than opening a slot at
      intensity x, and no less than the level after that. */
  ghost predicate FillsLast(profile: map<int, Profile>, min: int, max: int, x: real) {
    var p := Lookup(profile, max);
    && (forall k :: min <= k < max ==> RatioAtLeast(profile, k, 1.0, p.marginalThroughput, p.marginalPower))
    && RatioAtLeast(profile, min, x, p.marginalThroughput, p.marginalPower)
    && RatioAtMost(profile, min + 1, x, p.marginalThroughput, p.marginalPower)
  }

  lemma CrossAtLeast(a: real, b: real, c: real, d: real)
    requires b > 0.0
    ensures c * b >= a * d ==> c >= (a / b) * d
    ensures c * b <= a * d ==> c <= (a / b) * d
  {
    var q := a / b;
    assert q * b == a;
    assert (c - q * d) * b == c * b - a * d;
  }

  /** Against the price a/b. */
  lemma RatioIsWorth(profile: map<int, Profile>, k: int, x: real, a: real, b: real)
    requires b > 0.0
    ensures RatioAtLeast(profile, k, x, a, b) ==> LevelWorth(profile, k, x, a / b)
    ensures RatioAtMost(profile, k, x, a, b) ==> LevelWorthAtMost(profile, k, x, a / b)
  {
    var p := Lookup(profile, k);
    CrossAtLeast(a, b, p.marginalThroughput, p.marginalPower * x);
  }

  lemma OwnRatio(profile: map<int, Profile>, k: int, x: real, a: real, b: real)
    requires a == Lookup(profile, k).marginalThroughput && b == Lookup(profile, k).marginalPower * x
    ensures RatioAtLeast(profile, k, x, a, b) && RatioAtMost(profile, k, x, a, b)
  {
  }

  lemma OpensAfterRatio(profile: map<int, Profile>, min: int, k: int, x: real, a: real, b: real)
    requires OpensAfter(profile, min, k, x)
    requires a == Lookup(profile, min).marginalThroughput && b == Lookup(profile, min).marginalPower * x
    ensures RatioAtLeast(profile, k, 1.0, a, b)
  {
  }

  lemma OpeningPrice(profile: map<int, Profile>, min: int, max: int, len: real, x: real) returns (price: real)
    requires Scaling(profile, min, max, len) && x > 0.0 && OpensLast(profile, min, max, x)
    ensures FitsLevel(profile, min, max, max, 1.0, price) && FitsLevel(profile, min, max, 0, x, price)
  {
    hide RatioAtLeast, RatioAtMost, LevelWorth, LevelWorthAtMost, OpensAfter;
    var m := Lookup(profile, min);
    assert GoodLevel(profile, min);
    ProductPositive(m.marginalPower, x);
    var b := m.marginalPower * x;
    price := m.marginalThroughput / b;
    forall k | min <= k <= max ensures LevelWorth(profile, k, 1.0, price) {
      OpensAfterRatio(profile, min, k, x, m.marginalThroughput, b);
      RatioIsWorth(profile, k, 1.0, m.marginalThroughput, b);
    }
    OwnRatio(profile, min, x, m.marginalThroughput, b);
    RatioIsWorth(profile, min, x, m.marginalThroughput, b);
  }

  lemma FillingPrice(profile: map<int, Profile>, min: int, max: int, len: real, x: real) returns (price: real)
    requires Scaling(profile, min, max, len) && x > 0.0 && FillsLast(profile, min, max, x)
    ensures FitsLevel(profile, min, max, max - 1, 1.0, price) && FitsLevel(profile, min, max, min, x, price)
  {
    hide RatioAtLeast, RatioAtMost, LevelWorth, LevelWorthAtMost;
    var p := Lookup(profile, max);
    assert GoodLevel(profile, max);
    price := p.marginalThroughput / p.marginalPower;
    forall k | min <= k < max ensures LevelWorth(profile, k, 1.0, price) {
      RatioIsWorth(profile, k, 1.0, p.marginalThroughput, p.marginalPower);
    }
    OwnRatio(profile, max, 1.0, p.marginalThroughput, p.marginalPower);
    RatioIsWorth(profile, max, 1.0, p.marginalThroughput, p.marginalPower);
    RatioIsWorth(profile, min, x, p.marginalThroughput, p.marginalPower);
    RatioIsWorth(profile, min + 1, x, p.marginalThroughput, p.marginalPower);
  }

  lemma TradeOff(i: real, j: real, top: real, under: real, first: real)
    ensures i * top - (i * under + j * first) == i * (top - under) - j * first
  {
  }

  /** The last node in each of i slots against the first step in j slots at intensity x. */
  lemma LastAgainstFirst(profile: map<int, Profile>, min: int, max: int, len: real, i: nat, j: nat, x: real)
    requires Scaling(profile, min, max, len)
    ensures var m, p := Lookup(profile, min), Lookup(profile, max);
      && BlockThroughput(profile, i, j, max, 0) - BlockThroughput(profile, i, j, max - 1, min)
         == i as real * p.marginalThroughput - j as real * m.throughput
      && BlockPower(profile, i, j, x, max, 0) - BlockPower(profile, i, j, x, max - 1, min)
         == i as real * p.marginalPower - j as real * (m.power * x)
    ensures i > 0 && j > 0 ==>
              BlockThroughput(profile, i, j, max, 0) > 0.0 && BlockThroughput(profile, i, j, max - 1, min) > 0.0
  {
    var m, p, u := Lookup(profile, min), Lookup(profile, max), Lookup(profile, max - 1);
    assert GoodLevel(profile, max);
    TradeOff(i as real, j as real, p.throughput, u.throughput, m.throughput);
    TradeOff(i as real, j as real, p.power, u.power, m.power * x);
    PowerPositive(profile, min, max);
    PowerPositive(profile, max, max);
    PowerPositive(profile, max - 1, max);
    if i > 0 && j > 0 {
      ProductPositive(i as real, p.throughput);
      ProductPositive(i as real, u.throughput);
      ProductPositive(j as real, m.throughput);
    }
  }

  /** Cheap slots filled to the top are beaten by one node less in each and MinReplicas nodes in dear slots,
      if the first step is worth more than it is ranked, at an intensity x at which it is still left. */
  lemma UnderrankedIsRefuted(profile: map<int, Profile>, min: int, max: int, len: real, x: real)
    requires Scaling(profile, min, max, len) && x > 0.0 && OpensLast(profile, min, max, x)
    requires var m, p := Lookup(profile, min), Lookup(profile, max);
      m.throughput * p.marginalPower > p.marginalThroughput * (m.power * x)
    ensures !AlwaysLeast(profile, min, max, len) && !AlwaysWithin(profile, min, max, len)
  {
    hide AlwaysLeast, AlwaysWithin, FitsLevel, BlockThroughput, BlockPower, OpensLast;
    var m, p := Lookup(profile, min), Lookup(profile, max);
    assert GoodLevel(profile, max);
    PowerPositive(profile, min, max);
    PowerPositive(profile, max, max);
    ProductPositive(m.power, x);
    ProductPositive(p.power, 1.0 + x);
    var price := OpeningPrice(profile, min, max, len, x);
    var slack := p.power * (1.0 + x);
    var i, j := Counts(p.marginalThroughput, m.throughput, p.marginalPower, m.power * x, slack);
    LastAgainstFirst(profile, min, max, len, i, j, x);
    BeatenIsRefuted(profile, min, max, len, i, j, x, max, 0, max - 1, min, price, slack);
  }

  /** And they beat it, in some order of the ties, if the first step is worth less than it is ranked, at an
      intensity x at which it is just taken. */
  lemma OverrankedIsRefuted(profile: map<int, Profile>, min: int, max: int, len: real, x: real)
    requires Scaling(profile, min, max, len) && x > 0.0 && FillsLast(profile, min, max, x)
    requires var m, p := Lookup(profile, min), Lookup(profile, max);
      m.throughput * p.marginalPower < p.marginalThroughput * (m.power * x)
    ensures !AlwaysLeast(profile, min, max, len) && !AlwaysWithin(profile, min, max, len)
  {
    hide AlwaysLeast, AlwaysWithin, FitsLevel, BlockThroughput, BlockPower, FillsLast;
    var m, p := Lookup(profile, min), Lookup(profile, max);
    assert GoodLevel(profile, max);
    PowerPositive(profile, min, max);
    PowerPositive(profile, max, max);
    ProductPositive(m.power, x);
    ProductPositive(p.power, 1.0 + x);
    var price := FillingPrice(profile, min, max, len, x);
    var slack := p.power * (1.0 + x);
    var j, i := Counts(m.throughput, p.marginalThroughput, m.power * x, p.marginalPower, slack);
    LastAgainstFirst(profile, min, max, len, i, j, x);
    BeatenIsRefuted(profile, min, max, len, i, j, x, max - 1, min, max, 0, price, slack);
  }

  lemma {:induction false} PowerPositive(profile: map<int, Profile>, n: int, max: int)
    requires GoodProfile(profile, max) && 1 <= n <= max
    ensures Lookup(profile, n).power > 0.0 && Lookup(profile, n).throughput > 0.0
  {
    assert GoodLevel(profile, n);
    if n > 1 {
      PowerPositive(profile, n - 1, max);
    }
  }

  /** The last node of the first step gives at most h per power and the step at least a on average; every
      level gives at least l, and the last one at most top. */
  ghost predicate Bounded(profile: map<int, Profile>, min: int, max: int, h: real, l: real, top: real, a: real) {
    var m, p := Lookup(profile, min), Lookup(profile, max);
    && m.marginalThroughput <= h * m.marginalPower && p.marginalThroughput <= top * p.marginalPower
    && m.throughput >= a * m.power
    && forall k :: min <= k <= max ==> GivesAtLeast(profile, k, l)
  }

  ghost predicate GivesAtLeast(profile: map<int, Profile>, k: int, l: real) {
    Lookup(profile, k).marginalThroughput >= l * Lookup(profile, k).marginalPower
  }

  /** A first step worth clearly more than it is ranked, read off such bounds. */
  lemma BoundsRefute(profile: map<int, Profile>, min: int, max: int, len: real,
                     h: real, l: real, top: real, a: real)
    requires Scaling(profile, min, max, len) && h > 0.0 && l > 0.0 && top * h < a * l
    requires Bounded(profile, min, max, h, l, top, a)
    ensures !AlwaysLeast(profile, min, max, len) && !AlwaysWithin(profile, min, max, len)
  {
    hide AlwaysLeast, AlwaysWithin, OpensAfter, GoodProfile, GivesAtLeast;
    var m, p := Lookup(profile, min), Lookup(profile, max);
    GoodLevels(profile, max, max);
    PowerPositive(profile, min, max);
    QuotientPositive(h, l);
    var x := h / l;
    assert x * l == h;
    forall k | min <= k <= max ensures OpensAfter(profile, min, k, x) {
      BoundOpensAfter(profile, min, max, k, x, h, l);
    }
    BoundedFirst(m.throughput, m.power, p.marginalThroughput, p.marginalPower, x, h, l, top, a);
    UnderrankedIsRefuted(profile, min, max, len, x);
  }

  lemma GoodLevels(profile: map<int, Profile>, max: int, k: int)
    requires GoodProfile(profile, max) && 1 <= k <= max
    ensures Lookup(profile, k).marginalThroughput > 0.0 && Lookup(profile, k).marginalPower > 0.0
  {
    assert GoodLevel(profile, k);
  }

  lemma BoundOpensAfter(profile: map<int, Profile>, min: int, max: int, k: int, x: real, h: real, l: real)
    requires h > 0.0 && l > 0.0 && x * l == h && GoodProfile(profile, max) && 1 <= min <= k <= max
    requires Lookup(profile, min).marginalThroughput <= h * Lookup(profile, min).marginalPower
    requires GivesAtLeast(profile, k, l)
    ensures OpensAfter(profile, min, k, x)
  {
    var m, p := Lookup(profile, min), Lookup(profile, k);
    GoodLevels(profile, max, min);
    GoodLevels(profile, max, k);
    BoundedLevel(m.marginalThroughput, m.marginalPower, p.marginalThroughput, p.marginalPower, x, h, l);
  }

  lemma BoundedLevel(mt: real, mp: real, kt: real, kp: real, x: real, h: real, l: real)
    requires h > 0.0 && l > 0.0 && mp > 0.0 && kp > 0.0 && x * l == h && mt <= h * mp && kt >= l * kp
    ensures kt * (mp * x) >= mt * kp
  {
    assert x > 0.0 by { assert x <= 0.0 ==> x * l <= 0.0; }
    ProductPositive(mp, x);
    assert kt * (mp * x) >= (l * kp) * (mp * x);
    assert (l * kp) * (mp * x) == (h * mp) * kp;
    assert (h * mp) * kp >= mt * kp;
  }

  lemma BoundedFirst(t: real, p: real, pt: real, pp: real, x: real, h: real, l: real, top: real, a: real)
    requires h > 0.0 && l > 0.0 && p > 0.0 && pp > 0.0 && x * l == h && top * h < a * l
    requires pt <= top * pp && t >= a * p
    ensures t * pp > pt * (p * x)
  {
    assert x > 0.0 by { assert x <= 0.0 ==> x * l <= 0.0; }
    assert (a - top * x) * l > 0.0;
    assert a > top * x;
    ProductPositive(p, pp);
    ProductPositive(p, x);
    assert t * pp >= (a * p) * pp;
    assert pt * (p * x) <= (top * pp) * (p * x);
    assert (a * p) * pp == a * (p * pp) && (top * pp) * (p * x) == (top * x) * (p * pp);
    assert (a - top * x) * (p * pp) > 0.0;
  }

  lemma CrossFalls(t0: real, p0: real, t1: real, p1: real, t2: real, p2: real)
    requires p1 > 0.0 && p0 > 0.0 && p2 > 0.0 && t0 * p1 >= t1 * p0 && t1 * p2 >= t2 * p1
    ensures t0 * p2 >= t2 * p0
  {
    assert (t0 * p1) * p2 >= (t1 * p0) * p2;
    assert (t1 * p2) * p0 >= (t2 * p1) * p0;
    assert (t0 * p2 - t2 * p0) * p1 >= 0.0;
  }

  /** With diminishing returns a lower level has at least the throughput per power of a higher one. */
  lemma {:induction false} RatiosFall(profile: map<int, Profile>, low: int, j: int, k: int, max: int)
    requires GoodProfile(profile, max) && DiminishingFrom(profile, low, max) && 1 <= low <= j <= k <= max
    ensures var p, q := Lookup(profile, j), Lookup(profile, k);
      p.marginalThroughput * q.marginalPower >= q.marginalThroughput * p.marginalPower
    decreases k
  {
    if j < k {
      RatiosFall(profile, low, j, k - 1, max);
      assert Diminishing(profile, k - 1);
      assert GoodLevel(profile, j) && GoodLevel(profile, k - 1) && GoodLevel(profile, k);
      var p, q, r := Lookup(profile, j), Lookup(profile, k - 1), Lookup(profile, k);
      CrossFalls(p.marginalThroughput, p.marginalPower, q.marginalThroughput, q.marginalPower,
                 r.marginalThroughput, r.marginalPower);
    }
  }

  /** Multiplying by the intensity x at which opening a slot is ranked with the last level. */
  lemma AtTheTie(mt: real, mp: real, pt: real, pp: real, x: real, kt: real, kp: real)
    requires mt > 0.0 && mp > 0.0 && pt > 0.0 && pp > 0.0 && x * (mp * pt) == mt * pp
    ensures kt * pp >= pt * kp ==> kt * (mp * x) >= mt * kp
    ensures mt * kp >= kt * mp ==> kt * pp <= pt * (kp * x)
    ensures mt * kp <= kt * mp ==> kt * pp >= pt * (kp * x)
    ensures kt * mp > mt * kp ==> kt * pp > pt * (kp * x)
    ensures kt * mp < mt * kp ==> kt * pp < pt * (kp * x)
  {
    assert (kt * (mp * x)) * pt == kt * (mt * pp);
    assert kt * (mt * pp) == (kt * pp) * mt && (mt * kp) * pt == (pt * kp) * mt;
    assert (kt * pp - pt * kp) * mt == (kt * (mp * x) - mt * kp) * pt;
    assert (pt * (kp * x)) * mp == kp * (mt * pp);
    assert (kt * pp - pt * (kp * x)) * mp == (kt * mp - mt * kp) * pp;
  }

  /** The intensity at which opening a slot is ranked with the last level at intensity 1. */
  lemma TieIntensity(profile: map<int, Profile>, min: int, max: int, len: real) returns (x: real)
    requires Scaling(profile, min, max, len) && DiminishingFrom(profile, min, max)
    ensures x > 0.0 && OpensLast(profile, min, max, x) && FillsLast(profile, min, max, x)
    ensures var m, p := Lookup(profile, min), Lookup(profile, max);
      && (m.throughput * m.marginalPower > m.marginalThroughput * m.power ==>
           m.throughput * p.marginalPower > p.marginalThroughput * (m.power * x))
      && (m.throughput * m.marginalPower < m.marginalThroughput * m.power ==>
           m.throughput * p.marginalPower < p.marginalThroughput * (m.power * x))
  {
    hide DiminishingFrom, OpensLast, FillsLast;
    var m, p := Lookup(profile, min), Lookup(profile, max);
    var mt, mp, pt, pp := m.marginalThroughput, m.marginalPower, p.marginalThroughput, p.marginalPower;
    assert GoodLevel(profile, min) && GoodLevel(profile, max);
    x := Tie(mt, mp, pt, pp);
    TieOpensLast(profile, min, max, len, x);
    TieFillsLast(profile, min, max, len, x);
    AtTheTie(mt, mp, pt, pp, x, m.throughput, m.power);
  }

  ghost predicate Tied(profile: map<int, Profile>, min: int, max: int, x: real) {
    var m, p := Lookup(profile, min), Lookup(profile, max);
    x * (m.marginalPower * p.marginalThroughput) == m.marginalThroughput * p.marginalPower
  }

  lemma TieOpensLast(profile: map<int, Profile>, min: int, max: int, len: real, x: real)
    requires Scaling(profile, min, max, len) && DiminishingFrom(profile, min, max)
    requires Tied(profile, min, max, x)
    ensures OpensLast(profile, min, max, x)
  {
    hide DiminishingFrom;
    var m, p := Lookup(profile, min), Lookup(profile, max);
    assert GoodLevel(profile, min) && GoodLevel(profile, max);
    forall k | min <= k <= max ensures OpensAfter(profile, min, k, x) {
      RatiosFall(profile, min, k, max, max);
      AtTheTie(m.marginalThroughput, m.marginalPower, p.marginalThroughput, p.marginalPower, x,
               Lookup(profile, k).marginalThroughput, Lookup(profile, k).marginalPower);
    }
  }

  lemma TieFillsLast(profile: map<int, Profile>, min: int, max: int, len: real, x: real)
    requires Scaling(profile, min, max, len) && DiminishingFrom(profile, min, max)
    requires Tied(profile, min, max, x)
    ensures FillsLast(profile, min, max, x)
  {
    hide DiminishingFrom, RatioAtLeast, RatioAtMost, Tied;
    var p := Lookup(profile, max);
    forall k | min <= k < max ensures RatioAtLeast(profile, k, 1.0, p.marginalThroughput, p.marginalPower) {
      FallingRatio(profile, min, max, len, k);
    }
    TiedRatios(profile, min, max, len, x);
  }

  lemma FallingRatio(profile: map<int, Profile>, min: int, max: int, len: real, k: int)
    requires Scaling(profile, min, max, len) && DiminishingFrom(profile, min, max) && min <= k <= max
    ensures var p := Lookup(profile, max);
      RatioAtLeast(profile, k, 1.0, p.marginalThroughput, p.marginalPower)
  {
    RatiosFall(profile, min, k, max, max);
  }

  lemma TiedRatios(profile: map<int, Profile>, min: int, max: int, len: real, x: real)
    requires Scaling(profile, min, max, len) && DiminishingFrom(profile, min, max)
    requires Tied(profile, min, max, x)
    ensures var p := Lookup(profile, max);
      && RatioAtLeast(profile, min, x, p.marginalThroughput, p.marginalPower)
      && RatioAtMost(profile, min + 1, x, p.marginalThroughput, p.marginalPower)
  {
    hide DiminishingFrom;
    var m, p, q := Lookup(profile, min), Lookup(profile, max), Lookup(profile, min + 1);
    assert GoodLevel(profile, min) && GoodLevel(profile, max);
    RatiosFall(profile, min, min, min + 1, max);
    AtTheTie(m.marginalThroughput, m.marginalPower, p.marginalThroughput, p.marginalPower, x,
             q.marginalThroughput, q.marginalPower);
    AtTheTie(m.marginalThroughput, m.marginalPower, p.marginalThroughput, p.marginalPower, x,
             m.marginalThroughput, m.marginalPower);
  }

  lemma Tie(mt: real, mp: real, pt: real, pp: real) returns (x: real)
    requires mt > 0.0 && mp > 0.0 && pt > 0.0 && pp > 0.0
    ensures x > 0.0 && x * (mp * pt) == mt * pp
  {
    ProductPositive(mt, pp);
    ProductPositive(mp, pt);
    x := (mt * pp) / (mp * pt);
    QuotientPositive(mt * pp, mp * pt);
  }

  /** A first step not ranked by its worth is refuted by a forecast of enough cheap and dear slots. */
  lemma UnfairIsRefuted(profile: map<int, Profile>, min: int, max: int, len: real)
    requires Scaling(profile, min, max, len) && DiminishingFrom(profile, min, max)
    requires !FairFirstStep(profile, min)
    ensures !AlwaysLeast(profile, min, max, len) && !AlwaysWithin(profile, min, max, len)
  {
    hide AlwaysLeast, AlwaysWithin, DiminishingFrom, OpensLast, FillsLast;
    var m := Lookup(profile, min);
    var x := TieIntensity(profile, min, max, len);
    if m.throughput * m.marginalPower > m.marginalThroughput * m.power {
      UnderrankedIsRefuted(profile, min, max, len, x);
    } else {
      OverrankedIsRefuted(profile, min, max, len, x);
    }
  }

  /** Exactly when the policy is greedy-optimal. For a profile with positive marginals whose returns
      diminish from MinReplicas on, the plan has the least carbon for the work it does, for every forecast,
      every demand and every order of ties, if and only if scaling is off or the first step is ranked by its
      worth; and the same condition decides whether the plan always stays within one raise of the least
      carbon that meets the demand. MinReplicas 1 always satisfies it. */
  lemma GreedyOptimalIffFair(profile: map<int, Profile>, min: int, max: int, len: real)
    requires 1 <= min && len > 0.0 && GoodProfile(profile, max) && DiminishingFrom(profile, min, max)
    ensures AlwaysLeast(profile, min, max, len) <==> min >= max || FairFirstStep(profile, min)
    ensures AlwaysWithin(profile, min, max, len) <==> min >= max || FairFirstStep(profile, min)
  {
    hide FairFirstStep, Plan, SortedFrom, StopsAt, LeastForItsWork, ShortEmitsLess;
    if min >= max || FairFirstStep(profile, min) {
      FairIsGreedyOptimal(profile, min, max, len);
    } else {
      UnfairIsRefuted(profile, min, max, len);
    }
  }

  lemma FairIsGreedyOptimal(profile: map<int, Profile>, min: int, max: int, len: real)
    requires FairlyRanked(profile, min, max)
    ensures AlwaysLeast(profile, min, max, len) && AlwaysWithin(profile, min, max, len)
  {
    hide FairlyRanked, LeastOn, WithinOn;
    forall ci: seq<real>, order: seq<Candidate>, target: real
      ensures LeastOn(Params(profile, min, max, ci, |ci|, len), order, target)
    {
      FairIsLeast(Params(profile, min, max, ci, |ci|, len), order, target);
    }
    forall ci: seq<real>, order: seq<Candidate>, target: real, n: nat
      ensures WithinOn(Params(profile, min, max, ci, |ci|, len), order, target, n)
    {
      FairIsWithin(Params(profile, min, max, ci, |ci|, len), order, target, n);
    }
  }

  lemma FairIsLeast(ps: Params, order: seq<Candidate>, target: real)
    requires FairlyRanked(ps.profile, ps.min, ps.max)
    ensures LeastOn(ps, order, target)
  {
    hide FairlyRanked, Plan, SortedFrom, LeastForItsWork;
    if Sound(ps) && WellFormed(ps) && SortedFrom(ps, order) && InRange(order, ps.slots)
       && Plan(ps, order, target) != None
    {
      LeastCarbonForItsWork(ps, order, target);
    }
  }

  lemma FairIsWithin(ps: Params, order: seq<Candidate>, target: real, n: nat)
    requires FairlyRanked(ps.profile, ps.min, ps.max)
    ensures WithinOn(ps, order, target, n)
  {
    hide FairlyRanked, Plan, SortedFrom, StopsAt, ShortEmitsLess;
    if Sound(ps) && WellFormed(ps) && SortedFrom(ps, order) && InRange(order, ps.slots)
       && StopsAt(ps, order, target, 0, n + 1)
    {
      WithinOneRaise(ps, order, target, n);
    }
  }

  // ----- two inputs on which it fails -----

  /** A schedule of two blocks that takes more than the price is the plan for its work in every order. */
  lemma StrictBlockIsPlanned(ps: Params, order: seq<Candidate>, i: nat, j: nat, x: real,
                             a: int, b: int, price: real)
    requires Blocks(ps, i, j, x) && SortedFrom(ps, order)
    requires FitsLevel(ps.profile, ps.min, ps.max, a, 1.0, price)
    requires FitsLevel(ps.profile, ps.min, ps.max, b, x, price)
    requires forall k :: ps.min <= k <= a ==> !LevelWorthAtMost(ps.profile, k, 1.0, price)
    requires forall k :: ps.min <= k <= b ==> !LevelWorthAtMost(ps.profile, k, x, price)
    ensures var g := Block(i, j, a, b);
      InRange(order, ps.slots) && Feasible(ps, g) && Favours(ps, order, g) && Plan(ps, order, Work(ps, g)) == Some(g)
  {
    hide Value, Sound, WellFormed, LevelWorth, LevelWorthAtMost, SortedFrom, Favours, Plan, Work, Fits;
    var g := Block(i, j, a, b);
    BlocksSound(ps, i, j, x);
    BlockFits(ps, i, j, x, a, b, price);
    forall k: int, t: nat | t < ps.slots && ps.min <= k <= g[t] ensures Value(ps, k, t) > price {
      ValueAgainst(ps, k, t, price);
    }
    StrictIsFavoured(ps, order, g, price);
    PlanIsWaypoint(ps, order, g);
  }

  /** MinReplicas 2, whose second node adds far less than the first, and a third node like the second. */
  const UNFAIR := map[0 := Profile(0.0, 0.0, 0.0, 0.0), 1 := Profile(10.0, 10.0, 1.0, 1.0),
                      2 := Profile(12.0, 2.0, 3.0, 2.0), 3 := Profile(18.0, 6.0, 9.0, 6.0)]
  const UNFAIR_SLOTS := Params(UNFAIR, 2, 3, [1.0, 1.5], 2, 1.0)

  lemma UnfairIsGood()
    ensures GoodProfile(UNFAIR, 3) && DiminishingFrom(UNFAIR, 2, 3) && !FairFirstStep(UNFAIR, 2)
  {
    assert GoodLevel(UNFAIR, 1) && GoodLevel(UNFAIR, 2) && GoodLevel(UNFAIR, 3);
    assert forall j :: 1 <= j <= 3 ==> GoodLevel(UNFAIR, j);
    assert Diminishing(UNFAIR, 2);
  }

  /** Above MinReplicas 1 the plan need not be the least for its own work: for 18 units it is (3, 0),
      with 9 units of carbon, though (2, 2) does 24 with 7.5. */
  lemma LeastFails(order: seq<Candidate>)
    requires WellFormed(UNFAIR_SLOTS) && SortedFrom(UNFAIR_SLOTS, order)
    ensures Sound(UNFAIR_SLOTS) && DiminishingFrom(UNFAIR, 2, 3) && !FairFirstStep(UNFAIR, 2)
    ensures InRange(order, 2) && Plan(UNFAIR_SLOTS, order, 18.0) == Some([3, 0])
    ensures Work(UNFAIR_SLOTS, [3, 0]) == 18.0 && Carbon(UNFAIR_SLOTS, [3, 0]) == 9.0
    ensures Feasible(UNFAIR_SLOTS, [2, 2])
    ensures Work(UNFAIR_SLOTS, [2, 2]) == 24.0 && Carbon(UNFAIR_SLOTS, [2, 2]) == 7.5
  {
    hide Plan, SortedFrom, Work, Carbon, Favours, DiminishingFrom;
    var ps := UNFAIR_SLOTS;
    UnfairIsGood();
    assert Block(1, 1, 1.0, 1.5) == [1.0, 1.5] && Block(1, 1, 3, 0) == [3, 0] && Block(1, 1, 2, 2) == [2, 2];
    assert Blocks(ps, 1, 1, 1.5);
    BlockTotals(ps, 1, 1, 1.5, 3, 0);
    BlockTotals(ps, 1, 1, 1.5, 2, 2);
    StrictBlockIsPlanned(ps, order, 1, 1, 1.5, 3, 0, 0.8);
  }

  /** MinReplicas 2, whose second node adds far more than the first. */
  const LATE := map[0 := Profile(0.0, 0.0, 0.0, 0.0), 1 := Profile(1.0, 1.0, 10.0, 10.0),
                    2 := Profile(11.0, 10.0, 11.0, 1.0), 3 := Profile(23.0, 12.0, 12.5, 1.5)]
  const LATE_SLOTS := Params(LATE, 2, 3, [1.0, 1.1], 2, 1.0)

  lemma LateIsGood()
    ensures GoodProfile(LATE, 3) && DiminishingFrom(LATE, 2, 3) && !FairFirstStep(LATE, 2)
  {
    assert GoodLevel(LATE, 1) && GoodLevel(LATE, 2) && GoodLevel(LATE, 3);
    assert forall j :: 1 <= j <= 3 ==> GoodLevel(LATE, j);
    assert Diminishing(LATE, 2);
  }

  /** And here the first step is ranked too high: for 22 units the plan is (2, 2), with 23.1 units of
      carbon, though (3, 0) does 23 with 12.5. */
  lemma LeastFailsToo(order: seq<Candidate>)
    requires WellFormed(LATE_SLOTS) && SortedFrom(LATE_SLOTS, order)
    ensures Sound(LATE_SLOTS) && DiminishingFrom(LATE, 2, 3) && !FairFirstStep(LATE, 2)
    ensures InRange(order, 2) && Plan(LATE_SLOTS, order, 22.0) == Some([2, 2])
    ensures Work(LATE_SLOTS, [2, 2]) == 22.0 && Carbon(LATE_SLOTS, [2, 2]) == 23.1
    ensures Feasible(LATE_SLOTS, [3, 0])
    ensures Work(LATE_SLOTS, [3, 0]) == 23.0 && Carbon(LATE_SLOTS, [3, 0]) == 12.5
  {
    hide Plan, SortedFrom, Work, Carbon, Favours, DiminishingFrom;
    var ps := LATE_SLOTS;
    LateIsGood();
    assert Block(1, 1, 1.0, 1.1) == [1.0, 1.1] && Block(1, 1, 3, 0) == [3, 0] && Block(1, 1, 2, 2) == [2, 2];
    assert Blocks(ps, 1, 1, 1.1);
    BlockTotals(ps, 1, 1, 1.1, 3, 0);
    BlockTotals(ps, 1, 1, 1.1, 2, 2);
    StrictBlockIsPlanned(ps, order, 1, 1, 1.1, 2, 2, 8.5);
  }

  /** Three nodes, of which the second and third add a tenth of the first. */
  const STEEP := map[0 := Profile(0.0, 0.0, 0.0, 0.0), 1 := Profile(10.0, 10.0, 1.0, 1.0),
                     2 := Profile(11.0, 1.0, 2.0, 1.0), 3 := Profile(12.0, 1.0, 3.0, 1.0)]

  /** Nor does it stay within one raise: with ten slots at intensity 1, one at 2, and a demand of 120,
      the plan fills the ten to three nodes; without its last raise it emits 29, and two nodes in each
      of the eleven slots meet the demand with 24. */
  lemma WithinFails(order: seq<Candidate>) returns (n: nat)
    requires var ps := Params(STEEP, 2, 3, Block(10, 1, 1.0, 2.0), 11, 1.0);
      WellFormed(ps) && SortedFrom(ps, order)
    ensures var ps := Params(STEEP, 2, 3, Block(10, 1, 1.0, 2.0), 11, 1.0);
            var s := Block(10, 1, 2, 2);
      && Sound(ps) && DiminishingFrom(STEEP, 2, 3) && InRange(order, 11)
      && StopsAt(ps, order, 120.0, 0, n + 1)
      && |Reach(ps, order, n).schedule| == 11 && Carbon(ps, Reach(ps, order, n).schedule) == 29.0
      && Feasible(ps, s) && Work(ps, s) == 121.0 && Carbon(ps, s) == 24.0
  {
    hide Plan, SortedFrom, Work, Carbon, StopsAt, Reach, WellFormed, Favours;
    var ps := Params(STEEP, 2, 3, Block(10, 1, 1.0, 2.0), 11, 1.0);
    SteepIsGood();
    assert Blocks(ps, 10, 1, 2.0);
    BlockTotals(ps, 10, 1, 2.0, 3, 0);
    BlockTotals(ps, 10, 1, 2.0, 2, 2);
    StrictBlockIsPlanned(ps, order, 10, 1, 2.0, 3, 0, 0.75);
    var g, before, t := Block(10, 1, 3, 0), [], 0;
    n, before, t := RaisedLast(ps, order, 120.0, g);
    assert Allowed(ps, before[t]) && g[t] == Next(ps, before[t]) && g[t] != 0;
    assert t < 10 && ps.ci[t] == 1.0;
    CarbonOfRaise(ps, before, t, 3, 1.0);
  }

  lemma SteepIsGood()
    ensures GoodProfile(STEEP, 3) && DiminishingFrom(STEEP, 2, 3)
  {
    assert GoodLevel(STEEP, 1) && GoodLevel(STEEP, 2) && GoodLevel(STEEP, 3);
    assert forall j :: 1 <= j <= 3 ==> GoodLevel(STEEP, j);
    assert Diminishing(STEEP, 2);
  }
}

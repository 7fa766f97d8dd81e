/** The profiles the repository ships, and what the optimality results say about them. */
module Limits {
  import opened Common
  import opened Profiles
  import opened Planner
  import opened PlannerInvariants
  import opened PlannerResults
  import opened Pricing
  import opened Optimality
  import opened Waypoints
  import opened ExactRanking
  import opened ExactMinimality
  import opened ExactFailures

  const NBODY_100K := [
    Row(0, 0.0, 0.0),
    Row(1, 1757.8908686976195, 54.77962427087617),
    Row(2, 3496.3996474651103, 109.80497076152103),
    Row(3, 5104.3944617012185, 161.22449885915682),
    Row(4, 6661.952186308102, 217.60732958554),
    Row(5, 8073.214680924454, 273.1548352612487),
    Row(6, 9447.749384138653, 331.2253152799572),
    Row(7, 10747.782862749653, 390.73159215346425)]

  const NBODY_10K := [
    Row(0, 0.0, 0.0),
    Row(1, 16130.263301548106, 51.98662779725372),
    Row(2, 26084.902766614217, 104.8738026807935),
    Row(3, 34977.82018587672, 154.72681313525464),
    Row(4, 41228.85476314777, 207.53221233212847),
    Row(5, 47430.986825779524, 259.09560823722086),
    Row(6, 52196.29225924978, 311.5850399494926),
    Row(7, 56212.42180881337, 366.3482810890281)]

  lemma RowsOf(rows: seq<Row>, max: int)
    requires Consecutive(rows) && max < |rows|
    ensures forall j {:trigger Lookup(Loaded(rows), j)} :: 0 <= j <= max ==>
              Lookup(Loaded(rows), j) == RowProfile(rows, j)
  {
    forall j | 0 <= j <= max ensures Lookup(Loaded(rows), j) == RowProfile(rows, j) {
      MarginalsSumBack(rows, j);
    }
  }

  /** Row j + 1 gains no more throughput per unit of power than row j. */
  ghost predicate FallsAt(rows: seq<Row>, j: int)
    requires 0 <= j < |rows| - 1
  {
    var p, q := RowProfile(rows, j), RowProfile(rows, j + 1);
    p.marginalThroughput * q.marginalPower >= q.marginalThroughput * p.marginalPower
  }

  /** Diminishing returns can be read off the rows. */
  lemma DiminishingInRows(rows: seq<Row>, min: int, max: int)
    requires Consecutive(rows) && 0 <= min && 0 <= max < |rows|
    ensures DiminishingFrom(Loaded(rows), min, max) <==> forall j :: min <= j < max ==> FallsAt(rows, j)
  {
    hide Loaded, RowProfile;
    RowsOf(rows, max);
    forall j | min <= j < max ensures Diminishing(Loaded(rows), j) <==> FallsAt(rows, j) {
      assert Lookup(Loaded(rows), j) == RowProfile(rows, j);
      assert Lookup(Loaded(rows), j + 1) == RowProfile(rows, j + 1);
    }
  }

  lemma Nbody100kIncreasing()
    ensures Increasing(NBODY_100K)
  {
    var rows := NBODY_100K;
    assert rows[0].throughput < rows[1].throughput < rows[2].throughput < rows[3].throughput < rows[4].throughput;
    assert rows[4].throughput < rows[5].throughput < rows[6].throughput < rows[7].throughput;
  }

  lemma Nbody100kRows()
    ensures Consecutive(NBODY_100K) && Increasing(NBODY_100K) && |NBODY_100K| == 8
  {
    hide Increasing;
    Nbody100kIncreasing();
  }

  lemma Nbody100kFalls()
    ensures FallsAt(NBODY_100K, 1) && FallsAt(NBODY_100K, 2) && FallsAt(NBODY_100K, 3)
    ensures FallsAt(NBODY_100K, 4) && FallsAt(NBODY_100K, 5) && FallsAt(NBODY_100K, 6)
  {
  }

  /** The 100k profile is good and has diminishing returns, so the optimality results apply to it. */
  lemma Nbody100kIsDiminishing(min: int, max: int)
    requires 1 <= min && 0 <= max <= 7
    ensures GoodProfile(Loaded(NBODY_100K), max) && DiminishingFrom(Loaded(NBODY_100K), min, max)
  {
    hide Loaded, FallsAt, DiminishingFrom, Consecutive, Increasing, GoodProfile;
    Nbody100kRows();
    LoadedIsGood(NBODY_100K, max);
    Nbody100kFalls();
    DiminishingInRows(NBODY_100K, min, max);
  }

  /** On the 100k profile, as soon as there is any scaling, some forecast and demand give a plan that
      is not minimal. */
  lemma Nbody100kIsNotAlwaysMinimal(min: int, max: int, len: real)
    requires 1 <= min <= max <= 7 && len > 0.0
    ensures AlwaysMinimal(Loaded(NBODY_100K), min, max, len) <==> min == max
  {
    hide Loaded, AlwaysMinimal, RowProfile;
    Nbody100kIsDiminishing(min, max);
    MinimalIffEven(Loaded(NBODY_100K), min, max, len);
    if min < max {
      Nbody100kRows();
      RowsOf(NBODY_100K, max);
      assert Lookup(Loaded(NBODY_100K), min) == RowProfile(NBODY_100K, min);
      assert Lookup(Loaded(NBODY_100K), max) == RowProfile(NBODY_100K, max);
      Nbody100kLevel(min);
      Nbody100kLevel(max);
    }
  }

  /** Every node adds less throughput than the first one, except the first. */
  lemma Nbody100kLevel(k: int)
    requires 1 <= k <= 7
    ensures var p := RowProfile(NBODY_100K, k);
      && p.throughput >= 1757.0 && (k > 1 ==> p.marginalThroughput < 1757.0)
      && (k > 1 ==> p.throughput * p.marginalPower > p.marginalThroughput * p.power)
  {
  }

  /** On the 100k profile the policy is greedy-optimal exactly without scaling or from one node. */
  lemma Nbody100kGreedyOptimal(min: int, max: int, len: real)
    requires 1 <= min <= max <= 7 && len > 0.0
    ensures AlwaysLeast(Loaded(NBODY_100K), min, max, len) <==> min == max || min == 1
    ensures AlwaysWithin(Loaded(NBODY_100K), min, max, len) <==> min == max || min == 1
  {
    hide Loaded, AlwaysLeast, AlwaysWithin, RowProfile, DiminishingFrom;
    Nbody100kIsDiminishing(min, max);
    GreedyOptimalIffFair(Loaded(NBODY_100K), min, max, len);
    if min == 1 {
      OneNodeIsFair(Loaded(NBODY_100K), max);
    } else {
      Nbody100kRows();
      RowsOf(NBODY_100K, max);
      assert Lookup(Loaded(NBODY_100K), min) == RowProfile(NBODY_100K, min);
      Nbody100kLevel(min);
    }
  }

  lemma Nbody10kIncreasing()
    ensures Increasing(NBODY_10K)
  {
    var rows := NBODY_10K;
    assert rows[0].throughput < rows[1].throughput < rows[2].throughput < rows[3].throughput < rows[4].throughput;
    assert rows[4].throughput < rows[5].throughput < rows[6].throughput < rows[7].throughput;
  }

  lemma Nbody10kRows()
    ensures Consecutive(NBODY_10K) && Increasing(NBODY_10K) && |NBODY_10K| == 8
  {
    hide Increasing;
    Nbody10kIncreasing();
  }

  lemma Nbody10kFalls()
    ensures FallsAt(NBODY_10K, 1) && FallsAt(NBODY_10K, 2) && FallsAt(NBODY_10K, 3)
    ensures !FallsAt(NBODY_10K, 4)
    ensures FallsAt(NBODY_10K, 5) && FallsAt(NBODY_10K, 6)
  {
  }

  /** The returns of the 10k profile diminish everywhere but from the fourth node to the fifth. */
  lemma Nbody10kIsDiminishingButForFour(min: int, max: int)
    requires 1 <= min <= max <= 7
    ensures GoodProfile(Loaded(NBODY_10K), max)
    ensures DiminishingFrom(Loaded(NBODY_10K), min, max) <==> max <= 4 || min >= 5
  {
    hide Loaded, FallsAt, DiminishingFrom, Consecutive, Increasing, GoodProfile;
    Nbody10kRows();
    LoadedIsGood(NBODY_10K, max);
    Nbody10kFalls();
    DiminishingInRows(NBODY_10K, min, max);
  }

  /** Bounds on the throughput per power that the k-th node adds. */
  function Least10k(k: int): real {
    if k == 1 then 310.0 else if k == 2 then 188.0 else if k == 3 then 178.0 else if k == 4 then 118.0
    else if k == 5 then 120.0 else if k == 6 then 90.0 else 73.0
  }

  lemma Nbody10kLevel(k: int)
    requires 1 <= k <= 7
    ensures var p := RowProfile(NBODY_10K, k);
      && Least10k(k) * p.marginalPower <= p.marginalThroughput <= (Least10k(k) + 1.0) * p.marginalPower
      && (k > 1 ==> p.throughput >= 1.25 * (Least10k(k) + 1.0) * p.power)
  {
  }

  lemma Nbody10kLoaded(max: int, k: int, low: real, high: real, average: real)
    requires 1 <= k <= max <= 7
    requires low <= Least10k(k) && high == Least10k(k) + 1.0 && average == 1.25 * high
    ensures var p := Lookup(Loaded(NBODY_10K), k);
      && low * p.marginalPower <= p.marginalThroughput <= high * p.marginalPower
      && (k > 1 ==> p.throughput >= average * p.power)
  {
    hide Loaded, RowProfile, GoodProfile, Least10k;
    Nbody10kIsDiminishingButForFour(k, max);
    Nbody10kRows();
    RowsOf(NBODY_10K, max);
    Nbody10kLevel(k);
    GoodLevels(Loaded(NBODY_10K), max, k);
    assert Lookup(Loaded(NBODY_10K), k) == RowProfile(NBODY_10K, k);
    Lower(Lookup(Loaded(NBODY_10K), k).marginalPower, low, Least10k(k));
  }

  lemma Lower(p: real, a: real, b: real)
    requires p > 0.0 && a <= b
    ensures a * p <= b * p
  {
  }

  /** For any node limit, the last node adds at most a quarter more per power than any node from the second. */
  lemma Nbody10kBounds(min: int, max: int) returns (l: real)
    requires 2 <= min < max <= 7
    ensures l > 0.0 && Least10k(min) > 0.0 && forall k :: min <= k <= max ==> Least10k(k) >= l
    ensures Least10k(max) + 1.0 < 1.25 * l
  {
    l := if max == 5 then 118.0 else Least10k(max);
  }

  lemma Nbody10kIsBounded(min: int, max: int, h: real, l: real, top: real, a: real)
    requires 2 <= min <= max <= 7 && forall k :: min <= k <= max ==> Least10k(k) >= l
    requires h == Least10k(min) + 1.0 && top == Least10k(max) + 1.0 && a == 1.25 * h
    ensures Bounded(Loaded(NBODY_10K), min, max, h, l, top, a)
  {
    hide Loaded, Least10k;
    Nbody10kLoaded(max, min, l, h, a);
    Nbody10kLoaded(max, max, l, top, 1.25 * top);
    forall k | min <= k <= max ensures GivesAtLeast(Loaded(NBODY_10K), k, l) {
      Nbody10kLoaded(max, k, l, Least10k(k) + 1.0, 1.25 * (Least10k(k) + 1.0));
    }
  }

  /** From two nodes on the first step is always ranked too low. */
  lemma Nbody10kIsUnderranked(min: int, max: int, len: real)
    requires 2 <= min < max <= 7 && len > 0.0
    ensures !AlwaysLeast(Loaded(NBODY_10K), min, max, len) && !AlwaysWithin(Loaded(NBODY_10K), min, max, len)
  {
    hide Loaded, AlwaysLeast, AlwaysWithin, GoodProfile, Least10k, Bounded;
    Nbody10kIsDiminishingButForFour(min, max);
    var l := Nbody10kBounds(min, max);
    var h, top := Least10k(min) + 1.0, Least10k(max) + 1.0;
    var a := 1.25 * h;
    Nbody10kIsBounded(min, max, h, l, top, a);
    WorthMore(h, l, top, a);
    BoundsRefute(Loaded(NBODY_10K), min, max, len, h, l, top, a);
  }

  lemma WorthMore(h: real, l: real, top: real, a: real)
    requires h > 0.0 && top < 1.25 * l && a == 1.25 * h
    ensures top * h < a * l
  {
    assert (1.25 * l - top) * h > 0.0;
  }

  lemma Nbody10kFits()
    ensures var p, q, price := RowProfile(NBODY_10K, 1), RowProfile(NBODY_10K, 2), 118.8;
      && p.marginalThroughput >= price * (p.marginalPower * 2.61)
      && q.marginalThroughput <= price * (q.marginalPower * 2.61)
    ensures forall k :: 1 <= k <= 3 ==>
              RowProfile(NBODY_10K, k).marginalThroughput >= 118.8 * (RowProfile(NBODY_10K, k).marginalPower * 1.0)
    ensures RowProfile(NBODY_10K, 4).marginalThroughput <= 118.8 * (RowProfile(NBODY_10K, 4).marginalPower * 1.0)
  {
    Nbody10kLevel(1);
    Nbody10kLevel(2);
    Nbody10kLevel(3);
  }

  lemma Nbody10kTrade(max: int)
    requires 5 <= max <= 7
    ensures var p, r, q := RowProfile(NBODY_10K, 1), RowProfile(NBODY_10K, 3), RowProfile(NBODY_10K, 5);
      && 0.0 < 6480.0 * r.throughput + 5000.0 * p.throughput <= 6480.0 * q.throughput
      && 6480.0 * q.power + 2000.0 <= 6480.0 * r.power + 5000.0 * (p.power * 2.61)
      && 2000.0 >= RowProfile(NBODY_10K, max).power * (1.0 + 2.61)
  {
  }

  /** From one node, the rise from the fourth node to the fifth costs carbon: with cheap slots at three
      nodes, the planner opens slots 2.61 times as dear, though five nodes in the cheap ones would do. */
  lemma Nbody10kRiseCosts(max: int, len: real)
    requires 5 <= max <= 7 && len > 0.0
    ensures !AlwaysLeast(Loaded(NBODY_10K), 1, max, len) && !AlwaysWithin(Loaded(NBODY_10K), 1, max, len)
  {
    hide Loaded, AlwaysLeast, AlwaysWithin, RowProfile, GoodProfile;
    var profile := Loaded(NBODY_10K);
    Nbody10kIsDiminishingButForFour(1, max);
    Nbody10kRows();
    RowsOf(NBODY_10K, max);
    Nbody10kFits();
    Nbody10kTrade(max);
    assert Lookup(profile, 0) == RowProfile(NBODY_10K, 0) && Lookup(profile, 1) == RowProfile(NBODY_10K, 1);
    assert Lookup(profile, 2) == RowProfile(NBODY_10K, 2) && Lookup(profile, 3) == RowProfile(NBODY_10K, 3);
    assert Lookup(profile, 4) == RowProfile(NBODY_10K, 4) && Lookup(profile, 5) == RowProfile(NBODY_10K, 5);
    assert Lookup(profile, max) == RowProfile(NBODY_10K, max);
    ZeroRow(profile, max);
    assert forall k :: 1 <= k <= 3 ==> LevelWorth(profile, k, 1.0, 118.8);
    BeatenIsRefuted(profile, 1, max, len, 6480, 5000, 2.61, 3, 1, 5, 0, 118.8, 2000.0);
  }

  lemma ZeroRow(profile: map<int, Profile>, max: int)
    requires GoodProfile(profile, max)
    ensures Lookup(profile, 0).throughput == 0.0 && Lookup(profile, 0).power == 0.0
  {
  }

  /** On the 10k profile the policy is greedy-optimal exactly without scaling, or from one node up to at
      most four. */
  lemma Nbody10kGreedyOptimal(min: int, max: int, len: real)
    requires 1 <= min <= max <= 7 && len > 0.0
    ensures AlwaysLeast(Loaded(NBODY_10K), min, max, len) <==> min == max || (min == 1 && max <= 4)
    ensures AlwaysWithin(Loaded(NBODY_10K), min, max, len) <==> min == max || (min == 1 && max <= 4)
  {
    hide Loaded, AlwaysLeast, AlwaysWithin, DiminishingFrom, FairFirstStep, GoodProfile;
    Nbody10kIsDiminishingButForFour(min, max);
    if min == max {
      FairIsGreedyOptimal(Loaded(NBODY_10K), min, max, len);
    } else if min > 1 {
      Nbody10kIsUnderranked(min, max, len);
    } else if max > 4 {
      Nbody10kRiseCosts(max, len);
    } else {
      OneNodeIsFair(Loaded(NBODY_10K), max);
      FairIsGreedyOptimal(Loaded(NBODY_10K), min, max, len);
    }
  }

  /** On the 10k profile too, returns diminishing or not, any scaling gives some forecast and demand a
      plan that is not minimal. */
  lemma Nbody10kIsNotAlwaysMinimal(min: int, max: int, len: real)
    requires 1 <= min <= max <= 7 && len > 0.0
    ensures AlwaysMinimal(Loaded(NBODY_10K), min, max, len) <==> min == max
  {
    hide Loaded, AlwaysMinimal;
    if min == max {
      NoScalingIsMinimal(Loaded(NBODY_10K), min, max, len);
    } else {
      Nbody10kIsDiminishingButForFour(min, max);
      Nbody10kRows();
      RowsOf(NBODY_10K, max);
      assert Lookup(Loaded(NBODY_10K), min) == RowProfile(NBODY_10K, min);
      assert Lookup(Loaded(NBODY_10K), max) == RowProfile(NBODY_10K, max);
      Overshoot(Loaded(NBODY_10K), min, max, len);
    }
  }

  // ----- a node limit beyond the profile -----

  /** Planning ranks every candidate by a number exactly when the node limit stays within the rows of
      the profile and MinReplicas is at least 1: otherwise some candidate divides zero by zero. */
  lemma WellFormedIffWithinRows(rows: seq<Row>, ps: Params)
    requires Consecutive(rows) && Increasing(rows) && ps.profile == Loaded(rows)
    requires 0 < ps.slots <= |ps.ci| && ps.min <= ps.max && ps.max >= 0
    requires forall t :: 0 <= t < ps.slots ==> ps.ci[t] > 0.0
    ensures WellFormed(ps) <==> 1 <= ps.min && ps.max < |rows|
  {
    hide Loaded;
    if 1 <= ps.min && ps.max < |rows| {
      LoadedIsGood(rows, ps.max);
      forall j: int, t: nat | ps.min <= j <= ps.max && t < ps.slots ensures Rankable(ps, j, t) {
        assert GoodLevel(ps.profile, j);
        ProductPositive(GainP(ps, j), ps.ci[t]);
      }
    } else if 1 <= ps.min {
      if ps.max in Loaded(rows) {
        LoadedOnlyRows(rows, ps.max);
      }
      assert !Rankable(ps, ps.max, 0);
    }
  }

  /** The controller is started with eight nodes and the shipped profiles end at seven, so MaxReplicas of
      eight or more is outside what the ranking is meant for. */
  lemma EightNodesAreTooMany(ps: Params)
    requires ps.profile == Loaded(NBODY_100K) || ps.profile == Loaded(NBODY_10K)
    requires 0 < ps.slots <= |ps.ci| && ps.min <= ps.max == 8
    requires forall t :: 0 <= t < ps.slots ==> ps.ci[t] > 0.0
    ensures !WellFormed(ps)
  {
    hide Loaded, Consecutive, Increasing, WellFormed;
    Nbody100kRows();
    Nbody10kRows();
    WellFormedIffWithinRows(if ps.profile == Loaded(NBODY_100K) then NBODY_100K else NBODY_10K, ps);
  }

  /** There the planner can give up on a demand it could meet: with MinReplicas 7, MaxReplicas 8 and two
      slots, seven nodes in both do the work, but the eighth node, of which the profile knows nothing,
      takes the first slot to no throughput before the second is opened. */
  lemma SevenOfEightFails() returns (order: seq<Candidate>)
    ensures var ps := Params(Loaded(NBODY_10K), 7, 8, [1.0, 1.0], 2, 1.0);
      && SortedFrom(ps, order) && InRange(order, 2)
      && Feasible(ps, [7, 7]) && Plan(ps, order, Work(ps, [7, 7])) == None
  {
    hide Loaded, Consecutive, Increasing, SortedFrom, Plan, Work;
    var s;
    Nbody10kRows();
    order, s := SlotBySlotFails(NBODY_10K, Params(Loaded(NBODY_10K), 7, 8, [1.0, 1.0], 2, 1.0));
    assert s == [7, 7];
  }

  // ----- without diminishing returns -----

  /** Three nodes of equal throughput whose second one needs ten times the power, over two slots. */
  const BUMPY := Params(map[0 := Profile(0.0, 0.0, 0.0, 0.0), 1 := Profile(1.0, 1.0, 1.0, 1.0),
                            2 := Profile(2.0, 1.0, 11.0, 10.0), 3 := Profile(3.0, 1.0, 12.0, 1.0)],
                        1, 3, [1.0, 2.0], 2, 1.0)

  lemma BumpyIsSound()
    ensures Sound(BUMPY) && WellFormed(BUMPY) && !Diminishing(BUMPY.profile, 2) && Blocks(BUMPY, 1, 1, 2.0)
  {
    assert GoodLevel(BUMPY.profile, 1) && GoodLevel(BUMPY.profile, 2) && GoodLevel(BUMPY.profile, 3);
    assert forall j :: 1 <= j <= 3 ==> GoodLevel(BUMPY.profile, j);
    SoundIsWellFormed(BUMPY);
    assert Block(1, 1, 1.0, 2.0) == [1.0, 2.0];
  }

  lemma BumpyIsEven()
    ensures EvenProfile(BUMPY.profile, 1, 3)
  {
  }

  lemma BumpyWork(s: seq<int>)
    requires |s| == 2
    ensures Work(BUMPY, s) == Throughput(BUMPY, s[0]) + Throughput(BUMPY, s[1])
    ensures Carbon(BUMPY, s) == Power(BUMPY, s[0]) + Power(BUMPY, s[1]) * 2.0
  {
    assert s[..1] == [s[0]] && s[..1][..0] == [];
    assert Work(BUMPY, s[..1]) == Throughput(BUMPY, s[0]);
    assert Carbon(BUMPY, s[..1]) == Power(BUMPY, s[0]);
  }

  /** Diminishing returns cannot be dropped: this profile is even, yet the plan for 3 units of work is
      (2, 1), with 13 units of carbon, though (3, 0) does the same work with 12. */
  lemma GapNeedsDiminishingReturns(order: seq<Candidate>)
    requires WellFormed(BUMPY) && SortedFrom(BUMPY, order)
    ensures Sound(BUMPY) && !Diminishing(BUMPY.profile, 2) && EvenProfile(BUMPY.profile, 1, 3)
    ensures InRange(order, 2) && Plan(BUMPY, order, 3.0) == Some([2, 1])
    ensures Work(BUMPY, [2, 1]) == 3.0 && Carbon(BUMPY, [2, 1]) == 13.0
    ensures Feasible(BUMPY, [3, 0]) && Work(BUMPY, [3, 0]) == 3.0 && Carbon(BUMPY, [3, 0]) == 12.0
  {
    hide SortedFrom, Plan, Work, Carbon, WellFormed, Sound, Favours;
    BumpyIsSound();
    BumpyIsEven();
    assert Block(1, 1, 1, 1) == [1, 1] && Block(1, 1, 3, 1) == [3, 1];
    StrictBlockIsPlanned(BUMPY, order, 1, 1, 2.0, 1, 1, 0.3);
    StrictBlockIsPlanned(BUMPY, order, 1, 1, 2.0, 3, 1, 0.07);
    BumpyWork([1, 1]);
    BumpyWork([2, 1]);
    BumpyWork([1, 2]);
    BumpyWork([3, 1]);
    BumpyWork([3, 0]);
    assert [1, 1][0 := 2] == [2, 1] && [1, 1][1 := 2] == [1, 2];
    var g := PlanExists(BUMPY, order, 3.0, [3, 1]);
    PlanStaysBelow(BUMPY, order, [3, 1], 3.0, g);
    var t := PlanIsNextRaise(BUMPY, order, [1, 1], 3.0);
    assert g == [1, 1][t := 2] && g[1] <= 1;
  }
}

/** What the greedy plan achieves, for every profile, forecast and tie order; nothing in this module
    assumes diminishing returns. */
module PlannerResults {
  import opened Common
  import opened Profiles
  import opened Planner
  import opened PlannerInvariants

  /** Idle slots do no work, and more nodes never do less of it. */
  ghost predicate GrowingThroughput(ps: Params) {
    && Throughput(ps, 0) == 0.0
    && (ps.min <= ps.max ==> 0.0 <= Throughput(ps, ps.min))
    && (forall j :: ps.min < j <= ps.max ==> Throughput(ps, j - 1) <= Throughput(ps, j))
    && ps.slotLength > 0.0
  }

  /** The marginals of row j are its gains over row j - 1, and they are positive. */
  ghost predicate GoodLevel(profile: map<int, Profile>, j: int) {
    var p, q := Lookup(profile, j), Lookup(profile, j - 1);
    && p.marginalThroughput == p.throughput - q.throughput > 0.0
    && p.marginalPower == p.power - q.power > 0.0
  }

  /** Zero nodes do nothing; every node up to max adds the throughput and power of its marginals. */
  ghost predicate GoodProfile(profile: map<int, Profile>, max: int) {
    && Lookup(profile, 0).throughput == 0.0 && Lookup(profile, 0).power == 0.0
    && forall j :: 1 <= j <= max ==> GoodLevel(profile, j)
  }

  /** A good profile, a positive forecast up to the deadline, and slots of positive length. */
  ghost predicate Sound(ps: Params) {
    && 1 <= ps.min && ps.slotLength > 0.0
    && GoodProfile(ps.profile, ps.max)
    && ps.slots <= |ps.ci| && forall t :: 0 <= t < ps.slots ==> ps.ci[t] > 0.0
  }

  /** A loaded profile with consecutive, increasing rows is good. */
  lemma LoadedIsGood(rows: seq<Row>, max: int)
    requires Consecutive(rows) && Increasing(rows) && max < |rows|
    ensures GoodProfile(Loaded(rows), max)
  {
    MarginalsSumBack(rows, 0);
    forall j | 1 <= j <= max
      ensures GoodLevel(Loaded(rows), j)
    {
      MarginalsSumBack(rows, j);
      MarginalsSumBack(rows, j - 1);
    }
  }

  lemma SoundIsWellFormed(ps: Params)
    requires Sound(ps)
    ensures WellFormed(ps)
  {
    forall j: int, t: nat | ps.min <= j <= ps.max && t < ps.slots ensures Rankable(ps, j, t) {
      assert GoodLevel(ps.profile, j);
    }
  }

  // ----- work -----

  /** Changing one slot changes the work by that slot's change of throughput. */
  lemma {:induction false} WorkOfRaise(ps: Params, s: seq<int>, t: nat, v: int, gain: real)
    requires t < |s| && gain == Throughput(ps, v) - Throughput(ps, s[t])
    ensures Work(ps, s[t := v]) == Work(ps, s) + gain * ps.slotLength
  {
    var last := |s| - 1;
    if t < last {
      assert s[t := v][..last] == s[..last][t := v];
      WorkOfRaise(ps, s[..last], t, v, gain);
    } else {
      assert s[t := v][..last] == s[..last];
    }
  }

  lemma {:induction false} WorkIsMonotone(ps: Params, a: seq<int>, b: seq<int>)
    requires |a| == |b| && ps.slotLength > 0.0
    requires forall t :: 0 <= t < |a| ==> Throughput(ps, a[t]) <= Throughput(ps, b[t])
    ensures Work(ps, a) <= Work(ps, b)
  {
    if a != [] {
      WorkIsMonotone(ps, a[..|a| - 1], b[..|b| - 1]);
    }
  }

  lemma {:induction false} IdleWork(ps: Params, s: seq<int>)
    requires Throughput(ps, 0) == 0.0 && forall t :: 0 <= t < |s| ==> s[t] == 0
    ensures Work(ps, s) == 0.0
  {
    if s != [] {
      IdleWork(ps, s[..|s| - 1]);
    }
  }

  /** The work the loop counts is the work of its schedule. */
  lemma {:induction false} DoneIsWork(ps: Params, order: seq<Candidate>, k: nat)
    requires InRange(order, ps.slots) && Throughput(ps, 0) == 0.0
    ensures Reach(ps, order, k).done == Work(ps, Reach(ps, order, k).schedule)
  {
    if k == 0 {
      IdleWork(ps, Start(ps, order).schedule);
    } else {
      DoneIsWork(ps, order, k - 1);
    }
  }

  /** The work a pass adds: a slot of MinReplicas nodes when it opens one, and a slot of the marginal
      throughput of one node afterwards. */
  ghost function PassGain(ps: Params, st: State): real {
    if !CanStep(ps, st) then 0.0
    else if Picked(ps, st).nodes == ps.min then Throughput(ps, ps.min) * ps.slotLength
    else GainT(ps, Picked(ps, st).nodes) * ps.slotLength
  }

  ghost function TotalGain(ps: Params, order: seq<Candidate>, k: nat): real
    requires InRange(order, ps.slots)
  {
    if k == 0 then 0.0 else TotalGain(ps, order, k - 1) + PassGain(ps, Reach(ps, order, k - 1))
  }

  lemma GainOfNext(ps: Params, v: int)
    requires 1 <= ps.min && Allowed(ps, v) && Next(ps, v) <= ps.max && GoodProfile(ps.profile, ps.max)
    ensures Throughput(ps, Next(ps, v)) - Throughput(ps, v)
         == if Next(ps, v) == ps.min then Throughput(ps, ps.min) else GainT(ps, Next(ps, v))
  {
    assert GoodLevel(ps.profile, Next(ps, v));
  }

  lemma AdvanceAddsGain(ps: Params, st: State)
    requires Regular(ps) && Inv(ps, st) && GoodProfile(ps.profile, ps.max)
    requires InRange(st.list, |st.schedule|) && st.done == Work(ps, st.schedule)
    ensures Advance(ps, st).done == st.done + PassGain(ps, st)
  {
    hide Pick, PickFrom, GoodProfile, Throughput, GainT, Work;
    if CanStep(ps, st) {
      PickedIsNext(ps, st);
      var c := Picked(ps, st);
      GainOfNext(ps, st.schedule[c.time]);
      var gain := if c.nodes == ps.min then Throughput(ps, ps.min) else GainT(ps, c.nodes);
      WorkOfRaise(ps, st.schedule, c.time, c.nodes, gain);
    }
  }

  /** Work accounting: counting the whole schedule again gives the sum of what the passes added. */
  lemma {:induction false} WorkIsTotalGain(ps: Params, order: seq<Candidate>, k: nat)
    requires Regular(ps) && SortedFrom(ps, order) && GoodProfile(ps.profile, ps.max)
    ensures InRange(order, ps.slots)
    ensures Reach(ps, order, k).done == TotalGain(ps, order, k)
  {
    hide Advance, PassGain, Inv, SortedFrom;
    StartInv(ps, order);
    if k > 0 {
      WorkIsTotalGain(ps, order, k - 1);
      ReachInv(ps, order, k - 1);
      DoneIsWork(ps, order, k - 1);
      AdvanceAddsGain(ps, Reach(ps, order, k - 1));
    }
  }

  // ----- the pass that ends the loop -----

  /** The loop ends within one pass per candidate. */
  lemma PassBound(ps: Params, order: seq<Candidate>, target: real) returns (n: nat)
    requires Regular(ps) && SortedFrom(ps, order)
    ensures InRange(order, ps.slots)
    ensures n <= ps.slots * StepsPerSlot(ps)
    ensures match Plan(ps, order, target)
            case Some(g) => StopsAt(ps, order, target, 0, n) && g == Reach(ps, order, n).schedule
            case None => FailsAt(ps, order, target, 0, n)
  {
    StartInv(ps, order);
    n := PlanStops(ps, order, target, 0);
    ReachInv(ps, order, |order|);
    assert |order| < n ==> Working(ps, order, target, |order|);
  }

  /** A plan for a positive target comes from a state that fell short of it, by one more raise. */
  lemma LastRaise(ps: Params, order: seq<Candidate>, target: real, g: seq<int>) returns (n: nat)
    requires Regular(ps) && SortedFrom(ps, order) && Throughput(ps, 0) == 0.0
    requires InRange(order, ps.slots) && Plan(ps, order, target) == Some(g) && target > 0.0
    ensures CanStep(ps, Reach(ps, order, n)) && g == Reach(ps, order, n + 1).schedule
    ensures StopsAt(ps, order, target, 0, n + 1)
    ensures Work(ps, Reach(ps, order, n).schedule) < target <= Work(ps, g)
  {
    var m := PlanStops(ps, order, target, 0);
    assert m > 0;
    n := m - 1;
    assert Working(ps, order, target, n);
    DoneIsWork(ps, order, n);
    DoneIsWork(ps, order, m);
  }

  lemma StepRaises(ps: Params, st: State)
    requires Regular(ps) && Inv(ps, st) && CanStep(ps, st)
    ensures Feasible(ps, st.schedule) && Feasible(ps, Step(ps, st).schedule)
    ensures var s, t := st.schedule, Picked(ps, st).time;
      t < ps.slots == |s| && Next(ps, s[t]) <= ps.max && Step(ps, st).schedule == s[t := Next(ps, s[t])]
  {
    PickedIsNext(ps, st);
  }

  /** The schedule before the last raise, and the slot it raised. */
  lemma RaisedLast(ps: Params, order: seq<Candidate>, target: real, g: seq<int>)
    returns (n: nat, before: seq<int>, t: nat)
    requires Regular(ps) && SortedFrom(ps, order) && Throughput(ps, 0) == 0.0
    requires InRange(order, ps.slots) && Plan(ps, order, target) == Some(g) && target > 0.0
    ensures CanStep(ps, Reach(ps, order, n)) && StopsAt(ps, order, target, 0, n + 1)
    ensures before == Reach(ps, order, n).schedule && g == Reach(ps, order, n + 1).schedule
    ensures Feasible(ps, before) && Feasible(ps, g) && t < ps.slots
    ensures Next(ps, before[t]) <= ps.max && g == before[t := Next(ps, before[t])]
    ensures Work(ps, before) < target <= Work(ps, g)
  {
    hide SortedFrom, Plan, Work, Inv, CanStep, Step, Feasible, Picked, Regular, StopsAt;
    n := LastRaise(ps, order, target, g);
    ReachInv(ps, order, n);
    StepRaises(ps, Reach(ps, order, n));
    before, t := Reach(ps, order, n).schedule, Picked(ps, Reach(ps, order, n)).time;
  }

  /** Some slot of g, taken one raise down, leaves less than the target. */
  ghost predicate NeedsLastRaise(ps: Params, g: seq<int>, target: real) {
    exists t: nat, v: int ::
      t < |g| && Allowed(ps, v) && v < g[t] && g[t] == Next(ps, v) && Work(ps, g[t := v]) < target
  }

  lemma RaiseWasNeeded(ps: Params, before: seq<int>, t: nat, g: seq<int>, target: real)
    requires 1 <= ps.min && t < |before| && g == before[t := Next(ps, before[t])]
    requires Allowed(ps, before[t]) && Work(ps, before) < target
    ensures NeedsLastRaise(ps, g, target)
  {
    var v := before[t];
    assert g[t := v] == before;
    assert t < |g| && Allowed(ps, v) && v < g[t] && g[t] == Next(ps, v) && Work(ps, g[t := v]) < target;
  }

  /** Whatever the order of the candidates, a plan does the work asked for. */
  lemma PlanDoesTheWork(ps: Params, order: seq<Candidate>, target: real, g: seq<int>)
    requires Throughput(ps, 0) == 0.0 && InRange(order, ps.slots) && Plan(ps, order, target) == Some(g)
    ensures Work(ps, g) >= target
  {
    var n := PlanStops(ps, order, target, 0);
    DoneIsWork(ps, order, n);
  }

  /** A success is sound: the plan is feasible, does the work, and would not without its last raise. */
  lemma PlanIsSound(ps: Params, order: seq<Candidate>, target: real, g: seq<int>)
    requires Regular(ps) && SortedFrom(ps, order) && Throughput(ps, 0) == 0.0
    requires InRange(order, ps.slots) && Plan(ps, order, target) == Some(g)
    ensures Feasible(ps, g) && Work(ps, g) >= target
    ensures target <= 0.0 ==> g == seq(ps.slots, _ => 0)
    ensures target > 0.0 ==> NeedsLastRaise(ps, g, target)
  {
    var n := PlanStops(ps, order, target, 0);
    ReachInv(ps, order, n);
    DoneIsWork(ps, order, n);
    if target > 0.0 {
      var m, before, t := RaisedLast(ps, order, target, g);
      RaiseWasNeeded(ps, before, t, g, target);
    } else {
      assert n > 0 ==> Working(ps, order, target, 0);
    }
  }

  /** A stuck schedule is at the top of every slot. */
  lemma StuckIsFull(ps: Params, st: State, s: seq<int>)
    requires Regular(ps) && Inv(ps, st) && !CanStep(ps, st) && GrowingThroughput(ps)
    requires Feasible(ps, s)
    ensures Work(ps, s) <= Work(ps, st.schedule)
  {
    StuckMeansEmpty(ps, st);
    forall t | 0 <= t < ps.slots ensures Throughput(ps, s[t]) <= Throughput(ps, st.schedule[t]) {
      assert Allowed(ps, s[t]) && Allowed(ps, st.schedule[t]);
      if st.schedule[t] != 0 {
        TopThroughput(ps, s[t], ps.max);
      }
    }
    WorkIsMonotone(ps, s, st.schedule);
  }

  lemma {:induction false} TopThroughput(ps: Params, v: int, top: int)
    requires GrowingThroughput(ps) && 1 <= ps.min <= top <= ps.max && v <= top && Allowed(ps, v)
    ensures Throughput(ps, v) <= Throughput(ps, top)
    decreases top
  {
    if v < top && ps.min < top {
      TopThroughput(ps, v, top - 1);
    }
  }

  /** A failure is complete: "Deadline too tight" exactly when no schedule does the work. */
  lemma FailsIffInfeasible(ps: Params, order: seq<Candidate>, target: real)
    requires Regular(ps) && SortedFrom(ps, order) && GrowingThroughput(ps)
    ensures InRange(order, ps.slots)
    ensures Plan(ps, order, target) == None
       <==> forall s :: Feasible(ps, s) ==> Work(ps, s) < target
  {
    var n := PassBound(ps, order, target);
    match Plan(ps, order, target)
    case Some(g) =>
      PlanIsSound(ps, order, target, g);
    case None =>
      ReachInv(ps, order, n);
      DoneIsWork(ps, order, n);
      forall s | Feasible(ps, s) ensures Work(ps, s) < target {
        StuckIsFull(ps, Reach(ps, order, n), s);
      }
  }

  lemma {:induction false} ThroughputGrows(ps: Params, a: int, b: int)
    requires GoodProfile(ps.profile, ps.max) && 0 <= a < b <= ps.max
    ensures Throughput(ps, a) < Throughput(ps, b) && Power(ps, a) < Power(ps, b)
    decreases b
  {
    assert GoodLevel(ps.profile, b);
    if a < b - 1 {
      ThroughputGrows(ps, a, b - 1);
    }
  }

  lemma GoodGrows(ps: Params)
    requires 1 <= ps.min && ps.slotLength > 0.0 && GoodProfile(ps.profile, ps.max)
    ensures GrowingThroughput(ps)
  {
    if ps.min <= ps.max {
      ThroughputGrows(ps, 0, ps.min);
      forall j | ps.min < j <= ps.max ensures Throughput(ps, j - 1) <= Throughput(ps, j) {
        ThroughputGrows(ps, j - 1, j);
      }
    }
  }

  lemma TopThroughputs(ps: Params)
    requires Sound(ps)
    ensures forall a, b :: 0 <= a <= b <= ps.max ==> Throughput(ps, a) <= Throughput(ps, b)
    ensures forall a :: 0 < a <= ps.max ==> Throughput(ps, a) > 0.0
    ensures Throughput(ps, 0) == 0.0
  {
    forall a, b | 0 <= a <= b <= ps.max ensures Throughput(ps, a) <= Throughput(ps, b) {
      if a < b { ThroughputGrows(ps, a, b); }
    }
    forall a | 0 < a <= ps.max ensures Throughput(ps, a) > 0.0 { ThroughputGrows(ps, 0, a); }
  }

  /** A schedule that meets the demand shows that there is a plan. */
  lemma PlanExists(ps: Params, order: seq<Candidate>, target: real, s: seq<int>) returns (g: seq<int>)
    requires Sound(ps) && WellFormed(ps) && SortedFrom(ps, order) && InRange(order, ps.slots)
    requires Feasible(ps, s) && Work(ps, s) >= target
    ensures Plan(ps, order, target) == Some(g)
  {
    hide Plan, SortedFrom, Work;
    GoodGrows(ps);
    FailsIffInfeasible(ps, order, target);
    g := Plan(ps, order, target).value;
  }

  // ----- demand -----

  ghost predicate Below(a: seq<int>, b: seq<int>) {
    |a| == |b| && forall t :: 0 <= t < |a| ==> a[t] <= b[t]
  }

  lemma AdvanceGrows(ps: Params, st: State)
    requires Regular(ps) && Inv(ps, st) && InRange(st.list, |st.schedule|)
    ensures Below(st.schedule, Advance(ps, st).schedule)
  {
    if CanStep(ps, st) {
      PickedIsNext(ps, st);
    }
  }

  lemma {:induction false} ReachGrows(ps: Params, order: seq<Candidate>, i: nat, k: nat)
    requires Regular(ps) && SortedFrom(ps, order) && i <= k
    ensures InRange(order, ps.slots)
    ensures Below(Reach(ps, order, i).schedule, Reach(ps, order, k).schedule)
    decreases k - i
  {
    hide Advance, Inv, SortedFrom;
    StartInv(ps, order);
    if i < k {
      ReachGrows(ps, order, i, k - 1);
      ReachInv(ps, order, k - 1);
      AdvanceGrows(ps, Reach(ps, order, k - 1));
    }
  }

  lemma StopsLater(ps: Params, order: seq<Candidate>, less: real, more: real, n: nat)
    returns (i: nat)
    requires InRange(order, ps.slots) && less <= more && StopsAt(ps, order, more, 0, n)
    ensures i <= n && StopsAt(ps, order, less, 0, i)
  {
    i := PlanStops(ps, order, less, 0);
    assert i < n ==> Working(ps, order, more, i);
    assert n < i ==> Working(ps, order, less, n);
  }

  /** More work to do, for the same sorted list, never gives a slot fewer nodes, and never turns a
      failure into a success. */
  lemma PlanGrowsWithDemand(ps: Params, order: seq<Candidate>, less: real, more: real)
    requires Regular(ps) && SortedFrom(ps, order) && less <= more
    ensures InRange(order, ps.slots)
    ensures Plan(ps, order, less) == None ==> Plan(ps, order, more) == None
    ensures Plan(ps, order, more) != None ==>
              Below(Plan(ps, order, less).value, Plan(ps, order, more).value)
  {
    StartInv(ps, order);
    var n := PlanStops(ps, order, more, 0);
    if Plan(ps, order, more) != None {
      var i := StopsLater(ps, order, less, more, n);
      StopsIsPlan(ps, order, less, i);
      ReachGrows(ps, order, i, n);
    }
  }

  // ----- greener slots -----

  ghost predicate GreenerFirst(ps: Params, s: seq<int>)
    requires |s| == ps.slots <= |ps.ci|
  {
    forall a, b :: 0 <= a < ps.slots && 0 <= b < ps.slots && ps.ci[a] < ps.ci[b] ==> s[a] >= s[b]
  }

  lemma GreenerIsWorthMore(gt: real, gp: real, a: real, b: real)
    requires gt > 0.0 && gp > 0.0 && 0.0 < a < b
    ensures gp * a > 0.0 && gp * b > 0.0 && gt / (gp * a) > gt / (gp * b)
  {
    assert gp * a < gp * b;
    QuotientFalls(gt, gp * a, gp * b);
  }

  lemma QuotientFalls(x: real, a: real, b: real)
    requires x > 0.0 && 0.0 < a < b
    ensures x / a > x / b
  {
    var q := x / b;
    assert q * b == x && q > 0.0;
    assert q * a < x;
    assert (x / a) * a == x;
  }

  lemma GreenerValue(ps: Params, j: int, a: nat, b: nat)
    requires Sound(ps) && 1 <= j <= ps.max && a < ps.slots && b < ps.slots && ps.ci[a] < ps.ci[b]
    ensures Value(ps, j, a) > Value(ps, j, b)
  {
    assert GoodLevel(ps.profile, j);
    assert ps.ci[a] > 0.0;
    GreenerIsWorthMore(GainT(ps, j), GainP(ps, j), ps.ci[a], ps.ci[b]);
  }

  lemma RaiseKeepsGreenerFirst(ps: Params, s: seq<int>, t: nat)
    requires WellFormed(ps) && Sound(ps) && Feasible(ps, s) && GreenerFirst(ps, s)
    requires BestRaise(ps, s, t)
    ensures GreenerFirst(ps, s[t := Next(ps, s[t])])
  {
    hide Value, GoodProfile;
    var j := Next(ps, s[t]);
    forall a: nat | a < ps.slots && ps.ci[a] < ps.ci[t] ensures s[a] >= j {
      assert Allowed(ps, s[a]) && Allowed(ps, s[t]);
      assert s[a] < j ==> s[a] == s[t];
      GreenerValue(ps, j, a, t);
    }
  }

  lemma AdvanceKeepsGreenerFirst(ps: Params, st: State)
    requires WellFormed(ps) && Sound(ps) && Inv(ps, st) && InRange(st.list, |st.schedule|)
    requires GreenerFirst(ps, st.schedule)
    ensures GreenerFirst(ps, Advance(ps, st).schedule)
  {
    if CanStep(ps, st) {
      PickedIsNext(ps, st);
      PickedIsBest(ps, st);
      RaiseKeepsGreenerFirst(ps, st.schedule, Picked(ps, st).time);
    }
  }

  /** At every pass, and so in the plan, a slot with a lower carbon intensity has at least as many
      nodes. */
  lemma {:induction false} GreenerSlotsFirst(ps: Params, order: seq<Candidate>, k: nat)
    requires WellFormed(ps) && Sound(ps) && SortedFrom(ps, order)
    ensures InRange(order, ps.slots)
    ensures GreenerFirst(ps, Reach(ps, order, k).schedule)
  {
    hide Advance, Inv, SortedFrom;
    StartInv(ps, order);
    if k > 0 {
      GreenerSlotsFirst(ps, order, k - 1);
      ReachInv(ps, order, k - 1);
      AdvanceKeepsGreenerFirst(ps, Reach(ps, order, k - 1));
    }
  }
}

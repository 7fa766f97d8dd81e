/** When "Deadline too tight" is exact. Beyond the rows of a profile, or from MinReplicas 0, raising a slot
    can lose the throughput it had, and the planner never goes back. */
module ExactFailures {
  import opened Common
  import opened Profiles
  import opened Planner
  import opened PlannerInvariants
  import opened PlannerResults
  import opened ExactRanking

  /** Planning fails exactly when no schedule within the limits does the work. */
  ghost predicate ExactOn(ps: Params, order: seq<Candidate>, target: real) {
    SortedFrom(ps, order) && InRange(order, ps.slots) ==>
      (Plan(ps, order, target) == None <==> forall s :: Feasible(ps, s) ==> Work(ps, s) < target)
  }

  /** For every demand and every order the sort may return. */
  ghost predicate FailuresExact(ps: Params) {
    forall order: seq<Candidate>, target: real :: ExactOn(ps, order, target)
  }

  // ----- one slot after the other -----

  /** The levels of a slot in an order in which each can be applied after the one before: upwards, and
      levels that are not positive at the end. */
  function Climb(ps: Params): seq<int>
    requires ps.min <= ps.max && 1 <= ps.max
  {
    if 1 <= ps.min then Span(ps.min, ps.max) else Span(1, ps.max) + Span(ps.min, 0)
  }

  function Span(low: int, high: int): (s: seq<int>)
    requires low <= high + 1
    ensures |s| == high + 1 - low && forall i :: 0 <= i < |s| ==> s[i] == low + i
  {
    seq(high + 1 - low, i => low + i)
  }

  function SlotOrder(ps: Params, t: nat, levels: seq<int>): (list: seq<Candidate>)
    requires t < |ps.ci|
    ensures |list| == |levels|
  {
    seq(|levels|, i requires 0 <= i < |levels| => Cand(ps, levels[i], t))
  }

  /** The candidates of slot t, then those of the slots after it. */
  function OrderFrom(ps: Params, t: nat): seq<Candidate>
    requires ps.slots <= |ps.ci| && ps.min <= ps.max && 1 <= ps.max && t <= ps.slots
    decreases ps.slots - t
  {
    if t == ps.slots then [] else SlotOrder(ps, t, Climb(ps)) + OrderFrom(ps, t + 1)
  }

  lemma {:induction false} SpanIsSlot(ps: Params, t: nat, j: int)
    requires Indexed(ps) && ps.min <= ps.max && t < ps.slots && ps.min <= j <= ps.max + 1
    ensures SlotCandidates(ps, t, j) == SlotOrder(ps, t, Span(ps.min, j - 1))
    decreases j - ps.min
  {
    if j > ps.min {
      SpanIsSlot(ps, t, j - 1);
    }
  }

  lemma SlotOrderAppend(ps: Params, t: nat, a: seq<int>, b: seq<int>)
    requires t < |ps.ci|
    ensures SlotOrder(ps, t, a + b) == SlotOrder(ps, t, a) + SlotOrder(ps, t, b)
  {
  }

  lemma ClimbIsSlot(ps: Params, t: nat)
    requires Indexed(ps) && t < ps.slots && ps.min <= ps.max && 1 <= ps.max
    ensures multiset(SlotOrder(ps, t, Climb(ps))) == multiset(SlotCandidates(ps, t, ps.max + 1))
  {
    SpanIsSlot(ps, t, ps.max + 1);
    if ps.min < 1 {
      assert Span(ps.min, ps.max) == Span(ps.min, 0) + Span(1, ps.max);
      SlotOrderAppend(ps, t, Span(ps.min, 0), Span(1, ps.max));
      SlotOrderAppend(ps, t, Span(1, ps.max), Span(ps.min, 0));
    }
  }

  lemma OrderFromSplit(ps: Params, t: nat)
    requires Indexed(ps) && t < ps.slots && ps.min <= ps.max && 1 <= ps.max
    ensures OrderFrom(ps, t) == SlotOrder(ps, t, Climb(ps)) + OrderFrom(ps, t + 1)
    ensures Candidates(ps, t + 1) == Candidates(ps, t) + SlotCandidates(ps, t, ps.max + 1)
  {
  }

  lemma {:induction false} OrderFromIsCandidates(ps: Params, t: nat)
    requires Indexed(ps) && t <= ps.slots && ps.min <= ps.max && 1 <= ps.max
    ensures multiset(Candidates(ps, t)) + multiset(OrderFrom(ps, t)) == multiset(OrderFrom(ps, 0))
  {
    hide OrderFrom, Candidates, Climb, SlotCandidates, SlotOrder;
    if t == 0 {
      NothingBefore(ps);
    } else {
      OrderFromIsCandidates(ps, t - 1);
      OrderFromSplit(ps, t - 1);
      ClimbIsSlot(ps, t - 1);
    }
  }

  lemma NothingBefore(ps: Params)
    requires Indexed(ps)
    ensures Candidates(ps, 0) == []
  {
  }

  /** Every slot but t is without throughput. */
  ghost predicate OnlyBusy(ps: Params, s: seq<int>, t: nat) {
    forall u :: 0 <= u < |s| && u != t ==> Throughput(ps, s[u]) == 0.0
  }

  lemma {:induction false} WorkOfOne(ps: Params, s: seq<int>, t: nat, most: real)
    requires OnlyBusy(ps, s, t) && most >= 0.0 && ps.slotLength > 0.0
    requires t < |s| ==> Throughput(ps, s[t]) <= most
    ensures Work(ps, s) <= if t < |s| then most * ps.slotLength else 0.0
  {
    if s != [] {
      WorkOfOne(ps, s[..|s| - 1], t, most);
      if t == |s| - 1 {
        assert Throughput(ps, s[t]) * ps.slotLength <= most * ps.slotLength;
      }
    }
  }

  /** Level i of the climb has been reached in slot t, and nothing after that slot. */
  ghost predicate Climbing(ps: Params, st: State, t: nat, i: nat)
    requires ps.slots <= |ps.ci| && ps.min <= ps.max && 1 <= ps.max
  {
    var levels := Climb(ps);
    && t < ps.slots == |st.schedule| && i <= |levels|
    && st.list == SlotOrder(ps, t, levels)[i..] + OrderFrom(ps, t + 1)
    && OnlyBusy(ps, st.schedule, t)
    && (forall u :: t < u < ps.slots ==> st.schedule[u] == 0)
    && st.schedule[t] == if i == 0 then 0 else levels[i - 1]
  }

  lemma ClimbOnce(ps: Params, st: State, t: nat, i: nat)
    requires ps.slots <= |ps.ci| && ps.min <= ps.max && 1 <= ps.max && InRange(st.list, |st.schedule|)
    requires Climbing(ps, st, t, i) && i < |Climb(ps)|
    ensures CanStep(ps, st) && Climbing(ps, Step(ps, st), t, i + 1)
  {
    hide OrderFrom;
    var levels := Climb(ps);
    assert st.list[0] == Cand(ps, levels[i], t);
    assert Applies(st.list[0], st.schedule, ps.min);
    assert Pick(st.list, st.schedule, ps.min) == 0;
    assert st.list[..0] + st.list[1..] == SlotOrder(ps, t, levels)[i + 1..] + OrderFrom(ps, t + 1);
  }

  lemma ClimbNext(ps: Params, st: State, t: nat)
    requires ps.slots <= |ps.ci| && ps.min <= ps.max && 1 <= ps.max && t + 1 < ps.slots
    requires Climbing(ps, st, t, |Climb(ps)|)
    requires Throughput(ps, Climb(ps)[|Climb(ps)| - 1]) == 0.0 == Throughput(ps, 0)
    ensures Climbing(ps, st, t + 1, 0)
  {
    assert st.list == OrderFrom(ps, t + 1);
    assert SlotOrder(ps, t + 1, Climb(ps))[0..] == SlotOrder(ps, t + 1, Climb(ps));
  }

  /** If the climb ends without throughput, there is never more than one slot at work, and a demand that
      one slot cannot meet is not met. */
  lemma {:induction false} ClimbFails(ps: Params, order: seq<Candidate>, target: real, k: nat,
                                      t: nat, i: nat, most: real)
    requires ps.slots <= |ps.ci| && ps.min <= ps.max && 1 <= ps.max && ps.slotLength > 0.0
    requires InRange(order, ps.slots) && Climbing(ps, Reach(ps, order, k), t, i)
    requires Throughput(ps, Climb(ps)[|Climb(ps)| - 1]) == 0.0 == Throughput(ps, 0)
    requires most >= 0.0 && target > most * ps.slotLength
    requires forall v :: Allowed(ps, v) ==> Throughput(ps, v) <= most
    ensures PlanFrom(ps, order, target, k) == None
    decreases ps.slots - t, |Climb(ps)| - i
  {
    hide Climb, OrderFrom, Work, Step;
    var st := Reach(ps, order, k);
    ClimbIsAllowed(ps, st.schedule[t], i);
    if i < |Climb(ps)| {
      DoneIsWork(ps, order, k);
      WorkOfOne(ps, st.schedule, t, most);
      ClimbOnce(ps, st, t, i);
      ClimbFails(ps, order, target, k + 1, t, i + 1, most);
    } else if t + 1 < ps.slots {
      ClimbNext(ps, st, t);
      ClimbFails(ps, order, target, k, t + 1, 0, most);
    } else {
      DoneIsWork(ps, order, k);
      WorkOfOne(ps, st.schedule, t, most);
      NothingAfter(ps);
      assert st.list == [];
    }
  }

  lemma ClimbIsAllowed(ps: Params, v: int, i: nat)
    requires ps.min <= ps.max && 1 <= ps.max && i <= |Climb(ps)|
    requires v == if i == 0 then 0 else Climb(ps)[i - 1]
    ensures Allowed(ps, v)
  {
  }

  lemma NothingAfter(ps: Params)
    requires ps.slots <= |ps.ci| && ps.min <= ps.max && 1 <= ps.max
    ensures OrderFrom(ps, ps.slots) == []
  {
  }

  // ----- the rows decide -----

  /** The most that one slot can do, within the limits and the rows. */
  lemma BestLevel(rows: seq<Row>, ps: Params) returns (n: int)
    requires Consecutive(rows) && Increasing(rows) && ps.profile == Loaded(rows)
    requires ps.min <= ps.max && 1 <= ps.max && ps.min < |rows| && 2 <= |rows|
    ensures n == Min(ps.max, |rows| - 1) && Allowed(ps, n) && Throughput(ps, n) > 0.0 == Throughput(ps, 0)
    ensures forall v :: Allowed(ps, v) ==> Throughput(ps, v) <= Throughput(ps, n)
    ensures forall v :: v < 0 || v >= |rows| ==> Lookup(ps.profile, v) == Profile(0.0, 0.0, 0.0, 0.0)
  {
    hide Loaded;
    n := Min(ps.max, |rows| - 1);
    LoadedIsGood(rows, n);
    var q := ps.(max := n);
    ThroughputGrows(q, 0, n);
    forall v | v < 0 || v >= |rows| ensures Lookup(ps.profile, v) == Profile(0.0, 0.0, 0.0, 0.0) {
      if v in Loaded(rows) {
        LoadedOnlyRows(rows, v);
      }
    }
    forall v | Allowed(ps, v) ensures Throughput(ps, v) <= Throughput(ps, n) {
      if 0 <= v < n {
        ThroughputGrows(q, v, n);
      }
    }
  }

  lemma ClimbsToNothing(rows: seq<Row>, ps: Params)
    requires ps.min <= ps.max && 1 <= ps.max && (ps.min < 1 || ps.max >= |rows|)
    requires forall v :: v < 0 || v >= |rows| ==> Lookup(ps.profile, v) == Profile(0.0, 0.0, 0.0, 0.0)
    requires Throughput(ps, 0) == 0.0
    ensures Throughput(ps, Climb(ps)[|Climb(ps)| - 1]) == 0.0
  {
  }

  lemma StartsClimbing(ps: Params)
    requires ps.min <= ps.max && 1 <= ps.max && 0 < ps.slots <= |ps.ci| && Throughput(ps, 0) == 0.0
    ensures Climbing(ps, Start(ps, OrderFrom(ps, 0)), 0, 0)
  {
  }

  /** A full schedule of two slots or more does more than one slot can. */
  lemma ManyAreMore(ps: Params, n: int)
    requires Allowed(ps, n) && Throughput(ps, n) > 0.0 && ps.slots >= 2 && ps.slotLength > 0.0
    ensures Feasible(ps, Copies(ps.slots, n))
    ensures Work(ps, Copies(ps.slots, n)) > Throughput(ps, n) * ps.slotLength > 0.0
  {
    var unit := Throughput(ps, n) * ps.slotLength;
    assert [] + Copies(ps.slots, n) == Copies(ps.slots, n);
    AppendWork(ps, [], ps.slots, n, unit);
    MoreThanOne(ps.slots, unit);
  }

  lemma {:induction false} MoreThanOne(j: nat, unit: real)
    requires j >= 2 && unit > 0.0
    ensures Times(j, unit) > unit
  {
    if j > 2 {
      MoreThanOne(j - 1, unit);
    } else {
      assert Times(1, unit) == Times(0, unit) + unit;
    }
  }

  /** From MinReplicas 0, or beyond the rows, some order gives up on what a full schedule at the best level
      does: it takes each slot past that level before it opens the next. */
  lemma SlotBySlotFails(rows: seq<Row>, ps: Params) returns (order: seq<Candidate>, s: seq<int>)
    requires Consecutive(rows) && Increasing(rows) && ps.profile == Loaded(rows)
    requires ps.min <= ps.max && 1 <= ps.max && ps.min < |rows| && 2 <= |rows|
    requires 2 <= ps.slots <= |ps.ci| && ps.slotLength > 0.0 && (ps.min < 1 || ps.max >= |rows|)
    ensures SortedFrom(ps, order) && InRange(order, ps.slots)
    ensures Feasible(ps, s) && s == Copies(ps.slots, Min(ps.max, |rows| - 1))
    ensures Plan(ps, order, Work(ps, s)) == None
  {
    hide Loaded, OrderFrom, Candidates, Climb, Climbing, Work, Copies, Increasing, Consecutive;
    var n := BestLevel(rows, ps);
    ClimbsToNothing(rows, ps);
    order := OrderFrom(ps, 0);
    NothingAfter(ps);
    OrderFromIsCandidates(ps, ps.slots);
    assert SortedFrom(ps, order) by {
      assert WellFormed(ps) ==> ps.min >= 1 && Rankable(ps, ps.max, 0);
    }
    OrderWithin(ps, order);
    ManyAreMore(ps, n);
    StartsClimbing(ps);
    s := Copies(ps.slots, n);
    ClimbFails(ps, order, Work(ps, s), 0, 0, 0, Throughput(ps, n));
  }

  /** Exactly when failures are exact. For consecutive, increasing rows, two slots or more and limits that
      admit some throughput, planning fails exactly when no schedule does the work, for every demand and
      every order the sort may return, if and only if MinReplicas is at least 1 and the node limit stays
      within the rows. */
  lemma ExactIffWithinRows(rows: seq<Row>, ps: Params)
    requires Consecutive(rows) && Increasing(rows) && ps.profile == Loaded(rows)
    requires ps.min <= ps.max && 1 <= ps.max && ps.min < |rows| && 2 <= |rows|
    requires 2 <= ps.slots <= |ps.ci| && ps.slotLength > 0.0
    ensures FailuresExact(ps) <==> 1 <= ps.min && ps.max < |rows|
  {
    hide Loaded;
    if 1 <= ps.min && ps.max < |rows| {
      LoadedIsGood(rows, ps.max);
      GoodGrows(ps);
      forall order: seq<Candidate>, target: real ensures ExactOn(ps, order, target) {
        if SortedFrom(ps, order) {
          FailsIffInfeasible(ps, order, target);
        }
      }
    } else {
      var order, s := SlotBySlotFails(rows, ps);
      assert !ExactOn(ps, order, Work(ps, s));
    }
  }
}

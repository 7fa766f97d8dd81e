/** Schedules that every run of the planner passes through: those that take all pairs worth at least some
    price and whose next raises are worth at most that price. Nothing here assumes diminishing returns. */
module Waypoints {
  import opened Common
  import opened Planner
  import opened PlannerInvariants
  import opened PlannerResults

  /** The candidate is one that g has taken. */
  predicate Taken(g: seq<int>, c: Candidate)
    requires c.time < |g|
  {
    c.nodes <= g[c.time]
  }

  /** The candidate is the next raise of its slot above g. */
  predicate Beyond(ps: Params, g: seq<int>, c: Candidate)
    requires c.time < |g|
  {
    c.nodes == Next(ps, g[c.time])
  }

  /** No raise just beyond g stands before one that g has taken in another slot. */
  ghost predicate Favours(ps: Params, list: seq<Candidate>, g: seq<int>)
    requires InRange(list, |g|)
  {
    forall i, k :: 0 <= i < k < |list| && Beyond(ps, g, list[i]) && list[i].time != list[k].time ==>
      !Taken(g, list[k])
  }

  // ----- passing through -----

  /** Below a favoured schedule, a pass does not go beyond it in any slot. */
  lemma StepStaysBelow(ps: Params, st: State, g: seq<int>)
    requires Regular(ps) && Inv(ps, st) && CanStep(ps, st) && Feasible(ps, g)
    requires InRange(st.list, |g|) && Favours(ps, st.list, g)
    requires Below(st.schedule, g) && st.schedule != g
    ensures Below(Step(ps, st).schedule, g)
  {
    PickedIsNext(ps, st);
    var s, c := st.schedule, Picked(ps, st);
    assert Allowed(ps, g[c.time]) && Allowed(ps, s[c.time]);
    if s[c.time] == g[c.time] {
      var u :| 0 <= u < |s| && s[u] != g[u];
      assert Allowed(ps, g[u]) && Allowed(ps, s[u]);
      var d := Cand(ps, Next(ps, s[u]), u);
      assert d in Open(ps, s);
      InListIffOpen(ps, st, d);
      var k :| 0 <= k < |st.list| && st.list[k] == d;
      assert Applies(st.list[k], s, ps.min);
      assert Beyond(ps, g, st.list[Pick(st.list, s, ps.min)]) && Taken(g, st.list[k]);
    }
  }

  lemma DeletionFavours(ps: Params, list: seq<Candidate>, g: seq<int>, n: nat)
    requires InRange(list, |g|) && Favours(ps, list, g) && n < |list|
    ensures InRange(list[..n] + list[n + 1..], |g|) && Favours(ps, list[..n] + list[n + 1..], g)
  {
    var rest := list[..n] + list[n + 1..];
    forall i, k | 0 <= i < k < |rest| && Beyond(ps, g, rest[i]) && rest[i].time != rest[k].time
      ensures !Taken(g, rest[k])
    {
      var i', k' := if i < n then i else i + 1, if k < n then k else k + 1;
      assert rest[i] == list[i'] && rest[k] == list[k'];
    }
  }

  /** The schedule has not left the way to g, or has come through it. */
  ghost predicate OnTheWay(ps: Params, st: State, g: seq<int>) {
    && InRange(st.list, |g|) && Favours(ps, st.list, g)
    && (Below(st.schedule, g) || Below(g, st.schedule))
  }

  lemma AdvanceOnTheWay(ps: Params, st: State, g: seq<int>)
    requires Regular(ps) && Inv(ps, st) && Feasible(ps, g) && InRange(st.list, |st.schedule|)
    requires OnTheWay(ps, st, g)
    ensures OnTheWay(ps, Advance(ps, st), g)
  {
    hide Inv, Favours, Taken, Beyond;
    if CanStep(ps, st) {
      DeletionFavours(ps, st.list, g, Pick(st.list, st.schedule, ps.min));
      AdvanceGrows(ps, st);
      if Below(st.schedule, g) && st.schedule != g {
        StepStaysBelow(ps, st, g);
      }
    }
  }

  /** Every pass is on the way to a favoured schedule or beyond it. */
  lemma {:induction false} ReachOnTheWay(ps: Params, order: seq<Candidate>, g: seq<int>, k: nat)
    requires Regular(ps) && SortedFrom(ps, order) && Feasible(ps, g)
    requires InRange(order, |g|) && Favours(ps, order, g)
    ensures InRange(order, ps.slots) && OnTheWay(ps, Reach(ps, order, k), g)
  {
    hide Advance, Inv, SortedFrom, Favours, OnTheWay;
    StartInv(ps, order);
    if k == 0 {
      StartOnTheWay(ps, order, g);
    } else {
      ReachOnTheWay(ps, order, g, k - 1);
      ReachInv(ps, order, k - 1);
      AdvanceOnTheWay(ps, Reach(ps, order, k - 1), g);
    }
  }

  lemma StartOnTheWay(ps: Params, order: seq<Candidate>, g: seq<int>)
    requires Regular(ps) && Feasible(ps, g) && InRange(order, |g|) && Favours(ps, order, g)
    ensures OnTheWay(ps, Start(ps, order), g)
  {
    forall t | 0 <= t < |g| ensures 0 <= g[t] { assert Allowed(ps, g[t]); }
  }

  // ----- plans for a demand that a waypoint meets -----

  /** A raise from below g that goes past g somewhere reaches g there. */
  lemma RaiseReaches(ps: Params, before: seq<int>, t: nat, g: seq<int>)
    requires 1 <= ps.min && Feasible(ps, before) && Feasible(ps, g) && t < ps.slots
    requires Below(before, g) && before != g && Below(g, before[t := Next(ps, before[t])])
    ensures before[t := Next(ps, before[t])] == g
  {
    assert Allowed(ps, before[t]) && Allowed(ps, g[t]);
  }

  /** The plan for a demand that a favoured schedule meets does not go past it. */
  lemma PlanStaysBelow(ps: Params, order: seq<Candidate>, g: seq<int>, target: real, s: seq<int>)
    requires Sound(ps) && WellFormed(ps) && SortedFrom(ps, order) && Feasible(ps, g)
    requires InRange(order, |g|) && Favours(ps, order, g) && target <= Work(ps, g)
    requires Plan(ps, order, target) == Some(s)
    ensures Feasible(ps, s) && Below(s, g)
  {
    hide Inv, SortedFrom, Favours, WellFormed, Plan, Work, Reach, StopsAt, CanStep;
    PlanIsSound(ps, order, target, s);
    if target > 0.0 {
      var n, before, t := RaisedLast(ps, order, target, s);
      ReachOnTheWay(ps, order, g, n);
      ReachOnTheWay(ps, order, g, n + 1);
      if Below(g, before) {
        BelowDoesLess(ps, g, before);
      } else if !Below(s, g) {
        RaiseReaches(ps, before, t, g);
      }
    } else {
      forall t | 0 <= t < |g| ensures 0 <= g[t] { assert Allowed(ps, g[t]); }
    }
  }

  lemma BelowDoesLess(ps: Params, a: seq<int>, b: seq<int>)
    requires Sound(ps) && Feasible(ps, a) && Feasible(ps, b) && Below(a, b)
    ensures Work(ps, a) <= Work(ps, b)
    ensures a != b ==> Work(ps, a) < Work(ps, b)
  {
    hide Throughput, Work;
    TopThroughputs(ps);
    forall t | 0 <= t < |a| ensures Throughput(ps, a[t]) <= Throughput(ps, b[t]) {
      assert Allowed(ps, a[t]) && Allowed(ps, b[t]);
    }
    WorkIsMonotone(ps, a, b);
    if a != b {
      var t :| 0 <= t < |a| && a[t] != b[t];
      assert Allowed(ps, a[t]) && Allowed(ps, b[t]);
      ThroughputGrows(ps, a[t], b[t]);
      StrictlyLessWork(ps, a, b, t);
    }
  }

  lemma StrictlyLessWork(ps: Params, s: seq<int>, top: seq<int>, t: nat)
    requires |s| == |top| && t < |s| && ps.slotLength > 0.0
    requires forall u :: 0 <= u < |s| ==> Throughput(ps, s[u]) <= Throughput(ps, top[u])
    requires Throughput(ps, s[t]) < Throughput(ps, top[t])
    ensures Work(ps, s) < Work(ps, top)
  {
    hide Throughput, Work;
    var gain := Throughput(ps, top[t]) - Throughput(ps, s[t]);
    WorkOfRaise(ps, s, t, top[t], gain);
    assert gain * ps.slotLength > 0.0;
    WorkIsMonotone(ps, s[t := top[t]], top);
  }

  /** The plan for exactly the work of a favoured schedule is that schedule. */
  lemma PlanIsWaypoint(ps: Params, order: seq<Candidate>, g: seq<int>)
    requires Sound(ps) && WellFormed(ps) && SortedFrom(ps, order) && Feasible(ps, g)
    requires InRange(order, |g|) && Favours(ps, order, g)
    ensures Plan(ps, order, Work(ps, g)) == Some(g)
  {
    hide Inv, SortedFrom, Favours, WellFormed, Plan, Work;
    var s := PlanExists(ps, order, Work(ps, g), g);
    PlanStaysBelow(ps, order, g, Work(ps, g), s);
    PlanIsSound(ps, order, Work(ps, g), s);
    BelowDoesLess(ps, s, g);
  }

  /** The plan for a demand a little above a favoured schedule is that schedule with one raise. */
  lemma PlanIsNextRaise(ps: Params, order: seq<Candidate>, g: seq<int>, target: real) returns (t: nat)
    requires Sound(ps) && WellFormed(ps) && SortedFrom(ps, order) && InRange(order, |g|)
    requires Feasible(ps, g) && Favours(ps, order, g)
    requires Plan(ps, order, target) != None && target > 0.0 && Work(ps, g) < target
    requires forall u :: 0 <= u < ps.slots && Next(ps, g[u]) <= ps.max ==>
               Work(ps, g[u := Next(ps, g[u])]) >= target
    ensures t < ps.slots && Next(ps, g[t]) <= ps.max
    ensures Plan(ps, order, target) == Some(g[t := Next(ps, g[t])])
  {
    hide Inv, SortedFrom, Favours, WellFormed, Plan, Work, Reach, StopsAt, CanStep;
    var s := Plan(ps, order, target).value;
    var n, before, u := RaisedLast(ps, order, target, s);
    ReachOnTheWay(ps, order, g, n);
    ReachOnTheWay(ps, order, g, n + 1);
    if Below(s, g) {
      BelowDoesLess(ps, s, g);
    } else if !Below(g, before) {
      RaiseReaches(ps, before, u, g);
    } else if before != g {
      RaisedAbove(ps, g, before, target);
    }
    t := u;
  }

  lemma RaisedAbove(ps: Params, g: seq<int>, s: seq<int>, target: real)
    requires Sound(ps) && Feasible(ps, g) && Feasible(ps, s) && Below(g, s) && g != s
    requires forall u :: 0 <= u < ps.slots && Next(ps, g[u]) <= ps.max ==>
               Work(ps, g[u := Next(ps, g[u])]) >= target
    ensures Work(ps, s) >= target
  {
    hide Work;
    var u :| 0 <= u < |g| && g[u] != s[u];
    assert Allowed(ps, g[u]) && Allowed(ps, s[u]);
    var raised := g[u := Next(ps, g[u])];
    assert Feasible(ps, raised) && Below(raised, s);
    BelowDoesLess(ps, raised, s);
  }

  // ----- which orders favour a schedule -----

  /** All that g takes is worth at least the price, and its next raises are worth at most the price. */
  ghost predicate Fits(ps: Params, g: seq<int>, price: real)
    requires |g| == ps.slots <= |ps.ci|
  {
    && (forall j: int, t: nat :: t < ps.slots && ps.min <= j <= g[t] ==> Value(ps, j, t) >= price)
    && (forall t: nat :: t < ps.slots && Next(ps, g[t]) <= ps.max ==> Value(ps, Next(ps, g[t]), t) <= price)
  }

  lemma OrderIsCandidates(ps: Params, order: seq<Candidate>, i: nat)
    requires WellFormed(ps) && SortedFrom(ps, order) && i < |order|
    ensures var c := order[i];
      c.time < ps.slots <= |ps.ci| && ps.min <= c.nodes <= ps.max && c.value == Value(ps, c.nodes, c.time)
  {
    StartInv(ps, order);
    InListIffOpen(ps, Start(ps, order), order[i]);
  }

  /** A schedule that takes more than the price is favoured by every sorted order. */
  lemma StrictIsFavoured(ps: Params, order: seq<Candidate>, g: seq<int>, price: real)
    requires WellFormed(ps) && SortedFrom(ps, order) && Feasible(ps, g) && ps.slots <= |ps.ci|
    requires Fits(ps, g, price)
    requires forall j: int, t: nat :: t < ps.slots && ps.min <= j <= g[t] ==> Value(ps, j, t) > price
    ensures InRange(order, |g|) && Favours(ps, order, g)
  {
    hide Value, Open;
    StartInv(ps, order);
    forall i, k | 0 <= i < k < |order| && Beyond(ps, g, order[i]) && order[i].time != order[k].time
      ensures !Taken(g, order[k])
    {
      OrderIsCandidates(ps, order, i);
      OrderIsCandidates(ps, order, k);
      assert order[i].value >= order[k].value;
    }
  }

  /** By descending value, and among equals what g takes comes first. */
  ghost predicate Ahead(g: seq<int>, c: Candidate, d: Candidate)
    requires c.time < |g| && d.time < |g|
  {
    c.value > d.value || (c.value == d.value && (Taken(g, d) ==> Taken(g, c)))
  }

  ghost predicate Ranked(g: seq<int>, list: seq<Candidate>)
    requires InRange(list, |g|)
  {
    forall i, k :: 0 <= i < k < |list| ==> Ahead(g, list[i], list[k])
  }

  lemma PushRanked(g: seq<int>, c: Candidate, list: seq<Candidate>)
    requires c.time < |g| && InRange(list, |g|) && Ranked(g, list)
    requires forall d :: d in list ==> d.time < |g| && Ahead(g, c, d)
    ensures InRange([c] + list, |g|) && Ranked(g, [c] + list)
  {
    hide Ahead;
    forall i, k | 0 <= i < k < |list| + 1 ensures Ahead(g, ([c] + list)[i], ([c] + list)[k]) {
      assert ([c] + list)[k] == list[k - 1];
    }
  }

  lemma {:induction false} InsertRanked(g: seq<int>, list: seq<Candidate>, c: Candidate)
    returns (out: seq<Candidate>)
    requires c.time < |g| && InRange(list, |g|) && Ranked(g, list)
    ensures InRange(out, |g|) && Ranked(g, out)
    ensures multiset(out) == multiset(list) + multiset{c}
    ensures forall d :: d in out ==> d == c || d in list
  {
    if list == [] {
      out := [c];
    } else if Ahead(g, c, list[0]) {
      AheadOfAll(g, list, c);
      out := [c] + list;
      PushRanked(g, c, list);
    } else {
      var rest := InsertRanked(g, list[1..], c);
      HeadIsAhead(g, list, c, rest);
      out := [list[0]] + rest;
      PushRanked(g, list[0], rest);
      assert list == [list[0]] + list[1..];
    }
  }

  lemma AheadOfAll(g: seq<int>, list: seq<Candidate>, c: Candidate)
    requires c.time < |g| && InRange(list, |g|) && Ranked(g, list) && list != [] && Ahead(g, c, list[0])
    ensures forall d :: d in list ==> d.time < |g| && Ahead(g, c, d)
  {
    forall d | d in list ensures d.time < |g| && Ahead(g, c, d) {
      var k :| 0 <= k < |list| && list[k] == d;
      assert k > 0 ==> Ahead(g, list[0], list[k]);
    }
  }

  lemma HeadIsAhead(g: seq<int>, list: seq<Candidate>, c: Candidate, rest: seq<Candidate>)
    requires c.time < |g| && InRange(list, |g|) && Ranked(g, list) && list != [] && !Ahead(g, c, list[0])
    requires forall d :: d in rest ==> d == c || d in list[1..]
    ensures forall d :: d in rest ==> d.time < |g| && Ahead(g, list[0], d)
  {
    forall d | d in rest ensures d.time < |g| && Ahead(g, list[0], d) {
      if d != c {
        var k :| 0 <= k < |list| - 1 && list[1..][k] == d;
        assert Ahead(g, list[0], list[k + 1]);
      }
    }
  }

  lemma {:induction false} Sorted(g: seq<int>, list: seq<Candidate>) returns (out: seq<Candidate>)
    requires InRange(list, |g|)
    ensures InRange(out, |g|) && Ranked(g, out) && multiset(out) == multiset(list)
  {
    hide Ranked;
    if list == [] {
      out := [];
      NothingRanked(g);
    } else {
      var rest := Sorted(g, list[1..]);
      out := InsertRanked(g, rest, list[0]);
      assert list == [list[0]] + list[1..];
    }
  }

  lemma NothingRanked(g: seq<int>)
    ensures Ranked(g, [])
  {
  }

  /** Some order of the ties favours a schedule that fits a price. */
  lemma FittingOrder(ps: Params, g: seq<int>, price: real) returns (order: seq<Candidate>)
    requires WellFormed(ps) && Feasible(ps, g) && ps.slots <= |ps.ci| && Fits(ps, g, price)
    ensures SortedFrom(ps, order) && InRange(order, |g|) && Favours(ps, order, g)
  {
    hide Value, Open, Ranked, Fits, Candidates, WellFormed;
    forall i | 0 <= i < |Candidates(ps, ps.slots)| ensures Candidates(ps, ps.slots)[i].time < |g| {
      CandidatesWithin(ps, ps.slots, Candidates(ps, ps.slots)[i]);
    }
    order := Sorted(g, Candidates(ps, ps.slots));
    RankedIsDescending(g, order);
    FittingIsFavoured(ps, order, g, price);
  }

  lemma RankedIsDescending(g: seq<int>, list: seq<Candidate>)
    requires InRange(list, |g|) && Ranked(g, list)
    ensures Descending(list)
  {
    forall i, k | 0 <= i < k < |list| ensures list[i].value >= list[k].value {
      assert Ahead(g, list[i], list[k]);
    }
  }

  lemma FittingIsFavoured(ps: Params, order: seq<Candidate>, g: seq<int>, price: real)
    requires WellFormed(ps) && SortedFrom(ps, order) && Feasible(ps, g) && ps.slots <= |ps.ci|
    requires Fits(ps, g, price) && InRange(order, |g|) && Ranked(g, order)
    ensures Favours(ps, order, g)
  {
    hide Value, Open, SortedFrom, WellFormed;
    forall i, k | 0 <= i < k < |order| && Beyond(ps, g, order[i]) && order[i].time != order[k].time
      ensures !Taken(g, order[k])
    {
      OrderIsCandidates(ps, order, i);
      OrderIsCandidates(ps, order, k);
      assert Ahead(g, order[i], order[k]);
      assert Allowed(ps, g[order[i].time]);
      BeyondIsNotTaken(ps, g, order[i]);
    }
  }

  lemma BeyondIsNotTaken(ps: Params, g: seq<int>, c: Candidate)
    requires WellFormed(ps) && c.time < |g| && Allowed(ps, g[c.time]) && Beyond(ps, g, c)
    ensures !Taken(g, c)
  {
  }
}

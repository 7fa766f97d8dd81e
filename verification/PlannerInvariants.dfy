/** What every pass of the greedy loop keeps, for every order the sort may return. */
module PlannerInvariants {
  import opened Planner

  ghost predicate Allowed(ps: Params, v: int) {
    v == 0 || ps.min <= v <= ps.max
  }

  /** One entry per slot, each 0 or within MinReplicas and the node limit. */
  ghost predicate Feasible(ps: Params, s: seq<int>) {
    |s| == ps.slots && forall t :: 0 <= t < |s| ==> Allowed(ps, s[t])
  }

  /** The next node count a slot may take. */
  function Next(ps: Params, v: int): int {
    if v == 0 then ps.min else v + 1
  }

  /** Every candidate above the schedule's current levels. */
  ghost function Open(ps: Params, s: seq<int>): set<Candidate>
    requires Regular(ps) && |s| == ps.slots
  {
    set j: int, t: nat | ps.min <= j <= ps.max && t < ps.slots && j > s[t] :: Cand(ps, j, t)
  }

  /** The loop invariant: the list holds exactly the candidates above the schedule, each once, and by
      descending value if every value is a number. */
  ghost predicate Inv(ps: Params, st: State)
    requires Regular(ps)
  {
    && Feasible(ps, st.schedule)
    && (WellFormed(ps) ==> Descending(st.list))
    && multiset(st.list) == multiset(Open(ps, st.schedule))
  }

  // ----- the start -----

  ghost function SlotSet(ps: Params, t: nat, j: int): set<Candidate>
    requires Regular(ps) && t < ps.slots && j <= ps.max + 1
  {
    set i: int | ps.min <= i < j :: Cand(ps, i, t)
  }

  ghost function BeforeSlot(ps: Params, t: nat): set<Candidate>
    requires Regular(ps) && t <= ps.slots
  {
    set j: int, u: nat | ps.min <= j <= ps.max && u < t :: Cand(ps, j, u)
  }

  lemma {:induction false} SlotCandidatesOnce(ps: Params, t: nat, j: int)
    requires Regular(ps) && t < ps.slots && ps.min <= j <= ps.max + 1
    ensures multiset(SlotCandidates(ps, t, j)) == multiset(SlotSet(ps, t, j))
    ensures |SlotCandidates(ps, t, j)| == j - ps.min
    decreases j - ps.min
  {
    if j > ps.min {
      SlotCandidatesOnce(ps, t, j - 1);
      assert SlotSet(ps, t, j) == SlotSet(ps, t, j - 1) + {Cand(ps, j - 1, t)};
      assert Cand(ps, j - 1, t) !in SlotSet(ps, t, j - 1);
    }
  }

  ghost function StepsPerSlot(ps: Params): nat {
    if ps.max < ps.min then 0 else ps.max - ps.min + 1
  }

  lemma BeforeNextSlot(ps: Params, t: nat)
    requires Regular(ps) && t < ps.slots && ps.min <= ps.max
    ensures BeforeSlot(ps, t + 1) == BeforeSlot(ps, t) + SlotSet(ps, t, ps.max + 1)
    ensures BeforeSlot(ps, t) !! SlotSet(ps, t, ps.max + 1)
  {
  }

  lemma DisjointUnion<T>(a: set<T>, b: set<T>)
    requires a !! b
    ensures multiset(a + b) == multiset(a) + multiset(b)
  {
  }

  lemma NextSlotOnce(ps: Params, t: nat)
    requires Regular(ps) && t < ps.slots && ps.min <= ps.max
    requires multiset(Candidates(ps, t)) == multiset(BeforeSlot(ps, t))
    ensures multiset(Candidates(ps, t + 1)) == multiset(BeforeSlot(ps, t + 1))
  {
    hide BeforeSlot, SlotSet, SlotCandidates;
    SlotCandidatesOnce(ps, t, ps.max + 1);
    BeforeNextSlot(ps, t);
    DisjointUnion(BeforeSlot(ps, t), SlotSet(ps, t, ps.max + 1));
  }

  lemma NoCandidates(ps: Params, t: nat)
    requires Regular(ps) && t <= ps.slots && (t == 0 || ps.max < ps.min)
    ensures multiset(Candidates(ps, t)) == multiset(BeforeSlot(ps, t))
  {
    assert BeforeSlot(ps, t) == {};
  }

  lemma {:induction false} CandidatesOnce(ps: Params, t: nat)
    requires Regular(ps) && t <= ps.slots
    ensures multiset(Candidates(ps, t)) == multiset(BeforeSlot(ps, t))
  {
    hide Candidates, BeforeSlot, Regular;
    if t == 0 || ps.max < ps.min {
      NoCandidates(ps, t);
    } else {
      CandidatesOnce(ps, t - 1);
      NextSlotOnce(ps, t - 1);
    }
  }

  lemma OneMoreTime(t: nat, n: nat)
    requires t > 0
    ensures t * n == (t - 1) * n + n
  {
  }

  lemma {:induction false} CandidatesCount(ps: Params, t: nat)
    requires Regular(ps) && t <= ps.slots
    ensures |Candidates(ps, t)| == t * StepsPerSlot(ps)
  {
    hide SlotCandidates;
    if t > 0 && ps.min <= ps.max {
      CandidatesCount(ps, t - 1);
      SlotCandidatesOnce(ps, t - 1, ps.max + 1);
      OneMoreTime(t, StepsPerSlot(ps));
    }
  }

  lemma InListIffOpen(ps: Params, st: State, c: Candidate)
    requires Regular(ps) && Inv(ps, st)
    ensures c in st.list <==> c in Open(ps, st.schedule)
  {
    assert c in st.list <==> c in multiset(st.list);
    assert c in Open(ps, st.schedule) <==> c in multiset(Open(ps, st.schedule));
  }

  lemma InvInRange(ps: Params, st: State)
    requires Regular(ps) && Inv(ps, st)
    ensures InRange(st.list, ps.slots)
  {
    forall i | 0 <= i < |st.list| ensures st.list[i].time < ps.slots {
      InListIffOpen(ps, st, st.list[i]);
    }
  }

  lemma StartInv(ps: Params, order: seq<Candidate>)
    requires Regular(ps) && SortedFrom(ps, order)
    ensures Inv(ps, Start(ps, order))
    ensures InRange(order, ps.slots)
    ensures |order| == ps.slots * StepsPerSlot(ps)
  {
    CandidatesOnce(ps, ps.slots);
    CandidatesCount(ps, ps.slots);
    var st := Start(ps, order);
    assert Open(ps, st.schedule) == BeforeSlot(ps, ps.slots);
    InvInRange(ps, st);
    assert |order| == |multiset(order)|;
    assert |Candidates(ps, ps.slots)| == |multiset(Candidates(ps, ps.slots))|;
  }

  // ----- without any assumption on the values -----

  /** A candidate for one of the slots, within both node limits. */
  ghost predicate Within(ps: Params, c: Candidate) {
    c.time < ps.slots && ps.min <= c.nodes <= ps.max
  }

  lemma {:induction false} SlotCandidatesWithin(ps: Params, t: nat, j: int, c: Candidate)
    requires Indexed(ps) && t < ps.slots && ps.min <= j <= ps.max + 1 && c in SlotCandidates(ps, t, j)
    ensures Within(ps, c)
    decreases j - ps.min
  {
    if j > ps.min && c != Cand(ps, j - 1, t) {
      SlotCandidatesWithin(ps, t, j - 1, c);
    }
  }

  lemma CandidatesSplit(ps: Params, t: nat, c: Candidate)
    requires Indexed(ps) && t <= ps.slots && c in Candidates(ps, t)
    ensures t > 0 && ps.min <= ps.max
    ensures c in Candidates(ps, t - 1) || c in SlotCandidates(ps, t - 1, ps.max + 1)
  {
    hide SlotCandidates;
  }

  lemma {:induction false} CandidatesWithin(ps: Params, t: nat, c: Candidate)
    requires Indexed(ps) && t <= ps.slots && c in Candidates(ps, t)
    ensures Within(ps, c)
  {
    hide Candidates, SlotCandidates, Within;
    CandidatesSplit(ps, t, c);
    if c in Candidates(ps, t - 1) {
      CandidatesWithin(ps, t - 1, c);
    } else {
      SlotCandidatesWithin(ps, t - 1, ps.max + 1, c);
    }
  }

  lemma OrderWithin(ps: Params, order: seq<Candidate>)
    requires SortedFrom(ps, order)
    ensures InRange(order, ps.slots)
    ensures forall i :: 0 <= i < |order| ==> Within(ps, order[i])
  {
    forall i | 0 <= i < |order| ensures Within(ps, order[i]) {
      assert order[i] in multiset(Candidates(ps, ps.slots));
      CandidatesWithin(ps, ps.slots, order[i]);
    }
  }

  ghost predicate WithinLimits(ps: Params, st: State) {
    && Feasible(ps, st.schedule)
    && forall i :: 0 <= i < |st.list| ==> Within(ps, st.list[i])
  }

  lemma AdvanceWithin(ps: Params, st: State)
    requires WithinLimits(ps, st) && InRange(st.list, |st.schedule|)
    ensures WithinLimits(ps, Advance(ps, st))
  {
    if CanStep(ps, st) {
      var i := Pick(st.list, st.schedule, ps.min);
      assert Within(ps, st.list[i]);
    }
  }

  /** Whatever the values, and so whatever order the sort returns, every pass keeps every entry 0 or
      within both node limits. */
  lemma {:induction false} ReachWithin(ps: Params, order: seq<Candidate>, k: nat)
    requires SortedFrom(ps, order)
    ensures InRange(order, ps.slots) && WithinLimits(ps, Reach(ps, order, k))
  {
    hide Advance, SortedFrom;
    OrderWithin(ps, order);
    if k > 0 {
      ReachWithin(ps, order, k - 1);
      AdvanceWithin(ps, Reach(ps, order, k - 1));
    }
  }

  // ----- one pass -----

  /** The candidate that pass applies. */
  ghost function Picked(ps: Params, st: State): Candidate
    requires CanStep(ps, st)
  {
    st.list[Pick(st.list, st.schedule, ps.min)]
  }

  /** A pass takes a slot from its level to the next one, and nothing of that slot below it is left. */
  lemma PickedIsNext(ps: Params, st: State)
    requires Regular(ps) && Inv(ps, st) && CanStep(ps, st)
    ensures var c := Picked(ps, st);
      && c.time < ps.slots && ps.min <= c.nodes <= ps.max && c == Cand(ps, c.nodes, c.time)
      && c in Open(ps, st.schedule)
      && c.nodes == Next(ps, st.schedule[c.time])
  {
    InListIffOpen(ps, st, Picked(ps, st));
  }

  lemma RaiseCloses(ps: Params, s: seq<int>, t: nat)
    requires Regular(ps) && Feasible(ps, s) && t < ps.slots && Next(ps, s[t]) <= ps.max
    ensures Open(ps, s[t := Next(ps, s[t])]) == Open(ps, s) - {Cand(ps, Next(ps, s[t]), t)}
  {
    var s' := s[t := Next(ps, s[t])];
    forall j: int, u: nat | ps.min <= j <= ps.max && u < ps.slots
      ensures j > s'[u] <==> j > s[u] && (j, u) != (Next(ps, s[t]), t)
    {
    }
  }

  lemma RemoveOnce<T>(list: seq<T>, i: nat, s: set<T>)
    requires i < |list| && multiset(list) == multiset(s)
    ensures list[i] in s && multiset(list[..i] + list[i + 1..]) == multiset(s - {list[i]})
  {
    assert list[i] in multiset(list);
    assert list == list[..i] + [list[i]] + list[i + 1..];
    assert multiset(s - {list[i]}) == multiset(s) - multiset{list[i]};
  }

  lemma DeletionDescends(list: seq<Candidate>, i: nat)
    requires Descending(list) && i < |list|
    ensures Descending(list[..i] + list[i + 1..])
  {
  }

  lemma StepInv(ps: Params, st: State)
    requires Regular(ps) && Inv(ps, st) && CanStep(ps, st)
    ensures Inv(ps, Step(ps, st))
    ensures Open(ps, Step(ps, st).schedule) == Open(ps, st.schedule) - {Picked(ps, st)}
  {
    hide Descending, WellFormed, Open, Pick;
    PickedIsNext(ps, st);
    RaiseCloses(ps, st.schedule, Picked(ps, st).time);
    RemoveOnce(st.list, Pick(st.list, st.schedule, ps.min), Open(ps, st.schedule));
    if Descending(st.list) {
      DeletionDescends(st.list, Pick(st.list, st.schedule, ps.min));
    }
  }

  /** The loop is stuck only when the list is empty. */
  lemma StuckMeansEmpty(ps: Params, st: State)
    requires Regular(ps) && Inv(ps, st) && !CanStep(ps, st)
    ensures st.list == [] && forall t :: 0 <= t < ps.slots ==> Next(ps, st.schedule[t]) > ps.max
  {
    InvInRange(ps, st);
    forall t | 0 <= t < ps.slots ensures Next(ps, st.schedule[t]) > ps.max {
      if Next(ps, st.schedule[t]) <= ps.max {
        var c := Cand(ps, Next(ps, st.schedule[t]), t);
        assert c in Open(ps, st.schedule);
        InListIffOpen(ps, st, c);
      }
    }
    if st.list != [] {
      InListIffOpen(ps, st, st.list[0]);
    }
  }

  // ----- every pass -----

  lemma AdvanceInv(ps: Params, st: State)
    requires Regular(ps) && Inv(ps, st)
    ensures InRange(st.list, |st.schedule|) && Inv(ps, Advance(ps, st))
    ensures |Advance(ps, st).list| == if st.list == [] then 0 else |st.list| - 1
  {
    InvInRange(ps, st);
    if CanStep(ps, st) {
      StepInv(ps, st);
    } else {
      StuckMeansEmpty(ps, st);
    }
  }

  /** At every pass the list is exactly the open candidates, and it has lost one per pass. */
  lemma {:induction false} ReachInv(ps: Params, order: seq<Candidate>, k: nat)
    requires Regular(ps) && SortedFrom(ps, order)
    ensures InRange(order, ps.slots) && Inv(ps, Reach(ps, order, k))
    ensures k <= |order| ==> |Reach(ps, order, k).list| == |order| - k
  {
    hide Advance, Inv, SortedFrom;
    StartInv(ps, order);
    if k > 0 {
      ReachInv(ps, order, k - 1);
      AdvanceInv(ps, Reach(ps, order, k - 1));
    }
  }

  // ----- the simple rule -----

  /** Slot t is one of those whose next level exists and has the greatest value. */
  ghost predicate BestRaise(ps: Params, s: seq<int>, t: nat)
    requires WellFormed(ps) && Feasible(ps, s)
  {
    && t < ps.slots && Next(ps, s[t]) <= ps.max
    && forall u: nat :: u < ps.slots && Next(ps, s[u]) <= ps.max ==>
         Value(ps, Next(ps, s[t]), t) >= Value(ps, Next(ps, s[u]), u)
  }

  lemma PickedIsBest(ps: Params, st: State)
    requires WellFormed(ps) && Inv(ps, st) && CanStep(ps, st)
    ensures BestRaise(ps, st.schedule, Picked(ps, st).time)
  {
    PickedIsNext(ps, st);
    var s, c := st.schedule, Picked(ps, st);
    forall u: nat | u < ps.slots && Next(ps, s[u]) <= ps.max
      ensures c.value >= Value(ps, Next(ps, s[u]), u)
    {
      var d := Cand(ps, Next(ps, s[u]), u);
      assert d in Open(ps, s);
      InListIffOpen(ps, st, d);
      var k :| 0 <= k < |st.list| && st.list[k] == d;
      assert Applies(st.list[k], s, ps.min);
    }
  }

  /** Scanning the sorted list for the first candidate that applies, and deleting it, is the rule
      "raise the slot whose next level has the greatest value"; it stops only when no slot has one. */
  lemma ScanIsBestRaise(ps: Params, st: State)
    requires WellFormed(ps) && Inv(ps, st)
    ensures CanStep(ps, st) <==> exists t: nat :: t < ps.slots && Next(ps, st.schedule[t]) <= ps.max
    ensures CanStep(ps, st) ==> exists t: nat ::
              (BestRaise(ps, st.schedule, t)
               && Step(ps, st).schedule == st.schedule[t := Next(ps, st.schedule[t])])
  {
    if !CanStep(ps, st) {
      StuckMeansEmpty(ps, st);
    } else {
      PickedIsNext(ps, st);
      PickedIsBest(ps, st);
    }
  }
}

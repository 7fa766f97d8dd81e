/** The greedy carbon planner of src/controllers/carbon_scaler.go as a function of the order in which
    the candidates were sorted. sort.Slice is unstable, so nothing here fixes the order of ties. */
module Planner {
  import opened Common
  import opened Profiles

  /** A candidate step: run `nodes` nodes in slot `time`. */
  datatype Candidate = Candidate(nodes: int, time: nat, value: real)

  /** What one planning call reads: the profile, MinReplicas, the node limit, the carbon forecast,
      the number of slots before the deadline and the length of a slot. */
  datatype Params = Params(profile: map<int, Profile>, min: int, max: int,
                           ci: seq<real>, slots: nat, slotLength: real)

  function Throughput(ps: Params, n: int): real { Lookup(ps.profile, n).throughput }
  function Power(ps: Params, n: int): real { Lookup(ps.profile, n).power }
  function GainT(ps: Params, n: int): real { Lookup(ps.profile, n).marginalThroughput }
  function GainP(ps: Params, n: int): real { Lookup(ps.profile, n).marginalPower }

  ghost predicate Rankable(ps: Params, j: int, t: nat) {
    t < |ps.ci| && GainP(ps, j) * ps.ci[t] != 0.0
  }

  /** The forecast reaches the deadline whenever there is a candidate to rank: otherwise the source
      panics, indexing past its end. */
  predicate Indexed(ps: Params) {
    ps.min <= ps.max ==> ps.slots <= |ps.ci|
  }

  /** At least one node per open slot, and a forecast that reaches the deadline. */
  ghost predicate Regular(ps: Params) {
    1 <= ps.min && Indexed(ps)
  }

  /** What the ranking is meant for: besides, no division by zero. */
  ghost predicate WellFormed(ps: Params) {
    && Regular(ps)
    && forall j: int, t: nat :: ps.min <= j <= ps.max && t < ps.slots ==> Rankable(ps, j, t)
  }

  /** Throughput gained per unit of carbon emitted. A division by zero gives the source a value that is
      not a number or is infinite; the 0 here stands for it and is never relied upon. */
  function Value(ps: Params, j: int, t: nat): real
    requires t < |ps.ci|
  {
    var carbon := GainP(ps, j) * ps.ci[t];
    if carbon == 0.0 then 0.0 else GainT(ps, j) / carbon
  }

  function Cand(ps: Params, j: int, t: nat): Candidate
    requires t < |ps.ci|
  {
    Candidate(j, t, Value(ps, j, t))
  }

  // ----- the candidate list -----

  /** Slot t's candidates for the node counts below j. */
  function SlotCandidates(ps: Params, t: nat, j: int): seq<Candidate>
    requires Indexed(ps) && t < ps.slots && ps.min <= j <= ps.max + 1
    decreases j - ps.min
  {
    if j == ps.min then [] else SlotCandidates(ps, t, j - 1) + [Cand(ps, j - 1, t)]
  }

  /** All candidates of the slots before t, in the order they are appended. */
  function Candidates(ps: Params, t: nat): seq<Candidate>
    requires Indexed(ps) && t <= ps.slots
  {
    if t == 0 || ps.max < ps.min then []
    else Candidates(ps, t - 1) + SlotCandidates(ps, t - 1, ps.max + 1)
  }

  ghost predicate Descending(list: seq<Candidate>) {
    forall i, k :: 0 <= i < k < |list| ==> list[i].value >= list[k].value
  }

  /** `order` is a possible result of sorting the candidates: any descending order, and any order at all
      when some value is not a number, since then the comparison is not an ordering. */
  ghost predicate SortedFrom(ps: Params, order: seq<Candidate>) {
    && Indexed(ps)
    && (WellFormed(ps) ==> Descending(order))
    && multiset(order) == multiset(Candidates(ps, ps.slots))
  }

  // ----- the greedy loop -----

  /** The work a schedule does. */
  function Work(ps: Params, s: seq<int>): real {
    if s == [] then 0.0
    else Work(ps, s[..|s| - 1]) + Throughput(ps, s[|s| - 1]) * ps.slotLength
  }

  /** The loop's state: candidates left, schedule so far, and the work counted for it. */
  datatype State = State(list: seq<Candidate>, schedule: seq<int>, done: real)

  ghost predicate InRange(list: seq<Candidate>, slots: nat) {
    forall i :: 0 <= i < |list| ==> list[i].time < slots
  }

  /** The test the scan makes: a slot is opened at MinReplicas and grows by one node at a time. */
  predicate Applies(c: Candidate, s: seq<int>, min: int)
    requires c.time < |s|
  {
    c.nodes == min || c.nodes == s[c.time] + 1
  }

  /** The first index from `from` on whose candidate applies, or the length of the list. */
  ghost function PickFrom(list: seq<Candidate>, s: seq<int>, min: int, from: nat): (i: nat)
    requires InRange(list, |s|) && from <= |list|
    ensures from <= i <= |list|
    ensures i < |list| ==> Applies(list[i], s, min)
    ensures forall k :: from <= k < i ==> !Applies(list[k], s, min)
    decreases |list| - from
  {
    if from == |list| || Applies(list[from], s, min) then from else PickFrom(list, s, min, from + 1)
  }

  ghost function Pick(list: seq<Candidate>, s: seq<int>, min: int): (i: nat)
    requires InRange(list, |s|)
    ensures i <= |list|
    ensures i < |list| ==> Applies(list[i], s, min)
    ensures forall k :: 0 <= k < i ==> !Applies(list[k], s, min)
  {
    PickFrom(list, s, min, 0)
  }

  ghost predicate CanStep(ps: Params, st: State) {
    InRange(st.list, |st.schedule|) && Pick(st.list, st.schedule, ps.min) < |st.list|
  }

  /** One pass of the loop: apply the candidate found, remove it, and count the work again. */
  ghost function Step(ps: Params, st: State): (st': State)
    requires CanStep(ps, st)
    ensures InRange(st'.list, |st'.schedule|) && |st'.schedule| == |st.schedule|
    ensures |st'.list| == |st.list| - 1
  {
    var i := Pick(st.list, st.schedule, ps.min);
    var c := st.list[i];
    var s' := st.schedule[c.time := c.nodes];
    State(st.list[..i] + st.list[i + 1..], s', Work(ps, s'))
  }

  ghost function Start(ps: Params, order: seq<Candidate>): State {
    State(order, seq(ps.slots, _ => 0), 0.0)
  }

  /** A pass if there is a candidate that applies, and no change otherwise. */
  ghost function Advance(ps: Params, st: State): (st': State)
    requires InRange(st.list, |st.schedule|)
    ensures InRange(st'.list, |st'.schedule|) && |st'.schedule| == |st.schedule|
  {
    if CanStep(ps, st) then Step(ps, st) else st
  }

  /** The state after k passes, or the last one if the candidates gave out before. */
  ghost function Reach(ps: Params, order: seq<Candidate>, k: nat): (st: State)
    requires InRange(order, ps.slots)
    ensures InRange(st.list, |st.schedule|) && |st.schedule| == ps.slots
  {
    if k == 0 then Start(ps, order) else Advance(ps, Reach(ps, order, k - 1))
  }

  /** The loop from pass k on: stop at the first state that does the target work. */
  ghost function PlanFrom(ps: Params, order: seq<Candidate>, target: real, k: nat): Option<seq<int>>
    requires InRange(order, ps.slots)
    decreases |Reach(ps, order, k).list|
  {
    var st := Reach(ps, order, k);
    if st.done >= target then Some(st.schedule)
    else if !CanStep(ps, st) then None
    else PlanFrom(ps, order, target, k + 1)
  }

  ghost function Plan(ps: Params, order: seq<Candidate>, target: real): Option<seq<int>>
    requires InRange(order, ps.slots)
  {
    PlanFrom(ps, order, target, 0)
  }

  /** (1 - progress/100) of the job's work size. */
  function RemainingWork(progress: int, workSize: real): real {
    (1.0 - progress as real / 100.0) * workSize
  }

  // ----- where the loop stops -----

  /** Pass i finds the work unfinished and a candidate to apply. */
  ghost predicate Working(ps: Params, order: seq<Candidate>, target: real, i: nat)
    requires InRange(order, ps.slots)
  {
    Reach(ps, order, i).done < target && CanStep(ps, Reach(ps, order, i))
  }

  /** The loop stops at pass n, which is the first one from k on to do the target work. */
  ghost predicate StopsAt(ps: Params, order: seq<Candidate>, target: real, k: nat, n: nat)
    requires InRange(order, ps.slots)
  {
    && k <= n
    && Reach(ps, order, n).done >= target
    && forall i: nat :: k <= i < n ==> Working(ps, order, target, i)
  }

  /** The loop gives up at pass n: nothing before it did the work and nothing is left to apply. */
  ghost predicate FailsAt(ps: Params, order: seq<Candidate>, target: real, k: nat, n: nat)
    requires InRange(order, ps.slots)
  {
    && k <= n
    && Reach(ps, order, n).done < target && !CanStep(ps, Reach(ps, order, n))
    && forall i: nat :: k <= i < n ==> Working(ps, order, target, i)
  }

  /** A plan is the state of the pass at which the loop stops. */
  lemma {:induction false} PlanStops(ps: Params, order: seq<Candidate>, target: real, k: nat)
    returns (n: nat)
    requires InRange(order, ps.slots)
    ensures match PlanFrom(ps, order, target, k)
            case Some(g) => StopsAt(ps, order, target, k, n) && g == Reach(ps, order, n).schedule
            case None => FailsAt(ps, order, target, k, n)
    decreases |Reach(ps, order, k).list|
  {
    var st := Reach(ps, order, k);
    if st.done >= target || !CanStep(ps, st) {
      n := k;
    } else {
      n := PlanStops(ps, order, target, k + 1);
    }
  }

  /** The converse: the first pass that does the target work is the plan. */
  lemma StopsIsPlan(ps: Params, order: seq<Candidate>, target: real, n: nat)
    requires InRange(order, ps.slots) && StopsAt(ps, order, target, 0, n)
    ensures Plan(ps, order, target) == Some(Reach(ps, order, n).schedule)
  {
    var n' := PlanStops(ps, order, target, 0);
    assert n' < n ==> Working(ps, order, target, n');
    assert n < n' ==> Working(ps, order, target, n);
  }
}

/** The planning loop of src/controllers/carbon_scaler.go, over an array of candidates that is sorted in
    place and from which the candidate of each pass is deleted in place. */
module PlannerLoop {
  import opened Common
  import opened Planner
  import opened PlannerInvariants

  /** The candidates of slot i, appended in the order of their node counts. */
  method AppendSlot(ps: Params, i: nat, earlier: seq<Candidate>) returns (list: seq<Candidate>)
    requires Indexed(ps) && i < ps.slots && ps.min <= ps.max
    ensures list == earlier + SlotCandidates(ps, i, ps.max + 1)
  {
    list := earlier;
    var j := ps.min;
    while j <= ps.max
      invariant ps.min <= j <= ps.max + 1
      invariant list == earlier + SlotCandidates(ps, i, j)
    {
      list := list + [Cand(ps, j, i)];
      j := j + 1;
    }
  }

  method BuildCandidates(ps: Params) returns (list: seq<Candidate>)
    requires Indexed(ps)
    ensures list == Candidates(ps, ps.slots)
  {
    list := [];
    for i := 0 to ps.slots
      invariant list == Candidates(ps, i)
    {
      if ps.min <= ps.max {
        list := AppendSlot(ps, i, list);
      }
    }
  }

  method SwapDown(a: array<Candidate>, j: nat)
    requires 0 < j < a.Length
    modifies a
    ensures a[j - 1] == old(a[j]) && a[j] == old(a[j - 1])
    ensures forall k :: 0 <= k < a.Length && k != j && k != j - 1 ==> a[k] == old(a[k])
    ensures multiset(a[..]) == multiset(old(a[..]))
  {
    a[j - 1], a[j] := a[j], a[j - 1];
  }

  /** Insert the element at i into the sorted elements before it. */
  method InsertAt(a: array<Candidate>, i: nat)
    requires i < a.Length && Descending(a[..i])
    modifies a
    ensures Descending(a[..i + 1])
    ensures multiset(a[..]) == multiset(old(a[..]))
  {
    var j := i;
    while j > 0 && a[j - 1].value < a[j].value
      invariant 0 <= j <= i
      invariant forall p, q :: 0 <= p < q <= i && p != j && q != j ==> a[p].value >= a[q].value
      invariant forall q :: j < q <= i ==> a[j].value >= a[q].value
      invariant multiset(a[..]) == multiset(old(a[..]))
    {
      SwapDown(a, j);
      j := j - 1;
    }
  }

  /** Any order of equal values is possible for sort.Slice; this is one in-place sort. */
  method SortDescending(a: array<Candidate>)
    modifies a
    ensures Descending(a[..])
    ensures multiset(a[..]) == multiset(old(a[..]))
  {
    for i := 0 to a.Length
      invariant Descending(a[..i])
      invariant multiset(a[..]) == multiset(old(a[..]))
    {
      InsertAt(a, i);
    }
    assert a[..a.Length] == a[..];
  }

  /** The scan: apply the first candidate that fits the schedule and return its index, or -1. */
  method ScanAndApply(list: array<Candidate>, n: nat, schedule: array<int>, min: int) returns (index: int)
    requires n <= list.Length && InRange(list[..n], schedule.Length)
    modifies schedule
    ensures var pick := Pick(list[..n], old(schedule[..]), min);
      if pick < n
      then index == pick && schedule[..] == old(schedule[..])[list[pick].time := list[pick].nodes]
      else index == -1 && schedule[..] == old(schedule[..])
  {
    ghost var live, before := list[..n], schedule[..];
    index := -1;
    var i := 0;
    while i < n
      invariant i <= n && index == -1 && schedule[..] == before
      invariant forall k :: 0 <= k < i ==> !Applies(live[k], before, min)
    {
      var item := list[i];
      assert item == live[i];
      if item.nodes == min {
        schedule[item.time] := item.nodes;
        index := i;
        break;
      } else if item.nodes == schedule[item.time] + 1 {
        schedule[item.time] := item.nodes;
        index := i;
        break;
      }
      i := i + 1;
    }
  }

  /** Deleting an element of the list moves the elements after it down by one. */
  method RemoveAt(list: array<Candidate>, n: nat, index: nat)
    requires index < n <= list.Length
    modifies list
    ensures list[..n - 1] == old(list[..n])[..index] + old(list[..n])[index + 1..]
  {
    var i := index;
    while i < n - 1
      invariant index <= i <= n - 1
      invariant forall k :: 0 <= k < index ==> list[k] == old(list[k])
      invariant forall k :: index <= k < i ==> list[k] == old(list[k + 1])
      invariant forall k :: i <= k < n ==> list[k] == old(list[k])
    {
      list[i] := list[i + 1];
      i := i + 1;
    }
  }

  /** compute_done: the work of the whole schedule, counted again. */
  method ComputeDone(ps: Params, schedule: array<int>) returns (done: real)
    ensures done == Work(ps, schedule[..])
  {
    done := 0.0;
    for i := 0 to schedule.Length
      invariant done == Work(ps, schedule[..i])
    {
      assert schedule[..i + 1][..i] == schedule[..i];
      done := done + Throughput(ps, schedule[i]) * ps.slotLength;
    }
    assert schedule[..schedule.Length] == schedule[..];
  }

  /** One pass: scan, apply, delete and count again. */
  method Pass(ps: Params, list: array<Candidate>, n: nat, schedule: array<int>, ghost st: State)
    returns (found: bool, done: real)
    requires n <= list.Length && InRange(list[..n], schedule.Length)
    requires st == State(list[..n], schedule[..], st.done)
    modifies list, schedule
    ensures found == CanStep(ps, st)
    ensures found ==> n > 0 && State(list[..n - 1], schedule[..], done) == Step(ps, st)
  {
    done := 0.0;
    var index := ScanAndApply(list, n, schedule, ps.min);
    found := index != -1;
    if found {
      RemoveAt(list, n, index);
      done := ComputeDone(ps, schedule);
    }
  }

  lemma PlanTurns(ps: Params, order: seq<Candidate>, target: real, k: nat)
    requires InRange(order, ps.slots)
    ensures var st := Reach(ps, order, k);
      PlanFrom(ps, order, target, k)
      == if st.done >= target then Some(st.schedule)
         else if CanStep(ps, st) then PlanFrom(ps, order, target, k + 1) else None
    ensures CanStep(ps, Reach(ps, order, k)) ==> Reach(ps, order, k + 1) == Step(ps, Reach(ps, order, k))
  {
  }

  method RunLoop(ps: Params, list: array<Candidate>, schedule: array<int>, target: real,
                 ghost order: seq<Candidate>)
    returns (planned: bool)
    requires InRange(order, ps.slots)
    requires State(list[..], schedule[..], 0.0) == Reach(ps, order, 0)
    modifies list, schedule
    ensures Plan(ps, order, target) == if planned then Some(schedule[..]) else None
  {
    hide PlanFrom, Reach, Step, CanStep, InRange;
    var done, n := 0.0, list.Length;
    ghost var k := 0;
    assert list[..n] == list[..];
    while done < target
      invariant 0 <= n <= list.Length && InRange(order, ps.slots)
      invariant State(list[..n], schedule[..], done) == Reach(ps, order, k)
      invariant PlanFrom(ps, order, target, k) == Plan(ps, order, target)
      decreases n
    {
      PlanTurns(ps, order, target, k);
      var found, work := Pass(ps, list, n, schedule, Reach(ps, order, k));
      if !found {
        return false;
      }
      n, done, k := n - 1, work, k + 1;
    }
    PlanTurns(ps, order, target, k);
    planned := true;
  }

  /** The planning loop computes the plan for the order the sort returned. */
  method ComputePlan(ps: Params, target: real) returns (plan: Option<seq<int>>)
    requires Indexed(ps)
    ensures exists order :: SortedFrom(ps, order) && InRange(order, ps.slots)
              && plan == Plan(ps, order, target)
  {
    hide Plan;
    var candidates := BuildCandidates(ps);
    var list := new Candidate[|candidates|](i requires 0 <= i < |candidates| => candidates[i]);
    assert list[..] == candidates;
    SortDescending(list);
    ghost var order := list[..];
    OrderWithin(ps, order);
    var schedule := new int[ps.slots](_ => 0);
    assert schedule[..] == Start(ps, order).schedule;
    var planned := RunLoop(ps, list, schedule, target, order);
    plan := if planned then Some(schedule[..]) else None;
  }
}

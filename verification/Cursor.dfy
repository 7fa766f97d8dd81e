/** The autoscaler's calls as a state machine: planning, the schedule cursor of every job, and what
    every run of calls keeps. */
module Cursor {
  import opened Common
  import opened Profiles
  import opened Planner
  import opened PlannerInvariants
  import opened PlannerResults

  type UID = string

  /** The part of the job specification the autoscaler reads. */
  datatype JobSpec = JobSpec(minReplicas: int, maxReplicas: int, deadLine: int, progress: int,
                             profileName: string)

  datatype CarbonStatus = CarbonStatus(intensity: real, prediction: seq<real>)

  datatype Config = Config(timeSlot: int, clusterSize: int)

  datatype ScalerState = ScalerState(status: CarbonStatus, schedule: map<UID, seq<int>>, index: map<UID, int>)

  datatype Outcome = NoError | ProfileNotFound | DeadlineTooTight

  /** One call. The profile files of a planning call are its input; `order` is what its sort returned. */
  datatype Event =
    | Update(status: CarbonStatus)
    | Compute(uid: UID, spec: JobSpec, workSize: real, files: map<string, seq<Row>>,
              order: seq<Candidate>, outcome: Outcome)
    | Get(uid: UID, replicas: int)

  /** The planner's inputs: the node limit is the smaller of cluster size and MaxReplicas. */
  function ParamsOf(cfg: Config, st: ScalerState, spec: JobSpec, rows: seq<Row>): Params
    requires spec.deadLine >= 0
  {
    Params(Loaded(rows), spec.minReplicas, Min(cfg.clusterSize, spec.maxReplicas),
           st.status.prediction, spec.deadLine, cfg.timeSlot as real)
  }

  /** A planning call can be made: otherwise the source panics, making a slice of negative length or
      indexing past the end of the forecast. */
  ghost predicate Plannable(cfg: Config, st: ScalerState, spec: JobSpec, rows: seq<Row>) {
    spec.deadLine >= 0 && Indexed(ParamsOf(cfg, st, spec, rows))
  }

  ghost predicate Callable(cfg: Config, st: ScalerState, uid: UID, spec: JobSpec, files: map<string, seq<Row>>) {
    uid !in st.schedule && spec.profileName in files ==> Plannable(cfg, st, spec, files[spec.profileName])
  }

  /** Every planned job has an index, and it is inside the job's schedule unless that is empty. */
  ghost predicate Consistent(st: ScalerState) {
    && st.schedule.Keys == st.index.Keys
    && forall u :: u in st.schedule ==>
         0 <= st.index[u] && (st.index[u] < |st.schedule[u]| || (st.schedule[u] == [] && st.index[u] == 0))
  }

  /** No job has an empty schedule, so reading the cursor never goes out of range. */
  ghost predicate Readable(st: ScalerState) {
    forall u :: u in st.schedule ==> st.schedule[u] != []
  }

  /** GetReplicas: the entry under the cursor, or 0 for a job without a schedule. */
  function Answer(st: ScalerState, uid: UID): int
    requires uid in st.schedule ==> uid in st.index && 0 <= st.index[uid] < |st.schedule[uid]|
  {
    if uid in st.schedule then st.schedule[uid][st.index[uid]] else 0
  }

  /** A later call of ComputeSchedule: move the cursor, or fall back to MinReplicas at the end. */
  function Tick(st: ScalerState, uid: UID, spec: JobSpec): ScalerState
    requires uid in st.schedule && uid in st.index
  {
    if st.index[uid] + 1 < |st.schedule[uid]| then
      st.(index := st.index[uid := st.index[uid] + 1])
    else
      st.(schedule := st.schedule[uid := [spec.minReplicas]], index := st.index[uid := 0])
  }

  function StorePlan(st: ScalerState, uid: UID, plan: seq<int>): ScalerState {
    st.(schedule := st.schedule[uid := plan], index := st.index[uid := 0])
  }

  /** What each call does to the state. */
  ghost predicate Transition(cfg: Config, st: ScalerState, e: Event, st': ScalerState)
  {
    match e
    case Update(status) => st' == st.(status := status)
    case Get(uid, replicas) =>
      && (uid in st.schedule ==> uid in st.index && 0 <= st.index[uid] < |st.schedule[uid]|)
      && replicas == Answer(st, uid) && st' == st
    case Compute(uid, spec, workSize, files, order, outcome) =>
      if uid in st.schedule then
        uid in st.index && outcome == NoError && st' == Tick(st, uid, spec)
      else if spec.profileName !in files then
        outcome == ProfileNotFound && st' == st
      else
        && Plannable(cfg, st, spec, files[spec.profileName])
        && var ps := ParamsOf(cfg, st, spec, files[spec.profileName]);
           && SortedFrom(ps, order) && InRange(order, ps.slots)
           && match Plan(ps, order, RemainingWork(spec.progress, workSize))
              case Some(plan) => outcome == NoError && st' == StorePlan(st, uid, plan)
              case None => outcome == DeadlineTooTight && st' == st
  }

  /** A run of calls. */
  ghost predicate Path(cfg: Config, st: ScalerState, events: seq<Event>, st': ScalerState)
    decreases |events|
  {
    if events == [] then st' == st
    else exists mid: ScalerState :: Transition(cfg, st, events[0], mid) && Path(cfg, mid, events[1..], st')
  }

  predicate Plans(e: Event, uid: UID) {
    e.Compute? && e.uid == uid
  }

  /** How many times the job was scheduled. */
  function Ticks(events: seq<Event>, uid: UID): nat {
    if events == [] then 0 else (if Plans(events[0], uid) then 1 else 0) + Ticks(events[1..], uid)
  }

  ghost predicate NoUpdate(events: seq<Event>) {
    forall i :: 0 <= i < |events| ==> !events[i].Update?
  }

  /** The calls that one push causes start with its status update, and it is the only one. */
  ghost predicate StartsWith(events: seq<Event>, status: CarbonStatus) {
    events != [] && events[0] == Update(status) && NoUpdate(events[1..])
  }

  // ----- one call -----

  lemma StepConsistent(cfg: Config, st: ScalerState, e: Event, st': ScalerState)
    requires Consistent(st) && Transition(cfg, st, e, st')
    ensures Consistent(st')
  {
    hide Plan, SortedFrom, InRange, ParamsOf, Plannable;
  }

  /** The cursor can be read after every call exactly while no planning call with deadline 0 succeeds:
      such a call, which only happens when no work is left, stores an empty schedule. */
  lemma StepReadable(cfg: Config, st: ScalerState, e: Event, st': ScalerState)
    requires Consistent(st) && Readable(st) && Transition(cfg, st, e, st')
    ensures Readable(st') <==>
            !(e.Compute? && e.uid !in st.schedule && e.outcome == NoError && e.spec.deadLine == 0)
  {
    if e.Compute? && e.uid !in st.schedule && e.outcome == NoError {
      var ps := ParamsOf(cfg, st, e.spec, e.files[e.spec.profileName]);
      PlanLength(ps, e.order, RemainingWork(e.spec.progress, e.workSize));
      hide Plan, SortedFrom, InRange, ParamsOf, Plannable;
      assert e.uid in st'.schedule;
    }
  }

  lemma PlanLength(ps: Params, order: seq<Candidate>, target: real)
    requires InRange(order, ps.slots) && Plan(ps, order, target) != None
    ensures |Plan(ps, order, target).value| == ps.slots
  {
    var n := PlanStops(ps, order, target, 0);
  }

  /** A failed call changes nothing, so the job keeps answering 0. */
  lemma FailureChangesNothing(cfg: Config, st: ScalerState, e: Event, st': ScalerState)
    requires Transition(cfg, st, e, st') && e.Compute? && e.outcome != NoError
    ensures st' == st && e.uid !in st'.schedule && Answer(st', e.uid) == 0
  {
  }

  // ----- runs -----

  lemma {:induction false} PathConsistent(cfg: Config, st: ScalerState, events: seq<Event>, st': ScalerState)
    requires Consistent(st) && Path(cfg, st, events, st')
    ensures Consistent(st')
    decreases |events|
  {
    if events != [] {
      var mid :| Transition(cfg, st, events[0], mid) && Path(cfg, mid, events[1..], st');
      StepConsistent(cfg, st, events[0], mid);
      PathConsistent(cfg, mid, events[1..], st');
    }
  }

  /** Calls for other jobs, status updates and reads never change a job's schedule or cursor. */
  lemma {:induction false} Isolation(cfg: Config, st: ScalerState, events: seq<Event>, st': ScalerState, uid: UID)
    requires Path(cfg, st, events, st') && Ticks(events, uid) == 0
    ensures uid in st'.schedule <==> uid in st.schedule
    ensures uid in st'.index <==> uid in st.index
    ensures uid in st.schedule ==> st'.schedule[uid] == st.schedule[uid]
    ensures uid in st.index ==> st'.index[uid] == st.index[uid]
    decreases |events|
  {
    hide Plan, SortedFrom, InRange, ParamsOf, Plannable;
    if events != [] {
      var mid :| Transition(cfg, st, events[0], mid) && Path(cfg, mid, events[1..], st');
      Isolation(cfg, mid, events[1..], st', uid);
    }
  }

  predicate Succeeds(e: Event, uid: UID) {
    Plans(e, uid) && e.outcome == NoError
  }

  /** Over any run, a job has a schedule exactly if it had one before or a scheduling call of it has
      succeeded. Until one does, however often they fail, every read of its replicas gives 0. */
  lemma {:induction false} ScheduledIffSucceeded(cfg: Config, st: ScalerState, events: seq<Event>,
                                                 st': ScalerState, uid: UID)
    requires Path(cfg, st, events, st')
    ensures uid in st'.schedule <==>
            uid in st.schedule || exists i :: 0 <= i < |events| && Succeeds(events[i], uid)
    ensures uid !in st'.schedule ==>
              && Answer(st', uid) == 0
              && forall i :: 0 <= i < |events| && events[i].Get? && events[i].uid == uid ==> events[i].replicas == 0
    decreases |events|
  {
    hide Path, Transition;
    if events == [] {
      PathEnds(cfg, st, st');
    } else {
      var last := |events| - 1;
      var mid := PathSplit(cfg, st, events, st');
      ScheduledIffSucceeded(cfg, st, events[..last], mid, uid);
      StepSchedules(cfg, mid, events[last], st', uid);
      if i :| 0 <= i < |events| && Succeeds(events[i], uid) {
        assert i < last ==> Succeeds(events[..last][i], uid);
      }
    }
  }

  lemma PathEnds(cfg: Config, st: ScalerState, st': ScalerState)
    requires Path(cfg, st, [], st')
    ensures st' == st
  {
  }

  lemma StepSchedules(cfg: Config, st: ScalerState, e: Event, st': ScalerState, uid: UID)
    requires Transition(cfg, st, e, st')
    ensures uid in st'.schedule <==> uid in st.schedule || Succeeds(e, uid)
    ensures uid !in st'.schedule && e.Get? && e.uid == uid ==> e.replicas == 0
  {
    hide Plan, SortedFrom, InRange, ParamsOf, Plannable;
  }

  /** MinReplicas in the last scheduling call for the job. */
  function LastMin(events: seq<Event>, uid: UID): int {
    if events == [] then 0
    else
      var last := |events| - 1;
      if Plans(events[last], uid) then events[last].spec.minReplicas else LastMin(events[..last], uid)
  }

  /** Where the cursor of a job is, k scheduling calls after the one that stored its plan. */
  ghost predicate CursorAt(st: ScalerState, uid: UID, plan: seq<int>, k: nat, fallback: int) {
    && uid in st.schedule && uid in st.index
    && if k < |plan| then st.schedule[uid] == plan && st.index[uid] == k
       else st.schedule[uid] == [fallback] && st.index[uid] == 0
  }

  lemma StepCursor(cfg: Config, st: ScalerState, e: Event, st': ScalerState, uid: UID,
                   plan: seq<int>, k: nat, fallback: int)
    requires Transition(cfg, st, e, st') && CursorAt(st, uid, plan, k, fallback)
    ensures !Plans(e, uid) ==> CursorAt(st', uid, plan, k, fallback)
    ensures Plans(e, uid) ==> CursorAt(st', uid, plan, k + 1, e.spec.minReplicas)
  {
    hide Plan, SortedFrom, InRange, ParamsOf, Plannable;
  }

  lemma {:induction false} PathSplit(cfg: Config, st: ScalerState, events: seq<Event>, st': ScalerState)
    returns (mid: ScalerState)
    requires Path(cfg, st, events, st') && events != []
    ensures Path(cfg, st, events[..|events| - 1], mid) && Transition(cfg, mid, events[|events| - 1], st')
    decreases |events|
  {
    var first :| Transition(cfg, st, events[0], first) && Path(cfg, first, events[1..], st');
    if |events| == 1 {
      mid := st;
    } else {
      mid := PathSplit(cfg, first, events[1..], st');
      var front := events[..|events| - 1];
      assert front[0] == events[0] && front[1..] == events[1..][..|events| - 2];
    }
  }

  lemma {:induction false} TicksSnoc(events: seq<Event>, uid: UID)
    requires events != []
    ensures Ticks(events, uid)
         == Ticks(events[..|events| - 1], uid) + if Plans(events[|events| - 1], uid) then 1 else 0
  {
    if |events| > 1 {
      var front := events[..|events| - 1];
      TicksSnoc(events[1..], uid);
      assert front[1..] == events[1..][..|events| - 2];
    }
  }

  /** The whole-run cursor theorem. Whatever calls follow the one that planned a job, for that job or
      for others, after k further scheduling calls of the job the cursor reads plan[k] while k is
      before the deadline, and the MinReplicas of the latest call from then on. */
  lemma {:induction false} CursorRun(cfg: Config, st: ScalerState, events: seq<Event>, st': ScalerState,
                                     uid: UID, plan: seq<int>)
    requires Path(cfg, st, events, st')
    requires plan != [] && CursorAt(st, uid, plan, 0, 0)
    ensures CursorAt(st', uid, plan, Ticks(events, uid), LastMin(events, uid))
    ensures Answer(st', uid) == if Ticks(events, uid) < |plan| then plan[Ticks(events, uid)]
                                else LastMin(events, uid)
    decreases |events|
  {
    hide Transition;
    if events != [] {
      var last := |events| - 1;
      var mid := PathSplit(cfg, st, events, st');
      CursorRun(cfg, st, events[..last], mid, uid, plan);
      TicksSnoc(events, uid);
      StepCursor(cfg, mid, events[last], st', uid, plan, Ticks(events[..last], uid),
                 LastMin(events[..last], uid));
    }
  }

  // ----- the job in its own terms -----

  /** The work of a schedule: the throughput the file gives for each slot's nodes, times the slot length. */
  function WorkDone(rows: seq<Row>, s: seq<int>, slot: int): real {
    if s == [] then 0.0
    else WorkDone(rows, s[..|s| - 1], slot) + ThroughputOf(rows, s[|s| - 1]) * slot as real
  }

  /** One entry per slot up to the deadline, each 0 or at least MinReplicas and at most MaxReplicas and the
      cluster size. */
  ghost predicate FitsJob(cfg: Config, spec: JobSpec, s: seq<int>) {
    && |s| == spec.deadLine
    && forall t :: 0 <= t < |s| ==>
         s[t] == 0 || (spec.minReplicas <= s[t] <= spec.maxReplicas && s[t] <= cfg.clusterSize)
  }

  /** More nodes never do less, from none to both limits. */
  ghost predicate NeverFalls(cfg: Config, spec: JobSpec, rows: seq<Row>) {
    && ThroughputOf(rows, 0) == 0.0
    && (spec.minReplicas <= spec.maxReplicas && spec.minReplicas <= cfg.clusterSize ==>
          ThroughputOf(rows, spec.minReplicas) >= 0.0)
    && forall j :: spec.minReplicas < j <= spec.maxReplicas && j <= cfg.clusterSize ==>
         ThroughputOf(rows, j - 1) <= ThroughputOf(rows, j)
  }

  lemma {:induction false} WorkIsWorkDone(ps: Params, rows: seq<Row>, s: seq<int>, slot: int)
    requires ps.profile == Loaded(rows) && ps.slotLength == slot as real
    ensures Work(ps, s) == WorkDone(rows, s, slot)
  {
    if s != [] {
      WorkIsWorkDone(ps, rows, s[..|s| - 1], slot);
      LookupIsRow(rows, s[|s| - 1]);
    }
  }

  lemma FeasibleIffFits(cfg: Config, st: ScalerState, spec: JobSpec, rows: seq<Row>, s: seq<int>)
    requires spec.deadLine >= 0
    ensures Feasible(ParamsOf(cfg, st, spec, rows), s) <==> FitsJob(cfg, spec, s)
  {
    var ps := ParamsOf(cfg, st, spec, rows);
    assert forall t :: 0 <= t < |s| ==> (Allowed(ps, s[t]) <==>
      s[t] == 0 || (spec.minReplicas <= s[t] <= spec.maxReplicas && s[t] <= cfg.clusterSize));
  }

  lemma NeverFallsGrows(cfg: Config, st: ScalerState, spec: JobSpec, rows: seq<Row>)
    requires spec.deadLine >= 0 && NeverFalls(cfg, spec, rows) && cfg.timeSlot > 0
    ensures GrowingThroughput(ParamsOf(cfg, st, spec, rows))
  {
    hide Loaded, ThroughputOf;
    forall n ensures Lookup(Loaded(rows), n).throughput == ThroughputOf(rows, n) { LookupIsRow(rows, n); }
  }

  // ----- the deadline, end to end -----

  /** A run in which the job does `work` in all: each of its scheduling calls starts a slot with the
      replicas that reading the cursor gives after the call. */
  ghost predicate Realises(cfg: Config, st: ScalerState, events: seq<Event>, st': ScalerState,
                           uid: UID, rows: seq<Row>, work: real)
    decreases |events|
  {
    if events == [] then st' == st && work == 0.0
    else
      var last := |events| - 1;
      exists mid: ScalerState, before: real ::
        && Realises(cfg, st, events[..last], mid, uid, rows, before)
        && Transition(cfg, mid, events[last], st')
        && Consistent(st') && Readable(st')
        && work == before + SlotWork(cfg, st', events[last], uid, rows)
  }

  ghost function SlotWork(cfg: Config, st: ScalerState, e: Event, uid: UID, rows: seq<Row>): real
    requires Consistent(st) && Readable(st)
  {
    if Plans(e, uid) then ThroughputOf(rows, Answer(st, uid)) * cfg.timeSlot as real else 0.0
  }

  /** The first call is the one that plans the job. */
  ghost predicate PlannedBy(cfg: Config, st: ScalerState, e: Event, uid: UID, ps: Params,
                            target: real, plan: seq<int>)
  {
    && Plans(e, uid) && uid !in st.schedule && e.outcome == NoError
    && e.spec.profileName in e.files && Plannable(cfg, st, e.spec, e.files[e.spec.profileName])
    && ps == ParamsOf(cfg, st, e.spec, e.files[e.spec.profileName])
    && target == RemainingWork(e.spec.progress, e.workSize)
    && SortedFrom(ps, e.order) && InRange(e.order, ps.slots) && Plan(ps, e.order, target) == Some(plan)
  }

  /** Every successful first call stores the plan and puts the cursor at its start. */
  lemma FirstCallPlans(cfg: Config, st: ScalerState, e: Event, st': ScalerState, uid: UID)
    returns (ps: Params, target: real, plan: seq<int>)
    requires Transition(cfg, st, e, st') && Plans(e, uid) && uid !in st.schedule && e.outcome == NoError
    ensures PlannedBy(cfg, st, e, uid, ps, target, plan)
    ensures |plan| == e.spec.deadLine && uid in st'.schedule && st'.schedule[uid] == plan
    ensures plan != [] ==> CursorAt(st', uid, plan, 0, 0)
  {
    ps := ParamsOf(cfg, st, e.spec, e.files[e.spec.profileName]);
    target := RemainingWork(e.spec.progress, e.workSize);
    PlanLength(ps, e.order, target);
    plan := Plan(ps, e.order, target).value;
  }

  /** How much the job has done when its cursor has moved k slots past its plan's first. */
  ghost predicate DoneAtLeast(rows: seq<Row>, plan: seq<int>, slot: int, ticks: nat, work: real) {
    if ticks <= |plan| then work == WorkDone(rows, plan[..ticks], slot) else work >= WorkDone(rows, plan, slot)
  }

  lemma OneMoreSlot(rows: seq<Row>, plan: seq<int>, slot: int, k: nat, work: real, n: int, more: real)
    requires plan != [] && DoneAtLeast(rows, plan, slot, k, work) && more == ThroughputOf(rows, n) * slot as real
    requires if k < |plan| then n == plan[k] else more >= 0.0
    ensures DoneAtLeast(rows, plan, slot, k + 1, work + more)
  {
    hide ThroughputOf;
    if k < |plan| {
      assert plan[..k + 1][..k] == plan[..k];
    } else {
      assert plan[..|plan|] == plan;
    }
  }

  lemma NextSlot(cfg: Config, mid: ScalerState, e: Event, st': ScalerState, uid: UID, rows: seq<Row>,
                 plan: seq<int>, k: nat, fallback: int, before: real)
    requires Transition(cfg, mid, e, st') && Consistent(st') && Readable(st')
    requires k > 0 && CursorAt(mid, uid, plan, k - 1, fallback) && DoneAtLeast(rows, plan, cfg.timeSlot, k, before)
    requires plan != [] && cfg.timeSlot > 0 && forall n :: ThroughputOf(rows, n) >= 0.0
    ensures var k' := if Plans(e, uid) then k + 1 else k;
      && CursorAt(st', uid, plan, k' - 1, if Plans(e, uid) then e.spec.minReplicas else fallback)
      && DoneAtLeast(rows, plan, cfg.timeSlot, k', before + SlotWork(cfg, st', e, uid, rows))
  {
    hide Transition, DoneAtLeast, ThroughputOf;
    StepCursor(cfg, mid, e, st', uid, plan, k - 1, fallback);
    if Plans(e, uid) {
      assert ThroughputOf(rows, Answer(st', uid)) >= 0.0;
      OneMoreSlot(rows, plan, cfg.timeSlot, k, before, Answer(st', uid), SlotWork(cfg, st', e, uid, rows));
    }
  }

  /** The first call of a run is the one that plans the job, for at least one slot. */
  ghost predicate FirstPlans(st: ScalerState, events: seq<Event>, uid: UID) {
    && events != [] && Plans(events[0], uid) && uid !in st.schedule
    && events[0].outcome == NoError && events[0].spec.deadLine > 0
  }

  /** The plan of that call, and what it is good for. */
  lemma FirstSlot(cfg: Config, st: ScalerState, e: Event, st': ScalerState, uid: UID, rows: seq<Row>)
    returns (plan: seq<int>)
    requires Transition(cfg, st, e, st') && FirstPlans(st, [e], uid) && Consistent(st') && Readable(st')
    ensures CursorAt(st', uid, plan, 0, 0) && |plan| == e.spec.deadLine && plan == st'.schedule[uid]
    ensures DoneAtLeast(rows, plan, cfg.timeSlot, 1, SlotWork(cfg, st', e, uid, rows))
  {
    hide Transition, ThroughputOf;
    var ps, target;
    ps, target, plan := FirstCallPlans(cfg, st, e, st', uid);
    var one := plan[..1];
    assert one[..0] == [];
    assert WorkDone(rows, [], cfg.timeSlot) == 0.0;
    assert Answer(st', uid) == one[0];
  }

  lemma {:induction false} WorkAlongRun(cfg: Config, st: ScalerState, events: seq<Event>, st': ScalerState,
                                        uid: UID, rows: seq<Row>, work: real)
    returns (first: ScalerState, plan: seq<int>)
    requires FirstPlans(st, events, uid) && Realises(cfg, st, events, st', uid, rows, work)
    requires cfg.timeSlot > 0 && forall n :: ThroughputOf(rows, n) >= 0.0
    ensures Transition(cfg, st, events[0], first) && CursorAt(first, uid, plan, 0, 0)
    ensures |plan| == events[0].spec.deadLine && plan == first.schedule[uid]
    ensures Ticks(events, uid) > 0
    ensures CursorAt(st', uid, plan, Ticks(events, uid) - 1, LastMin(events[1..], uid))
    ensures DoneAtLeast(rows, plan, cfg.timeSlot, Ticks(events, uid), work)
    decreases |events|
  {
    hide DoneAtLeast, WorkDone, ThroughputOf, Transition, Consistent, Readable, SlotWork;
    var last := |events| - 1;
    var front := events[..last];
    var mid: ScalerState, before: real :|
      && Realises(cfg, st, front, mid, uid, rows, before)
      && Transition(cfg, mid, events[last], st') && Consistent(st') && Readable(st')
      && work == before + SlotWork(cfg, st', events[last], uid, rows);
    TicksSnoc(events, uid);
    if last == 0 {
      first := st';
      plan := FirstSlot(cfg, st, events[0], st', uid, rows);
    } else {
      first, plan := WorkAlongRun(cfg, st, front, mid, uid, rows, before);
      assert events[1..][..last - 1] == front[1..] && events[1..][last - 1] == events[last];
      NextSlot(cfg, mid, events[last], st', uid, rows, plan, Ticks(front, uid), LastMin(front[1..], uid), before);
    }
  }

  /** Deadline, end to end. A job whose first scheduling call succeeds has done the share of its work that
      is not yet done once that call and later ones have started as many slots as its deadline, whatever
      other calls were made in between; slots past the deadline only add to it. */
  lemma DeadlineIsMet(cfg: Config, st: ScalerState, events: seq<Event>, st': ScalerState,
                      uid: UID, rows: seq<Row>, work: real)
    requires FirstPlans(st, events, uid) && events[0].spec.profileName in events[0].files
    requires rows == events[0].files[events[0].spec.profileName]
    requires Realises(cfg, st, events, st', uid, rows, work)
    requires cfg.timeSlot > 0 && ThroughputOf(rows, 0) == 0.0 && forall n :: ThroughputOf(rows, n) >= 0.0
    requires Ticks(events, uid) >= events[0].spec.deadLine
    ensures work >= (1.0 - events[0].spec.progress as real / 100.0) * events[0].workSize
  {
    hide Realises, Transition, WorkDone, ThroughputOf;
    var first, plan := WorkAlongRun(cfg, st, events, st', uid, rows, work);
    StoredPlanWorks(cfg, st, events[0], first, uid);
    assert plan[..|plan|] == plan;
  }

  // ----- what a planning call decides -----

  /** A call that stores a plan stores one that fits the job and does its remaining work. */
  lemma StoredPlanWorks(cfg: Config, st: ScalerState, e: Event, st': ScalerState, uid: UID)
    requires Transition(cfg, st, e, st') && Plans(e, uid) && uid !in st.schedule && e.outcome == NoError
    ensures e.spec.profileName in e.files && uid in st'.schedule && FitsJob(cfg, e.spec, st'.schedule[uid])
    ensures var rows := e.files[e.spec.profileName];
      ThroughputOf(rows, 0) == 0.0 ==>
        WorkDone(rows, st'.schedule[uid], cfg.timeSlot) >= (1.0 - e.spec.progress as real / 100.0) * e.workSize
  {
    hide Plan, SortedFrom, InRange, Work, WorkDone, ThroughputOf, Loaded, Feasible, FitsJob;
    var rows := e.files[e.spec.profileName];
    var ps, target, plan := FirstCallPlans(cfg, st, e, st', uid);
    PlanIsFeasible(ps, e.order, target);
    FeasibleIffFits(cfg, st, e.spec, rows, plan);
    LookupIsRow(rows, 0);
    if ThroughputOf(rows, 0) == 0.0 {
      PlanDoesTheWork(ps, e.order, target, plan);
      WorkIsWorkDone(ps, rows, plan, cfg.timeSlot);
    }
  }

  /** What a call decides, in the job's own terms. Only the first one can fail: for want of the profile's
      file, or with "Deadline too tight" exactly when no schedule that fits the job does the work not yet
      done; a plan that is stored fits the job and does it. */
  lemma CallIsDecided(cfg: Config, st: ScalerState, e: Event, st': ScalerState)
    requires Transition(cfg, st, e, st') && e.Compute? && 1 <= e.spec.minReplicas && cfg.timeSlot > 0
    requires e.spec.profileName in e.files ==> NeverFalls(cfg, e.spec, e.files[e.spec.profileName])
    ensures e.uid in st.schedule ==> e.outcome == NoError
    ensures e.outcome == ProfileNotFound <==> e.uid !in st.schedule && e.spec.profileName !in e.files
    ensures e.uid !in st.schedule && e.spec.profileName in e.files ==>
              var rows, remaining := e.files[e.spec.profileName],
                                     (1.0 - e.spec.progress as real / 100.0) * e.workSize;
              && (e.outcome == DeadlineTooTight
                  <==> forall s :: FitsJob(cfg, e.spec, s) ==> WorkDone(rows, s, cfg.timeSlot) < remaining)
              && (e.outcome == NoError ==>
                    && e.uid in st'.schedule && FitsJob(cfg, e.spec, st'.schedule[e.uid])
                    && WorkDone(rows, st'.schedule[e.uid], cfg.timeSlot) >= remaining)
  {
    if e.uid !in st.schedule && e.spec.profileName in e.files {
      var rows := e.files[e.spec.profileName];
      TooTightIffInfeasible(cfg, st, e, st', rows);
      if e.outcome == NoError {
        StoredPlanWorks(cfg, st, e, st', e.uid);
      }
    }
  }

  lemma TooTightIffInfeasible(cfg: Config, st: ScalerState, e: Event, st': ScalerState, rows: seq<Row>)
    requires Transition(cfg, st, e, st') && e.Compute? && e.uid !in st.schedule
    requires e.spec.profileName in e.files && rows == e.files[e.spec.profileName]
    requires 1 <= e.spec.minReplicas && NeverFalls(cfg, e.spec, rows) && cfg.timeSlot > 0
    ensures e.outcome == DeadlineTooTight
       <==> forall s :: FitsJob(cfg, e.spec, s) ==>
              WorkDone(rows, s, cfg.timeSlot) < (1.0 - e.spec.progress as real / 100.0) * e.workSize
  {
    hide Plan, SortedFrom, Work, InRange, WorkDone, Feasible, FitsJob, NeverFalls, GrowingThroughput, Loaded;
    var ps := ParamsOf(cfg, st, e.spec, rows);
    NeverFallsGrows(cfg, st, e.spec, rows);
    FailsIffInfeasible(ps, e.order, RemainingWork(e.spec.progress, e.workSize));
    forall s ensures Feasible(ps, s) <==> FitsJob(cfg, e.spec, s)
             ensures Work(ps, s) == WorkDone(rows, s, cfg.timeSlot)
    {
      FeasibleIffFits(cfg, st, e.spec, rows, s);
      WorkIsWorkDone(ps, rows, s, cfg.timeSlot);
    }
  }

  lemma PlanIsFeasible(ps: Params, order: seq<Candidate>, target: real)
    requires SortedFrom(ps, order) && InRange(order, ps.slots) && Plan(ps, order, target) != None
    ensures Feasible(ps, Plan(ps, order, target).value)
  {
    hide SortedFrom;
    var n := PlanStops(ps, order, target, 0);
    ReachWithin(ps, order, n);
  }

  /** Progress leaves its share of the work to do. */
  lemma RemainingShare(progress: int, workSize: real)
    ensures 100.0 * RemainingWork(progress, workSize) == (100 - progress) as real * workSize
  {
    assert (100 - progress) as real == 100.0 * (1.0 - progress as real / 100.0);
  }

  lemma Shares(a: int, x: real, b: int, y: real)
    requires 0 <= a <= b && 0.0 <= x <= y
    ensures a as real * x <= b as real * y
  {
    assert a as real * x <= a as real * y;
    assert (b - a) as real * y >= 0.0;
    assert b as real * y == a as real * y + (b - a) as real * y;
  }

  /** A job that has progressed further, or is smaller, is planned with no more nodes in any slot, for
      the same sorted candidates; and if it cannot be planned, neither can the other. */
  lemma PlanFallsWithProgress(ps: Params, order: seq<Candidate>, progress: int, workSize: real,
                              earlier: int, larger: real)
    requires Regular(ps) && SortedFrom(ps, order)
    requires earlier <= progress <= 100 && 0.0 <= workSize <= larger
    ensures InRange(order, ps.slots)
    ensures var less, more := RemainingWork(progress, workSize), RemainingWork(earlier, larger);
      && (Plan(ps, order, less) == None ==> Plan(ps, order, more) == None)
      && (Plan(ps, order, more) != None ==>
            Below(Plan(ps, order, less).value, Plan(ps, order, more).value))
  {
    hide RemainingWork, Plan, SortedFrom;
    RemainingShare(progress, workSize);
    RemainingShare(earlier, larger);
    Shares(100 - progress, workSize, 100 - earlier, larger);
    PlanGrowsWithDemand(ps, order, RemainingWork(progress, workSize), RemainingWork(earlier, larger));
  }
}

/** The trace service and the autoscaler together: each push of the service is one status update
    followed by one scheduling call per job, so the cursor and the trace index move in step and the
    carbon that was planned is the carbon that is realised. */
module Alignment {
  import opened Common
  import opened Profiles
  import opened Planner
  import opened PlannerInvariants
  import opened PlannerResults
  import opened Pricing
  import opened Optimality
  import opened Cursor
  import Service = CarbonService
  import opened Decimal
  import opened Reconciler
  import opened Controller

  /** The service: its trace and window lengths. */
  datatype Source = Source(trace: seq<real>, predictionWindow: nat, percentileWindow: nat)

  ghost predicate ValidSource(source: Source) {
    source.trace != [] && source.percentileWindow > 0
  }

  /** The status the autoscaler reads from a push made at index idx: the percentile is not decoded. */
  function StatusAt(source: Source, idx: nat): CarbonStatus
    requires ValidSource(source) && idx < |source.trace|
  {
    CarbonStatus(source.trace[idx], Service.Predict(source.trace, idx, source.predictionWindow))
  }

  /** The carbon and the work of one slot of the job. */
  datatype Usage = Usage(work: real, carbon: real)

  ghost function SlotUsage(st: ScalerState, uid: UID, ps: Params): Usage
    requires Consistent(st) && Readable(st)
  {
    var n := Answer(st, uid);
    Usage(Throughput(ps, n) * ps.slotLength, Power(ps, n) * st.status.intensity * ps.slotLength)
  }

  /** The push that plans the job: whatever else is called, its first scheduling call succeeds. */
  ghost predicate PlanningRound(cfg: Config, source: Source, a: Service.Agent, st: ScalerState,
                                pre: seq<Event>, e: Event, post: seq<Event>, st': ScalerState,
                                uid: UID, ps: Params, target: real, plan: seq<int>)
    requires ValidSource(source) && a.idx < |source.trace|
  {
    && StartsWith(pre, StatusAt(source, a.idx)) && NoUpdate(post)
    && Ticks(post, uid) == 0
    && exists mid: ScalerState, planned: ScalerState ::
         && Path(cfg, st, pre, mid)
         && PlannedBy(cfg, mid, e, uid, ps, target, plan) && Transition(cfg, mid, e, planned)
         && Path(cfg, planned, post, st')
  }

  /** A later push: the job is scheduled exactly once. */
  ghost predicate Round(cfg: Config, source: Source, a: Service.Agent, st: ScalerState,
                        events: seq<Event>, st': ScalerState, uid: UID)
    requires ValidSource(source) && a.idx < |source.trace|
  {
    StartsWith(events, StatusAt(source, a.idx)) && Ticks(events, uid) == 1 && Path(cfg, st, events, st')
  }

  /** A series of pushes, each followed by the sleep that advances the trace, without resets. */
  ghost predicate Rounds(cfg: Config, source: Source, a: Service.Agent, st: ScalerState,
                         rounds: seq<seq<Event>>, a': Service.Agent, st': ScalerState,
                         uid: UID, ps: Params, usage: Usage)
    requires ValidSource(source)
    decreases |rounds|
  {
    if rounds == [] then a' == a && st' == st && usage == Usage(0.0, 0.0)
    else
      var last := |rounds| - 1;
      exists b: Service.Agent, mid: ScalerState, u: Usage ::
        && Rounds(cfg, source, a, st, rounds[..last], b, mid, uid, ps, u)
        && b.idx < |source.trace|
        && Round(cfg, source, b, mid, rounds[last], st', uid)
        && a' == Service.Next(|source.trace|, b, Service.Wake)
        && Consistent(st') && Readable(st')
        && usage == Plus(u, SlotUsage(st', uid, ps))
  }

  // ----- one push -----

  lemma {:induction false} StatusIsKept(cfg: Config, st: ScalerState, events: seq<Event>, st': ScalerState)
    requires Path(cfg, st, events, st') && NoUpdate(events)
    ensures st'.status == st.status
    decreases |events|
  {
    hide Plan, SortedFrom, InRange, ParamsOf, Plannable;
    if events != [] {
      var mid :| Transition(cfg, st, events[0], mid) && Path(cfg, mid, events[1..], st');
      StatusIsKept(cfg, mid, events[1..], st');
    }
  }

  lemma StatusOfPush(cfg: Config, st: ScalerState, events: seq<Event>, st': ScalerState, status: CarbonStatus)
    requires Path(cfg, st, events, st') && StartsWith(events, status)
    ensures st'.status == status
  {
    var mid :| Transition(cfg, st, events[0], mid) && Path(cfg, mid, events[1..], st');
    StatusIsKept(cfg, mid, events[1..], st');
  }

  /** The cursor over any run: it advances with every scheduling call of the job. */
  lemma {:induction false} CursorAlong(cfg: Config, st: ScalerState, events: seq<Event>, st': ScalerState,
                                       uid: UID, plan: seq<int>, k: nat)
    requires Path(cfg, st, events, st') && CursorAt(st, uid, plan, k, 0)
    requires k + Ticks(events, uid) < |plan|
    ensures CursorAt(st', uid, plan, k + Ticks(events, uid), 0)
    decreases |events|
  {
    hide Transition;
    if events != [] {
      var mid :| Transition(cfg, st, events[0], mid) && Path(cfg, mid, events[1..], st');
      StepCursor(cfg, st, events[0], mid, uid, plan, k, 0);
      CursorAlong(cfg, mid, events[1..], st', uid, plan, if Plans(events[0], uid) then k + 1 else k);
    }
  }

  lemma PlanningRoundFacts(cfg: Config, source: Source, a: Service.Agent, st: ScalerState,
                           pre: seq<Event>, e: Event, post: seq<Event>, st': ScalerState,
                           uid: UID, ps: Params, target: real, plan: seq<int>)
    requires ValidSource(source) && a.idx < |source.trace| && plan != []
    requires PlanningRound(cfg, source, a, st, pre, e, post, st', uid, ps, target, plan)
    ensures ps.ci == Service.Predict(source.trace, a.idx, source.predictionWindow)
    ensures st'.status == StatusAt(source, a.idx)
    ensures CursorAt(st', uid, plan, 0, 0)
    ensures e.Compute?
    ensures SortedFrom(ps, e.order) && InRange(e.order, ps.slots) && Plan(ps, e.order, target) == Some(plan)
    ensures |plan| == ps.slots
  {
    hide Plan, SortedFrom, InRange, StatusAt;
    var mid: ScalerState, planned: ScalerState :|
      && Path(cfg, st, pre, mid)
      && PlannedBy(cfg, mid, e, uid, ps, target, plan) && Transition(cfg, mid, e, planned)
      && Path(cfg, planned, post, st');
    StatusOfPush(cfg, st, pre, mid, StatusAt(source, a.idx));
    PlanLength(ps, e.order, target);
    StatusIsKept(cfg, planned, post, st');
    CursorAlong(cfg, planned, post, st', uid, plan, 0);
    StatusHolds(source, a.idx);
  }

  /** The status read from a push is the intensity and the forecast of the report the service sends. */
  lemma ReportIsStatus(source: Source, idx: nat, report: Service.Report)
    requires ValidSource(source) && idx < |source.trace|
    requires report.intensity == source.trace[idx]
    requires |report.prediction| == Min(source.predictionWindow, 2 * |source.trace| - idx)
    requires forall k :: 0 <= k < |report.prediction| ==>
               report.prediction[k] == source.trace[(idx + k) % |source.trace|]
    ensures StatusAt(source, idx) == CarbonStatus(report.intensity, report.prediction)
  {
    Service.PredictIsCircular(source.trace, idx, source.predictionWindow);
    assert report.prediction == Service.Predict(source.trace, idx, source.predictionWindow);
  }

  lemma StatusHolds(source: Source, idx: nat)
    requires ValidSource(source) && idx < |source.trace|
    ensures StatusAt(source, idx).intensity == source.trace[idx]
    ensures StatusAt(source, idx).prediction == Service.Predict(source.trace, idx, source.predictionWindow)
  {
  }

  /** What the job has used after m slots is what its plan says for the first m slots. */
  ghost predicate Matches(ps: Params, plan: seq<int>, m: nat, u: Usage)
    requires m <= |plan| <= |ps.ci|
  {
    u.work == Work(ps, plan[..m]) && u.carbon == Carbon(ps, plan[..m])
  }

  /** A slot at the cursor, under the intensity the plan was made with, is the plan's slot. */
  lemma SlotMatches(ps: Params, plan: seq<int>, m: nat, u: Usage, st: ScalerState, uid: UID)
    requires m < |plan| <= |ps.ci| && Matches(ps, plan, m, u)
    requires Consistent(st) && Readable(st) && CursorAt(st, uid, plan, m, 0)
    requires st.status.intensity == ps.ci[m]
    ensures var slot := SlotUsage(st, uid, ps);
      Matches(ps, plan, m + 1, Usage(u.work + slot.work, u.carbon + slot.carbon))
  {
    assert plan[..m + 1][..m] == plan[..m];
  }

  function Plus(u: Usage, v: Usage): Usage {
    Usage(u.work + v.work, u.carbon + v.carbon)
  }

  /** The forecast the plan was made with is the trace from index i on. */
  ghost predicate Foresees(source: Source, i: nat, ps: Params, plan: seq<int>)
    requires ValidSource(source)
  {
    |plan| <= |ps.ci| && forall k: nat :: k < |plan| ==> ps.ci[k] == source.trace[(i + k) % |source.trace|]
  }

  lemma NothingYet(ps: Params, plan: seq<int>)
    requires |plan| <= |ps.ci|
    ensures Matches(ps, plan, 0, Usage(0.0, 0.0))
  {
    assert plan[..0] == [];
  }

  /** The agent, the cursor and the usage after m slots. */
  ghost predicate InStep(source: Source, i: nat, a: Service.Agent, st: ScalerState, uid: UID,
                         ps: Params, plan: seq<int>, m: nat, u: Usage)
    requires ValidSource(source)
  {
    && 0 < m <= |plan| <= |ps.ci|
    && a == Service.Agent((i + m) % |source.trace|, false)
    && CursorAt(st, uid, plan, m - 1, 0) && Matches(ps, plan, m, u)
  }

  lemma AgentMoves(i: nat, m: nat, n: nat, b: Service.Agent)
    requires n > 0 && b == Service.Agent((i + m) % n, false)
    ensures Service.Next(n, b, Service.Wake) == Service.Agent((i + (m + 1)) % n, false)
  {
    Service.SumRemainder(i + m, 1, n);
  }

  lemma RoundKeepsStep(cfg: Config, source: Source, i: nat, b: Service.Agent, mid: ScalerState,
                       events: seq<Event>, a': Service.Agent, st': ScalerState, uid: UID,
                       ps: Params, plan: seq<int>, m: nat, u: Usage)
    requires ValidSource(source) && InStep(source, i, b, mid, uid, ps, plan, m, u) && m < |plan|
    requires Foresees(source, i, ps, plan) && Round(cfg, source, b, mid, events, st', uid)
    requires a' == Service.Next(|source.trace|, b, Service.Wake) && Consistent(st') && Readable(st')
    ensures InStep(source, i, a', st', uid, ps, plan, m + 1, Plus(u, SlotUsage(st', uid, ps)))
  {
    hide Path, StatusAt, Matches, CursorAt, StartsWith, SlotUsage;
    AgentMoves(i, m, |source.trace|, b);
    CursorAlong(cfg, mid, events, st', uid, plan, m - 1);
    StatusOfPush(cfg, mid, events, st', StatusAt(source, b.idx));
    StatusHolds(source, b.idx);
    SlotMatches(ps, plan, m, u, st', uid);
  }

  lemma {:induction false} RoundsKeepStep(cfg: Config, source: Source, i: nat, a: Service.Agent, st: ScalerState,
                                          rounds: seq<seq<Event>>, a': Service.Agent, st': ScalerState,
                                          uid: UID, ps: Params, plan: seq<int>, first: Usage, usage: Usage)
    requires ValidSource(source) && InStep(source, i, a, st, uid, ps, plan, 1, first)
    requires Foresees(source, i, ps, plan) && 1 + |rounds| <= |plan|
    requires Rounds(cfg, source, a, st, rounds, a', st', uid, ps, usage)
    ensures InStep(source, i, a', st', uid, ps, plan, 1 + |rounds|, Plus(first, usage))
    decreases |rounds|
  {
    hide InStep, Foresees, Round, Consistent, Readable, SlotUsage;
    if rounds != [] {
      var last := |rounds| - 1;
      var b: Service.Agent, mid: ScalerState, u: Usage :|
        && Rounds(cfg, source, a, st, rounds[..last], b, mid, uid, ps, u)
        && b.idx < |source.trace|
        && Round(cfg, source, b, mid, rounds[last], st', uid)
        && a' == Service.Next(|source.trace|, b, Service.Wake)
        && Consistent(st') && Readable(st')
        && usage == Plus(u, SlotUsage(st', uid, ps));
      RoundsKeepStep(cfg, source, i, a, st, rounds[..last], b, mid, uid, ps, plan, first, u);
      RoundKeepsStep(cfg, source, i, b, mid, rounds[last], a', st', uid, ps, plan, 1 + last, Plus(first, u));
    }
  }

  /** The push that plans the job puts the agent, the cursor and the usage in step. */
  lemma PlanningStarts(cfg: Config, source: Source, a: Service.Agent, st: ScalerState,
                       pre: seq<Event>, e: Event, post: seq<Event>, st': ScalerState,
                       uid: UID, ps: Params, target: real, plan: seq<int>)
    requires ValidSource(source) && a.idx < |source.trace| && !a.reset && plan != []
    requires PlanningRound(cfg, source, a, st, pre, e, post, st', uid, ps, target, plan)
    requires Consistent(st') && Readable(st') && |plan| <= |ps.ci|
    ensures Foresees(source, a.idx, ps, plan)
    ensures InStep(source, a.idx, Service.Next(|source.trace|, a, Service.Wake), st', uid, ps, plan, 1,
                   SlotUsage(st', uid, ps))
  {
    hide PlanningRound, Matches, Consistent, Readable, StatusAt, Plan, SortedFrom, InRange;
    PlanningRoundFacts(cfg, source, a, st, pre, e, post, st', uid, ps, target, plan);
    Service.PredictIsCircular(source.trace, a.idx, source.predictionWindow);
    StatusHolds(source, a.idx);
    Service.Remainder(0, a.idx, |source.trace|);
    NothingYet(ps, plan);
    SlotMatches(ps, plan, 0, Usage(0.0, 0.0), st', uid);
  }

  /** Planned carbon is realised carbon. Start with the push that plans the job, and let every later
      push be delivered, scheduled and followed by a sleep, with no reset of the trace: through the
      deadline, the work and the carbon the job realises against the trace are, slot by slot, the work
      and the carbon of its plan against the forecast, and the cursor and the trace index agree. */
  lemma PlannedIsRealised(
      cfg: Config, source: Source, a: Service.Agent, st: ScalerState,
      pre: seq<Event>, e: Event, post: seq<Event>, st1: ScalerState,
      rounds: seq<seq<Event>>, a': Service.Agent, st': ScalerState,
      uid: UID, ps: Params, target: real, plan: seq<int>, usage: Usage)
    requires ValidSource(source) && a.idx < |source.trace| && !a.reset && plan != []
    requires PlanningRound(cfg, source, a, st, pre, e, post, st1, uid, ps, target, plan)
    requires Consistent(st1) && Readable(st1)
    requires Rounds(cfg, source, Service.Next(|source.trace|, a, Service.Wake), st1, rounds, a', st', uid, ps, usage)
    requires 1 + |rounds| <= |plan| <= |ps.ci|
    ensures Foresees(source, a.idx, ps, plan)
    ensures InStep(source, a.idx, a', st', uid, ps, plan, 1 + |rounds|, Plus(SlotUsage(st1, uid, ps), usage))
  {
    hide PlanningRound, Rounds, Consistent, Readable, InStep, Foresees, SlotUsage;
    PlanningStarts(cfg, source, a, st, pre, e, post, st1, uid, ps, target, plan);
    RoundsKeepStep(cfg, source, a.idx, Service.Next(|source.trace|, a, Service.Wake), st1, rounds, a', st',
                   uid, ps, plan, SlotUsage(st1, uid, ps), usage);
  }

  /** The realised footprint is least: with a fair ranking, no schedule that does the work realised
      by the deadline would have emitted less under the trace that occurred. */
  lemma RealisedIsLeast(
      cfg: Config, source: Source, a: Service.Agent, st: ScalerState,
      pre: seq<Event>, e: Event, post: seq<Event>, st1: ScalerState,
      rounds: seq<seq<Event>>, a': Service.Agent, st': ScalerState,
      uid: UID, ps: Params, target: real, plan: seq<int>, usage: Usage, s: seq<int>)
    requires ValidSource(source) && a.idx < |source.trace| && !a.reset && plan != []
    requires PlanningRound(cfg, source, a, st, pre, e, post, st1, uid, ps, target, plan)
    requires Consistent(st1) && Readable(st1)
    requires Rounds(cfg, source, Service.Next(|source.trace|, a, Service.Wake), st1, rounds, a', st', uid, ps, usage)
    requires 1 + |rounds| == |plan|
    requires Sound(ps) && FairlyRanked(ps.profile, ps.min, ps.max) && Feasible(ps, s)
    ensures Foresees(source, a.idx, ps, plan)
    ensures var total := Plus(SlotUsage(st1, uid, ps), usage);
      && total.work >= target
      && (Work(ps, s) >= total.work ==> Carbon(ps, s) >= total.carbon)
  {
    hide PlanningRound, Rounds, Consistent, Readable, Foresees, SlotUsage;
    PlanningRoundFacts(cfg, source, a, st, pre, e, post, st1, uid, ps, target, plan);
    SoundForecast(ps);
    SoundIsWellFormed(ps);
    PlannedIsRealised(cfg, source, a, st, pre, e, post, st1, rounds, a', st', uid, ps, target, plan, usage);
    PlanIsLeast(ps, e.order, target, plan, s, Plus(SlotUsage(st1, uid, ps), usage));
  }

  /** The carbon of a schedule: the power the file gives for each slot's nodes, times the slot's intensity and
      length. */
  function CarbonEmitted(rows: seq<Row>, s: seq<int>, forecast: seq<real>, slot: int): real
    requires |s| <= |forecast|
  {
    if s == [] then 0.0
    else
      var last := |s| - 1;
      CarbonEmitted(rows, s[..last], forecast, slot) + PowerOf(rows, s[last]) * forecast[last] * slot as real
  }

  lemma {:induction false} CarbonIsEmitted(ps: Params, rows: seq<Row>, s: seq<int>, slot: int)
    requires ps.profile == Loaded(rows) && ps.slotLength == slot as real && |s| <= |ps.ci|
    ensures Carbon(ps, s) == CarbonEmitted(rows, s, ps.ci, slot)
  {
    if s != [] {
      CarbonIsEmitted(ps, rows, s[..|s| - 1], slot);
      LookupIsRow(rows, s[|s| - 1]);
    }
  }

  /** A call that stores a plan stores the least for its work, in the job's own terms: with increasing rows
      that reach the limits, a positive forecast to the deadline, and a fair ranking, no schedule that fits
      the job and does the plan's work emits less under the forecast. */
  lemma StoredPlanIsLeast(cfg: Config, st: ScalerState, e: Event, st': ScalerState, rows: seq<Row>, s: seq<int>)
    requires Transition(cfg, st, e, st') && e.Compute? && e.uid !in st.schedule && e.outcome == NoError
    requires e.spec.profileName in e.files && rows == e.files[e.spec.profileName] && cfg.timeSlot > 0
    requires Consecutive(rows) && Increasing(rows) && 1 <= e.spec.minReplicas
    requires Min(cfg.clusterSize, e.spec.maxReplicas) < |rows|
    requires FairlyRanked(Loaded(rows), e.spec.minReplicas, Min(cfg.clusterSize, e.spec.maxReplicas))
    requires e.spec.deadLine <= |st.status.prediction|
    requires forall t :: 0 <= t < e.spec.deadLine ==> st.status.prediction[t] > 0.0
    requires FitsJob(cfg, e.spec, s)
    ensures e.uid in st'.schedule && FitsJob(cfg, e.spec, st'.schedule[e.uid])
    ensures var plan := st'.schedule[e.uid];
      WorkDone(rows, s, cfg.timeSlot) >= WorkDone(rows, plan, cfg.timeSlot) ==>
        CarbonEmitted(rows, s, st.status.prediction, cfg.timeSlot)
          >= CarbonEmitted(rows, plan, st.status.prediction, cfg.timeSlot)
  {
    hide Plan, SortedFrom, InRange, Work, WorkDone, Carbon, CarbonEmitted, Loaded, Feasible, FitsJob, FairlyRanked;
    hide Consecutive, Increasing;
    StoredPlanWorks(cfg, st, e, st', e.uid);
    var ps, target, plan := FirstCallPlans(cfg, st, e, st', e.uid);
    LoadedIsGood(rows, ps.max);
    SoundIsWellFormed(ps);
    FeasibleIffFits(cfg, st, e.spec, rows, s);
    FitsLength(cfg, e.spec, s);
    LeastCarbonForItsWork(ps, e.order, target);
    WorkIsWorkDone(ps, rows, s, cfg.timeSlot);
    WorkIsWorkDone(ps, rows, plan, cfg.timeSlot);
    CarbonIsEmitted(ps, rows, s, cfg.timeSlot);
    CarbonIsEmitted(ps, rows, plan, cfg.timeSlot);
  }

  lemma FitsLength(cfg: Config, spec: JobSpec, s: seq<int>)
    requires FitsJob(cfg, spec, s)
    ensures |s| == spec.deadLine
  {
  }

  lemma SoundForecast(ps: Params)
    requires Sound(ps)
    ensures ps.slots <= |ps.ci|
  {
  }

  lemma PlanIsLeast(ps: Params, order: seq<Candidate>, target: real, plan: seq<int>, s: seq<int>, u: Usage)
    requires Sound(ps) && WellFormed(ps) && SortedFrom(ps, order) && FairlyRanked(ps.profile, ps.min, ps.max)
    requires InRange(order, ps.slots) && Plan(ps, order, target) == Some(plan) && Feasible(ps, s)
    requires |plan| <= |ps.ci| && Matches(ps, plan, |plan|, u)
    ensures u.work >= target && (Work(ps, s) >= u.work ==> Carbon(ps, s) >= u.carbon)
  {
    hide SortedFrom, Plan, Work, Carbon, FairlyRanked;
    assert plan[..|plan|] == plan;
    PlanIsSound(ps, order, target, plan);
    LeastCarbonForItsWork(ps, order, target);
  }

  // ----- down to the MPI job -----

  /** A push served by the controller is a round of every listed, unfinished job with its own UID. */
  lemma ServedPushIsRound(cfg: Config, source: Source, a: Service.Agent, st: ScalerState, events: seq<Event>,
                          st': ScalerState, jobs: map<Key, ScalerJob>, list: seq<Key>, k: nat)
    requires ValidSource(source) && a.idx < |source.trace|
    requires Path(cfg, st, events, st') && StartsWith(events, StatusAt(source, a.idx))
    requires forall i :: 0 <= i < |list| ==> list[i] in jobs
    requires forall uid :: Ticks(events, uid) == multiset(Unfinished(jobs, list))[uid]
    requires k < |list| && !Finished(jobs[list[k]])
    requires forall i :: 0 <= i < |list| && i != k ==> jobs[list[i]].uid != jobs[list[k]].uid
    ensures Round(cfg, source, a, st, events, st', jobs[list[k]].uid)
  {
    hide Path, StartsWith, Unfinished;
    OncePerJob(jobs, list, k);
  }

  /** A run can be cut at any call. */
  lemma {:induction false} PathCut(cfg: Config, st: ScalerState, events: seq<Event>, st': ScalerState, i: nat)
    returns (mid: ScalerState)
    requires Path(cfg, st, events, st') && i <= |events|
    ensures Path(cfg, st, events[..i], mid) && Path(cfg, mid, events[i..], st')
    decreases |events|
  {
    hide Transition;
    if i == 0 {
      mid := st;
      EmptyPath(cfg, st);
      assert events[..0] == [] && events[0..] == events;
    } else {
      var next :| Transition(cfg, st, events[0], next) && Path(cfg, next, events[1..], st');
      mid := PathCut(cfg, next, events[1..], st', i - 1);
      assert events[..i][1..] == events[1..][..i - 1];
    }
  }

  /** Where a job that is scheduled once is scheduled. */
  lemma {:induction false} OnlyTick(events: seq<Event>, uid: UID) returns (i: nat)
    requires Ticks(events, uid) == 1
    ensures i < |events| && Plans(events[i], uid)
    ensures Ticks(events[..i], uid) == 0 && Ticks(events[i + 1..], uid) == 0
  {
    if Plans(events[0], uid) {
      i := 0;
    } else {
      i := OnlyTick(events[1..], uid);
      i := i + 1;
      assert events[..i][1..] == events[1..][..i - 1];
    }
  }

  /** The call that gives a job its schedule plans it. */
  lemma SchedulingPlans(cfg: Config, mid: ScalerState, e: Event, planned: ScalerState, uid: UID)
    returns (ps: Params, target: real, plan: seq<int>)
    requires Transition(cfg, mid, e, planned) && Plans(e, uid)
    requires uid !in mid.schedule && uid in planned.schedule
    ensures PlannedBy(cfg, mid, e, uid, ps, target, plan)
    ensures planned.schedule[uid] == plan
  {
    hide Transition, PlannedBy;
    StepSchedules(cfg, mid, e, planned, uid);
    ps, target, plan := FirstCallPlans(cfg, mid, e, planned, uid);
  }

  /** And the served push after which a job has its first schedule is the push that plans it: around
      the job's own call, whose plan is the stored schedule, are the update and calls of other jobs. */
  lemma ServedPushPlans(cfg: Config, source: Source, a: Service.Agent, st: ScalerState, events: seq<Event>,
                        st': ScalerState, uid: UID)
    returns (pre: seq<Event>, e: Event, post: seq<Event>, ps: Params, target: real, plan: seq<int>)
    requires ValidSource(source) && a.idx < |source.trace|
    requires Round(cfg, source, a, st, events, st', uid)
    requires uid !in st.schedule && uid in st'.schedule
    ensures events == pre + [e] + post
    ensures PlanningRound(cfg, source, a, st, pre, e, post, st', uid, ps, target, plan)
    ensures st'.schedule[uid] == plan
  {
    hide Transition, PlannedBy, StatusAt;
    var i := OnlyTick(events, uid);
    pre, e, post := events[..i], events[i], events[i + 1..];
    assert i > 0;
    var mid := PathCut(cfg, st, events, st', i);
    assert events[i..][0] == e && events[i..][1..] == post;
    var planned :| Transition(cfg, mid, e, planned) && Path(cfg, planned, post, st');
    Isolation(cfg, st, pre, mid, uid);
    Isolation(cfg, planned, post, st', uid);
    ps, target, plan := SchedulingPlans(cfg, mid, e, planned, uid);
    assert pre[1..] == events[1..][..i - 1];
  }

  /** With its arguments: in a push that the controller serves, the call that plans a listed, unfinished job
      with its own UID is made for that job, so its plan fits the job and does the part of its size, as its
      environment gives it, that is not yet done. */
  lemma ServedPushPlansJob(cfg: Config, source: Source, a: Service.Agent, st: ScalerState, events: seq<Event>,
                           st': ScalerState, jobs: map<Key, ScalerJob>, list: seq<Key>,
                           files: map<string, seq<Row>>, k: nat)
    returns (pre: seq<Event>, e: Event, post: seq<Event>, ps: Params, target: real, plan: seq<int>)
    requires ValidSource(source) && a.idx < |source.trace|
    requires Path(cfg, st, events, st') && StartsWith(events, StatusAt(source, a.idx))
    requires forall i :: 0 <= i < |list| ==> list[i] in jobs
    requires forall uid :: Ticks(events, uid) == multiset(Unfinished(jobs, list))[uid]
    requires CallsListed(events, jobs, list, files)
    requires k < |list| && !Finished(jobs[list[k]])
    requires forall i :: 0 <= i < |list| && i != k ==> jobs[list[i]].uid != jobs[list[k]].uid
    requires jobs[list[k]].uid !in st.schedule && jobs[list[k]].uid in st'.schedule
    ensures events == pre + [e] + post
    ensures PlanningRound(cfg, source, a, st, pre, e, post, st', jobs[list[k]].uid, ps, target, plan)
    ensures var job := jobs[list[k]];
      && CallsFor(e, job, files) && job.spec.profileName in files
      && st'.schedule[job.uid] == plan && FitsJob(cfg, job.spec, plan)
      && (ThroughputOf(files[job.spec.profileName], 0) == 0.0 ==>
            WorkDone(files[job.spec.profileName], plan, cfg.timeSlot)
              >= (1.0 - job.spec.progress as real / 100.0) * WorkSize(job.mpi.env))
  {
    hide Path, StartsWith, Unfinished, CallsFor, Finished, PlannedBy, WorkDone, FitsJob, StatusAt, Transition;
    hide ThroughputOf, WorkSize, Ticks, PlanningRound;
    var job := jobs[list[k]];
    ServedPushIsRound(cfg, source, a, st, events, st', jobs, list, k);
    pre, e, post, ps, target, plan := ServedPushPlans(cfg, source, a, st, events, st', job.uid);
    var mid, planned := PlanningCall(cfg, source, a, st, pre, e, post, st', job.uid, ps, target, plan);
    assert events[|pre|] == e;
    CallIsForJob(e, jobs, list, files, k);
    StoredPlanWorks(cfg, mid, e, planned, job.uid);
    Isolation(cfg, planned, post, st', job.uid);
  }

  lemma PlanningCall(cfg: Config, source: Source, a: Service.Agent, st: ScalerState,
                     pre: seq<Event>, e: Event, post: seq<Event>, st': ScalerState,
                     uid: UID, ps: Params, target: real, plan: seq<int>)
    returns (mid: ScalerState, planned: ScalerState)
    requires ValidSource(source) && a.idx < |source.trace|
    requires PlanningRound(cfg, source, a, st, pre, e, post, st', uid, ps, target, plan)
    ensures Plans(e, uid) && e.outcome == NoError && uid !in mid.schedule && Transition(cfg, mid, e, planned)
    ensures Path(cfg, planned, post, st') && Ticks(post, uid) == 0
  {
    hide Path, Transition;
    mid, planned :|
      && Path(cfg, st, pre, mid)
      && PlannedBy(cfg, mid, e, uid, ps, target, plan) && Transition(cfg, mid, e, planned)
      && Path(cfg, planned, post, st');
  }

  lemma CallIsForJob(e: Event, jobs: map<Key, ScalerJob>, list: seq<Key>, files: map<string, seq<Row>>, k: nat)
    requires ListedCall(e, jobs, list, files) && k < |list| && list[k] in jobs
    requires Plans(e, jobs[list[k]].uid)
    requires forall i :: 0 <= i < |list| && i != k && list[i] in jobs ==> jobs[list[i]].uid != jobs[list[k]].uid
    ensures CallsFor(e, jobs[list[k]], files)
    ensures e.spec == jobs[list[k]].spec && e.files == files && e.workSize == WorkSize(jobs[list[k]].mpi.env)
  {
    hide Finished;
  }

  /** And the cluster follows the plan: a pass of the controller after the m-th slot's push leaves the
      MPI job with exactly plan[m - 1] workers, or stopped if that is 0. */
  lemma PassRunsThePlan(source: Source, i: nat, a: Service.Agent, st: ScalerState, uid: UID,
                        ps: Params, plan: seq<int>, m: nat, u: Usage, cs: ClusterState, key: Key,
                        pods: seq<Pod>)
    requires ValidSource(source) && InStep(source, i, a, st, uid, ps, plan, m, u)
    requires Consistent(st) && Readable(st) && IsInt64(plan[m - 1])
    requires Active(cs, key) && cs.jobs[key].uid == uid
    ensures Converged(Reconciled(cs, key, Answer(st, uid), pods), key, plan[m - 1])
  {
    hide Reconciled, Converged, Matches, Consistent, Readable;
    PassConverges(cs, key, plan[m - 1], pods);
  }
}

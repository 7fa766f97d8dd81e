/** What the controller does with the autoscaler: schedule every unfinished job on each push, and reconcile
    the jobs of the cluster. */
module Controller {
  import opened Profiles
  import opened Decimal
  import opened Cursor
  import opened Reconciler
  import Scaler

  // ----- scheduling -----

  /** The work of a job: bodies times iterations, multiplied as 64-bit integers. */
  function Wrap64(n: int): int {
    (n + MAX_INT64 + 1) % (MAX_UINT64 + 1) - MAX_INT64 - 1
  }

  /** The value of the last variable of that name, or 0. */
  function LastValue(env: seq<EnvVar>, name: string): int {
    if env == [] then 0
    else
      var last := |env| - 1;
      if env[last].name == name then Atoi(env[last].value) else LastValue(env[..last], name)
  }

  function WorkSize(env: seq<EnvVar>): real {
    Wrap64(LastValue(env, "BODIES") * LastValue(env, "ITERATIONS")) as real
  }

  /** The last variable of that name stands at i. */
  ghost predicate LastNamed(env: seq<EnvVar>, name: string, i: nat) {
    i < |env| && env[i].name == name && forall k :: i < k < |env| ==> env[k].name != name
  }

  /** By position: the value is that of the last variable of the name, as a number, and 0 without one. */
  lemma {:induction false} LastValueByPosition(env: seq<EnvVar>, name: string, i: nat)
    ensures LastNamed(env, name, i) ==> LastValue(env, name) == Atoi(env[i].value)
    ensures (forall k :: 0 <= k < |env| ==> env[k].name != name) ==> LastValue(env, name) == 0
  {
    hide Atoi;
    if env != [] && env[|env| - 1].name != name {
      LastValueByPosition(env[..|env| - 1], name, i);
    }
  }

  lemma WrapsAround(n: int)
    ensures IsInt64(Wrap64(n)) && (n - Wrap64(n)) % 0x1_0000_0000_0000_0000 == 0
    ensures IsInt64(n) ==> Wrap64(n) == n
  {
    var m := 0x1_0000_0000_0000_0000;
    var q := (n + MAX_INT64 + 1) / m;
    assert n - Wrap64(n) == m * q;
    assert (m * q) % m == 0;
  }

  /** The size the planner sees is the product of the last BODIES and the last ITERATIONS, exactly when that
      fits 64 bits, and otherwise differs from it by a multiple of 2^64. */
  lemma WorkSizeIsExact(env: seq<EnvVar>, b: nat, i: nat) returns (size: int)
    requires LastNamed(env, "BODIES", b) && LastNamed(env, "ITERATIONS", i)
    ensures WorkSize(env) == size as real && IsInt64(size)
    ensures (Atoi(env[b].value) * Atoi(env[i].value) - size) % 0x1_0000_0000_0000_0000 == 0
    ensures size == Atoi(env[b].value) * Atoi(env[i].value) <==> IsInt64(Atoi(env[b].value) * Atoi(env[i].value))
  {
    hide Atoi, LastValue, Wrap64;
    LastValueByPosition(env, "BODIES", b);
    LastValueByPosition(env, "ITERATIONS", i);
    size := Wrap64(LastValue(env, "BODIES") * LastValue(env, "ITERATIONS"));
    WrapsAround(LastValue(env, "BODIES") * LastValue(env, "ITERATIONS"));
  }

  /** Without either of them it is 0. */
  lemma WorkSizeIsZero(env: seq<EnvVar>, name: string)
    requires name == "BODIES" || name == "ITERATIONS"
    requires forall k :: 0 <= k < |env| ==> env[k].name != name
    ensures WorkSize(env) == 0.0
  {
    hide LastValue;
    LastValueByPosition(env, name, 0);
    WrapsAround(0);
  }

  // ----- the calls of a push -----

  /** A scheduling call made for the job: with its UID, its specification and its size. */
  ghost predicate CallsFor(e: Event, job: ScalerJob, files: map<string, seq<Row>>) {
    e.Compute? && e.uid == job.uid && e.spec == job.spec && e.files == files && e.workSize == WorkSize(job.mpi.env)
  }

  /** Every scheduling call is made for an unfinished job of the list. */
  ghost predicate CallsListed(events: seq<Event>, jobs: map<Key, ScalerJob>, list: seq<Key>,
                              files: map<string, seq<Row>>)
  {
    forall i :: 0 <= i < |events| && events[i].Compute? ==> ListedCall(events[i], jobs, list, files)
  }

  ghost predicate ListedCall(e: Event, jobs: map<Key, ScalerJob>, list: seq<Key>, files: map<string, seq<Row>>) {
    exists k :: 0 <= k < |list| && list[k] in jobs && !Finished(jobs[list[k]]) && CallsFor(e, jobs[list[k]], files)
  }

  lemma MoreCallsListed(events: seq<Event>, added: seq<Event>, jobs: map<Key, ScalerJob>, list: seq<Key>, k: nat,
                        files: map<string, seq<Row>>)
    requires CallsListed(events, jobs, list, files) && k < |list| && list[k] in jobs && !Finished(jobs[list[k]])
    requires forall i :: 0 <= i < |added| && added[i].Compute? ==> CallsFor(added[i], jobs[list[k]], files)
    ensures CallsListed(events + added, jobs, list, files)
  {
    hide Finished, CallsFor;
  }

  /** No other job of the list has this one's UID. */
  ghost predicate Alone(jobs: map<Key, ScalerJob>, list: seq<Key>, key: Key)
    requires key in jobs && forall k :: 0 <= k < |list| ==> list[k] in jobs
  {
    forall k :: 0 <= k < |list| && list[k] != key ==> jobs[list[k]].uid != jobs[key].uid
  }

  /** What scheduling the first i of the list records in a job: if it is one of them, has not finished and is
      alone with its UID, the answer of the autoscaler as its workers, once it has a schedule. Otherwise it
      keeps everything, but that one that shares its UID may have got an earlier answer as its workers. */
  ghost predicate RecordedIn(was: map<Key, ScalerJob>, now: ScalerJob, list: seq<Key>, i: nat, st: ScalerState,
                             key: Key)
    requires Consistent(st) && Readable(st)
    requires i <= |list| && key in was && forall k :: 0 <= k < |list| ==> list[k] in was
  {
    var job := was[key];
    && now == job.(mpi := job.mpi.(workers := now.mpi.workers))
    && (key !in list[..i] || Finished(job) ==> now == job)
    && (key in list[..i] && !Finished(job) && Alone(was, list, key) ==>
          now.mpi.workers == if job.uid in st.schedule then Answer(st, job.uid) else job.mpi.workers)
  }

  ghost predicate Recorded(was: map<Key, ScalerJob>, jobs: map<Key, ScalerJob>, list: seq<Key>, i: nat,
                           st: ScalerState)
    requires Consistent(st) && Readable(st)
    requires i <= |list| && forall k :: 0 <= k < |list| ==> list[k] in was
  {
    jobs.Keys == was.Keys && forall key :: key in was ==> RecordedIn(was, jobs[key], list, i, st, key)
  }

  lemma OneMoreRecorded(cfg: Config, mid: ScalerState, added: seq<Event>, st': ScalerState,
                        was: map<Key, ScalerJob>, before: map<Key, ScalerJob>, jobs: map<Key, ScalerJob>,
                        list: seq<Key>, i: nat)
    requires Consistent(mid) && Readable(mid) && Consistent(st') && Readable(st')
    requires i < |list| && forall k :: 0 <= k < |list| ==> list[k] in was
    requires forall k :: 0 <= k < i ==> list[k] != list[i]
    requires Recorded(was, before, list, i, mid) && Path(cfg, mid, added, st')
    requires var key, job := list[i], was[list[i]];
      if Finished(job) then added == [] && jobs == before
      else
        && (forall uid :: Ticks(added, uid) == if uid == job.uid then 1 else 0)
        && jobs == if job.uid in st'.schedule
                   then before[key := job.(mpi := job.mpi.(workers := Answer(st', job.uid)))]
                   else before
    ensures Recorded(was, jobs, list, i + 1, st')
  {
    hide Finished, Consistent, Readable, Path, Answer, Alone;
    forall key | key in was ensures RecordedIn(was, jobs[key], list, i + 1, st', key) {
      assert RecordedIn(was, before[key], list, i, mid, key);
      if key == list[i] {
        NowRecorded(was, before[key], jobs[key], list, i, mid, st');
      } else {
        if !Finished(was[list[i]]) && was[key].uid != was[list[i]].uid {
          Undisturbed(cfg, mid, added, st', was[key].uid);
        } else if Finished(was[list[i]]) {
          NoCalls(cfg, mid, st', added);
        }
        StaysRecorded(was, before[key], list, i, mid, st', key);
      }
    }
  }

  lemma NoCalls(cfg: Config, st: ScalerState, st': ScalerState, events: seq<Event>)
    requires Path(cfg, st, events, st') && events == []
    ensures st' == st
  {
  }

  lemma NowRecorded(was: map<Key, ScalerJob>, before: ScalerJob, now: ScalerJob, list: seq<Key>, i: nat,
                    mid: ScalerState, st': ScalerState)
    requires Consistent(mid) && Readable(mid) && Consistent(st') && Readable(st')
    requires i < |list| && (forall k :: 0 <= k < |list| ==> list[k] in was)
    requires forall k :: 0 <= k < i ==> list[k] != list[i]
    requires RecordedIn(was, before, list, i, mid, list[i])
    requires var job := was[list[i]];
      if Finished(job) then now == before
      else now == if job.uid in st'.schedule then job.(mpi := job.mpi.(workers := Answer(st', job.uid))) else before
    ensures RecordedIn(was, now, list, i + 1, st', list[i])
  {
    hide Finished, Consistent, Readable, Answer, Alone;
    assert list[i] !in list[..i];
  }

  lemma StaysRecorded(was: map<Key, ScalerJob>, now: ScalerJob, list: seq<Key>, i: nat,
                      mid: ScalerState, st': ScalerState, key: Key)
    requires Consistent(mid) && Readable(mid) && Consistent(st') && Readable(st')
    requires i < |list| && (forall k :: 0 <= k < |list| ==> list[k] in was)
    requires key in was && key != list[i] && RecordedIn(was, now, list, i, mid, key)
    requires Finished(was[list[i]]) ==> st' == mid
    requires !Finished(was[list[i]]) && was[key].uid != was[list[i]].uid ==>
               && (was[key].uid in st'.schedule <==> was[key].uid in mid.schedule)
               && (was[key].uid in mid.schedule ==> Answer(st', was[key].uid) == Answer(mid, was[key].uid))
    ensures RecordedIn(was, now, list, i + 1, st', key)
  {
    hide Finished, Consistent, Readable, Answer;
    assert list[..i + 1] == list[..i] + [list[i]];
  }

  lemma Undisturbed(cfg: Config, st: ScalerState, events: seq<Event>, st': ScalerState, uid: UID)
    requires Consistent(st) && Readable(st) && Consistent(st') && Readable(st')
    requires Path(cfg, st, events, st') && Ticks(events, uid) == 0
    ensures uid in st'.schedule <==> uid in st.schedule
    ensures uid in st.schedule ==> Answer(st', uid) == Answer(st, uid)
  {
    hide Path;
    Isolation(cfg, st, events, st', uid);
  }

  lemma NothingRecorded(was: map<Key, ScalerJob>, list: seq<Key>, st: ScalerState)
    requires Consistent(st) && Readable(st) && forall k :: 0 <= k < |list| ==> list[k] in was
    ensures Recorded(was, was, list, 0, st)
  {
  }

  lemma {:induction false} PathSnoc(cfg: Config, st: ScalerState, events: seq<Event>, mid: ScalerState,
                                    e: Event, st': ScalerState)
    requires Path(cfg, st, events, mid) && Transition(cfg, mid, e, st')
    ensures Path(cfg, st, events + [e], st')
    decreases |events|
  {
    hide Transition;
    if events == [] {
      assert (events + [e])[1..] == [];
      assert Path(cfg, st', [], st');
    } else {
      var first :| Transition(cfg, st, events[0], first) && Path(cfg, first, events[1..], mid);
      PathSnoc(cfg, first, events[1..], mid, e, st');
      assert (events + [e])[1..] == events[1..] + [e];
    }
  }

  lemma {:induction false} PathAppend(cfg: Config, st: ScalerState, a: seq<Event>, mid: ScalerState,
                                      b: seq<Event>, st': ScalerState)
    requires Path(cfg, st, a, mid) && Path(cfg, mid, b, st')
    ensures Path(cfg, st, a + b, st')
    decreases |a|
  {
    hide Transition;
    if a == [] {
      assert a + b == b;
    } else {
      var first :| Transition(cfg, st, a[0], first) && Path(cfg, first, a[1..], mid);
      PathAppend(cfg, first, a[1..], mid, b, st');
      assert (a + b)[1..] == a[1..] + b;
    }
  }

  lemma {:induction false} TicksAppend(a: seq<Event>, b: seq<Event>, uid: UID)
    ensures Ticks(a + b, uid) == Ticks(a, uid) + Ticks(b, uid)
  {
    if a == [] {
      assert a + b == b;
    } else {
      TicksAppend(a[1..], b, uid);
      assert (a + b)[1..] == a[1..] + b;
    }
  }

  /** A call that schedules one job, and perhaps a read after it. */
  lemma OneTick(e: Event, rest: seq<Event>, uid: UID)
    requires e.Compute? && (rest == [] || (|rest| == 1 && rest[0].Get?))
    ensures Ticks([e] + rest, uid) == if uid == e.uid then 1 else 0
  {
    assert ([e] + rest)[1..] == rest;
    if rest != [] {
      assert Ticks(rest[1..], uid) == 0;
    }
  }

  /** What scheduling one job needs of the autoscaler, in the state it is then in. */
  ghost predicate Schedulable(cfg: Config, st: ScalerState, job: ScalerJob, files: map<string, seq<Row>>) {
    Callable(cfg, st, job.uid, job.spec, files) && (job.uid !in st.schedule ==> job.spec.deadLine > 0)
  }

  /** The jobs of a list that are scheduled: those that have not finished, by their UIDs. */
  function Unfinished(jobs: map<Key, ScalerJob>, list: seq<Key>): seq<UID>
    requires forall i :: 0 <= i < |list| ==> list[i] in jobs
  {
    if list == [] then []
    else
      var last := |list| - 1;
      Unfinished(jobs, list[..last]) + if Finished(jobs[list[last]]) then [] else [jobs[list[last]].uid]
  }

  /** A listed, unfinished job whose UID no other listed job has is scheduled exactly once. */
  lemma {:induction false} OncePerJob(jobs: map<Key, ScalerJob>, list: seq<Key>, k: nat)
    requires forall i :: 0 <= i < |list| ==> list[i] in jobs
    requires k < |list| && !Finished(jobs[list[k]])
    requires forall i :: 0 <= i < |list| && i != k ==> jobs[list[i]].uid != jobs[list[k]].uid
    ensures multiset(Unfinished(jobs, list))[jobs[list[k]].uid] == 1
  {
    var last := |list| - 1;
    if k < last {
      OncePerJob(jobs, list[..last], k);
    } else {
      NeverListed(jobs, list[..last], jobs[list[k]].uid);
    }
  }

  lemma {:induction false} NeverListed(jobs: map<Key, ScalerJob>, list: seq<Key>, uid: UID)
    requires forall i :: 0 <= i < |list| ==> list[i] in jobs && jobs[list[i]].uid != uid
    ensures multiset(Unfinished(jobs, list))[uid] == 0
  {
    if list != [] {
      NeverListed(jobs, list[..|list| - 1], uid);
    }
  }

  ghost predicate AllSchedulable(cfg: Config, st: ScalerState, jobs: map<Key, ScalerJob>, list: seq<Key>,
                                 files: map<string, seq<Row>>)
  {
    forall i :: 0 <= i < |list| ==>
      list[i] in jobs && (!Finished(jobs[list[i]]) ==> Schedulable(cfg, st, jobs[list[i]], files))
  }

  /** Scheduling leaves the status alone and never drops a schedule, so what is schedulable stays so. */
  lemma {:induction false} StaysSchedulable(cfg: Config, st: ScalerState, events: seq<Event>, st': ScalerState,
                                            job: ScalerJob, files: map<string, seq<Row>>)
    requires Schedulable(cfg, st, job, files) && Path(cfg, st, events, st') && NoUpdate(events)
    ensures Schedulable(cfg, st', job, files)
    decreases |events|
  {
    hide Planner.Plan, Planner.SortedFrom, Planner.InRange, Planner.WellFormed;
    if events != [] {
      var mid :| Transition(cfg, st, events[0], mid) && Path(cfg, mid, events[1..], st');
      StaysSchedulable(cfg, mid, events[1..], st', job, files);
    }
  }

  /** The events schedule each unfinished job among the first i of the list once, and nothing else. */
  ghost predicate ScheduledOnce(cfg: Config, st: ScalerState, events: seq<Event>, st': ScalerState,
                                jobs: map<Key, ScalerJob>, list: seq<Key>, i: nat)
    requires forall k :: 0 <= k < |list| ==> list[k] in jobs
  {
    && i <= |list| && Path(cfg, st, events, st') && NoUpdate(events)
    && forall uid :: Ticks(events, uid) == multiset(Unfinished(jobs, list[..i]))[uid]
  }

  lemma NothingCalled(jobs: map<Key, ScalerJob>, list: seq<Key>, files: map<string, seq<Row>>)
    ensures CallsListed([], jobs, list, files)
  {
  }

  lemma EmptyPath(cfg: Config, st: ScalerState)
    ensures Path(cfg, st, [], st)
  {
  }

  lemma NoneScheduled(cfg: Config, st: ScalerState, jobs: map<Key, ScalerJob>, list: seq<Key>)
    requires forall k :: 0 <= k < |list| ==> list[k] in jobs
    ensures ScheduledOnce(cfg, st, [], st, jobs, list, 0)
  {
    assert Unfinished(jobs, list[..0]) == [];
  }

  lemma RestSchedulable(cfg: Config, st: ScalerState, events: seq<Event>, st': ScalerState,
                        jobs: map<Key, ScalerJob>, list: seq<Key>, i: nat, files: map<string, seq<Row>>)
    requires i < |list| && AllSchedulable(cfg, st, jobs, list, files) && !Finished(jobs[list[i]])
    requires ScheduledOnce(cfg, st, events, st', jobs, list, i)
    ensures Schedulable(cfg, st', jobs[list[i]], files)
  {
    hide Path, Schedulable;
    StaysSchedulable(cfg, st, events, st', jobs[list[i]], files);
  }

  lemma OneMoreScheduled(cfg: Config, st: ScalerState, events: seq<Event>, mid: ScalerState,
                         added: seq<Event>, st': ScalerState,
                         jobs: map<Key, ScalerJob>, list: seq<Key>, i: nat)
    requires forall k :: 0 <= k < |list| ==> list[k] in jobs
    requires i < |list| && ScheduledOnce(cfg, st, events, mid, jobs, list, i)
    requires Path(cfg, mid, added, st') && NoUpdate(added)
    requires var job := jobs[list[i]];
      if Finished(job) then added == [] else forall uid :: Ticks(added, uid) == if uid == job.uid then 1 else 0
    ensures ScheduledOnce(cfg, st, events + added, st', jobs, list, i + 1)
  {
    hide Path;
    PathAppend(cfg, st, events, mid, added, st');
    assert list[..i + 1][..i] == list[..i];
    forall uid ensures Ticks(events + added, uid) == multiset(Unfinished(jobs, list[..i + 1]))[uid] {
      TicksAppend(events, added, uid);
    }
  }

  lemma AllScheduled(cfg: Config, st: ScalerState, events: seq<Event>, st': ScalerState,
                     jobs: map<Key, ScalerJob>, list: seq<Key>)
    requires forall k :: 0 <= k < |list| ==> list[k] in jobs
    requires ScheduledOnce(cfg, st, events, st', jobs, list, |list|)
    ensures Path(cfg, st, events, st') && NoUpdate(events)
    ensures forall uid :: Ticks(events, uid) == multiset(Unfinished(jobs, list))[uid]
  {
    assert list[..|list|] == list;
  }

  /** The cluster as the controller sees it. */
  class Cluster {
    var jobs: map<Key, ScalerJob>
    var mpiJobs: map<Key, MPIJob>
    var deleted: seq<Pod>

    ghost function State(): ClusterState
      reads this
    {
      ClusterState(jobs, mpiJobs, deleted)
    }

    /** The loop over a launcher's environment. */
    static method RewriteWorkers(env: seq<EnvVar>, n: int) returns (rewritten: seq<EnvVar>, changed: bool)
      ensures rewritten == WithWorkers(env, n) && changed == AnyStale(env, n)
    {
      hide Atoi, Itoa;
      rewritten, changed := env, false;
      for idx := 0 to |env|
        invariant |rewritten| == |env|
        invariant forall i :: 0 <= i < idx ==> rewritten[i] == Rewritten(env[i], n)
        invariant forall i :: idx <= i < |env| ==> rewritten[i] == env[i]
        invariant changed == exists i :: 0 <= i < idx && Stale(env[i], n)
      {
        if env[idx].name == "WORKERS" {
          var current := Atoi(env[idx].value);
          if current != n {
            changed := true;
            rewritten := rewritten[idx := env[idx].(value := Itoa(n))];
          }
        }
      }
    }

    /** The restart of a launcher: among all pods of the namespace, those with "launcher" in their name
        are deleted. */
    method DeleteLauncher(namespace: string, pods: seq<Pod>)
      modifies this`deleted
      ensures deleted == old(deleted) + Launchers(pods, namespace)
    {
      for i := 0 to |pods|
        invariant deleted == old(deleted) + Launchers(pods[..i], namespace)
      {
        assert pods[..i + 1][..i] == pods[..i];
        if IsLauncher(pods[i], namespace) {
          deleted := deleted + [pods[i]];
        }
      }
      assert pods[..|pods|] == pods;
    }

    /** One pass of the controller on a job, reading the autoscaler's cursor and the pods there are. */
    method Reconcile(key: Key, scaler: Scaler.CarbonScaler, pods: seq<Pod>)
      requires scaler.Valid() && Readable(scaler.State())
      modifies this
      ensures key !in old(jobs) ==> State() == old(State())
      ensures key in old(jobs) ==>
                State() == Reconciled(old(State()), key, Answer(scaler.State(), old(jobs)[key].uid), pods)
    {
      hide Finished, WithWorkers, AnyStale, Launchers;
      if key !in jobs || Finished(jobs[key]) {
        return;
      }
      var job := jobs[key];
      var n := scaler.GetReplicas(job.uid);
      var launchers := if n == 0 then 0 else 1;
      var env, ignored := RewriteWorkers(job.mpi.env, n);
      var stop, create := n == 0, key !in mpiJobs;
      var restart, base := false, MPIJob(MPISpec(0, 0, []), []);
      if !create {
        base := mpiJobs[key];
      }
      if create && !stop {
        base := MPIJob(MPISpec(n, launchers, env), [Condition("Created", true)]);
        mpiJobs := mpiJobs[key := base];
      } else if stop && !create {
        mpiJobs := mpiJobs - {key};
      } else if !create {
        var baseEnv, changed := RewriteWorkers(base.mpi.env, n);
        restart := changed;
        base := base.(mpi := base.mpi.(workers := n, env := baseEnv));
        mpiJobs := mpiJobs[key := base];
      }
      if restart {
        DeleteLauncher(key.namespace, pods);
      }
      StatusIgnoresCount(n, base.conditions);
      var conditions := UpdateJobStatus(base.conditions, stop);
      jobs := jobs[key := job.(conditions := conditions)];
    }

    static method UpdateJobStatus(baseConditions: seq<Condition>, stop: bool) returns (conditions: seq<Condition>)
      ensures conditions == StatusOf(if stop then 0 else 1, baseConditions)
    {
      conditions := [];
      if stop {
        conditions := conditions + [Condition("Paused", true)];
      } else {
        if |baseConditions| == 0 {
          conditions := conditions + [Condition("Undefined", true)];
        }
        for i := 0 to |baseConditions|
          invariant baseConditions == [] ==> conditions == [Condition("Undefined", true)]
          invariant baseConditions != [] ==> |conditions| == i
          invariant forall k :: 0 <= k < i ==> conditions[k] == Condition(baseConditions[k].kind, true)
        {
          conditions := conditions + [Condition(baseConditions[i].kind, true)];
        }
      }
    }

    /** The loop over a launcher's environment for the size of its job. */
    static method ReadSize(env: seq<EnvVar>) returns (size: real)
      ensures size == WorkSize(env)
    {
      hide Atoi;
      var bodies, iterations := 0, 0;
      for i := 0 to |env|
        invariant bodies == LastValue(env[..i], "BODIES")
        invariant iterations == LastValue(env[..i], "ITERATIONS")
      {
        assert env[..i + 1][..i] == env[..i];
        if env[i].name == "BODIES" {
          bodies := Atoi(env[i].value);
        } else if env[i].name == "ITERATIONS" {
          iterations := Atoi(env[i].value);
        }
      }
      assert env[..|env|] == env;
      size := Wrap64(bodies * iterations) as real;
    }

    /** Schedule one job: plan it or move its cursor, and record the replicas in its specification. */
    method ScheduleJob(key: Key, job: ScalerJob, scaler: Scaler.CarbonScaler, files: map<string, seq<Row>>)
      returns (ghost events: seq<Event>)
      requires scaler.Valid() && Readable(scaler.State())
      requires Schedulable(scaler.Conf(), scaler.State(), job, files)
      modifies this`jobs, scaler`schedule, scaler`scheduleIndex
      ensures scaler.Valid() && Readable(scaler.State())
      ensures Path(scaler.Conf(), old(scaler.State()), events, scaler.State())
      ensures NoUpdate(events)
      ensures forall uid :: Ticks(events, uid) == if uid == job.uid then 1 else 0
      ensures forall i :: 0 <= i < |events| && events[i].Compute? ==> CallsFor(events[i], job, files)
      ensures forall k :: k in old(jobs) && k != key ==> k in jobs && jobs[k] == old(jobs)[k]
      ensures job.uid in scaler.schedule ==>
                jobs == old(jobs)[key := job.(mpi := job.mpi.(workers := Answer(scaler.State(), job.uid)))]
      ensures job.uid !in scaler.schedule ==> jobs == old(jobs)
      ensures job.uid in scaler.schedule && key in old(jobs) && old(jobs)[key] == job ==>
                State() == Apply(old(State()), Write(key, jobs[key].mpi))
    {
      hide Path, NoUpdate, Ticks, WorkSize, Finished, Planner.Plan, Planner.SortedFrom, Planner.InRange,
           Planner.Indexed;
      var size := ReadSize(job.mpi.env);
      ghost var st := scaler.State();
      var outcome, order := scaler.ComputeSchedule(job.uid, job.spec, size, files);
      ghost var e := Compute(job.uid, job.spec, WorkSize(job.mpi.env), files, order, outcome);
      events := [e];
      StepReadable(scaler.Conf(), st, e, scaler.State());
      CalledOnce(scaler.Conf(), st, e, scaler.State());
      if outcome != NoError {
        FailureChangesNothing(scaler.Conf(), st, e, scaler.State());
        return;
      }
      SuccessIsScheduled(scaler.Conf(), st, e, scaler.State());
      var replicas := scaler.GetReplicas(job.uid);
      ghost var get := Get(job.uid, replicas);
      ReadAfter(scaler.Conf(), st, e, scaler.State(), get);
      events := [e, get];
      jobs := jobs[key := job.(mpi := job.mpi.(workers := replicas))];
    }

    /** Schedule every unfinished job of the list, once each. */
    method ScheduleJobs(list: seq<Key>, scaler: Scaler.CarbonScaler, files: map<string, seq<Row>>)
      returns (ghost events: seq<Event>)
      requires scaler.Valid() && Readable(scaler.State())
      requires AllSchedulable(scaler.Conf(), scaler.State(), jobs, list, files)
      requires forall i, k :: 0 <= i < k < |list| ==> list[i] != list[k]
      modifies this`jobs, scaler`schedule, scaler`scheduleIndex
      ensures scaler.Valid() && Readable(scaler.State())
      ensures Path(scaler.Conf(), old(scaler.State()), events, scaler.State()) && NoUpdate(events)
      ensures forall uid :: Ticks(events, uid) == multiset(Unfinished(old(jobs), list))[uid]
      ensures CallsListed(events, old(jobs), list, files)
      ensures Recorded(old(jobs), jobs, list, |list|, scaler.State())
    {
      hide Path, Schedulable, Readable, Consistent, ScheduledOnce, Recorded, CallsListed, CallsFor, Finished, Alone;
      ghost var was, st, cfg := jobs, scaler.State(), scaler.Conf();
      events := [];
      NoneScheduled(cfg, st, was, list);
      NothingRecorded(was, list, st);
      NothingCalled(was, list, files);
      for i := 0 to |list|
        invariant scaler.Valid() && Readable(scaler.State())
        invariant forall k :: i <= k < |list| ==> list[k] in jobs && jobs[list[k]] == was[list[k]]
        invariant CallsListed(events, was, list, files)
        invariant Recorded(was, jobs, list, i, scaler.State())
        invariant ScheduledOnce(cfg, st, events, scaler.State(), was, list, i)
      {
        var job := jobs[list[i]];
        ghost var mid, before, added := scaler.State(), jobs, [];
        if !Finished(job) {
          RestSchedulable(cfg, st, events, mid, was, list, i, files);
          added := ScheduleJob(list[i], job, scaler, files);
          MoreCallsListed(events, added, was, list, i, files);
        } else {
          assert events + [] == events;
          EmptyPath(cfg, mid);
        }
        OneMoreRecorded(cfg, mid, added, scaler.State(), was, before, jobs, list, i);
        OneMoreScheduled(cfg, st, events, mid, added, scaler.State(), was, list, i);
        events := events + added;
      }
      AllScheduled(cfg, st, events, scaler.State(), was, list);
    }

    /** A push from the trace service: the status update, then one scheduling call per unfinished job. */
    method ServePush(status: CarbonStatus, list: seq<Key>, scaler: Scaler.CarbonScaler,
                     files: map<string, seq<Row>>)
      returns (ghost events: seq<Event>)
      requires scaler.Valid() && Readable(scaler.State())
      requires AllSchedulable(scaler.Conf(), scaler.State().(status := status), jobs, list, files)
      requires forall i, k :: 0 <= i < k < |list| ==> list[i] != list[k]
      modifies this`jobs, scaler
      ensures scaler.Valid() && Readable(scaler.State())
      ensures Path(scaler.Conf(), old(scaler.State()), events, scaler.State())
      ensures StartsWith(events, status)
      ensures forall uid :: Ticks(events, uid) == multiset(Unfinished(old(jobs), list))[uid]
      ensures CallsListed(events, old(jobs), list, files)
      ensures Recorded(old(jobs), jobs, list, |list|, scaler.State())
    {
      hide Recorded, CallsFor, Finished;
      ghost var st := scaler.State();
      scaler.UpdateCarbonStatus(status);
      ghost var mid := scaler.State();
      PathOne(scaler.Conf(), st, Update(status), mid);
      ghost var scheduled := ScheduleJobs(list, scaler, files);
      PathAppend(scaler.Conf(), st, [Update(status)], mid, scheduled, scaler.State());
      events := [Update(status)] + scheduled;
      assert events[1..] == scheduled;
    }
  }

  lemma StatusIgnoresCount(n: int, conditions: seq<Condition>)
    ensures StatusOf(n, conditions) == StatusOf(if n == 0 then 0 else 1, conditions)
  {
  }

  lemma PathOne(cfg: Config, st: ScalerState, e: Event, st': ScalerState)
    requires Transition(cfg, st, e, st')
    ensures Path(cfg, st, [e], st')
  {
    assert Path(cfg, st, [], st);
    PathSnoc(cfg, st, [], st, e, st');
    assert [] + [e] == [e];
  }

  /** A scheduling call alone. */
  lemma CalledOnce(cfg: Config, st: ScalerState, e: Event, st': ScalerState)
    requires Transition(cfg, st, e, st') && e.Compute?
    ensures Path(cfg, st, [e], st') && NoUpdate([e])
    ensures forall uid :: Ticks([e], uid) == if uid == e.uid then 1 else 0
  {
    hide Path, Transition;
    PathOne(cfg, st, e, st');
    assert [e] + [] == [e];
    forall uid ensures Ticks([e], uid) == if uid == e.uid then 1 else 0 { OneTick(e, [], uid); }
  }

  /** And followed by a read. */
  lemma ReadAfter(cfg: Config, st: ScalerState, e: Event, st': ScalerState, get: Event)
    requires Path(cfg, st, [e], st') && e.Compute? && get.Get? && Transition(cfg, st', get, st')
    ensures Path(cfg, st, [e, get], st') && NoUpdate([e, get])
    ensures forall uid :: Ticks([e, get], uid) == if uid == e.uid then 1 else 0
  {
    hide Path, Transition;
    PathSnoc(cfg, st, [e], st', get, st');
    assert [e] + [get] == [e, get];
    forall uid ensures Ticks([e, get], uid) == if uid == e.uid then 1 else 0 { OneTick(e, [get], uid); }
  }

  lemma SuccessIsScheduled(cfg: Config, st: ScalerState, e: Event, st': ScalerState)
    requires Transition(cfg, st, e, st') && e.Compute? && e.outcome == NoError
    ensures e.uid in st'.schedule
  {
    hide Planner.Plan, Planner.SortedFrom, Planner.InRange, Planner.WellFormed;
  }
}

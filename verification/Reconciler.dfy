/** The job controller of src/controllers/carbonscalermpijob_controller.go: every pass drives the MPI job
    of a job to the worker count the autoscaler's cursor gives. */
module Reconciler {
  import opened Decimal
  import opened Cursor

  /** Jobs are known by namespace and name. */
  datatype Key = Key(namespace: string, name: string)

  datatype Pod = Pod(namespace: string, name: string)

  datatype EnvVar = EnvVar(name: string, value: string)

  /** The parts of an MPI job specification the controller writes: replicas of the worker and of the
      launcher, and the environment of the launcher's first container. */
  datatype MPISpec = MPISpec(workers: int, launchers: int, env: seq<EnvVar>)

  /** A status condition, and whether its status is true. */
  datatype Condition = Condition(kind: string, holds: bool)

  /** A CarbonScalerMPIJob. */
  datatype ScalerJob = ScalerJob(uid: UID, spec: JobSpec, mpi: MPISpec, conditions: seq<Condition>)

  datatype MPIJob = MPIJob(mpi: MPISpec, conditions: seq<Condition>)

  /** The jobs, their MPI jobs, and the pods the controller has deleted so far. */
  datatype ClusterState = ClusterState(jobs: map<Key, ScalerJob>, mpiJobs: map<Key, MPIJob>, deleted: seq<Pod>)

  predicate Ends(kind: string) {
    kind == "Succeeded" || kind == "Failed"
  }

  predicate Finished(job: ScalerJob) {
    exists i :: 0 <= i < |job.conditions| && Ends(job.conditions[i].kind) && job.conditions[i].holds
  }

  /** A WORKERS variable that does not read as n. */
  predicate Stale(v: EnvVar, n: int) {
    v.name == "WORKERS" && Atoi(v.value) != n
  }

  function Rewritten(v: EnvVar, n: int): EnvVar {
    if Stale(v, n) then v.(value := Itoa(n)) else v
  }

  function WithWorkers(env: seq<EnvVar>, n: int): seq<EnvVar> {
    seq(|env|, i requires 0 <= i < |env| => Rewritten(env[i], n))
  }

  ghost predicate AnyStale(env: seq<EnvVar>, n: int) {
    exists i :: 0 <= i < |env| && Stale(env[i], n)
  }

  /** The status of a job: paused when stopped, and otherwise the kinds of its MPI job's conditions, all
      recorded as true. */
  function StatusOf(n: int, conditions: seq<Condition>): seq<Condition> {
    if n == 0 then [Condition("Paused", true)]
    else if conditions == [] then [Condition("Undefined", true)]
    else seq(|conditions|, i requires 0 <= i < |conditions| => Condition(conditions[i].kind, true))
  }

  predicate At(s: string, part: string, i: nat) {
    i + |part| <= |s| && s[i..i + |part|] == part
  }

  predicate Contains(s: string, part: string) {
    exists i :: 0 <= i <= |s| && At(s, part, i)
  }

  /** The pods a launcher restart deletes: every one in the namespace with "launcher" in its name. */
  predicate IsLauncher(p: Pod, namespace: string) {
    p.namespace == namespace && Contains(p.name, "launcher")
  }

  function Launchers(pods: seq<Pod>, namespace: string): seq<Pod> {
    if pods == [] then []
    else
      var last := |pods| - 1;
      Launchers(pods[..last], namespace) + if IsLauncher(pods[last], namespace) then [pods[last]] else []
  }

  /** The controller acts on a job that exists and has not finished. */
  predicate Active(cs: ClusterState, key: Key) {
    key in cs.jobs && !Finished(cs.jobs[key])
  }

  /** One pass on a job for the worker count n, with the pods there are. */
  ghost function Reconciled(cs: ClusterState, key: Key, n: int, pods: seq<Pod>): ClusterState {
    if !Active(cs, key) then cs
    else
      var job := cs.jobs[key];
      if key !in cs.mpiJobs then
        var base := MPIJob(MPISpec(n, 1, WithWorkers(job.mpi.env, n)), [Condition("Created", true)]);
        ClusterState(cs.jobs[key := job.(conditions := StatusOf(n, base.conditions))],
                     if n == 0 then cs.mpiJobs else cs.mpiJobs[key := base], cs.deleted)
      else
        var base := cs.mpiJobs[key];
        ClusterState(cs.jobs[key := job.(conditions := StatusOf(n, base.conditions))],
                     if n == 0 then cs.mpiJobs - {key}
                     else cs.mpiJobs[key := base.(mpi := base.mpi.(workers := n, env := WithWorkers(base.mpi.env, n)))],
                     if n != 0 && AnyStale(base.mpi.env, n) then cs.deleted + Launchers(pods, key.namespace)
                     else cs.deleted)
  }

  // ----- one pass -----

  /** The controller leaves a job alone exactly once a condition with true status says that it has
      succeeded or failed. */
  lemma ActiveIffNotEnded(cs: ClusterState, key: Key)
    ensures Active(cs, key)
       <==> key in cs.jobs && forall i :: 0 <= i < |cs.jobs[key].conditions| && cs.jobs[key].conditions[i].holds ==>
              cs.jobs[key].conditions[i].kind != "Succeeded" && cs.jobs[key].conditions[i].kind != "Failed"
  {
    if key in cs.jobs && Finished(cs.jobs[key]) {
      var conditions := cs.jobs[key].conditions;
      var i :| 0 <= i < |conditions| && Ends(conditions[i].kind) && conditions[i].holds;
    } else if key in cs.jobs {
      var conditions := cs.jobs[key].conditions;
      assert forall i :: 0 <= i < |conditions| && conditions[i].holds ==> !Ends(conditions[i].kind);
    }
  }

  /** Every WORKERS variable reads as n. */
  ghost predicate ReadsAs(env: seq<EnvVar>, n: int) {
    forall i :: 0 <= i < |env| && env[i].name == "WORKERS" ==> Atoi(env[i].value) == n
  }

  lemma ReadsUnlessStale(env: seq<EnvVar>, n: int)
    ensures ReadsAs(env, n) <==> !AnyStale(env, n)
  {
    hide Atoi;
    if !ReadsAs(env, n) {
      var i :| 0 <= i < |env| && env[i].name == "WORKERS" && Atoi(env[i].value) != n;
      assert Stale(env[i], n);
    }
  }

  /** The MPI job runs n workers and says so in every WORKERS variable; it exists only if n is not 0. */
  ghost predicate Converged(cs: ClusterState, key: Key, n: int) {
    && (key in cs.mpiJobs <==> n != 0)
    && (key in cs.mpiJobs ==> cs.mpiJobs[key].mpi.workers == n && ReadsAs(cs.mpiJobs[key].mpi.env, n))
  }

  lemma RewrittenIsFresh(env: seq<EnvVar>, n: int)
    requires IsInt64(n)
    ensures ReadsAs(WithWorkers(env, n), n)
    ensures ReadsAs(env, n) ==> !AnyStale(env, n) && WithWorkers(env, n) == env
  {
    RoundTrip(n);
    ReadsUnlessStale(env, n);
    ReadsUnlessStale(WithWorkers(env, n), n);
    if !AnyStale(env, n) {
      forall i | 0 <= i < |env| ensures WithWorkers(env, n)[i] == env[i] {
        assert !Stale(env[i], n);
      }
    }
  }

  /** One pass converges, whatever the cluster looked like, and leaves every other MPI job alone. */
  lemma PassConverges(cs: ClusterState, key: Key, n: int, pods: seq<Pod>)
    requires Active(cs, key) && IsInt64(n)
    ensures Converged(Reconciled(cs, key, n, pods), key, n)
    ensures forall other :: other != key ==>
              && (other in Reconciled(cs, key, n, pods).mpiJobs <==> other in cs.mpiJobs)
              && (other in cs.mpiJobs ==> Reconciled(cs, key, n, pods).mpiJobs[other] == cs.mpiJobs[other])
  {
    hide Finished, StatusOf, Launchers;
    RewrittenIsFresh(cs.jobs[key].mpi.env, n);
    if key in cs.mpiJobs {
      RewrittenIsFresh(cs.mpiJobs[key].mpi.env, n);
    }
  }

  /** A pass on a converged job changes no MPI job and deletes no pod. */
  lemma ConvergedIsStable(cs: ClusterState, key: Key, n: int, pods: seq<Pod>)
    requires Converged(cs, key, n) && IsInt64(n)
    ensures Reconciled(cs, key, n, pods).mpiJobs == cs.mpiJobs
    ensures Reconciled(cs, key, n, pods).deleted == cs.deleted
  {
    if key in cs.mpiJobs {
      RewrittenIsFresh(cs.mpiJobs[key].mpi.env, n);
    }
  }

  /** The environments name the same variables at the same places, and differ in WORKERS at most. */
  ghost predicate SameOthers(env: seq<EnvVar>, original: seq<EnvVar>) {
    && |env| == |original|
    && forall i :: 0 <= i < |env| ==>
         env[i].name == original[i].name && (original[i].name != "WORKERS" ==> env[i] == original[i])
  }

  /** What a pass keeps. A new MPI job has one launcher and the environment of its job, variable by
      variable, but for the count; one there is keeps its own, its launchers and its conditions. Every job
      keeps its UID and its specification, and the other jobs keep everything. */
  lemma PassKeeps(cs: ClusterState, key: Key, n: int, pods: seq<Pod>)
    requires Active(cs, key) && n != 0
    ensures var end := Reconciled(cs, key, n, pods);
      && key in end.mpiJobs
      && (key !in cs.mpiJobs ==>
            && SameOthers(end.mpiJobs[key].mpi.env, cs.jobs[key].mpi.env)
            && end.mpiJobs[key].mpi.launchers == 1 && end.mpiJobs[key].conditions == [Condition("Created", true)])
      && (key in cs.mpiJobs ==>
            && SameOthers(end.mpiJobs[key].mpi.env, cs.mpiJobs[key].mpi.env)
            && end.mpiJobs[key].mpi.launchers == cs.mpiJobs[key].mpi.launchers
            && end.mpiJobs[key].conditions == cs.mpiJobs[key].conditions)
  {
    hide Atoi, Itoa, Finished, StatusOf;
  }

  lemma PassKeepsJobs(cs: ClusterState, key: Key, n: int, pods: seq<Pod>)
    ensures var end := Reconciled(cs, key, n, pods);
      && end.jobs.Keys == cs.jobs.Keys
      && (forall k :: k in cs.jobs ==>
            && end.jobs[k].uid == cs.jobs[k].uid && end.jobs[k].spec == cs.jobs[k].spec
            && end.jobs[k].mpi == cs.jobs[k].mpi && (k != key ==> end.jobs[k] == cs.jobs[k]))
      && (!Active(cs, key) ==> end == cs)
  {
    hide Finished, StatusOf;
  }

  /** What a pass records of a job: paused if it is stopped, undefined if its MPI job has no conditions, and
      otherwise the kinds of all of those in their order; and every one as true. */
  ghost predicate Mirrors(conditions: seq<Condition>, n: int, seen: seq<Condition>) {
    if n == 0 then conditions == [Condition("Paused", true)]
    else if seen == [] then conditions == [Condition("Undefined", true)]
    else
      && |conditions| == |seen|
      && forall i :: 0 <= i < |seen| ==> conditions[i].kind == seen[i].kind && conditions[i].holds
  }

  /** The conditions of a job's MPI job, if it has one. */
  function ConditionsOf(cs: ClusterState, key: Key): seq<Condition> {
    if key in cs.mpiJobs then cs.mpiJobs[key].conditions else []
  }

  lemma StatusIsMirrored(cs: ClusterState, key: Key, n: int, pods: seq<Pod>)
    requires Active(cs, key)
    ensures var end := Reconciled(cs, key, n, pods);
      key in end.jobs && Mirrors(end.jobs[key].conditions, n, ConditionsOf(end, key))
  {
    hide Finished, WithWorkers, AnyStale, Launchers;
  }

  ghost predicate ReportsEnd(conditions: seq<Condition>) {
    exists i :: 0 <= i < |conditions| && (conditions[i].kind == "Succeeded" || conditions[i].kind == "Failed")
  }

  /** A running job finishes exactly when its MPI job has a condition Succeeded or Failed, whatever that
      condition's own status; then no pass touches it again. */
  lemma FinishIsMirrored(cs: ClusterState, key: Key, n: int, pods: seq<Pod>, later: int, laterPods: seq<Pod>)
    requires Active(cs, key)
    ensures var end := Reconciled(cs, key, n, pods);
      && (n == 0 ==> end.jobs[key].conditions == [Condition("Paused", true)])
      && (Finished(end.jobs[key]) <==> n != 0 && ReportsEnd(end.mpiJobs[key].conditions))
      && (Finished(end.jobs[key]) ==> Reconciled(end, key, later, laterPods) == end)
  {
    var end := Reconciled(cs, key, n, pods);
    StatusIsMirrored(cs, key, n, pods);
    ActiveIffNotEnded(end, key);
    hide StatusOf, WithWorkers, AnyStale, Launchers;
    if n != 0 && ReportsEnd(end.mpiJobs[key].conditions) {
      var seen, conditions := end.mpiJobs[key].conditions, end.jobs[key].conditions;
      var i :| 0 <= i < |seen| && (seen[i].kind == "Succeeded" || seen[i].kind == "Failed");
      assert conditions[i].holds && conditions[i].kind == seen[i].kind;
    }
  }

  // ----- runs over many jobs -----

  /** What happens to the cluster: the controller makes a pass, the MPI controller reports a status, a job's
      specification is written, as scheduling does on every push, or a job is created or removed. */
  datatype ClusterEvent =
    | Pass(key: Key, n: int, pods: seq<Pod>)
    | Report(key: Key, conditions: seq<Condition>)
    | Write(key: Key, mpi: MPISpec)
    | Create(key: Key, job: ScalerJob)
    | Remove(key: Key)

  /** A job owns its MPI job, so the two are removed together. */
  ghost function Apply(cs: ClusterState, e: ClusterEvent): ClusterState {
    match e
    case Pass(key, n, pods) => Reconciled(cs, key, n, pods)
    case Report(key, conditions) =>
      if key in cs.mpiJobs
      then cs.(mpiJobs := cs.mpiJobs[key := cs.mpiJobs[key].(conditions := conditions)])
      else cs
    case Write(key, mpi) =>
      if key in cs.jobs then cs.(jobs := cs.jobs[key := cs.jobs[key].(mpi := mpi)]) else cs
    case Create(key, job) =>
      if key in cs.jobs then cs else cs.(jobs := cs.jobs[key := job])
    case Remove(key) =>
      cs.(jobs := cs.jobs - {key}, mpiJobs := cs.mpiJobs - {key})
  }

  ghost function After(cs: ClusterState, events: seq<ClusterEvent>): ClusterState {
    if events == [] then cs else Apply(After(cs, events[..|events| - 1]), events[|events| - 1])
  }

  /** The worker count of the last pass that acted on the job, or 0 before any did since it was created. */
  ghost function LastCount(cs: ClusterState, events: seq<ClusterEvent>, key: Key): int {
    if events == [] then 0
    else
      var front, e := events[..|events| - 1], events[|events| - 1];
      if e.key != key then LastCount(cs, front, key)
      else if e.Pass? && Active(After(cs, front), key) then e.n
      else if e.Remove? then 0
      else LastCount(cs, front, key)
  }

  ghost predicate NamesWorkers(env: seq<EnvVar>) {
    exists i :: 0 <= i < |env| && env[i].name == "WORKERS"
  }

  ghost predicate TellsWorkers(cs: ClusterState, key: Key) {
    key in cs.mpiJobs && NamesWorkers(cs.mpiJobs[key].mpi.env)
  }

  /** The pass e keeps its job running at another worker count, and its launcher is told the count. */
  ghost predicate Rescales(cs: ClusterState, front: seq<ClusterEvent>, e: ClusterEvent)
  {
    && e.Pass? && Active(After(cs, front), e.key)
    && LastCount(cs, front, e.key) != 0 && e.n != 0 && LastCount(cs, front, e.key) != e.n
    && TellsWorkers(After(cs, front), e.key)
  }

  /** How often a run deletes the pod: once per rescaling pass of any job in the pod's namespace, while
      the pod is there and has "launcher" in its name. */
  ghost function Deletions(cs: ClusterState, events: seq<ClusterEvent>, p: Pod): nat {
    if events == [] then 0
    else
      var front, e := events[..|events| - 1], events[|events| - 1];
      Deletions(cs, front, p)
      + if Rescales(cs, front, e) && IsLauncher(p, e.key.namespace) then multiset(e.pods)[p] else 0
  }

  /** Each MPI job has its job, and one launcher. */
  ghost predicate Made(cs: ClusterState, key: Key) {
    key in cs.mpiJobs ==> key in cs.jobs && cs.mpiJobs[key].mpi.launchers == 1
  }

  lemma ApplyKeepsMade(cs: ClusterState, e: ClusterEvent, key: Key)
    requires Made(cs, key)
    ensures Made(Apply(cs, e), key)
  {
    hide Finished, StatusOf, Launchers, AnyStale, WithWorkers;
  }

  /** The count a job's MPI job has after the event. */
  ghost function CountAfter(cs: ClusterState, e: ClusterEvent, key: Key, was: int): int {
    if e.key != key then was
    else if e.Pass? && Active(cs, key) then e.n
    else if e.Remove? then 0
    else was
  }

  lemma ApplyConverges(cs: ClusterState, e: ClusterEvent, key: Key, was: int)
    requires Converged(cs, key, was) && (e.Pass? ==> IsInt64(e.n))
    ensures Converged(Apply(cs, e), key, CountAfter(cs, e, key, was))
  {
    hide AnyStale, WithWorkers, Launchers, StatusOf, Active;
    if e.Pass? && Active(cs, e.key) {
      PassConverges(cs, e.key, e.n, e.pods);
    }
  }

  /** An MPI job that reads as `was` has a stale variable for another count exactly if it has one at all. */
  lemma StaleIffRescaled(env: seq<EnvVar>, was: int, now: int)
    requires ReadsAs(env, was)
    ensures AnyStale(env, now) <==> was != now && NamesWorkers(env)
  {
    ReadsUnlessStale(env, was);
    if NamesWorkers(env) {
      var i :| 0 <= i < |env| && env[i].name == "WORKERS";
      assert !Stale(env[i], was);
      assert was != now ==> Stale(env[i], now);
    }
    if AnyStale(env, now) {
      var i :| 0 <= i < |env| && Stale(env[i], now);
      assert !Stale(env[i], was);
    }
  }

  lemma {:induction false} LaunchersCount(pods: seq<Pod>, namespace: string, p: Pod)
    ensures multiset(Launchers(pods, namespace))[p] == if IsLauncher(p, namespace) then multiset(pods)[p] else 0
  {
    hide IsLauncher;
    if pods != [] {
      var last := |pods| - 1;
      LaunchersCount(pods[..last], namespace, p);
      assert pods == pods[..last] + [pods[last]];
    }
  }

  lemma ApplyDeletes(cs: ClusterState, e: ClusterEvent, was: int, p: Pod)
    requires e.Pass? ==> Converged(cs, e.key, was)
    ensures multiset(Apply(cs, e).deleted)[p] == multiset(cs.deleted)[p]
      + if e.Pass? && Active(cs, e.key) && was != 0 && e.n != 0 && was != e.n
           && TellsWorkers(cs, e.key) && IsLauncher(p, e.key.namespace)
        then multiset(e.pods)[p] else 0
  {
    hide Finished, StatusOf, NamesWorkers, IsLauncher, Launchers, AnyStale, WithWorkers;
    if e.Pass? && e.key in cs.mpiJobs {
      StaleIffRescaled(cs.mpiJobs[e.key].mpi.env, was, e.n);
      LaunchersCount(e.pods, e.key.namespace, p);
    }
  }

  /** Over any run on any number of jobs, every MPI job matches the last pass that acted on its job since
      that was created: skipped, repeated and paused passes of it, passes on other jobs, status reports,
      and writes to the job's specification make no difference. */
  lemma {:induction false} RunConverges(cs: ClusterState, events: seq<ClusterEvent>, key: Key)
    requires cs.mpiJobs == map[] && forall i :: 0 <= i < |events| && events[i].Pass? ==> IsInt64(events[i].n)
    ensures Converged(After(cs, events), key, LastCount(cs, events, key))
    ensures Made(After(cs, events), key)
  {
    hide Converged, Made, Apply, Active;
    if events == [] {
      NothingMade(cs, key);
    } else {
      var front, e := events[..|events| - 1], events[|events| - 1];
      RunConverges(cs, front, key);
      ApplyConverges(After(cs, front), e, key, LastCount(cs, front, key));
      ApplyKeepsMade(After(cs, front), e, key);
    }
  }

  // ----- what a run keeps of an MPI job and records of a job -----

  /** The environment of the job at the pass that created its present MPI job. */
  ghost function CreatedEnv(cs: ClusterState, events: seq<ClusterEvent>, key: Key): seq<EnvVar> {
    if events == [] then []
    else
      var front, e := events[..|events| - 1], events[|events| - 1];
      var before := After(cs, front);
      if e.Pass? && e.key == key && e.n != 0 && Active(before, key) && key !in before.mpiJobs
      then before.jobs[key].mpi.env
      else CreatedEnv(cs, front, key)
  }

  lemma SameOthersTransitive(a: seq<EnvVar>, b: seq<EnvVar>, c: seq<EnvVar>)
    requires SameOthers(a, b) && SameOthers(b, c)
    ensures SameOthers(a, c)
  {
  }

  /** Over any run, whatever is written to the job in the meantime, an MPI job has the variables of its job
      at the pass that created it, but for the count. */
  lemma {:induction false} RunKeepsVariables(cs: ClusterState, events: seq<ClusterEvent>, key: Key)
    requires cs.mpiJobs == map[]
    ensures key in After(cs, events).mpiJobs ==>
              SameOthers(After(cs, events).mpiJobs[key].mpi.env, CreatedEnv(cs, events, key))
  {
    hide SameOthers, Active, Reconciled;
    if events != [] {
      var front, e := events[..|events| - 1], events[|events| - 1];
      RunKeepsVariables(cs, front, key);
      var before := After(cs, front);
      if e.Pass? && e.key == key && e.n != 0 && Active(before, key) {
        PassKeeps(before, key, e.n, e.pods);
        if key in before.mpiJobs {
          SameOthersTransitive(After(cs, events).mpiJobs[key].mpi.env, before.mpiJobs[key].mpi.env,
                               CreatedEnv(cs, front, key));
        }
      } else {
        OnlyPassesWrite(before, e, key);
      }
    }
  }

  /** Nothing but a pass that acts on it for some workers changes or makes an MPI job's specification. */
  lemma OnlyPassesWrite(cs: ClusterState, e: ClusterEvent, key: Key)
    requires !(e.Pass? && e.key == key && e.n != 0 && Active(cs, key))
    ensures key in Apply(cs, e).mpiJobs ==> key in cs.mpiJobs && Apply(cs, e).mpiJobs[key].mpi == cs.mpiJobs[key].mpi
  {
    hide Finished, StatusOf, WithWorkers, AnyStale, Launchers;
  }

  /** The worker count and the MPI job's conditions at the last pass that acted on the job. */
  datatype Seen = Unseen | Seen(n: int, conditions: seq<Condition>)

  ghost function LastSeen(cs: ClusterState, events: seq<ClusterEvent>, key: Key): Seen {
    if events == [] then Unseen
    else
      var front, e := events[..|events| - 1], events[|events| - 1];
      if e.key != key then LastSeen(cs, front, key)
      else if e.Pass? && Active(After(cs, front), key) then Seen(e.n, ConditionsOf(After(cs, events), key))
      else if e.Remove? then Unseen
      else LastSeen(cs, front, key)
  }

  /** Over any run, a job's conditions are those its MPI job had at the last pass that acted on it, mirrored:
      skipped passes, passes on other jobs, later reports and writes make no difference. */
  lemma {:induction false} RunMirrors(cs: ClusterState, events: seq<ClusterEvent>, key: Key)
    ensures LastSeen(cs, events, key).Seen? ==>
              && key in After(cs, events).jobs
              && var seen := LastSeen(cs, events, key);
                 Mirrors(After(cs, events).jobs[key].conditions, seen.n, seen.conditions)
  {
    hide Mirrors, Active, Reconciled, ConditionsOf;
    if events != [] {
      var front, e := events[..|events| - 1], events[|events| - 1];
      RunMirrors(cs, front, key);
      if e.Pass? && e.key == key && Active(After(cs, front), key) {
        StatusIsMirrored(After(cs, front), key, e.n, e.pods);
      } else if !(e.Remove? && e.key == key) {
        ConditionsStay(After(cs, front), e, key);
      }
    }
  }

  lemma ConditionsStay(cs: ClusterState, e: ClusterEvent, key: Key)
    requires !(e.Pass? && e.key == key && Active(cs, key)) && !(e.Remove? && e.key == key)
    ensures key in cs.jobs ==> key in Apply(cs, e).jobs && Apply(cs, e).jobs[key].conditions == cs.jobs[key].conditions
  {
    hide Finished, StatusOf;
  }

  lemma NothingMade(cs: ClusterState, key: Key)
    requires cs.mpiJobs == map[]
    ensures Converged(cs, key, 0) && Made(cs, key)
  {
  }

  /** And a pod is deleted exactly as often as jobs of its namespace rescale while it is there with
      "launcher" in its name. A job's launcher restarts for its own rescalings, and for those of every
      other job in its namespace. */
  lemma {:induction false} RunDeletes(cs: ClusterState, events: seq<ClusterEvent>, p: Pod)
    requires cs.mpiJobs == map[] && forall i :: 0 <= i < |events| && events[i].Pass? ==> IsInt64(events[i].n)
    ensures multiset(After(cs, events).deleted)[p] == multiset(cs.deleted)[p] + Deletions(cs, events, p)
  {
    hide Converged, Made, Apply, Active, IsLauncher, NamesWorkers;
    if events != [] {
      var front, e := events[..|events| - 1], events[|events| - 1];
      RunDeletes(cs, front, p);
      RunConverges(cs, front, e.key);
      ApplyDeletes(After(cs, front), e, LastCount(cs, front, e.key), p);
    }
  }

  // ----- which pods a run deletes -----

  /** Somewhere in the name stands "launcher". */
  ghost predicate NamedLauncher(name: string) {
    exists i, j :: 0 <= i && j == i + 8 && j <= |name| && name[i..j] == "launcher"
  }

  lemma LauncherIffNamed(p: Pod, namespace: string)
    ensures IsLauncher(p, namespace) <==> p.namespace == namespace && NamedLauncher(p.name)
  {
    if NamedLauncher(p.name) {
      var i, j :| 0 <= i && j == i + 8 && j <= |p.name| && p.name[i..j] == "launcher";
      assert At(p.name, "launcher", i);
    }
    if Contains(p.name, "launcher") {
      var i: nat :| i <= |p.name| && At(p.name, "launcher", i);
      assert p.name[i..i + 8] == "launcher";
    }
  }

  /** No run deletes a pod without "launcher" in its name. */
  lemma {:induction false} OthersSurvive(cs: ClusterState, events: seq<ClusterEvent>, p: Pod)
    requires !NamedLauncher(p.name)
    ensures multiset(After(cs, events).deleted)[p] == multiset(cs.deleted)[p]
  {
    hide IsLauncher, NamedLauncher, Reconciled;
    if events != [] {
      var front, e := events[..|events| - 1], events[|events| - 1];
      OthersSurvive(cs, front, p);
      if e.Pass? {
        LauncherIffNamed(p, e.key.namespace);
        PassDeletes(After(cs, front), e.key, e.n, e.pods, p);
      }
    }
  }

  /** A pass deletes either nothing, or every pod there of the namespace with "launcher" in its name. */
  lemma PassDeletes(cs: ClusterState, key: Key, n: int, pods: seq<Pod>, p: Pod)
    ensures var end := Reconciled(cs, key, n, pods);
      || end.deleted == cs.deleted
      || multiset(end.deleted)[p] == multiset(cs.deleted)[p]
           + if IsLauncher(p, key.namespace) then multiset(pods)[p] else 0
  {
    hide Finished, StatusOf, IsLauncher, Launchers, AnyStale, WithWorkers;
    LaunchersCount(pods, key.namespace, p);
  }

  /** And a pass that rescales a job deletes each pod of its namespace that is there with "launcher" in its
      name. */
  lemma RescalingDeletes(cs: ClusterState, events: seq<ClusterEvent>, e: ClusterEvent, p: Pod)
    requires cs.mpiJobs == map[] && forall i :: 0 <= i < |events| && events[i].Pass? ==> IsInt64(events[i].n)
    requires Rescales(cs, events, e) && IsInt64(e.n)
    requires p in e.pods && p.namespace == e.key.namespace && NamedLauncher(p.name)
    ensures multiset(After(cs, events + [e]).deleted)[p] > multiset(After(cs, events).deleted)[p]
  {
    assert e.Pass?;
    hide After, IsLauncher, NamedLauncher, Rescales;
    assert (events + [e])[..|events|] == events;
    RunDeletes(cs, events, p);
    RunDeletes(cs, events + [e], p);
    LauncherIffNamed(p, e.key.namespace);
    assert multiset(e.pods)[p] > 0;
  }

  /** A worker pod of a job. */
  function WorkerPod(key: Key, i: nat): Pod {
    Pod(key.namespace, key.name + "-worker-" + Digits(i))
  }

  lemma LauncherIsBefore(a: string, d: string, i: nat)
    requires forall k :: 0 <= k < |d| ==> '0' <= d[k] <= '9'
    requires i + 8 <= |a + "-worker-" + d| && (a + "-worker-" + d)[i..i + 8] == "launcher"
    ensures i + 8 <= |a| && a[i..i + 8] == "launcher"
  {
    var name, n, word := a + "-worker-" + d, |a|, "launcher";
    assert forall k :: 0 <= k < 8 ==> 'a' <= word[k];
    forall p | i <= p < i + 8 ensures 'a' <= name[p] {
      assert name[i..i + 8][p - i] == word[p - i];
    }
    assert name[n] == '-' && name[n + 7] == '-';
    assert forall p :: n + 8 <= p < |name| ==> name[p] == d[p - n - 8] <= '9';
    assert 'a' <= name[i];
    assert !(i <= n < i + 8) && !(i <= n + 7 < i + 8) && !(n + 8 <= i < i + 8);
    assert a[i..i + 8] == name[i..i + 8];
  }

  /** Its name has "launcher" only where the job's name has. */
  lemma WorkerIsNamedAsJob(key: Key, w: nat)
    requires NamedLauncher(WorkerPod(key, w).name)
    ensures NamedLauncher(key.name)
  {
    var name := WorkerPod(key, w).name;
    var i, j :| 0 <= i && j == i + 8 && j <= |name| && name[i..j] == "launcher";
    LauncherIsBefore(key.name, Digits(w), i);
    assert key.name[i..j] == "launcher";
  }

  /** So the worker pods of a job without "launcher" in its name are never deleted. */
  lemma WorkersSurvive(cs: ClusterState, events: seq<ClusterEvent>, key: Key, w: nat)
    requires !NamedLauncher(key.name)
    ensures multiset(After(cs, events).deleted)[WorkerPod(key, w)] == multiset(cs.deleted)[WorkerPod(key, w)]
  {
    hide NamedLauncher, WorkerPod, After;
    if NamedLauncher(WorkerPod(key, w).name) {
      WorkerIsNamedAsJob(key, w);
    }
    OthersSurvive(cs, events, WorkerPod(key, w));
  }

  // ----- whose rescaling deletes a launcher -----

  /** The launcher pod of a job. */
  function LauncherPod(key: Key): Pod {
    Pod(key.namespace, key.name + "-launcher")
  }

  /** How often the job's own rescalings delete its launcher pod. */
  ghost function OwnDeletions(cs: ClusterState, events: seq<ClusterEvent>, key: Key): nat {
    if events == [] then 0
    else
      var front, e := events[..|events| - 1], events[|events| - 1];
      OwnDeletions(cs, front, key)
      + if Rescales(cs, front, e) && e.key == key then multiset(e.pods)[LauncherPod(key)] else 0
  }

  /** Event i rescales another job of the same namespace while the job's launcher pod is there. */
  ghost predicate Disturbs(cs: ClusterState, events: seq<ClusterEvent>, i: int, key: Key)
    requires 0 <= i < |events|
  {
    var e := events[i];
    && Rescales(cs, events[..i], e)
    && e.key != key && e.key.namespace == key.namespace && LauncherPod(key) in e.pods
  }

  lemma LauncherIsLauncher(key: Key, namespace: string)
    ensures IsLauncher(LauncherPod(key), namespace) <==> namespace == key.namespace
  {
    assert At(LauncherPod(key).name, "launcher", |key.name| + 1);
  }

  /** A job's launcher is deleted for the job's own rescalings, and besides exactly if one of another job
      of its namespace disturbs it. */
  lemma {:induction false} OwnOrDisturbed(cs: ClusterState, events: seq<ClusterEvent>, key: Key)
    ensures Deletions(cs, events, LauncherPod(key)) >= OwnDeletions(cs, events, key)
    ensures Deletions(cs, events, LauncherPod(key)) == OwnDeletions(cs, events, key)
       <==> forall i :: 0 <= i < |events| ==> !Disturbs(cs, events, i, key)
  {
    hide LauncherPod, IsLauncher, After, LastCount, TellsWorkers;
    if events != [] {
      var last := |events| - 1;
      var front, e := events[..last], events[last];
      OwnOrDisturbed(cs, front, key);
      LauncherIsLauncher(key, e.key.namespace);
      forall i | 0 <= i < last ensures Disturbs(cs, events, i, key) <==> Disturbs(cs, front, i, key) {
        assert front[..i] == events[..i];
      }
      assert Disturbs(cs, events, last, key)
        <==> e.Pass? && Rescales(cs, front, e) && e.key != key && e.key.namespace == key.namespace
             && multiset(e.pods)[LauncherPod(key)] > 0;
    }
  }

  /** Over any run, a job's launcher has been deleted for the job's own rescalings only, exactly when no
      other job of its namespace was rescaled while the launcher was there. */
  lemma UndisturbedIffAlone(cs: ClusterState, events: seq<ClusterEvent>, key: Key)
    requires cs.mpiJobs == map[] && forall i :: 0 <= i < |events| && events[i].Pass? ==> IsInt64(events[i].n)
    ensures var launcher := LauncherPod(key);
      multiset(After(cs, events).deleted)[launcher] == multiset(cs.deleted)[launcher] + OwnDeletions(cs, events, key)
      <==> forall i :: 0 <= i < |events| ==> !Disturbs(cs, events, i, key)
  {
    hide After, Deletions, OwnDeletions, Disturbs, LauncherPod;
    RunDeletes(cs, events, LauncherPod(key));
    OwnOrDisturbed(cs, events, key);
  }

  // ----- a job disturbed by its neighbour -----

  const LEFT := Key("default", "left")
  const RIGHT := Key("default", "right")
  const NBODY := ScalerJob("u", JobSpec(1, 2, 4, 0, "nbody"), MPISpec(1, 1, [EnvVar("WORKERS", "1")]), [])
  const TWO_JOBS := ClusterState(map[LEFT := NBODY, RIGHT := NBODY.(uid := "v")], map[], [])
  const BOTH_LAUNCHERS := [LauncherPod(LEFT), LauncherPod(RIGHT)]

  /** A pass that starts a job leaves it active, with a launcher that is told the count if the job is. */
  lemma Started(cs: ClusterState, key: Key, n: int, pods: seq<Pod>)
    requires Active(cs, key) && key !in cs.mpiJobs && n != 0
    ensures var end := Reconciled(cs, key, n, pods);
      && Active(end, key) && (TellsWorkers(end, key) <==> NamesWorkers(cs.jobs[key].mpi.env))
      && end.jobs.Keys == cs.jobs.Keys && end.mpiJobs.Keys == cs.mpiJobs.Keys + {key}
      && (forall k :: k in cs.jobs && k != key ==> end.jobs[k] == cs.jobs[k])
      && (forall k :: k in cs.mpiJobs ==> end.mpiJobs[k] == cs.mpiJobs[k])
  {
    RewriteKeepsNames(cs.jobs[key].mpi.env, n);
    assert Reconciled(cs, key, n, pods).jobs[key].conditions[0].kind == "Created";
  }

  lemma RewriteKeepsNames(env: seq<EnvVar>, n: int)
    ensures NamesWorkers(WithWorkers(env, n)) <==> NamesWorkers(env)
  {
    assert forall i :: 0 <= i < |env| ==> WithWorkers(env, n)[i].name == env[i].name;
  }

  lemma BothStarted(events: seq<ClusterEvent>)
    requires events == [Pass(LEFT, 1, []), Pass(RIGHT, 1, [])]
    ensures Active(After(TWO_JOBS, events), LEFT) && TellsWorkers(After(TWO_JOBS, events), LEFT)
    ensures LastCount(TWO_JOBS, events, LEFT) == 1
  {
    hide Finished, Reconciled, NamesWorkers;
    var one := events[..1];
    assert one == [Pass(LEFT, 1, [])] && one[..0] == [];
    assert After(TWO_JOBS, []) == TWO_JOBS;
    NewJobs();
    Started(TWO_JOBS, LEFT, 1, []);
    assert After(TWO_JOBS, one) == Reconciled(TWO_JOBS, LEFT, 1, []);
    assert LEFT != RIGHT;
    Started(After(TWO_JOBS, one), RIGHT, 1, []);
    assert LastCount(TWO_JOBS, one, LEFT) == 1;
  }

  lemma NewJobs()
    ensures Active(TWO_JOBS, LEFT) && Active(TWO_JOBS, RIGHT) && NamesWorkers(NBODY.mpi.env)
  {
    assert NBODY.mpi.env[0].name == "WORKERS";
  }

  /** Both jobs are started with one worker, and then the left one gets a second: the right one's launcher
      is deleted, though its own count never changes. */
  lemma NeighbourIsDisturbed() returns (events: seq<ClusterEvent>)
    ensures events == [Pass(LEFT, 1, []), Pass(RIGHT, 1, []), Pass(LEFT, 2, BOTH_LAUNCHERS)]
    ensures OwnDeletions(TWO_JOBS, events, RIGHT) == 0
    ensures multiset(After(TWO_JOBS, events).deleted)[LauncherPod(RIGHT)] > 0
  {
    hide After, LastCount, Active, TellsWorkers, Deletions;
    events := [Pass(LEFT, 1, []), Pass(RIGHT, 1, []), Pass(LEFT, 2, BOTH_LAUNCHERS)];
    assert events[..2] == [Pass(LEFT, 1, []), Pass(RIGHT, 1, [])];
    BothStarted(events[..2]);
    OneOwn(events);
    assert BOTH_LAUNCHERS[1] == LauncherPod(RIGHT);
    assert RIGHT.namespace == LEFT.namespace && LauncherPod(RIGHT) in events[2].pods;
    assert Disturbs(TWO_JOBS, events, 2, RIGHT);
    UndisturbedIffAlone(TWO_JOBS, events, RIGHT);
    RunDeletes(TWO_JOBS, events, LauncherPod(RIGHT));
  }

  lemma OneOwn(events: seq<ClusterEvent>)
    requires events == [Pass(LEFT, 1, []), Pass(RIGHT, 1, []), Pass(LEFT, 2, BOTH_LAUNCHERS)]
    ensures OwnDeletions(TWO_JOBS, events, RIGHT) == 0
  {
    hide Rescales;
    assert events[..2][..1] == events[..1] && events[..1][..0] == [];
    assert OwnDeletions(TWO_JOBS, events[..1], RIGHT) == 0;
    assert OwnDeletions(TWO_JOBS, events[..2], RIGHT) == 0;
  }
}

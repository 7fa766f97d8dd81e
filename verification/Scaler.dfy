/** The CarbonScaler object: its methods, each proved to make the call of the state machine. */
module Scaler {
  import opened Common
  import opened Profiles
  import opened Planner
  import opened PlannerLoop
  import opened Cursor

  class CarbonScaler {
    var carbonStatus: CarbonStatus
    const clusterSize: int
    var scheduleIndex: map<UID, int>
    var schedule: map<UID, seq<int>>
    const timeSlot: int

    ghost function State(): ScalerState
      reads this
    {
      ScalerState(carbonStatus, schedule, scheduleIndex)
    }

    ghost function Conf(): Config {
      Config(timeSlot, clusterSize)
    }

    ghost predicate Valid()
      reads this
    {
      Consistent(State())
    }

    constructor (timeSlot: int, clusterSize: int)
      ensures Valid() && Conf() == Config(timeSlot, clusterSize)
      ensures State() == ScalerState(CarbonStatus(0.0, []), map[], map[])
    {
      this.timeSlot, this.clusterSize := timeSlot, clusterSize;
      carbonStatus, schedule, scheduleIndex := CarbonStatus(0.0, []), map[], map[];
    }

    method UpdateCarbonStatus(status: CarbonStatus)
      requires Valid()
      modifies this`carbonStatus
      ensures Valid() && Transition(Conf(), old(State()), Update(status), State())
    {
      carbonStatus := status;
    }

    method GetReplicas(uid: UID) returns (replicas: int)
      requires Valid() && (uid in schedule ==> schedule[uid] != [])
      ensures Transition(Conf(), State(), Get(uid, replicas), State())
    {
      if uid in schedule {
        var index := scheduleIndex[uid];
        return schedule[uid][index];
      }
      return 0;
    }

    method ComputeSchedule(uid: UID, spec: JobSpec, workSize: real, files: map<string, seq<Row>>)
      returns (outcome: Outcome, ghost order: seq<Candidate>)
      requires Valid() && Callable(Conf(), State(), uid, spec, files)
      modifies this`schedule, this`scheduleIndex
      ensures Valid()
      ensures Transition(Conf(), old(State()), Compute(uid, spec, workSize, files, order, outcome), State())
    {
      order := [];
      if uid in schedule {
        if scheduleIndex[uid] + 1 < |schedule[uid]| {
          scheduleIndex := scheduleIndex[uid := scheduleIndex[uid] + 1];
        } else {
          schedule := schedule[uid := [spec.minReplicas]];
          scheduleIndex := scheduleIndex[uid := 0];
        }
        return NoError, order;
      }
      if spec.profileName !in files {
        return ProfileNotFound, order;
      }
      var profile := LoadProfile(files[spec.profileName]);
      var maxNodes := Min(clusterSize, spec.maxReplicas);
      var ps := Params(profile, spec.minReplicas, maxNodes, carbonStatus.prediction,
                       spec.deadLine, timeSlot as real);
      var target := RemainingWork(spec.progress, workSize);
      hide Plan, SortedFrom, InRange, Indexed;
      var plan := ComputePlan(ps, target);
      order :| SortedFrom(ps, order) && InRange(order, ps.slots) && plan == Plan(ps, order, target);
      if plan == None {
        return DeadlineTooTight, order;
      }
      schedule := schedule[uid := plan.value];
      scheduleIndex := scheduleIndex[uid := 0];
      outcome := NoError;
    }
  }
}

/** The carbon trace service of carbon_service/carbon_service.py: a circular trace, an index that each
    update interval advances or a client resets, a forecast and a percentile. */
module CarbonService {
  import opened Common

  // ----- windows of the trace -----

  /** The forecast: the window from the index on, continued at the start of the trace. Slices stop at
      the end of the trace. */
  function Predict(trace: seq<real>, idx: nat, window: nat): seq<real>
    requires idx < |trace|
  {
    if idx + window <= |trace| then trace[idx..idx + window]
    else
      var remaining := idx + window - |trace|;
      trace[idx..] + trace[..Min(remaining, |trace|)]
  }

  /** The window the percentile ranks against: the entries before the index, preceded by the end of the
      trace when there are not enough of them. */
  function Past(trace: seq<real>, idx: nat, window: nat): seq<real>
    requires idx < |trace|
  {
    if idx >= window then trace[idx - window..idx]
    else
      var offset := window - idx;
      trace[|trace| - Min(offset, |trace|)..] + trace[..idx]
  }

  function CountAtMost(s: seq<real>, x: real): (c: nat)
    ensures c <= |s|
  {
    if s == [] then 0
    else CountAtMost(s[..|s| - 1], x) + if s[|s| - 1] <= x then 1 else 0
  }

  /** The share of the past window that is at most the current intensity. */
  function Percentile(trace: seq<real>, idx: nat, window: nat): real
    requires idx < |trace| && window > 0
  {
    CountAtMost(Past(trace, idx, window), trace[idx]) as real / |Past(trace, idx, window)| as real
  }

  /** Entry k of the forecast is the trace k steps ahead, around the circle; the forecast reaches at
      most the end of the second lap. */
  lemma PredictIsCircular(trace: seq<real>, idx: nat, window: nat)
    requires idx < |trace|
    ensures |Predict(trace, idx, window)| == Min(window, 2 * |trace| - idx)
    ensures forall k :: 0 <= k < |Predict(trace, idx, window)| ==>
              Predict(trace, idx, window)[k] == trace[(idx + k) % |trace|]
  {
    var n := |trace|;
    forall k | 0 <= k < |Predict(trace, idx, window)|
      ensures Predict(trace, idx, window)[k] == trace[(idx + k) % n]
    {
      Around(idx + k, n);
    }
  }

  lemma Around(i: nat, n: nat)
    requires 0 < n && i < 2 * n
    ensures i % n == if i < n then i else i - n
  {
    if i >= n {
      assert i == 1 * n + (i - n);
      Remainder(1, i - n, n);
    }
  }

  lemma Remainder(q: int, r: int, n: nat)
    requires 0 <= r < n
    ensures (q * n + r) % n == r
  {
    var i := q * n + r;
    assert i == n * (i / n) + i % n;
    var d := i / n - q;
    assert n * d == r - i % n;
    assert d >= 1 ==> n * d >= n;
    assert d <= -1 ==> n * d + n <= 0;
  }

  /** Advancing the index by one shifts the forecast left by one. */
  lemma PredictShifts(trace: seq<real>, idx: nat, window: nat, k: nat)
    requires idx < |trace|
    requires k + 1 < |Predict(trace, idx, window)|
    requires k < |Predict(trace, (idx + 1) % |trace|, window)|
    ensures Predict(trace, (idx + 1) % |trace|, window)[k] == Predict(trace, idx, window)[k + 1]
  {
    hide Predict;
    var n := |trace|;
    var next := (idx + 1) % n;
    PredictIsCircular(trace, idx, window);
    PredictIsCircular(trace, next, window);
    SumRemainder(idx + 1, k, n);
    assert Predict(trace, next, window)[k] == trace[(next + k) % n];
    assert idx + (k + 1) == (idx + 1) + k;
  }

  lemma SumRemainder(a: nat, b: nat, n: nat)
    requires n > 0
    ensures (a % n + b) % n == (a + b) % n
  {
    var q, r := (a % n + b) / n, (a % n + b) % n;
    assert a % n + b == q * n + r;
    assert a + b == (a / n + q) * n + r;
    Remainder(a / n + q, r, n);
  }

  /** The past window is exactly the entries before the index around the circle, oldest first: as many
      as asked for, and at most the whole trace once before the entries already passed. */
  lemma PastIsCircular(trace: seq<real>, idx: nat, window: nat)
    requires idx < |trace|
    ensures |Past(trace, idx, window)| == Min(window, |trace| + idx)
    ensures forall k :: 0 <= k < |Past(trace, idx, window)| ==>
              Past(trace, idx, window)[k] == trace[(idx - |Past(trace, idx, window)| + k) % |trace|]
  {
    var n, past := |trace|, Past(trace, idx, window);
    forall k | 0 <= k < |past| ensures past[k] == trace[(idx - |past| + k) % n] {
      var i := idx - |past| + k;
      if i < 0 {
        assert i == (-1) * n + (n + i);
        Remainder(-1, n + i, n);
      } else {
        Remainder(0, i, n);
      }
    }
  }

  /** The count is the number of positions of the window that are at most x. */
  lemma {:induction false} CountIsCardinality(s: seq<real>, x: real)
    ensures CountAtMost(s, x) == |set k | 0 <= k < |s| && s[k] <= x|
  {
    if s != [] {
      var last := |s| - 1;
      CountIsCardinality(s[..last], x);
      var front := set k | 0 <= k < last && s[..last][k] <= x;
      var all := set k | 0 <= k < |s| && s[k] <= x;
      assert all == if s[last] <= x then front + {last} else front;
    }
  }

  /** The percentile is a proportion: within [0, 1], and 1 exactly when no past entry is higher. */
  lemma PercentileIsProportion(trace: seq<real>, idx: nat, window: nat)
    requires idx < |trace| && window > 0
    ensures 0.0 <= Percentile(trace, idx, window) <= 1.0
    ensures Percentile(trace, idx, window) == 1.0
       <==> forall k :: 0 <= k < |Past(trace, idx, window)| ==> Past(trace, idx, window)[k] <= trace[idx]
  {
    PastIsCircular(trace, idx, window);
    var past := Past(trace, idx, window);
    Share(CountAtMost(past, trace[idx]), |past|);
    AllCounted(past, trace[idx]);
  }

  /** The entry d steps behind the index, around the circle, is at most the current one. */
  predicate NoHigher(trace: seq<real>, idx: nat, d: nat)
    requires idx < |trace|
  {
    trace[(idx - d) % |trace|] <= trace[idx]
  }

  /** How far behind the index, within the last `behind` entries, those are that are at most the
      current one. */
  ghost function AtMostBehind(trace: seq<real>, idx: nat, behind: nat): set<int>
    requires idx < |trace|
  {
    set d | 1 <= d <= behind && NoHigher(trace, idx, d)
  }

  /** The percentile is the share of those entries among all the entries behind. */
  lemma PercentileCounts(trace: seq<real>, idx: nat, window: nat)
    requires idx < |trace| && window > 0
    ensures var behind := Min(window, |trace| + idx);
      Percentile(trace, idx, window) * behind as real == |AtMostBehind(trace, idx, behind)| as real
  {
    hide CountAtMost, Past;
    var past := Past(trace, idx, window);
    PastIsCircular(trace, idx, window);
    forall k | 0 <= k < |past| ensures past[k] <= trace[idx] <==> NoHigher(trace, idx, |past| - k) {
      assert idx - (|past| - k) == idx - |past| + k;
    }
    CountBehind(trace, idx, past, |past|);
    assert past[..|past|] == past;
    assert AtMostBehind(trace, idx, |past|) == Behind(trace, idx, 0, |past|);
    Quotient(CountAtMost(past, trace[idx]) as real, |past| as real);
  }

  /** The distances from above `low` to `high` at which the entry behind the index is no higher. */
  ghost function Behind(trace: seq<real>, idx: nat, low: int, high: int): set<int>
    requires idx < |trace|
  {
    set d | low < d <= high && 0 < d && NoHigher(trace, idx, d)
  }

  lemma OneMoreBehind(trace: seq<real>, idx: nat, low: nat, high: nat)
    requires idx < |trace| && low < high
    ensures |Behind(trace, idx, low, high)|
         == |Behind(trace, idx, low + 1, high)| + if NoHigher(trace, idx, low + 1) then 1 else 0
  {
    hide NoHigher;
    var front := Behind(trace, idx, low + 1, high);
    assert low + 1 !in front;
    assert Behind(trace, idx, low, high) == if NoHigher(trace, idx, low + 1) then front + {low + 1} else front;
  }

  lemma {:induction false} CountBehind(trace: seq<real>, idx: nat, past: seq<real>, m: nat)
    requires idx < |trace| && m <= |past|
    requires forall k :: 0 <= k < |past| ==> (past[k] <= trace[idx] <==> NoHigher(trace, idx, |past| - k))
    ensures CountAtMost(past[..m], trace[idx]) == |Behind(trace, idx, |past| - m, |past|)|
  {
    hide NoHigher;
    if m == 0 {
      assert Behind(trace, idx, |past|, |past|) == {};
    } else {
      hide Behind;
      CountBehind(trace, idx, past, m - 1);
      OneMoreBehind(trace, idx, |past| - m, |past|);
      assert past[..m][..m - 1] == past[..m - 1];
    }
  }

  lemma Quotient(x: real, y: real)
    requires y != 0.0
    ensures x / y * y == x
  {
  }

  lemma Share(c: nat, n: nat)
    requires c <= n && n > 0
    ensures 0.0 <= c as real / n as real <= 1.0
    ensures c as real / n as real == 1.0 <==> c == n
  {
    ShareOf(c as real, n as real);
  }

  lemma ShareOf(c: real, n: real)
    requires 0.0 <= c <= n && n > 0.0
    ensures 0.0 <= c / n <= 1.0
    ensures c / n == 1.0 <==> c == n
  {
    var q := c / n;
    assert q * n == c;
    assert q < 0.0 ==> q * n < 0.0;
    assert q > 1.0 ==> q * n > n;
    assert q < 1.0 ==> q * n < n;
  }

  lemma {:induction false} AllCounted(s: seq<real>, x: real)
    ensures CountAtMost(s, x) == |s| <==> forall k :: 0 <= k < |s| ==> s[k] <= x
  {
    if s != [] {
      var last := |s| - 1;
      AllCounted(s[..last], x);
      assert forall k :: 0 <= k < last ==> s[..last][k] == s[k];
    }
  }

  // ----- the index -----

  datatype Agent = Agent(idx: nat, reset: bool)

  /** Push: the report sent at the top of the loop. Wake: the end of the sleep. Set: a client's request. */
  datatype AgentEvent = Push | Wake | Set(idx: int)

  function Next(n: nat, a: Agent, e: AgentEvent): Agent
    requires n > 0
  {
    match e
    case Push => a
    case Wake => if a.reset then a.(reset := false) else a.(idx := (a.idx + 1) % n)
    case Set(i) => if 0 <= i < n then Agent(i, true) else a
  }

  function Run(n: nat, a: Agent, events: seq<AgentEvent>): Agent
    requires n > 0
    decreases |events|
  {
    if events == [] then a else Run(n, Next(n, a, events[0]), events[1..])
  }

  function Wakes(events: seq<AgentEvent>): nat {
    if events == [] then 0 else (if events[0].Wake? then 1 else 0) + Wakes(events[1..])
  }

  /** The last index a client set successfully. */
  function LastSet(n: nat, events: seq<AgentEvent>): Option<nat> {
    if events == [] then None
    else if LastSet(n, events[1..]) != None then LastSet(n, events[1..])
    else if events[0].Set? && 0 <= events[0].idx < n then Some(events[0].idx)
    else None
  }

  /** The index stays inside the trace whatever happens. */
  lemma {:induction false} IndexInRange(n: nat, a: Agent, events: seq<AgentEvent>)
    requires n > 0 && a.idx < n
    ensures Run(n, a, events).idx < n
    decreases |events|
  {
    if events != [] {
      IndexInRange(n, Next(n, a, events[0]), events[1..]);
    }
  }

  /** A request that is rejected has no effect on anything later. */
  lemma {:induction false} RejectedIsIgnored(n: nat, a: Agent, before: seq<AgentEvent>, e: AgentEvent,
                                             after: seq<AgentEvent>)
    requires n > 0 && e.Set? && !(0 <= e.idx < n)
    ensures Run(n, a, before + [e] + after) == Run(n, a, before + after)
    decreases |before|
  {
    if before == [] {
      assert ([e] + after)[1..] == after;
      assert before + [e] + after == [e] + after && before + after == after;
    } else {
      RejectedIsIgnored(n, Next(n, a, before[0]), before[1..], e, after);
      assert (before + [e] + after)[1..] == before[1..] + [e] + after;
      assert (before + after)[1..] == before[1..] + after;
    }
  }

  lemma {:induction false} WhileAsleep(n: nat, a: Agent, events: seq<AgentEvent>)
    requires n > 0 && Wakes(events) == 0
    ensures Run(n, a, events) == match LastSet(n, events)
                                 case Some(i) => Agent(i, true)
                                 case None => a
    decreases |events|
  {
    if events != [] {
      WhileAsleep(n, Next(n, a, events[0]), events[1..]);
    }
  }

  /** From one push to the next, with one sleep between: the next push is for the last index set
      since, without an extra advance. If none was set, it is for the next index of the circle, except
      that a set which came before the first push, too late for its sleep, makes that index repeat. */
  lemma {:induction false} NextPush(n: nat, a: Agent, events: seq<AgentEvent>)
    requires n > 0 && Wakes(events) == 1
    ensures Run(n, a, events).idx == match LastSet(n, events)
                                     case Some(i) => i
                                     case None => if a.reset then a.idx else (a.idx + 1) % n
    decreases |events|
  {
    if events[0].Wake? {
      WhileAsleep(n, Next(n, a, Wake), events[1..]);
    } else {
      NextPush(n, Next(n, a, events[0]), events[1..]);
    }
  }

  /** Without resets the index walks around the circle, one step per sleep. */
  lemma {:induction false} WalksTheCircle(n: nat, a: Agent, events: seq<AgentEvent>)
    requires n > 0 && a.idx < n && !a.reset && LastSet(n, events) == None
    ensures Run(n, a, events) == Agent((a.idx + Wakes(events)) % n, false)
    decreases |events|
  {
    if events == [] {
      Remainder(0, a.idx, n);
    } else {
      var b := Next(n, a, events[0]);
      WalksTheCircle(n, b, events[1..]);
      if events[0].Wake? {
        SumRemainder(a.idx + 1, Wakes(events[1..]), n);
      }
    }
  }

  /** What one push sends. */
  datatype Report = Report(intensity: real, percentile: real, prediction: seq<real>)

  /** The agent object. */
  class CarbonAgent {
    const carbonTrace: seq<real>
    const predictionWindow: nat
    const percentileWindow: nat
    var currentIdx: nat
    var indexReset: bool

    ghost function State(): Agent
      reads this
    {
      Agent(currentIdx, indexReset)
    }

    ghost predicate Valid()
      reads this
    {
      currentIdx < |carbonTrace| && percentileWindow > 0
    }

    constructor (trace: seq<real>, predictionWindow: nat, percentileWindow: nat)
      requires trace != [] && percentileWindow > 0
      ensures Valid() && State() == Agent(0, false) && carbonTrace == trace
      ensures this.predictionWindow == predictionWindow && this.percentileWindow == percentileWindow
    {
      carbonTrace := trace;
      this.predictionWindow, this.percentileWindow := predictionWindow, percentileWindow;
      currentIdx, indexReset := 0, false;
    }

    /** A push reports the trace at the index, the trace ahead of it, and the share of the entries behind
        it that are at most as high; both windows go around the circle. */
    method SendUpdate() returns (report: Report)
      requires Valid()
      ensures report.intensity == carbonTrace[currentIdx]
      ensures |report.prediction| == Min(predictionWindow, 2 * |carbonTrace| - currentIdx)
      ensures forall k :: 0 <= k < |report.prediction| ==>
                report.prediction[k] == carbonTrace[(currentIdx + k) % |carbonTrace|]
      ensures var behind := Min(percentileWindow, |carbonTrace| + currentIdx);
        report.percentile * behind as real == |AtMostBehind(carbonTrace, currentIdx, behind)| as real
    {
      hide AtMostBehind, Percentile, Predict;
      report := Report(carbonTrace[currentIdx], Percentile(carbonTrace, currentIdx, percentileWindow),
                       Predict(carbonTrace, currentIdx, predictionWindow));
      PredictIsCircular(carbonTrace, currentIdx, predictionWindow);
      PercentileCounts(carbonTrace, currentIdx, percentileWindow);
    }

    /** The end of a loop iteration, after the sleep. */
    method EndSleep()
      requires Valid()
      modifies this`currentIdx, this`indexReset
      ensures Valid() && State() == Next(|carbonTrace|, old(State()), Wake)
      ensures !indexReset
      ensures currentIdx == if old(indexReset) then old(currentIdx) else (old(currentIdx) + 1) % |carbonTrace|
    {
      if indexReset {
        indexReset := false;
      } else {
        currentIdx := (currentIdx + 1) % |carbonTrace|;
      }
    }

    method SetTraceIdx(idx: int) returns (accepted: bool)
      requires Valid()
      modifies this`currentIdx, this`indexReset
      ensures Valid() && State() == Next(|carbonTrace|, old(State()), Set(idx))
      ensures accepted <==> 0 <= idx < |carbonTrace|
      ensures accepted ==> currentIdx == idx && indexReset
      ensures !accepted ==> currentIdx == old(currentIdx) && indexReset == old(indexReset)
    {
      if 0 <= idx < |carbonTrace| {
        currentIdx := idx;
        indexReset := true;
        return true;
      } else {
        return false;
      }
    }
  }
}

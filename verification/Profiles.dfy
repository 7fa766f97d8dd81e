/** The scaling profile of an application (src/controllers/profiles.go): one row per node count,
    with the throughput and power gained over the previous row. */
module Profiles {

  datatype Profile = Profile(throughput: real, marginalThroughput: real,
                             power: real, marginalPower: real)

  /** One parsed line of the profile file, after the header. */
  datatype Row = Row(nodes: int, throughput: real, power: real)

  const NO_PROFILE := Profile(0.0, 0.0, 0.0, 0.0)

  /** Reading a missing key of the profile map yields the zero value. */
  function Lookup(profiles: map<int, Profile>, n: int): Profile {
    if n in profiles then profiles[n] else NO_PROFILE
  }

  /** The profile of row k: its marginals are taken against the row before it, or against zero. */
  function RowProfile(rows: seq<Row>, k: nat): Profile
    requires k < |rows|
  {
    var base := if k == 0 then Row(0, 0.0, 0.0) else rows[k - 1];
    Profile(rows[k].throughput, rows[k].throughput - base.throughput,
            rows[k].power, rows[k].power - base.power)
  }

  /** The profile map after all rows: a later row replaces an earlier one with the same node count. */
  function Loaded(rows: seq<Row>): map<int, Profile> {
    if rows == [] then map[]
    else
      var last := |rows| - 1;
      Loaded(rows[..last])[rows[last].nodes := RowProfile(rows, last)]
  }

  method LoadProfile(rows: seq<Row>) returns (profileMap: map<int, Profile>)
    ensures profileMap == Loaded(rows)
  {
    profileMap := map[];
    var baseThroughput, basePower := 0.0, 0.0;
    for i := 0 to |rows|
      invariant profileMap == Loaded(rows[..i])
      invariant i > 0 ==> baseThroughput == rows[i - 1].throughput && basePower == rows[i - 1].power
      invariant i == 0 ==> baseThroughput == basePower == 0.0
    {
      assert rows[..i + 1][..i] == rows[..i];
      var line := rows[i];
      var p := Profile(line.throughput, line.throughput - baseThroughput,
                       line.power, line.power - basePower);
      baseThroughput, basePower := line.throughput, line.power;
      profileMap := profileMap[line.nodes := p];
    }
    assert rows[..|rows|] == rows;
  }

  /** The rows list the node counts 0, 1, 2, ... in order, as the shipped profiles do. */
  predicate Consecutive(rows: seq<Row>) {
    forall i :: 0 <= i < |rows| ==> rows[i].nodes == i
  }

  /** Zero nodes do nothing, and every further node adds throughput and power. */
  predicate Increasing(rows: seq<Row>) {
    && 0 < |rows| && rows[0].throughput == 0.0 && rows[0].power == 0.0
    && forall i :: 0 < i < |rows| ==>
         rows[i - 1].throughput < rows[i].throughput && rows[i - 1].power < rows[i].power
  }

  /** A node count maps to the last row that lists it, and the marginals are that row's gains over the row
      before it, whatever node count that has; the first row's are its own values. */
  lemma {:induction false} LoadedIsLastRow(rows: seq<Row>, k: nat)
    requires k < |rows|
    requires forall i :: k < i < |rows| ==> rows[i].nodes != rows[k].nodes
    ensures rows[k].nodes in Loaded(rows)
    ensures Loaded(rows)[rows[k].nodes] == RowProfile(rows, k)
    ensures var p := Loaded(rows)[rows[k].nodes];
      && p.throughput == rows[k].throughput && p.power == rows[k].power
      && p.marginalThroughput == rows[k].throughput - (if k == 0 then 0.0 else rows[k - 1].throughput)
      && p.marginalPower == rows[k].power - (if k == 0 then 0.0 else rows[k - 1].power)
  {
    var last := |rows| - 1;
    if k < last {
      LoadedIsLastRow(rows[..last], k);
      assert RowProfile(rows[..last], k) == RowProfile(rows, k);
    }
  }

  /** Only node counts that some row lists are in the map. */
  lemma {:induction false} LoadedOnlyRows(rows: seq<Row>, n: int)
    requires n in Loaded(rows)
    ensures exists k :: 0 <= k < |rows| && rows[k].nodes == n
  {
    var last := |rows| - 1;
    if rows[last].nodes != n {
      LoadedOnlyRows(rows[..last], n);
      var k :| 0 <= k < last && rows[..last][k].nodes == n;
      assert rows[k].nodes == n;
    }
  }

  // ----- what the file says of a node count -----

  /** The throughput in the last row for n nodes, or 0 without one. */
  function ThroughputOf(rows: seq<Row>, n: int): real {
    if rows == [] then 0.0
    else
      var last := |rows| - 1;
      if rows[last].nodes == n then rows[last].throughput else ThroughputOf(rows[..last], n)
  }

  /** The power in the last row for n nodes, or 0 without one. */
  function PowerOf(rows: seq<Row>, n: int): real {
    if rows == [] then 0.0
    else
      var last := |rows| - 1;
      if rows[last].nodes == n then rows[last].power else PowerOf(rows[..last], n)
  }

  lemma {:induction false} LookupIsRow(rows: seq<Row>, n: int)
    ensures Lookup(Loaded(rows), n).throughput == ThroughputOf(rows, n)
    ensures Lookup(Loaded(rows), n).power == PowerOf(rows, n)
  {
    if rows != [] {
      LookupIsRow(rows[..|rows| - 1], n);
    }
  }

  /** Sum of the marginals of node counts 0 to n. */
  function MarginalSum(profiles: map<int, Profile>, n: int): (real, real)
    decreases n
  {
    if n < 0 then (0.0, 0.0)
    else
      var (t, p) := MarginalSum(profiles, n - 1);
      (t + Lookup(profiles, n).marginalThroughput, p + Lookup(profiles, n).marginalPower)
  }

  /** The marginals add up to the throughput and the power of every row. */
  lemma {:induction false} MarginalsSumBack(rows: seq<Row>, n: nat)
    requires Consecutive(rows) && n < |rows|
    ensures MarginalSum(Loaded(rows), n) == (rows[n].throughput, rows[n].power)
    ensures Lookup(Loaded(rows), n) == RowProfile(rows, n)
  {
    LoadedIsLastRow(rows, n);
    if n > 0 {
      MarginalsSumBack(rows, n - 1);
    } else {
      assert MarginalSum(Loaded(rows), -1) == (0.0, 0.0);
    }
  }
}

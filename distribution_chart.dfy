/** The data of the vibe distribution pie
    (frontend/src/components/charts/VibeDistributionChart.tsx, lines 25-71):
    the optional employee filter, the count of responses in each of five
    closed score ranges, the removal of empty zones and the total. The ranges
    have integer bounds, so a score strictly between two ranges, or outside
    [0, 10], is counted in no zone. */
module VibeDistribution {
  import opened Common
  import opened VibemeterTrend

  /** A zone of the pie: a name, a closed score range and a colour. */
  datatype ZoneRange = ZoneRange(name: string, lo: real, hi: real, color: string)

  /** One slice of the pie: a zone's name, its count and its colour. */
  datatype ZoneSlice = ZoneSlice(name: string, value: nat, color: string)

  /** What the card shows: the "No data available" message, or the pie with
      its slices and their total. */
  datatype DistributionView = NoData | Pie(slices: seq<ZoneSlice>, total: nat)

  /** `vibeZones`. */
  const VibeZones: seq<ZoneRange> := [
    ZoneRange("Critical", 0.0, 2.0, "#f44336"),
    ZoneRange("Concerned", 3.0, 4.0, "#ff9800"),
    ZoneRange("Neutral", 5.0, 6.0, "#ffc107"),
    ZoneRange("Happy", 7.0, 8.0, "#4caf50"),
    ZoneRange("Very Happy", 9.0, 10.0, "#2e7d32")
  ]

  /** `employeeIds ? vibeData.filter(...) : vibeData`. A given list, even an
      empty one, selects; only an absent list keeps everything. */
  function FilterByEmployees(vibeData: seq<ChartResponse>, employeeIds: Option<seq<string>>)
    : seq<ChartResponse>
  {
    match employeeIds
    case None => vibeData
    case Some(ids) => Filter(vibeData, (v: ChartResponse) => v.employeeId in ids)
  }

  /** Without a list every response is counted; with one, exactly the
      responses of the listed employees are, each as often as it occurs. */
  lemma FilterByEmployeesKeeps(vibeData: seq<ChartResponse>, employeeIds: Option<seq<string>>)
    ensures employeeIds.None? ==> FilterByEmployees(vibeData, employeeIds) == vibeData
    ensures employeeIds.Some? ==>
              var r := FilterByEmployees(vibeData, employeeIds);
              && (forall i :: 0 <= i < |r| ==> r[i] in vibeData && r[i].employeeId in employeeIds.value)
              && (forall i :: 0 <= i < |vibeData| && vibeData[i].employeeId in employeeIds.value ==>
                    vibeData[i] in r)
              && multiset(r) <= multiset(vibeData)
  {
    if employeeIds.Some? {
      FilterMembers(vibeData, (v: ChartResponse) => v.employeeId in employeeIds.value);
    }
  }

  /** An empty id list is still a list: nothing is counted. */
  lemma EmptyIdListKeepsNothing(vibeData: seq<ChartResponse>)
    ensures FilterByEmployees(vibeData, Some([])) == []
  {
    FilterNone(vibeData, (v: ChartResponse) => v.employeeId in []);
  }

  /** The closed-range test of the count. */
  predicate InRange(score: real, z: ZoneRange)
  {
    z.lo <= score <= z.hi
  }

  /** The number of responses in zone `k` of `vibeZones`. */
  function ZoneCount(items: seq<ChartResponse>, k: nat): nat
    requires k < |VibeZones|
  {
    |Filter(items, (v: ChartResponse) => InRange(v.vibeScore, VibeZones[k]))|
  }

  /** `zoneCounts`: one slice per zone, in zone order. What the counts mean
      is stated by ZonesDisjoint, GapScoresUncounted and
      CountsPartitionResponses. */
  function ZoneCounts(items: seq<ChartResponse>): (r: seq<ZoneSlice>)
    ensures |r| == |VibeZones|
    ensures forall k :: 0 <= k < |r| ==>
              r[k] == ZoneSlice(VibeZones[k].name, ZoneCount(items, k), VibeZones[k].color)
  {
    seq(|VibeZones|, k requires 0 <= k < |VibeZones| =>
      ZoneSlice(VibeZones[k].name, ZoneCount(items, k), VibeZones[k].color))
  }

  /** A score lies in no range exactly when it falls in a gap between two
      ranges or outside [0, 10]. */
  predicate InGap(score: real)
  {
    score < 0.0 || 2.0 < score < 3.0 || 4.0 < score < 5.0 || 6.0 < score < 7.0
    || 8.0 < score < 9.0 || 10.0 < score
  }

  predicate InSomeZone(score: real)
  {
    exists k :: 0 <= k < |VibeZones| && InRange(score, VibeZones[k])
  }

  /** The ranges are pairwise disjoint: no score is in two zones. */
  lemma ZonesDisjoint(score: real, j: nat, k: nat)
    requires j < k < |VibeZones|
    ensures !(InRange(score, VibeZones[j]) && InRange(score, VibeZones[k]))
  {
  }

  /** The scores counted nowhere are exactly the gap scores. */
  lemma GapScoresUncounted(score: real)
    ensures !InSomeZone(score) <==> InGap(score)
  {
    if !InGap(score) {
      if score <= 2.0 { assert InRange(score, VibeZones[0]); }
      else if score <= 4.0 { assert InRange(score, VibeZones[1]); }
      else if score <= 6.0 { assert InRange(score, VibeZones[2]); }
      else if score <= 8.0 { assert InRange(score, VibeZones[3]); }
      else { assert InRange(score, VibeZones[4]); }
    }
  }

  /** The five zone counts added up. */
  function CountedTotal(items: seq<ChartResponse>): nat
  {
    ZoneCount(items, 0) + ZoneCount(items, 1) + ZoneCount(items, 2) + ZoneCount(items, 3)
    + ZoneCount(items, 4)
  }

  function GapCount(items: seq<ChartResponse>): nat
  {
    |Filter(items, (v: ChartResponse) => InGap(v.vibeScore))|
  }

  lemma ZoneCountCons(items: seq<ChartResponse>, k: nat)
    requires items != [] && k < |VibeZones|
    ensures ZoneCount(items, k)
            == (if InRange(items[0].vibeScore, VibeZones[k]) then 1 else 0) + ZoneCount(items[1..], k)
  {
  }

  /** Each response is counted in exactly one zone or falls in a gap: the
      zone counts and the gap count add up to the number of responses, so the
      counts never exceed it. */
  lemma {:induction false} CountsPartitionResponses(items: seq<ChartResponse>)
    ensures CountedTotal(items) + GapCount(items) == |items|
    ensures CountedTotal(items) <= |items|
  {
    if items != [] {
      CountsPartitionResponses(items[1..]);
      ZoneCountCons(items, 0);
      ZoneCountCons(items, 1);
      ZoneCountCons(items, 2);
      ZoneCountCons(items, 3);
      ZoneCountCons(items, 4);
      GapScoresUncounted(items[0].vibeScore);
    }
  }

  /** `chartData`: the slices with a positive count. */
  function ChartData(counts: seq<ZoneSlice>): seq<ZoneSlice>
  {
    Filter(counts, (s: ZoneSlice) => s.value > 0)
  }

  /** `chartData.reduce((sum, item) => sum + item.value, 0)`. */
  function SliceTotal(slices: seq<ZoneSlice>): nat
  {
    if slices == [] then 0 else slices[0].value + SliceTotal(slices[1..])
  }

  /** Dropping empty slices does not change the total. */
  lemma {:induction false} DropEmptyKeepsTotal(slices: seq<ZoneSlice>)
    ensures SliceTotal(ChartData(slices)) == SliceTotal(slices)
  {
    if slices != [] {
      DropEmptyKeepsTotal(slices[1..]);
      if slices[0].value > 0 {
        assert ChartData(slices) == [slices[0]] + ChartData(slices[1..]);
        assert ([slices[0]] + ChartData(slices[1..]))[1..] == ChartData(slices[1..]);
      } else {
        assert ChartData(slices) == [] + ChartData(slices[1..]);
        assert ChartData(slices) == ChartData(slices[1..]);
        assert SliceTotal(slices) == SliceTotal(slices[1..]);
      }
    }
  }

  /** No slice left means no slice had a count. */
  lemma {:induction false} ChartDataEmptyIff(slices: seq<ZoneSlice>)
    ensures ChartData(slices) == [] <==> forall k :: 0 <= k < |slices| ==> slices[k].value == 0
  {
    if slices != [] {
      ChartDataEmptyIff(slices[1..]);
      assert forall k :: 1 <= k < |slices| ==> slices[k] == slices[1..][k - 1];
    }
  }

  /** The card for the given responses and optional employee list. */
  function Distribution(vibeData: seq<ChartResponse>, employeeIds: Option<seq<string>>): DistributionView
  {
    var filteredData := FilterByEmployees(vibeData, employeeIds);
    var chartData := ChartData(ZoneCounts(filteredData));
    if |chartData| == 0 then NoData else Pie(chartData, SliceTotal(chartData))
  }

  /** The kept slices are exactly the zones with a positive count, and each
      keeps its zone's name, count and colour. */
  lemma ChartDataKeepsPositive(items: seq<ChartResponse>)
    ensures var kept := ChartData(ZoneCounts(items));
      && (forall i :: 0 <= i < |kept| ==> kept[i].value > 0 && kept[i] in ZoneCounts(items))
      && (forall k :: 0 <= k < |VibeZones| && ZoneCount(items, k) > 0 ==>
            ZoneSlice(VibeZones[k].name, ZoneCount(items, k), VibeZones[k].color) in kept)
  {
    var counts := ZoneCounts(items);
    FilterMembers(counts, (s: ZoneSlice) => s.value > 0);
    forall k | 0 <= k < |VibeZones| && ZoneCount(items, k) > 0
      ensures counts[k] in ChartData(counts)
    {
    }
  }

  /** The slices keep the order of `vibeZones`. */
  lemma ChartDataInZoneOrder(items: seq<ChartResponse>, i: nat, j: nat)
    requires i < j < |ChartData(ZoneCounts(items))|
    ensures exists a, b :: 0 <= a < b < |VibeZones| &&
              ChartData(ZoneCounts(items))[i].name == VibeZones[a].name &&
              ChartData(ZoneCounts(items))[j].name == VibeZones[b].name
  {
    var counts := ZoneCounts(items);
    FilterOrder(counts, (s: ZoneSlice) => s.value > 0, i, j);
    var a, b :| 0 <= a < b < |counts| && counts[a] == ChartData(counts)[i] && counts[b] == ChartData(counts)[j];
    assert counts[a].name == VibeZones[a].name;
  }

  /** The five slices, added up, hold every counted response. */
  lemma SliceTotalIsCounted(items: seq<ChartResponse>)
    ensures SliceTotal(ZoneCounts(items)) == CountedTotal(items)
  {
    var counts := ZoneCounts(items);
    assert counts[4..][1..] == [];
    assert counts[3..][1..] == counts[4..];
    assert counts[2..][1..] == counts[3..];
    assert counts[1..][1..] == counts[2..];
    assert SliceTotal(counts[4..]) == ZoneCount(items, 4);
    assert SliceTotal(counts[3..]) == ZoneCount(items, 3) + SliceTotal(counts[4..]);
    assert SliceTotal(counts[2..]) == ZoneCount(items, 2) + SliceTotal(counts[3..]);
    assert SliceTotal(counts[1..]) == ZoneCount(items, 1) + SliceTotal(counts[2..]);
  }

  /** The "No data" message is shown exactly when every zone count is 0;
      otherwise the pie's total is the sum of all five zone counts, which is
      positive and at most the number of counted responses. */
  lemma DistributionViewSpec(vibeData: seq<ChartResponse>, employeeIds: Option<seq<string>>)
    ensures var items := FilterByEmployees(vibeData, employeeIds);
      && (Distribution(vibeData, employeeIds) == NoData <==>
            forall k :: 0 <= k < |VibeZones| ==> ZoneCount(items, k) == 0)
      && (Distribution(vibeData, employeeIds).Pie? ==>
            && Distribution(vibeData, employeeIds).total == CountedTotal(items)
            && 0 < Distribution(vibeData, employeeIds).total <= |items|)
  {
    var items := FilterByEmployees(vibeData, employeeIds);
    var counts := ZoneCounts(items);
    ChartDataEmptyIff(counts);
    DropEmptyKeepsTotal(counts);
    CountsPartitionResponses(items);
    SliceTotalIsCounted(items);
    if Distribution(vibeData, employeeIds).Pie? {
      var k :| 0 <= k < |counts| && counts[k].value != 0;
      assert CountedTotal(items) > 0;
    }
  }
}

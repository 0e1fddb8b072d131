/** The figures of the analytics page
    (frontend/src/pages/reports/AnalyticsPage.tsx, lines 70-132 and
    248-429): the department list and filter, the three engagement buckets,
    the vibe-zone counts, and the averages and shares over the selected
    employees, whose divisions are unguarded. */
module Analytics {
  import opened Common
  import opened EmployeeTypes

  // ---------------------------------------------------------------------
  // Departments
  // ---------------------------------------------------------------------

  const AllDepartments: string := "all"

  function DepartmentNames(employees: seq<Employee>): seq<string>
  {
    Map(employees, (e: Employee) => e.department)
  }

  /** `departments`: "all" followed by the `Set` of departments. */
  function Departments(employees: seq<Employee>): (r: seq<string>)
    ensures |r| >= 1 && r[0] == AllDepartments
    ensures |r| <= |employees| + 1
  {
    [AllDepartments] + Distinct(DepartmentNames(employees))
  }

  /** After "all" come the departments of the employees, each once, in the
      order in which they first occur. */
  lemma DepartmentsSpec(employees: seq<Employee>)
    ensures var r := Departments(employees);
      && (forall d :: d in r[1..] <==> exists i :: 0 <= i < |employees| && employees[i].department == d)
      && NoDuplicates(r[1..])
      && (forall i, j :: 1 <= i < j < |r| ==>
            FirstIndex(DepartmentNames(employees), r[i]) < FirstIndex(DepartmentNames(employees), r[j]))
  {
    var names := DepartmentNames(employees);
    var r := Departments(employees);
    assert r[1..] == Distinct(names);
    forall d | d in r[1..] ensures exists i :: 0 <= i < |employees| && employees[i].department == d {
      var i :| 0 <= i < |names| && names[i] == d;
      assert employees[i].department == d;
    }
    forall d | exists i :: 0 <= i < |employees| && employees[i].department == d
      ensures d in r[1..]
    {
      var i :| 0 <= i < |employees| && employees[i].department == d;
      assert names[i] == d;
    }
    DistinctFirstOccurrenceOrder(names);
    forall i, j | 1 <= i < j < |r|
      ensures FirstIndex(names, r[i]) < FirstIndex(names, r[j])
    {
      assert r[i] == Distinct(names)[i - 1] && r[j] == Distinct(names)[j - 1];
    }
  }

  /** `filteredEmployees`: everyone for "all", otherwise the employees of
      the selected department. */
  function FilterDepartment(employees: seq<Employee>, department: string): seq<Employee>
  {
    if department == AllDepartments then employees
    else Filter(employees, (e: Employee) => InDepartment(e, department))
  }

  predicate InDepartment(e: Employee, department: string)
  {
    e.department == department
  }

  /** For "all" the filter keeps the list; for a department it keeps exactly
      that department's employees, in their order. */
  lemma FilterDepartmentSpec(employees: seq<Employee>, department: string)
    ensures department == AllDepartments ==> FilterDepartment(employees, department) == employees
    ensures department != AllDepartments ==>
              forall e :: e in FilterDepartment(employees, department)
                          <==> e in employees && e.department == department
    ensures KeepsOrder(FilterDepartment(employees, department), employees)
  {
    if department != AllDepartments {
      var p := (e: Employee) => InDepartment(e, department);
      assert FilterDepartment(employees, department) == Filter(employees, p);
      FilterMembers(employees, p);
      FilterKeepsOrder(employees, p);
    } else {
      KeepsOwnOrder(employees);
    }
  }

  // ---------------------------------------------------------------------
  // Engagement buckets
  // ---------------------------------------------------------------------

  /** One bar of a chart: a label and a count. */
  datatype NamedCount = NamedCount(name: string, value: nat)

  /** `emp.aiStats?.engagementRate`: defined exactly when the employee has
      assistant statistics. */
  function EngagementRate(e: Employee): Option<real>
  {
    if e.aiStats.Some? then Some(e.aiStats.value.engagementRate) else None
  }

  predicate HasRate(e: Employee)
  {
    EngagementRate(e).Some?
  }

  predicate HighEngagement(e: Employee)
  {
    EngagementRate(e).Some? && EngagementRate(e).value > 0.7
  }

  predicate MediumEngagement(e: Employee)
  {
    EngagementRate(e).Some? && 0.4 <= EngagementRate(e).value <= 0.7
  }

  predicate LowEngagement(e: Employee)
  {
    EngagementRate(e).Some? && EngagementRate(e).value < 0.4
  }

  /** Every employee with a rate falls in exactly one bucket, one without a
      rate in none. */
  lemma EngagementBucketsExclusive(e: Employee)
    ensures HighEngagement(e) || MediumEngagement(e) || LowEngagement(e) <==> HasRate(e)
    ensures !(HighEngagement(e) && MediumEngagement(e))
    ensures !(HighEngagement(e) && LowEngagement(e))
    ensures !(MediumEngagement(e) && LowEngagement(e))
  {
  }

  /** `conversationStats`. */
  function ConversationStats(employees: seq<Employee>): (r: seq<NamedCount>)
    ensures |r| == 3
    ensures r[0].name == "High Engagement" && r[1].name == "Medium Engagement"
            && r[2].name == "Low Engagement"
  {
    [ NamedCount("High Engagement", |Filter(employees, HighEngagement)|),
      NamedCount("Medium Engagement", |Filter(employees, MediumEngagement)|),
      NamedCount("Low Engagement", |Filter(employees, LowEngagement)|) ]
  }

  /** The three buckets together count exactly the employees that have a
      rate. */
  lemma {:induction false} EngagementCountsCover(employees: seq<Employee>)
    ensures var r := ConversationStats(employees);
      r[0].value + r[1].value + r[2].value == |Filter(employees, HasRate)|
    ensures |Filter(employees, HasRate)| <= |employees|
  {
    if employees != [] {
      EngagementCountsCover(employees[1..]);
      EngagementBucketsExclusive(employees[0]);
    }
  }

  // ---------------------------------------------------------------------
  // Vibe-zone counts
  // ---------------------------------------------------------------------

  /** The zone strings counted, in the order of the bars. */
  const ZoneKeys: seq<string> := ["very_happy", "happy", "neutral", "concerned", "critical"]

  const ZoneLabels: seq<string> := ["Very Happy", "Happy", "Neutral", "Concerned", "Critical"]

  /** The employees whose `vibeZone` is exactly `key`. */
  function ZoneCount(employees: seq<Employee>, key: string): nat
  {
    |Filter(employees, (e: Employee) => e.vibeZone == Some(key))|
  }

  /** An employee whose `vibeZone` is absent or none of the counted
      strings. */
  predicate Unlisted(e: Employee)
  {
    e.vibeZone.None? || e.vibeZone.value !in ZoneKeys
  }

  /** `vibeDistribution`. */
  function VibeDistribution(employees: seq<Employee>): (r: seq<NamedCount>)
    ensures |r| == |ZoneKeys|
    ensures forall k :: 0 <= k < |r| ==> r[k].name == ZoneLabels[k]
  {
    seq(|ZoneKeys|, k requires 0 <= k < |ZoneKeys| =>
      NamedCount(ZoneLabels[k], ZoneCount(employees, ZoneKeys[k])))
  }

  lemma ZoneCountCons(employees: seq<Employee>, key: string)
    requires employees != []
    ensures ZoneCount(employees, key)
            == (if employees[0].vibeZone == Some(key) then 1 else 0) + ZoneCount(employees[1..], key)
  {
  }

  /** Zones are matched as exact strings: the five counts and the employees
      with an absent or other zone add up to all employees, so the bars
      never count more than there are employees. */
  lemma {:induction false} VibeDistributionCover(employees: seq<Employee>)
    ensures ZoneCount(employees, "very_happy") + ZoneCount(employees, "happy")
            + ZoneCount(employees, "neutral") + ZoneCount(employees, "concerned")
            + ZoneCount(employees, "critical") + |Filter(employees, Unlisted)|
            == |employees|
  {
    if employees != [] {
      VibeDistributionCover(employees[1..]);
      ZoneCountCons(employees, "very_happy");
      ZoneCountCons(employees, "happy");
      ZoneCountCons(employees, "neutral");
      ZoneCountCons(employees, "concerned");
      ZoneCountCons(employees, "critical");
      assert Filter(employees, Unlisted)
             == (if Unlisted(employees[0]) then [employees[0]] else []) + Filter(employees[1..], Unlisted);
    }
  }

  /** The bar heights sum to at most the number of employees. */
  lemma VibeDistributionBound(employees: seq<Employee>)
    ensures var r := VibeDistribution(employees);
      r[0].value + r[1].value + r[2].value + r[3].value + r[4].value <= |employees|
  {
    VibeDistributionCover(employees);
  }

  /** `emp.vibeZone || ""`. */
  function ZoneOrEmpty(e: Employee): string
  {
    if e.vibeZone.Some? then e.vibeZone.value else ""
  }

  /** `["happy", "very_happy"].includes(emp.vibeZone || "")`. */
  predicate InPositiveZone(e: Employee)
  {
    ZoneOrEmpty(e) in ["happy", "very_happy"]
  }

  function PositiveZoneCount(employees: seq<Employee>): nat
  {
    |Filter(employees, InPositiveZone)|
  }

  /** The positive-zone count is the happy count plus the very-happy
      count. */
  lemma {:induction false} PositiveIsHappyPlusVeryHappy(employees: seq<Employee>)
    ensures PositiveZoneCount(employees)
            == ZoneCount(employees, "happy") + ZoneCount(employees, "very_happy")
  {
    if employees != [] {
      PositiveIsHappyPlusVeryHappy(employees[1..]);
    }
  }

  // ---------------------------------------------------------------------
  // Averages and shares
  // ---------------------------------------------------------------------

  /** `x || 0` for an optional number. */
  function OrZero(x: Option<real>): real
  {
    if x.Some? then x.value else 0.0
  }

  /** `emp.aiStats?.responseRate || 0`, and likewise for the other
      assistant statistics. */
  function ResponseRate(e: Employee): real
  {
    if e.aiStats.Some? then OrZero(e.aiStats.value.responseRate) else 0.0
  }

  function ConversationLength(e: Employee): real
  {
    if e.aiStats.Some? then OrZero(e.aiStats.value.avgConversationLength) else 0.0
  }

  function WeeklyInteractions(e: Employee): real
  {
    if e.aiStats.Some? then OrZero(e.aiStats.value.weeklyInteractions) else 0.0
  }

  function ActionableFeedbackRate(e: Employee): real
  {
    if e.aiStats.Some? then OrZero(e.aiStats.value.actionableFeedbackRate) else 0.0
  }

  /** `emp.metrics?.vibeAverage || 0`. */
  function VibeAverage(e: Employee): real
  {
    if e.metrics.Some? then OrZero(e.metrics.value.vibeAverage) else 0.0
  }

  /** `filteredEmployees.reduce((sum, emp) => sum + value(emp), 0) /
      filteredEmployees.length`, with no guard: NaN for an empty selection,
      otherwise the mean of the values, missing ones counted as 0. */
  function Average(employees: seq<Employee>, value: Employee -> real): (r: JsNumber)
    ensures |employees| == 0 ==> r == NaN
    ensures |employees| > 0 ==> r == Finite(Mean(Map(employees, value)))
  {
    Divide(Sum(Map(employees, value)), |employees| as real)
  }

  /** When every value lies within [lo, hi], so does a defined average. */
  lemma AverageBounds(employees: seq<Employee>, value: Employee -> real, lo: real, hi: real)
    requires forall i :: 0 <= i < |employees| ==> lo <= value(employees[i]) <= hi
    ensures Average(employees, value).Finite? ==> lo <= Average(employees, value).value <= hi
  {
    if |employees| > 0 {
      MeanBounds(Map(employees, value), lo, hi);
    }
  }

  /** "Average Response Rate": the average response rate in percent. */
  function AverageResponseRate(employees: seq<Employee>): (r: JsNumber)
    ensures |employees| == 0 ==> r == NaN
    ensures |employees| > 0 ==> r == Finite(Mean(Map(employees, ResponseRate)) * 100.0)
  {
    Scale(Average(employees, ResponseRate), 100.0)
  }

  /** "Actionable Feedback Rate": the average actionable-feedback rate in
      percent. */
  function AverageActionableFeedbackRate(employees: seq<Employee>): (r: JsNumber)
    ensures |employees| == 0 ==> r == NaN
    ensures |employees| > 0 ==> r == Finite(Mean(Map(employees, ActionableFeedbackRate)) * 100.0)
  {
    Scale(Average(employees, ActionableFeedbackRate), 100.0)
  }

  /** Response rates within [0, 1] give an average response rate within
      [0, 100] percent. */
  lemma ResponseRatePercentBounds(employees: seq<Employee>)
    requires forall i :: 0 <= i < |employees| ==> 0.0 <= ResponseRate(employees[i]) <= 1.0
    ensures AverageResponseRate(employees).Finite? ==>
              0.0 <= AverageResponseRate(employees).value <= 100.0
  {
    AverageBounds(employees, ResponseRate, 0.0, 1.0);
  }

  /** Vibe averages on the 0-10 scale give an "Average Vibe Score" on that
      scale. */
  lemma VibeScoreBounds(employees: seq<Employee>)
    requires forall i :: 0 <= i < |employees| ==> 0.0 <= VibeAverage(employees[i]) <= 10.0
    ensures Average(employees, VibeAverage).Finite? ==>
              0.0 <= Average(employees, VibeAverage).value <= 10.0
  {
    AverageBounds(employees, VibeAverage, 0.0, 10.0);
  }

  /** `(count / filteredEmployees.length) * 100`, with no guard. */
  function Share(count: nat, n: nat): (r: JsNumber)
    ensures n > 0 ==> r.Finite? && r.value * (n as real) == 100.0 * (count as real)
    ensures n == 0 && count == 0 ==> r == NaN
  {
    Scale(Divide(count as real, n as real), 100.0)
  }

  /** The share of employees in the critical zone, the concerned zone and
      the positive zones: NaN for an empty selection and otherwise within
      [0, 100] percent. */
  lemma ZoneSharesBounded(employees: seq<Employee>)
    ensures |employees| == 0 ==>
              && Share(ZoneCount(employees, "critical"), |employees|) == NaN
              && Share(ZoneCount(employees, "concerned"), |employees|) == NaN
              && Share(PositiveZoneCount(employees), |employees|) == NaN
    ensures |employees| > 0 ==>
              && 0.0 <= Share(ZoneCount(employees, "critical"), |employees|).value <= 100.0
              && 0.0 <= Share(ZoneCount(employees, "concerned"), |employees|).value <= 100.0
              && 0.0 <= Share(PositiveZoneCount(employees), |employees|).value <= 100.0
  {
    if |employees| > 0 {
      ShareBounded(ZoneCount(employees, "critical"), |employees|);
      ShareBounded(ZoneCount(employees, "concerned"), |employees|);
      ShareBounded(PositiveZoneCount(employees), |employees|);
    }
  }

  lemma ShareBounded(count: nat, n: nat)
    requires 0 < n && count <= n
    ensures 0.0 <= Share(count, n).value <= 100.0
  {
    var x := Share(count, n).value;
    assert x * (n as real) == 100.0 * (count as real);
    assert 100.0 * (count as real) <= 100.0 * (n as real);
  }
}

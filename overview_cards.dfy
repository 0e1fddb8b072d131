/** The counters of the dashboard overview cards
    (frontend/src/components/dashboard/OverviewCards.tsx, lines 24-45, and the
    attention share at lines 164 and 175): positive and negative responses
    and their guarded percentages, the distinct employees with a negative
    response, and the escalated conversations. */
module OverviewCards {
  import opened Common
  import opened EmployeeTypes
  import opened VibeUtils

  /** `vibeResponses.filter(isPositiveVibe)`. */
  function Positives(vibes: seq<VibeResponse>): seq<VibeResponse>
  {
    Filter(vibes, (v: VibeResponse) => IsPositiveVibe(v))
  }

  /** `vibeResponses.filter(isNegativeVibe)`. */
  function Negatives(vibes: seq<VibeResponse>): seq<VibeResponse>
  {
    Filter(vibes, (v: VibeResponse) => IsNegativeVibe(v))
  }

  /** `positiveVibePercentage`: 0 without responses, otherwise the positive
      share in percent, within [0, 100]. */
  function PositivePercentage(vibes: seq<VibeResponse>): (r: real)
    ensures |vibes| == 0 ==> r == 0.0
    ensures |vibes| > 0 ==> r * (|vibes| as real) == 100.0 * (|Positives(vibes)| as real)
    ensures 0.0 <= r <= 100.0
  {
    if |vibes| > 0 then (|Positives(vibes)| as real / |vibes| as real) * 100.0 else 0.0
  }

  /** `negativeVibePercentage`: the same with the negative predicate. */
  function NegativePercentage(vibes: seq<VibeResponse>): (r: real)
    ensures |vibes| == 0 ==> r == 0.0
    ensures |vibes| > 0 ==> r * (|vibes| as real) == 100.0 * (|Negatives(vibes)| as real)
    ensures 0.0 <= r <= 100.0
  {
    if |vibes| > 0 then (|Negatives(vibes)| as real / |vibes| as real) * 100.0 else 0.0
  }

  /** Since no response is both positive and negative, the two counts
      together never exceed the number of responses, and neither do the two
      percentages exceed 100 together. */
  lemma PositiveNegativeBound(vibes: seq<VibeResponse>)
    ensures |Positives(vibes)| + |Negatives(vibes)| <= |vibes|
    ensures PositivePercentage(vibes) + NegativePercentage(vibes) <= 100.0
  {
    var pos := (v: VibeResponse) => IsPositiveVibe(v);
    var neg := (v: VibeResponse) => IsNegativeVibe(v);
    forall i | 0 <= i < |vibes| ensures !(pos(vibes[i]) && neg(vibes[i])) {
      PositiveNegativeExclusive(vibes[i]);
    }
    FilterDisjoint(vibes, pos, neg);
    if |vibes| > 0 {
      SharesAddUp(|Positives(vibes)|, |Negatives(vibes)|, |vibes|);
    }
  }

  lemma SharesAddUp(p: nat, q: nat, n: nat)
    requires 0 < n && p + q <= n
    ensures (p as real / n as real) * 100.0 + (q as real / n as real) * 100.0 <= 100.0
  {
    var m := n as real;
    var a := p as real;
    var b := q as real;
    var x := a / m;
    var y := b / m;
    assert x * m == a;
    assert y * m == b;
    var s := x + y;
    assert s * m == a + b;
    assert s * m <= 1.0 * m;
    assert s <= 1.0;
  }

  /** The employee ids of the negative responses. */
  function NegativeIds(vibes: seq<VibeResponse>): seq<string>
  {
    Map(Negatives(vibes), (v: VibeResponse) => v.employeeId)
  }

  /** `employeesNeedingAttention`: the size of the `Set` of those ids. */
  function EmployeesNeedingAttention(vibes: seq<VibeResponse>): (r: nat)
    ensures r <= |Negatives(vibes)|
  {
    |Distinct(NegativeIds(vibes))|
  }

  /** The ids of the employees with at least one negative response. */
  ghost function NegativeEmployees(vibes: seq<VibeResponse>): set<string>
  {
    set i | 0 <= i < |vibes| && IsNegativeVibe(vibes[i]) :: vibes[i].employeeId
  }

  lemma NegativeIdsAreNegativeEmployees(vibes: seq<VibeResponse>)
    ensures (set x | x in NegativeIds(vibes)) == NegativeEmployees(vibes)
  {
    NegativeIdsSound(vibes);
    NegativeIdsComplete(vibes);
  }

  lemma NegativeIdsSound(vibes: seq<VibeResponse>)
    ensures forall x :: x in NegativeIds(vibes) ==> x in NegativeEmployees(vibes)
  {
    var ids := NegativeIds(vibes);
    var negs := Negatives(vibes);
    FilterMembers(vibes, (v: VibeResponse) => IsNegativeVibe(v));
    forall x | x in ids ensures x in NegativeEmployees(vibes) {
      var k :| 0 <= k < |ids| && ids[k] == x;
      assert negs[k] in vibes;
      var i :| 0 <= i < |vibes| && vibes[i] == negs[k];
    }
  }

  lemma NegativeIdsComplete(vibes: seq<VibeResponse>)
    ensures forall x :: x in NegativeEmployees(vibes) ==> x in NegativeIds(vibes)
  {
    var ids := NegativeIds(vibes);
    var negs := Negatives(vibes);
    FilterKeepsSatisfying(vibes, (v: VibeResponse) => IsNegativeVibe(v));
    forall x | x in NegativeEmployees(vibes) ensures x in ids {
      var i :| 0 <= i < |vibes| && IsNegativeVibe(vibes[i]) && vibes[i].employeeId == x;
      assert vibes[i] in negs;
      var k :| 0 <= k < |negs| && negs[k] == vibes[i];
      assert ids[k] == x;
    }
  }

  /** The attention count is the number of different employees with at
      least one negative response. */
  lemma AttentionCountsEmployees(vibes: seq<VibeResponse>)
    ensures EmployeesNeedingAttention(vibes) == |NegativeEmployees(vibes)|
  {
    DistinctIsSetSize(NegativeIds(vibes));
    NegativeIdsAreNegativeEmployees(vibes);
  }

  /** A conversation is escalated when it is flagged `escalated` or
      `requiresAttention`. */
  predicate IsEscalated(c: AiConversation)
  {
    c.escalated || c.requiresAttention
  }

  /** `escalatedConversations`. */
  function EscalatedConversations(conversations: seq<AiConversation>): nat
  {
    |Filter(conversations, IsEscalated)|
  }

  /** The escalated conversations and those with neither flag together make
      up all conversations, so the escalated count is at most the total. */
  lemma EscalatedPartition(conversations: seq<AiConversation>)
    ensures EscalatedConversations(conversations)
            + |Filter(conversations, (c: AiConversation) => !c.escalated && !c.requiresAttention)|
            == |conversations|
    ensures EscalatedConversations(conversations) <= |conversations|
  {
    var neither := (c: AiConversation) => !c.escalated && !c.requiresAttention;
    var any := (c: AiConversation) => true;
    FilterUnion(conversations, IsEscalated, neither, any);
    FilterAll(conversations, any);
  }

  /** The attention bar and label: `(employeesNeedingAttention /
      employees.length) * 100`, unguarded, so no employees gives NaN when
      nobody needs attention and Infinity otherwise. */
  function AttentionPercentage(vibes: seq<VibeResponse>, employees: seq<Employee>): (r: JsNumber)
    ensures |employees| > 0 ==>
              r.Finite? && r.value * (|employees| as real)
                           == 100.0 * (EmployeesNeedingAttention(vibes) as real)
    ensures |employees| == 0 && EmployeesNeedingAttention(vibes) == 0 ==> r == NaN
    ensures |employees| == 0 && EmployeesNeedingAttention(vibes) > 0 ==> r == Infinity
  {
    Scale(Divide(EmployeesNeedingAttention(vibes) as real, |employees| as real), 100.0)
  }
}

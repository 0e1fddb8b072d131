/** Score and zone classification (frontend/src/utils/vibeUtils.ts): the
    severity ladder from a score to a label and a colour, the colour of a
    reported zone, the five-bucket tally, the at-risk share and the
    positive/negative predicates. */
module VibeUtils {
  import opened Common
  import opened EmployeeTypes

  /** The five severity bands a numeric score falls into. */
  datatype VibeLabel = Critical | Warning | Average | Good | Excellent

  const AllLabels: set<VibeLabel> := {Critical, Warning, Average, Good, Excellent}

  function LabelName(l: VibeLabel): string
  {
    match l
    case Critical => "Critical"
    case Warning => "Warning"
    case Average => "Average"
    case Good => "Good"
    case Excellent => "Excellent"
  }

  /** Position of a band on the ladder, worst first. */
  function LabelRank(l: VibeLabel): nat
  {
    match l
    case Critical => 0
    case Warning => 1
    case Average => 2
    case Good => 3
    case Excellent => 4
  }

  /** The one colour each band is drawn in. */
  function LabelColor(l: VibeLabel): string
  {
    match l
    case Critical => "#f44336"
    case Warning => "#ff9800"
    case Average => "#ffc107"
    case Good => "#4caf50"
    case Excellent => "#2e7d32"
  }

  /** `getVibeLabel`: total over all reals; each band is a half-open interval
      closed at its lower end, the outer bands unbounded. */
  function GetVibeLabel(score: real): (r: VibeLabel)
    ensures r == Critical <==> score < 3.0
    ensures r == Warning <==> 3.0 <= score < 5.0
    ensures r == Average <==> 5.0 <= score < 7.0
    ensures r == Good <==> 7.0 <= score < 9.0
    ensures r == Excellent <==> 9.0 <= score
  {
    if score < 3.0 then Critical
    else if score < 5.0 then Warning
    else if score < 7.0 then Average
    else if score < 9.0 then Good
    else Excellent
  }

  /** A higher score never lands on a worse band. */
  lemma LabelMonotone(s: real, t: real)
    requires s <= t
    ensures LabelRank(GetVibeLabel(s)) <= LabelRank(GetVibeLabel(t))
  {
  }

  /** Distinct bands are drawn in distinct colours. */
  lemma LabelColorsDistinct(l: VibeLabel, m: VibeLabel)
    requires l != m
    ensures LabelColor(l) != LabelColor(m)
  {
  }

  /** `getVibeColor`: the same thresholds as `getVibeLabel`, so a score is
      drawn in the colour of its band. */
  function GetVibeColor(score: real): (r: string)
    ensures r == LabelColor(GetVibeLabel(score))
  {
    if score < 3.0 then "#f44336"
    else if score < 5.0 then "#ff9800"
    else if score < 7.0 then "#ffc107"
    else if score < 9.0 then "#4caf50"
    else "#2e7d32"
  }

  /** The colour of a reported zone. */
  function ZoneColor(z: VibeZone): string
  {
    match z
    case Frustrated => "#ff4d4f"
    case Sad => "#faad14"
    case Okay => "#1890ff"
    case Happy => "#52c41a"
    case Excited => "#722ed1"
  }

  const NeutralZoneColor: string := "#d9d9d9"

  /** Zone colours are pairwise distinct and none is the neutral default. */
  lemma ZoneColorsDistinct(z: VibeZone, w: VibeZone)
    ensures z != w ==> ZoneColor(z) != ZoneColor(w)
    ensures ZoneColor(z) != NeutralZoneColor
  {
  }

  /** `getVibeZoneColor`: a known zone gets its colour; an absent value or
      any other string gets the neutral grey. */
  function GetVibeZoneColor(vibeZone: Option<string>): (r: string)
    ensures vibeZone.Some? && ParseZone(vibeZone.value).Some? ==>
              r == ZoneColor(ParseZone(vibeZone.value).value)
    ensures vibeZone.None? || ParseZone(vibeZone.value).None? ==> r == NeutralZoneColor
  {
    if vibeZone == Some("Frustrated") then "#ff4d4f"
    else if vibeZone == Some("Sad") then "#faad14"
    else if vibeZone == Some("Okay") then "#1890ff"
    else if vibeZone == Some("Happy") then "#52c41a"
    else if vibeZone == Some("Excited") then "#722ed1"
    else "#d9d9d9"
  }

  // ---------------------------------------------------------------------
  // groupVibesByZone, calculateAtRiskPercentage
  // ---------------------------------------------------------------------

  predicate HasLabel(v: VibeResponse, l: VibeLabel)
  {
    GetVibeLabel(v.score) == l
  }

  /** The number of responses whose score falls in band `l`. */
  function CountLabel(vibes: seq<VibeResponse>, l: VibeLabel): nat
  {
    |Filter(vibes, v => HasLabel(v, l))|
  }

  lemma CountLabelCons(vibes: seq<VibeResponse>, l: VibeLabel)
    requires vibes != []
    ensures CountLabel(vibes, l)
            == (if HasLabel(vibes[0], l) then 1 else 0) + CountLabel(vibes[1..], l)
  {
  }

  lemma CountLabelSnoc(vibes: seq<VibeResponse>, v: VibeResponse, l: VibeLabel)
    ensures CountLabel(vibes + [v], l) == CountLabel(vibes, l) + (if HasLabel(v, l) then 1 else 0)
  {
    FilterAppend(vibes, [v], x => HasLabel(x, l));
    assert [v][1..] == [];
  }

  lemma CountLabelPrefix(vibes: seq<VibeResponse>, i: nat, l: VibeLabel)
    requires i < |vibes|
    ensures CountLabel(vibes[..i + 1], l)
            == CountLabel(vibes[..i], l) + (if HasLabel(vibes[i], l) then 1 else 0)
  {
    assert vibes[..i + 1] == vibes[..i] + [vibes[i]];
    CountLabelSnoc(vibes[..i], vibes[i], l);
  }

  /** Every response is in exactly one band: the five band counts add up to
      the number of responses. */
  lemma {:induction false} LabelCountsSum(vibes: seq<VibeResponse>)
    ensures CountLabel(vibes, Critical) + CountLabel(vibes, Warning) + CountLabel(vibes, Average)
            + CountLabel(vibes, Good) + CountLabel(vibes, Excellent) == |vibes|
  {
    if vibes != [] {
      LabelCountsSum(vibes[1..]);
      CountLabelCons(vibes, Critical);
      CountLabelCons(vibes, Warning);
      CountLabelCons(vibes, Average);
      CountLabelCons(vibes, Good);
      CountLabelCons(vibes, Excellent);
    }
  }

  /** Counting response `i` in its band keeps every band count exact. */
  lemma CountStep(vibes: seq<VibeResponse>, i: nat, zones: map<VibeLabel, nat>, zones': map<VibeLabel, nat>)
    requires i < |vibes|
    requires zones.Keys == AllLabels
    requires forall l :: l in zones ==> zones[l] == CountLabel(vibes[..i], l)
    requires zones' == zones[GetVibeLabel(vibes[i].score) := zones[GetVibeLabel(vibes[i].score)] + 1]
    ensures zones'.Keys == AllLabels
    ensures forall l :: l in zones' ==> zones'[l] == CountLabel(vibes[..i + 1], l)
  {
    forall l | l in zones'
      ensures zones'[l] == CountLabel(vibes[..i + 1], l)
    {
      CountLabelPrefix(vibes, i, l);
    }
  }

  /** `groupVibesByZone`: a record with all five bands, each starting at 0
      and incremented once per response of that band. */
  method GroupVibesByZone(vibes: seq<VibeResponse>) returns (zones: map<VibeLabel, nat>)
    ensures zones.Keys == AllLabels
    ensures forall l :: l in zones ==> zones[l] == CountLabel(vibes, l)
  {
    zones := map[Critical := 0, Warning := 0, Average := 0, Good := 0, Excellent := 0];
    for i := 0 to |vibes|
      invariant zones.Keys == AllLabels
      invariant forall l :: l in zones ==> zones[l] == CountLabel(vibes[..i], l)
    {
      var band := GetVibeLabel(vibes[i].score);
      ghost var before := zones;
      zones := zones[band := zones[band] + 1];
      CountStep(vibes, i, before, zones);
    }
    assert vibes[..|vibes|] == vibes;
  }

  /** The at-risk responses are exactly those scoring below 5. */
  lemma {:induction false} AtRiskMeansBelowFive(vibes: seq<VibeResponse>)
    ensures CountLabel(vibes, Critical) + CountLabel(vibes, Warning)
            == |Filter(vibes, (v: VibeResponse) => v.score < 5.0)|
  {
    if vibes != [] {
      AtRiskMeansBelowFive(vibes[1..]);
    }
  }

  /** `calculateAtRiskPercentage`: 0 for no responses, otherwise the share of
      Critical and Warning responses as a percentage, which lies in [0, 100]. */
  method CalculateAtRiskPercentage(vibes: seq<VibeResponse>) returns (pct: real)
    ensures |vibes| == 0 ==> pct == 0.0
    ensures |vibes| > 0 ==>
              pct == ((CountLabel(vibes, Critical) + CountLabel(vibes, Warning)) as real
                      / |vibes| as real) * 100.0
    ensures 0.0 <= pct <= 100.0
  {
    if |vibes| == 0 {
      return 0.0;
    }
    var zones := GroupVibesByZone(vibes);
    var atRiskCount := zones[Critical] + zones[Warning];
    LabelCountsSum(vibes);
    pct := (atRiskCount as real / |vibes| as real) * 100.0;
    assert pct == GuardedPercentage(atRiskCount, |vibes|);
  }

  // ---------------------------------------------------------------------
  // isPositiveVibe, isNegativeVibe
  // ---------------------------------------------------------------------

  /** `isPositiveVibe`: a reported zone decides when there is one (Happy,
      Excited or Okay); otherwise a score of at least 6. */
  predicate IsPositiveVibe(v: VibeResponse)
  {
    if Truthy(v.vibeZone) then v.vibeZone.value in ["Happy", "Excited", "Okay"]
    else v.score >= 6.0
  }

  /** `isNegativeVibe`: a reported zone decides when there is one (Frustrated
      or Sad); otherwise a score below 5. */
  predicate IsNegativeVibe(v: VibeResponse)
  {
    if Truthy(v.vibeZone) then v.vibeZone.value in ["Frustrated", "Sad"]
    else v.score < 5.0
  }

  /** No response is both positive and negative; a reported zone that is not
      one of the five known names is neither. */
  lemma PositiveNegativeExclusive(v: VibeResponse)
    ensures !(IsPositiveVibe(v) && IsNegativeVibe(v))
    ensures Truthy(v.vibeZone) && ParseZone(v.vibeZone.value).None? ==>
              !IsPositiveVibe(v) && !IsNegativeVibe(v)
  {
    if Truthy(v.vibeZone) && ParseZone(v.vibeZone.value).None? {
      assert ZoneName(Happy) != v.vibeZone.value;
      assert ZoneName(Excited) != v.vibeZone.value;
      assert ZoneName(Okay) != v.vibeZone.value;
      assert ZoneName(Frustrated) != v.vibeZone.value;
      assert ZoneName(Sad) != v.vibeZone.value;
    }
  }

  /** With a known zone, the predicates split the five zones 3 / 2. */
  lemma PositiveNegativeByZone(v: VibeResponse, z: VibeZone)
    requires v.vibeZone == Some(ZoneName(z))
    ensures IsPositiveVibe(v) <==> z in {Happy, Excited, Okay}
    ensures IsNegativeVibe(v) <==> z in {Frustrated, Sad}
    ensures IsPositiveVibe(v) != IsNegativeVibe(v)
  {
  }

  /** Without a zone the thresholds are asymmetric: a score in [5, 6) is
      neither positive nor negative, and every other score is exactly one. */
  lemma ScoreOnlyBands(v: VibeResponse)
    requires !Truthy(v.vibeZone)
    ensures !IsPositiveVibe(v) && !IsNegativeVibe(v) <==> 5.0 <= v.score < 6.0
  {
  }
}

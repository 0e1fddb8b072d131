/** The `stats` of the assistant card
    (frontend/src/components/charts/AiBotStatsCard.tsx, lines 22-70): the
    escalation count and rate, the number of different employees, the
    first-match keyword tally over the lower-cased summaries, the tally of
    action items and the most common action. */
module AiBotStats {
  import opened Common
  import opened EmployeeTypes
  import opened Sorting
  import opened OverviewCards

  // ---------------------------------------------------------------------
  // Escalations and employees
  // ---------------------------------------------------------------------

  /** `escalationRate`: 0 without conversations, otherwise the escalated
      share in percent, within [0, 100]. */
  function EscalationRate(conversations: seq<AiConversation>): (r: real)
    ensures |conversations| == 0 ==> r == 0.0
    ensures |conversations| > 0 ==>
              r * (|conversations| as real) == 100.0 * (EscalatedConversations(conversations) as real)
    ensures 0.0 <= r <= 100.0
  {
    if |conversations| > 0 then
      (EscalatedConversations(conversations) as real / |conversations| as real) * 100.0
    else 0.0
  }

  function EmployeeIds(conversations: seq<AiConversation>): seq<string>
  {
    Map(conversations, (c: AiConversation) => c.employeeId)
  }

  /** `uniqueEmployees`: the size of the `Set` of employee ids, at most the
      number of conversations. */
  function UniqueEmployees(conversations: seq<AiConversation>): (r: nat)
    ensures r <= |conversations|
  {
    |Distinct(EmployeeIds(conversations))|
  }

  /** The unique count is the number of different employees that had a
      conversation. */
  lemma UniqueEmployeesCountsIds(conversations: seq<AiConversation>)
    ensures UniqueEmployees(conversations)
            == |set i | 0 <= i < |conversations| :: conversations[i].employeeId|
  {
    var ids := EmployeeIds(conversations);
    DistinctIsSetSize(ids);
    var lhs := set x | x in ids;
    var rhs := set i | 0 <= i < |conversations| :: conversations[i].employeeId;
    forall x | x in lhs ensures x in rhs {
      var i :| 0 <= i < |ids| && ids[i] == x;
    }
    forall x | x in rhs ensures x in lhs {
      var i :| 0 <= i < |conversations| && conversations[i].employeeId == x;
      assert ids[i] == x;
    }
    assert lhs == rhs;
  }

  // ---------------------------------------------------------------------
  // Keyword tally
  // ---------------------------------------------------------------------

  /** The keyword a summary is searched for, per zone. */
  function Keyword(z: VibeZone): string
  {
    match z
    case Frustrated => "frustrated"
    case Sad => "sad"
    case Okay => "okay"
    case Happy => "happy"
    case Excited => "excited"
  }

  /** The position of a zone in the order the keywords are tried. */
  function KeywordRank(z: VibeZone): nat
  {
    match z
    case Frustrated => 0
    case Sad => 1
    case Okay => 2
    case Happy => 3
    case Excited => 4
  }

  /** The `if / else if` chain on one summary: the first keyword, in the
      order frustrated, sad, okay, happy, excited, that the lower-cased
      summary contains; none when it contains none of them. */
  function FirstKeyword(summary: string): Option<VibeZone>
  {
    var s := Lower(summary);
    if Includes(s, "frustrated") then Some(Frustrated)
    else if Includes(s, "sad") then Some(Sad)
    else if Includes(s, "okay") then Some(Okay)
    else if Includes(s, "happy") then Some(Happy)
    else if Includes(s, "excited") then Some(Excited)
    else None
  }

  /** The zone counted for a summary is the first, in keyword order, whose
      keyword the lower-cased summary contains; no zone is counted exactly
      when it contains none. */
  lemma FirstKeywordIsFirstMatch(summary: string)
    ensures var r := FirstKeyword(summary);
      && (r.Some? ==> Includes(Lower(summary), Keyword(r.value)))
      && (r.Some? ==>
            forall z :: KeywordRank(z) < KeywordRank(r.value) ==> !Includes(Lower(summary), Keyword(z)))
      && (r.None? <==> forall z :: !Includes(Lower(summary), Keyword(z)))
  {
  }

  /** The number of conversations whose summary is counted for zone `z`. */
  function KeywordCount(conversations: seq<AiConversation>, z: VibeZone): nat
  {
    |Filter(conversations, (c: AiConversation) => FirstKeyword(c.summary) == Some(z))|
  }

  /** The number of conversations whose summary has none of the keywords. */
  function UnmatchedCount(conversations: seq<AiConversation>): nat
  {
    |Filter(conversations, (c: AiConversation) => FirstKeyword(c.summary).None?)|
  }

  lemma KeywordCountPrefix(conversations: seq<AiConversation>, i: nat, z: VibeZone)
    requires i < |conversations|
    ensures KeywordCount(conversations[..i + 1], z)
            == KeywordCount(conversations[..i], z)
               + (if FirstKeyword(conversations[i].summary) == Some(z) then 1 else 0)
  {
    var c := conversations[i];
    assert conversations[..i + 1] == conversations[..i] + [c];
    FilterAppend(conversations[..i], [c], (d: AiConversation) => FirstKeyword(d.summary) == Some(z));
    assert [c][1..] == [];
  }

  /** Each summary is counted for at most one keyword: the five counters and
      the unmatched summaries add up to the number of conversations. */
  lemma {:induction false} KeywordCountsPartition(conversations: seq<AiConversation>)
    ensures KeywordCount(conversations, Frustrated) + KeywordCount(conversations, Sad)
            + KeywordCount(conversations, Okay) + KeywordCount(conversations, Happy)
            + KeywordCount(conversations, Excited) + UnmatchedCount(conversations)
            == |conversations|
  {
    if conversations != [] {
      KeywordCountsPartition(conversations[1..]);
    }
  }

  /** Counting one more summary keeps every zone's counter equal to the
      number of summaries so far whose first keyword is that zone. */
  lemma KeywordStep(conversations: seq<AiConversation>, i: nat, counts: map<VibeZone, nat>, counts': map<VibeZone, nat>)
    requires i < |conversations|
    requires counts.Keys == {Frustrated, Sad, Okay, Happy, Excited}
    requires forall z :: z in counts ==> counts[z] == KeywordCount(conversations[..i], z)
    requires var hit := FirstKeyword(conversations[i].summary);
      counts' == if hit.Some? then counts[hit.value := counts[hit.value] + 1] else counts
    ensures counts'.Keys == {Frustrated, Sad, Okay, Happy, Excited}
    ensures forall z :: z in counts' ==> counts'[z] == KeywordCount(conversations[..i + 1], z)
  {
    forall z | z in counts'
      ensures counts'[z] == KeywordCount(conversations[..i + 1], z)
    {
      KeywordCountPrefix(conversations, i, z);
    }
  }

  /** `vibeCounts`: a counter per zone, starting at 0, incremented once for
      each summary's first keyword. */
  method TallyKeywords(conversations: seq<AiConversation>) returns (counts: map<VibeZone, nat>)
    ensures counts.Keys == {Frustrated, Sad, Okay, Happy, Excited}
    ensures forall z :: z in counts ==> counts[z] == KeywordCount(conversations, z)
  {
    counts := map[Frustrated := 0, Sad := 0, Okay := 0, Happy := 0, Excited := 0];
    for i := 0 to |conversations|
      invariant counts.Keys == {Frustrated, Sad, Okay, Happy, Excited}
      invariant forall z :: z in counts ==> counts[z] == KeywordCount(conversations[..i], z)
    {
      var hit := FirstKeyword(conversations[i].summary);
      ghost var before := counts;
      if hit.Some? {
        counts := counts[hit.value := counts[hit.value] + 1];
      }
      KeywordStep(conversations, i, before, counts);
    }
    assert conversations[..|conversations|] == conversations;
  }

  // ---------------------------------------------------------------------
  // Action tally and most common action
  // ---------------------------------------------------------------------

  /** Every action item of every conversation, in visiting order. */
  function AllActions(conversations: seq<AiConversation>): seq<string>
  {
    if conversations == [] then []
    else AllActions(conversations[..|conversations| - 1]) + conversations[|conversations| - 1].actionItems
  }

  /** What the `actionItems` record and its key order hold after the items
      `seen` have been counted: one key per different item, in order of first
      sight, mapped to the number of its occurrences. */
  ghost predicate TalliedSoFar(seen: seq<string>, tally: map<string, nat>, keys: seq<string>)
  {
    && keys == Distinct(seen)
    && (forall a :: a in tally <==> a in keys)
    && (forall a :: a in tally ==> tally[a] == multiset(seen)[a])
  }

  /** `actionItems[item] = (actionItems[item] || 0) + 1` keeps the tally
      exact. */
  lemma TallyStep(seen: seq<string>, item: string,
                  tally: map<string, nat>, keys: seq<string>,
                  tally': map<string, nat>, keys': seq<string>)
    requires TalliedSoFar(seen, tally, keys)
    requires tally' == tally[item := (if item in tally then tally[item] else 0) + 1]
    requires keys' == if item in tally then keys else keys + [item]
    ensures TalliedSoFar(seen + [item], tally', keys')
  {
    DistinctSnoc(seen, item);
    assert multiset(seen + [item]) == multiset(seen) + multiset{item};
    if item !in tally {
      assert item !in seen;
    }
  }

  lemma PrefixSnoc<T>(prefix: seq<T>, items: seq<T>, j: nat)
    requires j < |items|
    ensures prefix + items[..j + 1] == (prefix + items[..j]) + [items[j]]
  {
    assert items[..j + 1] == items[..j] + [items[j]];
  }

  lemma AllActionsPrefix(conversations: seq<AiConversation>, i: nat)
    requires i < |conversations|
    ensures AllActions(conversations[..i + 1]) == AllActions(conversations[..i]) + conversations[i].actionItems
  {
    assert conversations[..i + 1][..i] == conversations[..i];
  }

  /** The inner `forEach`: counts one conversation's action items on top of
      a tally of the items `seen` before them. */
  method TallyItems(ghost seen: seq<string>, items: seq<string>, tally0: map<string, nat>, keys0: seq<string>)
    returns (tally: map<string, nat>, keys: seq<string>)
    requires TalliedSoFar(seen, tally0, keys0)
    ensures TalliedSoFar(seen + items, tally, keys)
  {
    tally, keys := tally0, keys0;
    ghost var visited := seen;
    assert seen + items[..0] == seen;
    for j := 0 to |items|
      invariant visited == seen + items[..j]
      invariant TalliedSoFar(visited, tally, keys)
    {
      var item := items[j];
      ghost var tallyBefore, keysBefore := tally, keys;
      keys := if item in tally then keys else keys + [item];
      tally := tally[item := (if item in tally then tally[item] else 0) + 1];
      TallyStep(visited, item, tallyBefore, keysBefore, tally, keys);
      PrefixSnoc(seen, items, j);
      visited := visited + [item];
    }
    assert items[..|items|] == items;
  }

  /** The nested loops that fill `actionItems`; `keys` is the key order of the
      record (the order of `Object.entries`). */
  method TallyActions(conversations: seq<AiConversation>) returns (tally: map<string, nat>, keys: seq<string>)
    ensures TalliedSoFar(AllActions(conversations), tally, keys)
  {
    tally := map[];
    keys := [];
    for i := 0 to |conversations|
      invariant TalliedSoFar(AllActions(conversations[..i]), tally, keys)
    {
      ghost var seen := AllActions(conversations[..i]);
      var items := conversations[i].actionItems;
      tally, keys := TallyItems(seen, items, tally, keys);
      AllActionsPrefix(conversations, i);
    }
    assert conversations[..|conversations|] == conversations;
  }

  /** The tallies add up to the number of action items over all
      conversations. */
  lemma ActionTallyTotal(conversations: seq<AiConversation>, tally: map<string, nat>, keys: seq<string>)
    requires TalliedSoFar(AllActions(conversations), tally, keys)
    ensures SumMultiplicities(keys, multiset(AllActions(conversations))) == |AllActions(conversations)|
    ensures forall k :: 0 <= k < |keys| ==> tally[keys[k]] == multiset(AllActions(conversations))[keys[k]]
  {
    var all := AllActions(conversations);
    DistinctCovers(all);
    TallyTotal(all, keys);
  }

  /** One `[action, count]` pair of `Object.entries(actionItems)`. */
  datatype ActionCount = ActionCount(action: string, count: nat)

  function Entries(tally: map<string, nat>, keys: seq<string>): seq<ActionCount>
    requires forall k :: 0 <= k < |keys| ==> keys[k] in tally
  {
    seq(|keys|, k requires 0 <= k < |keys| => ActionCount(keys[k], tally[keys[k]]))
  }

  /** The comparator `(a, b) => b[1] - a[1]`: `a` may stay before `b` when its
      count is at least `b`'s. */
  predicate CountGe(a: ActionCount, b: ActionCount)
  {
    a.count >= b.count
  }

  lemma CountGeTotalPreorder()
    ensures TotalPreorder(CountGe)
  {
  }

  const NoActions: string := "No actions recorded"

  /** `mostCommonAction`: the first action after sorting by count, highest
      first, or the fallback when there is none or it is the empty string. */
  function MostCommonAction(entries: seq<ActionCount>): string
  {
    var sorted := SortBy(entries, CountGe);
    if |sorted| == 0 || sorted[0].action == "" then NoActions else sorted[0].action
  }

  /** The head of the sorted entries is an entry with the highest count. */
  lemma SortedHeadIsMaximal(entries: seq<ActionCount>)
    requires entries != []
    ensures SortBy(entries, CountGe)[0] in entries
    ensures forall e :: e in entries ==> SortBy(entries, CountGe)[0].count >= e.count
  {
    var sorted := SortBy(entries, CountGe);
    CountGeTotalPreorder();
    SortBySorted(entries, CountGe);
    assert sorted[0] in multiset(entries);
    forall e | e in entries ensures sorted[0].count >= e.count {
      assert e in multiset(sorted);
      var j :| 0 <= j < |sorted| && sorted[j] == e;
      if j > 0 {
        assert CountGe(sorted[0], sorted[j]);
      }
    }
  }

  /** When every entry carries an action's true number of occurrences and
      every action has an entry, the action shown occurs most often, and an
      action is shown whenever there is one and none is the empty string. */
  lemma HeadIsMostFrequent(all: seq<string>, entries: seq<ActionCount>)
    requires forall k :: 0 <= k < |entries| ==>
               entries[k].action in all && entries[k].count == multiset(all)[entries[k].action]
    requires forall a :: a in all ==> exists k :: 0 <= k < |entries| && entries[k].action == a
    ensures entries == [] ==> MostCommonAction(entries) == NoActions
    ensures var top := MostCommonAction(entries);
      top != NoActions ==> top in all && forall a :: a in all ==> multiset(all)[top] >= multiset(all)[a]
    ensures var top := MostCommonAction(entries);
      all != [] && "" !in all ==> top in all && forall a :: a in all ==> multiset(all)[top] >= multiset(all)[a]
  {
    if all != [] {
      assert all[0] in all;
      var k0 :| 0 <= k0 < |entries| && entries[k0].action == all[0];
    }
    if entries != [] {
      SortedHeadIsMaximal(entries);
      var head := SortBy(entries, CountGe)[0];
      var i :| 0 <= i < |entries| && entries[i] == head;
      assert head.action in all;
      forall a | a in all ensures multiset(all)[head.action] >= multiset(all)[a] {
        var k :| 0 <= k < |entries| && entries[k].action == a;
        assert entries[k] in entries;
      }
    }
  }

  /** The entries of an exact tally: one per action that occurs, each with
      its number of occurrences. */
  lemma EntriesCountOccurrences(all: seq<string>, tally: map<string, nat>, keys: seq<string>)
    requires TalliedSoFar(all, tally, keys)
    ensures all == [] <==> Entries(tally, keys) == []
    ensures forall k :: 0 <= k < |Entries(tally, keys)| ==>
              && Entries(tally, keys)[k].action in all
              && Entries(tally, keys)[k].count == multiset(all)[Entries(tally, keys)[k].action]
    ensures forall a :: a in all ==>
              exists k :: 0 <= k < |Entries(tally, keys)| && Entries(tally, keys)[k].action == a
  {
    var entries := Entries(tally, keys);
    if all != [] {
      assert all[0] in keys;
    }
    forall a | a in all ensures exists k :: 0 <= k < |entries| && entries[k].action == a {
      var k :| 0 <= k < |keys| && keys[k] == a;
      assert entries[k].action == a;
    }
  }

  /** With no action items the fallback is shown. When there are action
      items and none is the empty string, the text shown is an action item
      that occurs at least as often as every other; and whenever the text
      shown is not the fallback, it is such an action item. */
  lemma MostCommonActionSpec(conversations: seq<AiConversation>, tally: map<string, nat>, keys: seq<string>)
    requires TalliedSoFar(AllActions(conversations), tally, keys)
    ensures AllActions(conversations) == [] ==> MostCommonAction(Entries(tally, keys)) == NoActions
    ensures var all := AllActions(conversations);
      var top := MostCommonAction(Entries(tally, keys));
      top != NoActions ==>
        && top in all
        && forall a :: a in all ==> multiset(all)[top] >= multiset(all)[a]
    ensures var all := AllActions(conversations);
      var top := MostCommonAction(Entries(tally, keys));
      all != [] && "" !in all ==>
        && top in all
        && forall a :: a in all ==> multiset(all)[top] >= multiset(all)[a]
  {
    var all := AllActions(conversations);
    EntriesCountOccurrences(all, tally, keys);
    HeadIsMostFrequent(all, Entries(tally, keys));
  }

  // ---------------------------------------------------------------------
  // The card's stats
  // ---------------------------------------------------------------------

  datatype Stats = Stats(
    totalConversations: nat,
    escalatedCount: nat,
    escalationRate: real,
    uniqueEmployees: nat,
    vibeCounts: map<VibeZone, nat>,
    mostCommonAction: string)

  /** `stats` for the given conversations. */
  method ComputeStats(conversations: seq<AiConversation>) returns (s: Stats)
    ensures s.totalConversations == |conversations|
    ensures s.escalatedCount == EscalatedConversations(conversations) <= s.totalConversations
    ensures s.escalationRate == EscalationRate(conversations)
    ensures s.uniqueEmployees == UniqueEmployees(conversations) <= s.totalConversations
    ensures s.vibeCounts.Keys == {Frustrated, Sad, Okay, Happy, Excited}
    ensures forall z :: z in s.vibeCounts ==> s.vibeCounts[z] == KeywordCount(conversations, z)
    ensures AllActions(conversations) == [] ==> s.mostCommonAction == NoActions
    ensures s.mostCommonAction != NoActions ==>
              && s.mostCommonAction in AllActions(conversations)
              && forall a :: a in AllActions(conversations) ==>
                   multiset(AllActions(conversations))[s.mostCommonAction] >= multiset(AllActions(conversations))[a]
    ensures AllActions(conversations) != [] && "" !in AllActions(conversations) ==>
              && s.mostCommonAction in AllActions(conversations)
              && forall a :: a in AllActions(conversations) ==>
                   multiset(AllActions(conversations))[s.mostCommonAction] >= multiset(AllActions(conversations))[a]
  {
    var vibeCounts := TallyKeywords(conversations);
    var tally, keys := TallyActions(conversations);
    MostCommonActionSpec(conversations, tally, keys);
    EscalatedPartition(conversations);
    s := Stats(
      |conversations|,
      EscalatedConversations(conversations),
      EscalationRate(conversations),
      UniqueEmployees(conversations),
      vibeCounts,
      MostCommonAction(Entries(tally, keys)));
  }
}

/** The employee list (frontend/src/components/employeeList/EmployeeTable.tsx,
    lines 23-91): the table's state and its event handlers, the search
    filter, the sort by mood rank or by text, and the page slice.

    `localeCompare` is an abstract collation `collate(a, b)`, "a may come
    before b", assumed to be a total preorder. */
module EmployeeTable {
  import opened Common
  import opened EmployeeTypes
  import opened VibeUtils
  import opened Sorting

  datatype SortField = Name | Department | Position | LastVibe

  datatype SortOrder = Asc | Desc

  // ---------------------------------------------------------------------
  // Mood colour and rank
  // ---------------------------------------------------------------------

  /** `getVibeColor`: the five moods get their fixed colours, an absent or
      unknown mood the neutral grey; it agrees with `getVibeZoneColor`. */
  function VibeColor(vibe: Option<string>): (r: string)
    ensures r == GetVibeZoneColor(vibe)
    ensures forall z :: vibe == Some(ZoneName(z)) ==> r == ZoneColor(z)
    ensures vibe.None? || ParseZone(vibe.value).None? ==> r == NeutralZoneColor
  {
    match vibe
    case Some("Frustrated") => "#ff4d4f"
    case Some("Sad") => "#faad14"
    case Some("Okay") => "#1890ff"
    case Some("Happy") => "#52c41a"
    case Some("Excited") => "#722ed1"
    case _ => "#d9d9d9"
  }

  /** `vibeOrder[lastVibe] || 0`: the position of the mood from Frustrated
      (1) to Excited (5), and 0 for an absent or unknown mood. */
  function Rank(lastVibe: Option<string>): (r: nat)
    ensures r <= 5
    ensures r > 0 ==> lastVibe == Some(ZoneName(AllZones[r - 1]))
    ensures r == 0 <==> lastVibe.None? || ParseZone(lastVibe.value).None?
  {
    if lastVibe == Some("Frustrated") then 1
    else if lastVibe == Some("Sad") then 2
    else if lastVibe == Some("Okay") then 3
    else if lastVibe == Some("Happy") then 4
    else if lastVibe == Some("Excited") then 5
    else 0
  }

  /** The rank follows the order of the moods from worst to best. */
  lemma RankFollowsZoneOrder(i: nat, j: nat)
    requires i < j < |AllZones|
    ensures 0 < Rank(Some(ZoneName(AllZones[i]))) < Rank(Some(ZoneName(AllZones[j])))
  {
  }

  // ---------------------------------------------------------------------
  // Search
  // ---------------------------------------------------------------------

  /** The position as searched and sorted; an employee without one has the
      empty text. */
  function PositionText(e: Employee): string
  {
    if e.position.Some? then e.position.value else ""
  }

  /** The search predicate as written: `name`, then `department`, then
      `position` are lower-cased and searched, stopping at the first hit;
      `None` is the `TypeError` of lower-casing an absent position. */
  function MatchesAsWritten(e: Employee, term: string): (r: Option<bool>)
    ensures r.None? <==>
              && !Includes(Lower(e.name), Lower(term))
              && !Includes(Lower(e.department), Lower(term))
              && e.position.None?
  {
    var t := Lower(term);
    if Includes(Lower(e.name), t) then Some(true)
    else if Includes(Lower(e.department), t) then Some(true)
    else if e.position.None? then None
    else Some(Includes(Lower(e.position.value), t))
  }

  /** The search predicate with an absent position read as empty text. */
  predicate Matches(e: Employee, term: string)
  {
    var t := Lower(term);
    Includes(Lower(e.name), t) || Includes(Lower(e.department), t)
    || Includes(Lower(PositionText(e)), t)
  }

  /** Where the written predicate does not throw it agrees with `Matches`. */
  lemma MatchesAsWrittenAgrees(e: Employee, term: string)
    ensures MatchesAsWritten(e, term).Some? ==> MatchesAsWritten(e, term).value == Matches(e, term)
  {
  }

  /** An employee without a position whose name and department do not hold
      the term makes the written search throw, where `Matches` rejects it. */
  lemma MatchesAsWrittenThrows()
    ensures var e := Employee("1", "Ann", "Sales", None, None, None, None, None);
      MatchesAsWritten(e, "x") == None && !Matches(e, "x")
  {
    var e := Employee("1", "Ann", "Sales", None, None, None, None, None);
    assert Lower("x") == "x";
    assert Lower("Ann") == "ann";
    assert Lower("Sales") == "sales";
    assert Lower(PositionText(e)) == "";
    LacksChar("ann", 'x');
    LacksChar("sales", 'x');
  }

  /** Text without the character `c` does not include the one-character
      text `[c]`. */
  lemma LacksChar(hay: string, c: char)
    requires forall i :: 0 <= i < |hay| ==> hay[i] != c
    ensures !Includes(hay, [c])
  {
    forall i | 0 <= i <= |hay| - 1 ensures !OccursAt(hay, [c], i) {
      assert hay[i..i + 1][0] == hay[i];
    }
  }

  /** `filteredEmployees`. */
  function Search(employees: seq<Employee>, term: string): seq<Employee>
  {
    Filter(employees, (e: Employee) => Matches(e, term))
  }

  /** The search keeps exactly the employees matching the term, in their
      order. */
  lemma SearchKeeps(employees: seq<Employee>, term: string)
    ensures forall e :: e in Search(employees, term) <==> e in employees && Matches(e, term)
    ensures KeepsOrder(Search(employees, term), employees)
  {
    var p := (e: Employee) => Matches(e, term);
    FilterMembers(employees, p);
    FilterKeepsOrder(employees, p);
  }

  /** An empty search term keeps every employee. */
  lemma EmptySearchKeepsAll(employees: seq<Employee>)
    ensures Search(employees, "") == employees
  {
    forall i | 0 <= i < |employees| ensures Matches(employees[i], "") {
      IncludesEmpty(Lower(employees[i].name));
    }
    FilterAll(employees, (e: Employee) => Matches(e, ""));
  }

  // ---------------------------------------------------------------------
  // Sort
  // ---------------------------------------------------------------------

  /** `a[sortField].toLowerCase()` as written; `None` is the `TypeError`
      of an absent position. */
  function SortKeyAsWritten(e: Employee, field: SortField): (r: Option<string>)
    requires field != LastVibe
    ensures r.None? <==> field == Position && e.position.None?
  {
    match field
    case Name => Some(Lower(e.name))
    case Department => Some(Lower(e.department))
    case Position => if e.position.Some? then Some(Lower(e.position.value)) else None
  }

  /** The text sort key, with an absent position read as empty text. */
  function SortKey(e: Employee, field: SortField): (r: string)
    requires field != LastVibe
    ensures SortKeyAsWritten(e, field).Some? ==> r == SortKeyAsWritten(e, field).value
  {
    match field
    case Name => Lower(e.name)
    case Department => Lower(e.department)
    case Position => Lower(PositionText(e))
  }

  /** Sorting two employees by position when one has none throws as
      written. */
  lemma SortKeyAsWrittenThrows()
    ensures SortKeyAsWritten(Employee("1", "Ann", "Sales", None, None, None, None, None), Position) == None
    ensures SortKey(Employee("1", "Ann", "Sales", None, None, None, None, None), Position) == ""
  {
  }

  /** The comparator of `[...filteredEmployees].sort(...)`, as "a may come
      before b" (the comparator returns a value <= 0). */
  function Comparator(field: SortField, order: SortOrder, collate: (string, string) -> bool)
    : (Employee, Employee) -> bool
  {
    (a: Employee, b: Employee) =>
      if field == LastVibe then
        (if order == Asc then Rank(a.lastVibe) <= Rank(b.lastVibe) else Rank(b.lastVibe) <= Rank(a.lastVibe))
      else
        (if order == Asc then collate(SortKey(a, field), SortKey(b, field))
         else collate(SortKey(b, field), SortKey(a, field)))
  }

  /** For a total-preorder collation every comparator is a total preorder,
      so the sort is well defined. */
  lemma ComparatorIsTotalPreorder(field: SortField, order: SortOrder, collate: (string, string) -> bool)
    requires TotalPreorder(collate)
    ensures TotalPreorder(Comparator(field, order, collate))
  {
    var le := Comparator(field, order, collate);
    if field != LastVibe {
      forall a, b, c | le(a, b) && le(b, c) ensures le(a, c) {
        var ka, kb, kc := SortKey(a, field), SortKey(b, field), SortKey(c, field);
        if order == Asc {
          assert collate(ka, kb) && collate(kb, kc);
        } else {
          assert collate(kc, kb) && collate(kb, ka);
        }
      }
      forall a, b ensures le(a, b) || le(b, a) {
        assert collate(SortKey(a, field), SortKey(b, field)) || collate(SortKey(b, field), SortKey(a, field));
      }
    }
  }

  /** `sortedEmployees`. */
  function SortEmployees(employees: seq<Employee>, field: SortField, order: SortOrder,
                         collate: (string, string) -> bool): seq<Employee>
  {
    SortBy(employees, Comparator(field, order, collate))
  }

  /** The sort is a permutation of its input; by mood it is nondecreasing in
      rank ascending and nonincreasing descending, and by text it follows the
      collation of the lower-cased keys, reversed for descending. */
  lemma SortEmployeesSpec(employees: seq<Employee>, field: SortField, order: SortOrder,
                          collate: (string, string) -> bool)
    requires TotalPreorder(collate)
    ensures var r := SortEmployees(employees, field, order, collate);
      && multiset(r) == multiset(employees)
      && (field == LastVibe && order == Asc ==>
            forall i, j :: 0 <= i < j < |r| ==> Rank(r[i].lastVibe) <= Rank(r[j].lastVibe))
      && (field == LastVibe && order == Desc ==>
            forall i, j :: 0 <= i < j < |r| ==> Rank(r[i].lastVibe) >= Rank(r[j].lastVibe))
      && (field != LastVibe && order == Asc ==>
            forall i, j :: 0 <= i < j < |r| ==> collate(SortKey(r[i], field), SortKey(r[j], field)))
      && (field != LastVibe && order == Desc ==>
            forall i, j :: 0 <= i < j < |r| ==> collate(SortKey(r[j], field), SortKey(r[i], field)))
  {
    var le := Comparator(field, order, collate);
    ComparatorIsTotalPreorder(field, order, collate);
    SortBySorted(employees, le);
  }

  // ---------------------------------------------------------------------
  // Pagination
  // ---------------------------------------------------------------------

  /** `s.slice(page * rpp, page * rpp + rpp)`: both ends are clamped to the
      length. */
  function Paginate<T>(s: seq<T>, page: nat, rpp: nat): (r: seq<T>)
    ensures |r| <= rpp
    ensures page * rpp + rpp <= |s| ==> |r| == rpp
    ensures page * rpp >= |s| ==> r == []
    ensures forall k :: 0 <= k < |r| ==> page * rpp + k < |s| && r[k] == s[page * rpp + k]
  {
    var start := if page * rpp <= |s| then page * rpp else |s|;
    var end := if page * rpp + rpp <= |s| then page * rpp + rpp else |s|;
    s[start..end]
  }

  /** The first `n` pages one after another. */
  function Pages<T>(s: seq<T>, rpp: nat, n: nat): seq<T>
  {
    if n == 0 then [] else Pages(s, rpp, n - 1) + Paginate(s, n - 1, rpp)
  }

  /** Consecutive pages concatenate back to the list: the first `n` pages
      are its first `n * rpp` elements, and enough pages are all of it. */
  lemma {:induction false} PagesConcatenate<T>(s: seq<T>, rpp: nat, n: nat)
    ensures n * rpp <= |s| ==> Pages(s, rpp, n) == s[..n * rpp]
    ensures n * rpp >= |s| ==> Pages(s, rpp, n) == s
  {
    if n > 0 {
      var m := n - 1;
      PagesConcatenate(s, rpp, m);
      var lo, hi := m * rpp, n * rpp;
      NextPageStart(m, rpp);
      PageSlice(s, m, rpp, lo, hi);
      assert Pages(s, rpp, n) == Pages(s, rpp, m) + Paginate(s, m, rpp);
      if hi <= |s| {
        assert s[..lo] + s[lo..hi] == s[..hi];
      } else if lo <= |s| {
        assert s[..lo] + s[lo..] == s;
      }
    }
  }

  /** A page of a sorted sequence is sorted. */
  lemma PageOfSorted<T>(s: seq<T>, page: nat, rpp: nat, le: (T, T) -> bool)
    requires SortedBy(s, le)
    ensures SortedBy(Paginate(s, page, rpp), le)
  {
    var r := Paginate(s, page, rpp);
    forall i, j | 0 <= i < j < |r| ensures le(r[i], r[j]) {
      assert r[i] == s[page * rpp + i] && r[j] == s[page * rpp + j];
    }
  }

  /** The next page starts one page further on. */
  lemma NextPageStart(m: nat, rpp: nat)
    ensures (m + 1) * rpp == m * rpp + rpp
  {
  }

  /** Page `page` is the slice from `lo` to `hi`, each cut at the end. */
  lemma PageSlice<T>(s: seq<T>, page: nat, rpp: nat, lo: nat, hi: nat)
    requires lo == page * rpp && hi == lo + rpp
    ensures hi <= |s| ==> Paginate(s, page, rpp) == s[lo..hi]
    ensures lo <= |s| < hi ==> Paginate(s, page, rpp) == s[lo..]
    ensures |s| < lo ==> Paginate(s, page, rpp) == []
  {
  }

  // ---------------------------------------------------------------------
  // The component state
  // ---------------------------------------------------------------------

  /** The five `useState` hooks of the table. */
  class EmployeeTable {
    var page: nat
    var rowsPerPage: nat
    var searchTerm: string
    var sortField: SortField
    var sortOrder: SortOrder

    /** The initial state: first page, ten rows, no search, by mood
        ascending. */
    constructor ()
      ensures page == 0 && rowsPerPage == 10 && searchTerm == ""
      ensures sortField == LastVibe && sortOrder == Asc
    {
      page := 0;
      rowsPerPage := 10;
      searchTerm := "";
      sortField := LastVibe;
      sortOrder := Asc;
    }

    /** `handleChangePage`: moves to `newPage` and changes nothing else. */
    method HandleChangePage(newPage: nat)
      modifies this
      ensures page == newPage
      ensures rowsPerPage == old(rowsPerPage) && searchTerm == old(searchTerm)
      ensures sortField == old(sortField) && sortOrder == old(sortOrder)
    {
      page := newPage;
    }

    /** `handleChangeRowsPerPage`: takes the parsed value and goes back to
        the first page. */
    method HandleChangeRowsPerPage(value: nat)
      modifies this
      ensures rowsPerPage == value && page == 0
      ensures searchTerm == old(searchTerm)
      ensures sortField == old(sortField) && sortOrder == old(sortOrder)
    {
      rowsPerPage := value;
      page := 0;
    }

    /** `handleSearchChange`: takes the new term and goes back to the first
        page. */
    method HandleSearchChange(value: string)
      modifies this
      ensures searchTerm == value && page == 0
      ensures rowsPerPage == old(rowsPerPage)
      ensures sortField == old(sortField) && sortOrder == old(sortOrder)
    {
      searchTerm := value;
      page := 0;
    }

    /** `handleSort`: the state after a click on a column header is
        `NextSort` of the state before. */
    method HandleSort(field: SortField)
      modifies this
      ensures (sortField, sortOrder) == NextSort(old(sortField), old(sortOrder), field)
      ensures page == old(page) && rowsPerPage == old(rowsPerPage) && searchTerm == old(searchTerm)
    {
      if sortField == field {
        sortOrder := if sortOrder == Asc then Desc else Asc;
      } else {
        sortField := field;
        sortOrder := Asc;
      }
    }

    /** The rows on screen: the current page of the sorted search result. */
    function Visible(employees: seq<Employee>, collate: (string, string) -> bool): (r: seq<Employee>)
      reads this
      ensures |r| <= rowsPerPage
      ensures forall e :: e in r ==> e in employees && Matches(e, searchTerm)
    {
      var sorted := SortEmployees(Search(employees, searchTerm), sortField, sortOrder, collate);
      var shown := Paginate(sorted, page, rowsPerPage);
      SearchKeeps(employees, searchTerm);
      assert forall e :: e in shown ==> e in multiset(sorted);
      shown
    }

    /** The rows on screen are the slice of the sorted search result that
        starts at row `page * rowsPerPage` and holds `rowsPerPage` rows, cut
        short at the end of the result; past the end there are none. */
    lemma VisibleIsPage(employees: seq<Employee>, collate: (string, string) -> bool, lo: nat, hi: nat)
      requires lo == page * rowsPerPage && hi == lo + rowsPerPage
      ensures var sorted := SortEmployees(Search(employees, searchTerm), sortField, sortOrder, collate);
        && (hi <= |sorted| ==> Visible(employees, collate) == sorted[lo..hi])
        && (lo <= |sorted| < hi ==> Visible(employees, collate) == sorted[lo..])
        && (|sorted| < lo ==> Visible(employees, collate) == [])
    {
      var sorted := SortEmployees(Search(employees, searchTerm), sortField, sortOrder, collate);
      VisibleUnfold(employees, collate);
      PageSlice(sorted, page, rowsPerPage, lo, hi);
    }

    /** Unfolds `Visible` once, outside the slice reasoning. */
    lemma VisibleUnfold(employees: seq<Employee>, collate: (string, string) -> bool)
      ensures Visible(employees, collate)
              == Paginate(SortEmployees(Search(employees, searchTerm), sortField, sortOrder, collate), page, rowsPerPage)
    {
    }

    /** The rows on screen are in the order of the current column and
        direction. */
    lemma VisibleSorted(employees: seq<Employee>, collate: (string, string) -> bool)
      requires TotalPreorder(collate)
      ensures SortedBy(Visible(employees, collate), Comparator(sortField, sortOrder, collate))
    {
      var le := Comparator(sortField, sortOrder, collate);
      var sorted := SortEmployees(Search(employees, searchTerm), sortField, sortOrder, collate);
      ComparatorIsTotalPreorder(sortField, sortOrder, collate);
      SortBySorted(Search(employees, searchTerm), le);
      PageOfSorted(sorted, page, rowsPerPage, le);
    }
  }

  /** The sort state after a click on `clicked`. */
  function NextSort(field: SortField, order: SortOrder, clicked: SortField): (SortField, SortOrder)
  {
    if field == clicked then (field, if order == Asc then Desc else Asc)
    else (clicked, Asc)
  }

  /** A click always sorts by the clicked column; a click on the current
      column flips the direction and a second click restores it, while a
      click on another column starts ascending. */
  lemma NextSortSpec(field: SortField, order: SortOrder, clicked: SortField)
    ensures NextSort(field, order, clicked).0 == clicked
    ensures field == clicked ==> NextSort(field, order, clicked).1 != order
    ensures field == clicked ==>
              var (f, o) := NextSort(field, order, clicked); NextSort(f, o, clicked) == (field, order)
    ensures field != clicked ==> NextSort(field, order, clicked).1 == Asc
  {
  }
}

/** Small value-level vocabulary shared by the dashboard components: optional
    values, JavaScript division, array filter / Set / reduce, and ASCII string
    helpers. */
module Common {

  datatype Option<+T> = None | Some(value: T)

  /** A JavaScript number produced by a division whose divisor may be zero. */
  datatype JsNumber = Finite(value: real) | NaN | Infinity | NegativeInfinity

  /** `a / b` as JavaScript evaluates it, on exact reals. */
  function Divide(a: real, b: real): (r: JsNumber)
    ensures b != 0.0 ==> r.Finite? && r.value * b == a
    ensures b == 0.0 ==> !r.Finite?
    ensures b == 0.0 ==> (r.NaN? <==> a == 0.0)
    ensures r == Infinity ==> a > 0.0
  {
    if b != 0.0 then Finite(a / b)
    else if a == 0.0 then NaN
    else if a > 0.0 then Infinity
    else NegativeInfinity
  }

  /** JavaScript multiplication of a number by a positive constant: NaN and
      the infinities are kept, a finite value is scaled. */
  function Scale(x: JsNumber, c: real): (r: JsNumber)
    requires c > 0.0
    ensures x.Finite? <==> r.Finite?
    ensures x.Finite? ==> r.value == x.value * c
    ensures !x.Finite? ==> r == x
  {
    match x
    case Finite(v) => Finite(v * c)
    case _ => x
  }

  /** `whole > 0 ? (part / whole) * 100 : 0`, the guarded percentage the
      dashboard cards display. */
  function GuardedPercentage(part: nat, whole: nat): (r: real)
    ensures whole == 0 ==> r == 0.0
    ensures whole > 0 ==> r * (whole as real) == 100.0 * (part as real)
    ensures part <= whole ==> 0.0 <= r <= 100.0
  {
    if whole > 0 then (part as real / whole as real) * 100.0 else 0.0
  }

  // ---------------------------------------------------------------------
  // Array.prototype.filter
  // ---------------------------------------------------------------------

  /** `s.filter(p)`: the elements of `s` satisfying `p`, in their order. */
  function Filter<T>(s: seq<T>, p: T -> bool): (r: seq<T>)
    ensures |r| <= |s|
  {
    if s == [] then []
    else (if p(s[0]) then [s[0]] else []) + Filter(s[1..], p)
  }

  /** `Filter` keeps exactly the elements satisfying `p`, each as often as it
      occurs. */
  lemma FilterMembers<T>(s: seq<T>, p: T -> bool)
    ensures forall i :: 0 <= i < |Filter(s, p)| ==> Filter(s, p)[i] in s && p(Filter(s, p)[i])
    ensures forall i :: 0 <= i < |s| && p(s[i]) ==> s[i] in Filter(s, p)
    ensures multiset(Filter(s, p)) <= multiset(s)
  {
    FilterSubMultiset(s, p);
    FilterSatisfies(s, p);
    FilterKeepsSatisfying(s, p);
    forall i | 0 <= i < |Filter(s, p)| ensures Filter(s, p)[i] in s {
      assert Filter(s, p)[i] in multiset(Filter(s, p));
    }
  }

  lemma {:induction false} FilterSubMultiset<T>(s: seq<T>, p: T -> bool)
    ensures multiset(Filter(s, p)) <= multiset(s)
  {
    if s != [] {
      FilterSubMultiset(s[1..], p);
      var head := if p(s[0]) then [s[0]] else [];
      assert Filter(s, p) == head + Filter(s[1..], p);
      assert multiset(Filter(s, p)) == multiset(head) + multiset(Filter(s[1..], p));
      assert s == [s[0]] + s[1..];
      assert multiset(s) == multiset{s[0]} + multiset(s[1..]);
    }
  }

  lemma {:induction false} FilterSatisfies<T>(s: seq<T>, p: T -> bool)
    ensures forall x :: x in Filter(s, p) ==> p(x)
  {
    if s != [] {
      FilterSatisfies(s[1..], p);
    }
  }

  lemma {:induction false} FilterKeepsSatisfying<T>(s: seq<T>, p: T -> bool)
    ensures forall i :: 0 <= i < |s| && p(s[i]) ==> s[i] in Filter(s, p)
  {
    if s != [] {
      FilterKeepsSatisfying(s[1..], p);
      assert forall i :: 1 <= i < |s| ==> s[i] == s[1..][i - 1];
    }
  }

  lemma {:induction false} FilterAppend<T>(a: seq<T>, b: seq<T>, p: T -> bool)
    ensures Filter(a + b, p) == Filter(a, p) + Filter(b, p)
  {
    if a == [] {
      assert a + b == b;
    } else {
      var head := if p(a[0]) then [a[0]] else [];
      assert (a + b)[0] == a[0];
      assert (a + b)[1..] == a[1..] + b;
      calc {
        Filter(a + b, p);
        head + Filter(a[1..] + b, p);
        { FilterAppend(a[1..], b, p); }
        head + (Filter(a[1..], p) + Filter(b, p));
        (head + Filter(a[1..], p)) + Filter(b, p);
        Filter(a, p) + Filter(b, p);
      }
    }
  }

  /** `Filter` keeps the order of the elements it keeps. */
  lemma {:induction false} FilterOrder<T>(s: seq<T>, p: T -> bool, i: nat, j: nat)
    requires i < j < |Filter(s, p)|
    ensures exists a, b :: 0 <= a < b < |s| && s[a] == Filter(s, p)[i] && s[b] == Filter(s, p)[j]
  {
    var t := Filter(s[1..], p);
    if p(s[0]) {
      assert Filter(s, p) == [s[0]] + t;
      if i == 0 {
        FilterMembers(s[1..], p);
        assert t[j - 1] in s[1..];
        var b :| 0 <= b < |s[1..]| && s[1..][b] == t[j - 1];
        assert s[0] == Filter(s, p)[i] && s[b + 1] == Filter(s, p)[j];
      } else {
        FilterOrder(s[1..], p, i - 1, j - 1);
        var a, b :| 0 <= a < b < |s[1..]| && s[1..][a] == t[i - 1] && s[1..][b] == t[j - 1];
        assert s[a + 1] == Filter(s, p)[i] && s[b + 1] == Filter(s, p)[j];
      }
    } else {
      assert Filter(s, p) == t;
      FilterOrder(s[1..], p, i, j);
      var a, b :| 0 <= a < b < |s[1..]| && s[1..][a] == t[i] && s[1..][b] == t[j];
      assert s[a + 1] == Filter(s, p)[i] && s[b + 1] == Filter(s, p)[j];
    }
  }

  /** `x` occurs in `s` before some occurrence of `y`. */
  ghost predicate OccursBefore<T>(s: seq<T>, x: T, y: T)
  {
    exists a, b :: 0 <= a < b < |s| && s[a] == x && s[b] == y
  }

  /** `r` keeps the order of `s`: any two elements of `r` occur in `s` at
      increasing positions. */
  ghost predicate KeepsOrder<T>(r: seq<T>, s: seq<T>)
  {
    forall i, j :: 0 <= i < j < |r| ==> OccursBefore(s, r[i], r[j])
  }

  lemma FilterKeepsOrder<T>(s: seq<T>, p: T -> bool)
    ensures KeepsOrder(Filter(s, p), s)
  {
    var r := Filter(s, p);
    forall i, j | 0 <= i < j < |r|
      ensures OccursBefore(s, r[i], r[j])
    {
      FilterOrder(s, p, i, j);
    }
  }

  lemma KeepsOwnOrder<T>(s: seq<T>)
    ensures KeepsOrder(s, s)
  {
    forall i, j | 0 <= i < j < |s|
      ensures OccursBefore(s, s[i], s[j])
    {
      var x, y := s[i], s[j];
      assert s[i] == x && s[j] == y;
    }
  }

  /** Filtering with a predicate every element satisfies changes nothing. */
  lemma {:induction false} FilterAll<T>(s: seq<T>, p: T -> bool)
    requires forall i :: 0 <= i < |s| ==> p(s[i])
    ensures Filter(s, p) == s
  {
    if s != [] {
      FilterAll(s[1..], p);
    }
  }

  /** Filtering with a predicate no element satisfies leaves nothing. */
  lemma {:induction false} FilterNone<T>(s: seq<T>, p: T -> bool)
    requires forall i :: 0 <= i < |s| ==> !p(s[i])
    ensures Filter(s, p) == []
  {
    if s != [] {
      FilterNone(s[1..], p);
    }
  }

  /** Two predicates that pick the same elements of `s` filter alike. */
  lemma {:induction false} FilterSame<T>(s: seq<T>, p: T -> bool, q: T -> bool)
    requires forall i :: 0 <= i < |s| ==> p(s[i]) == q(s[i])
    ensures Filter(s, p) == Filter(s, q)
  {
    if s != [] {
      FilterSame(s[1..], p, q);
    }
  }

  /** Counting by a disjunction of two disjoint predicates adds their counts. */
  lemma {:induction false} FilterUnion<T>(s: seq<T>, p: T -> bool, q: T -> bool, pq: T -> bool)
    requires forall i :: 0 <= i < |s| ==> !(p(s[i]) && q(s[i]))
    requires forall i :: 0 <= i < |s| ==> pq(s[i]) == (p(s[i]) || q(s[i]))
    ensures |Filter(s, pq)| == |Filter(s, p)| + |Filter(s, q)|
  {
    if s != [] {
      FilterUnion(s[1..], p, q, pq);
    }
  }

  /** Two disjoint filters of one array together keep at most its length. */
  lemma FilterDisjoint<T>(s: seq<T>, p: T -> bool, q: T -> bool)
    requires forall i :: 0 <= i < |s| ==> !(p(s[i]) && q(s[i]))
    ensures |Filter(s, p)| + |Filter(s, q)| <= |s|
  {
    FilterUnion(s, p, q, x => p(x) || q(x));
  }

  /** The counts of the elements satisfying `p` and of the rest sum to `|s|`. */
  lemma FilterComplement<T>(s: seq<T>, p: T -> bool)
    ensures |Filter(s, p)| + |Filter(s, x => !p(x))| == |s|
  {
    FilterUnion(s, p, x => !p(x), x => true);
    FilterAll(s, x => true);
  }

  // ---------------------------------------------------------------------
  // Array.prototype.map, reduce over numbers
  // ---------------------------------------------------------------------

  /** `s.map(f)`. */
  function Map<T, U>(s: seq<T>, f: T -> U): (r: seq<U>)
    ensures |r| == |s|
    ensures forall i :: 0 <= i < |s| ==> r[i] == f(s[i])
  {
    seq(|s|, i requires 0 <= i < |s| => f(s[i]))
  }

  /** `s.reduce((sum, x) => sum + x, 0)` on exact reals. */
  function Sum(s: seq<real>): real
  {
    if s == [] then 0.0 else Sum(s[..|s| - 1]) + s[|s| - 1]
  }

  /** Taking one more element of a sequence appends that element. */
  lemma TakeSnoc<T>(s: seq<T>, i: nat)
    requires i < |s|
    ensures s[..i + 1] == s[..i] + [s[i]]
  {
  }

  lemma {:induction false} SumAppend(a: seq<real>, b: seq<real>)
    ensures Sum(a + b) == Sum(a) + Sum(b)
    decreases |b|
  {
    if b == [] {
      assert a + b == a;
    } else {
      assert (a + b)[..|a + b| - 1] == a + b[..|b| - 1];
      SumAppend(a, b[..|b| - 1]);
    }
  }

  /** Every term within [lo, hi] bounds the sum by |s|·lo and |s|·hi. */
  lemma {:induction false} SumBounds(s: seq<real>, lo: real, hi: real)
    requires forall i :: 0 <= i < |s| ==> lo <= s[i] <= hi
    ensures (|s| as real) * lo <= Sum(s) <= (|s| as real) * hi
  {
    if s != [] {
      SumBounds(s[..|s| - 1], lo, hi);
    }
  }

  /** The arithmetic mean of a non-empty list of reals. */
  function Mean(s: seq<real>): real
    requires |s| > 0
  {
    Sum(s) / (|s| as real)
  }

  /** A mean lies within any bounds of its terms, in particular between the
      smallest and the largest term. */
  lemma MeanBounds(s: seq<real>, lo: real, hi: real)
    requires |s| > 0
    requires forall i :: 0 <= i < |s| ==> lo <= s[i] <= hi
    ensures lo <= Mean(s) <= hi
  {
    SumBounds(s, lo, hi);
    var n := |s| as real;
    assert Mean(s) - lo == (Sum(s) - n * lo) / n;
    assert hi - Mean(s) == (n * hi - Sum(s)) / n;
  }

  // ---------------------------------------------------------------------
  // new Set(xs): distinct elements in first-insertion order
  // ---------------------------------------------------------------------

  ghost predicate NoDuplicates<T>(s: seq<T>)
  {
    forall i, j :: 0 <= i < j < |s| ==> s[i] != s[j]
  }

  /** The iteration order of `new Set(s)`: each element once, where it first
      occurs. */
  function Distinct<T(==)>(s: seq<T>): (r: seq<T>)
    ensures forall i :: 0 <= i < |r| ==> r[i] in s
    ensures forall i :: 0 <= i < |s| ==> s[i] in r
    ensures NoDuplicates(r)
    ensures |r| <= |s|
  {
    if s == [] then []
    else
      var d := Distinct(s[..|s| - 1]);
      if s[|s| - 1] in d then d else d + [s[|s| - 1]]
  }

  /** Every element of `s` is among its distinct elements. */
  lemma DistinctCovers<T>(s: seq<T>)
    ensures forall x :: x in s ==> x in Distinct(s)
  {
    forall x | x in s ensures x in Distinct(s) {
      var i :| 0 <= i < |s| && s[i] == x;
    }
  }

  /** Appending an element adds it to the distinct elements unless it is
      already there. */
  lemma DistinctSnoc<T>(s: seq<T>, x: T)
    ensures Distinct(s + [x]) == if x in Distinct(s) then Distinct(s) else Distinct(s) + [x]
  {
    assert (s + [x])[..|s + [x]| - 1] == s;
  }

  /** Index of the first occurrence of `x` in `s`. */
  function FirstIndex<T(==)>(s: seq<T>, x: T): (i: nat)
    requires x in s
    ensures i < |s| && s[i] == x
    ensures forall j :: 0 <= j < i ==> s[j] != x
  {
    if s[0] == x then 0 else 1 + FirstIndex(s[1..], x)
  }

  lemma {:induction false} FirstIndexPrefix<T>(s: seq<T>, k: nat, x: T)
    requires k <= |s| && x in s[..k]
    ensures FirstIndex(s, x) == FirstIndex(s[..k], x)
  {
    var i := FirstIndex(s[..k], x);
    var j := FirstIndex(s, x);
    assert s[..k][i] == s[i];
    assert forall m :: 0 <= m < i ==> s[..k][m] == s[m];
  }

  /** Every element of `r` occurs in `s`, and the elements of `r` come in
      the order of their first occurrences in `s`. */
  ghost predicate OrderedByFirstOccurrence<T>(r: seq<T>, s: seq<T>)
  {
    && (forall x :: x in r ==> x in s)
    && (forall i, j :: 0 <= i < j < |r| ==> FirstIndex(s, r[i]) < FirstIndex(s, r[j]))
  }

  /** Appending to `s` moves no first occurrence of what `s` holds. */
  lemma OrderedExtend<T>(r: seq<T>, s: seq<T>, x: T)
    requires OrderedByFirstOccurrence(r, s)
    ensures OrderedByFirstOccurrence(r, s + [x])
  {
    assert (s + [x])[..|s|] == s;
    forall y | y in s
      ensures FirstIndex(s + [x], y) == FirstIndex(s, y)
    {
      FirstIndexPrefix(s + [x], |s|, y);
    }
  }

  /** A new element first occurs after everything already in `s`. */
  lemma OrderedSnoc<T>(r: seq<T>, s: seq<T>, x: T)
    requires OrderedByFirstOccurrence(r, s)
    requires x !in s
    ensures OrderedByFirstOccurrence(r + [x], s + [x])
  {
    OrderedExtend(r, s, x);
    assert FirstIndex(s + [x], x) == |s|;
    var r' := r + [x];
    forall i, j | 0 <= i < j < |r'|
      ensures FirstIndex(s + [x], r'[i]) < FirstIndex(s + [x], r'[j])
    {
      assert r'[i] == r[i];
      if j < |r| {
        assert r'[j] == r[j];
      }
    }
  }

  /** `Distinct` lists elements in the order of their first occurrence. */
  lemma {:induction false} DistinctFirstOccurrenceOrder<T>(s: seq<T>)
    ensures OrderedByFirstOccurrence(Distinct(s), s)
    decreases |s|
  {
    if s != [] {
      var n := |s| - 1;
      var init := s[..n];
      DistinctFirstOccurrenceOrder(init);
      assert s == init + [s[n]];
      if s[n] in Distinct(init) {
        OrderedExtend(Distinct(init), init, s[n]);
      } else {
        OrderedSnoc(Distinct(init), init, s[n]);
      }
    }
  }

  /** With no duplicates, the set of a list has as many elements as the list. */
  lemma {:induction false} NoDuplicatesCardinality<T>(s: seq<T>)
    requires NoDuplicates(s)
    ensures |set x | x in s| == |s|
  {
    if s != [] {
      var init := s[..|s| - 1];
      NoDuplicatesCardinality(init);
      assert (set x | x in s) == (set x | x in init) + {s[|s| - 1]};
      assert s[|s| - 1] !in init;
    }
  }

  /** `new Set(s).size`: the number of distinct elements of `s`. */
  lemma DistinctIsSetSize<T>(s: seq<T>)
    ensures |Distinct(s)| == |set x | x in s|
  {
    NoDuplicatesCardinality(Distinct(s));
    assert (set x | x in Distinct(s)) == (set x | x in s);
  }

  // ---------------------------------------------------------------------
  // Tallies: multiplicities summed over a list of distinct keys
  // ---------------------------------------------------------------------

  /** The sum of the multiplicities in `m` of the keys `ks`. */
  function SumMultiplicities<T>(ks: seq<T>, m: multiset<T>): nat
  {
    if ks == [] then 0 else m[ks[0]] + SumMultiplicities(ks[1..], m)
  }

  lemma {:induction false} SumMultiplicitiesSingleton<T>(ks: seq<T>, x: T)
    requires NoDuplicates(ks)
    ensures SumMultiplicities(ks, multiset{x}) == if x in ks then 1 else 0
  {
    if ks != [] {
      SumMultiplicitiesSingleton(ks[1..], x);
      assert x in ks[1..] ==> ks[0] != x;
    }
  }

  lemma {:induction false} SumMultiplicitiesAdd<T>(ks: seq<T>, m1: multiset<T>, m2: multiset<T>)
    ensures SumMultiplicities(ks, m1 + m2) == SumMultiplicities(ks, m1) + SumMultiplicities(ks, m2)
  {
    if ks != [] {
      SumMultiplicitiesAdd(ks[1..], m1, m2);
    }
  }

  /** A tally over distinct keys that cover every element accounts for each
      element exactly once: the tallies sum to the number of elements. */
  lemma {:induction false} TallyTotal<T>(s: seq<T>, ks: seq<T>)
    requires NoDuplicates(ks)
    requires forall x :: x in s ==> x in ks
    ensures SumMultiplicities(ks, multiset(s)) == |s|
    decreases |s|
  {
    if s == [] {
      assert multiset(s) + multiset(s) == multiset(s);
      SumMultiplicitiesAdd(ks, multiset(s), multiset(s));
    } else {
      var init := s[..|s| - 1];
      var x := s[|s| - 1];
      assert s == init + [x];
      assert multiset(s) == multiset(init) + multiset{x};
      TallyTotal(init, ks);
      SumMultiplicitiesAdd(ks, multiset(init), multiset{x});
      SumMultiplicitiesSingleton(ks, x);
    }
  }

  // ---------------------------------------------------------------------
  // Strings
  // ---------------------------------------------------------------------

  /** `toLowerCase` on one character, restricted to ASCII letters. */
  function LowerChar(c: char): (r: char)
    ensures 'A' <= c <= 'Z' ==> 'a' <= r <= 'z' && r as int - c as int == 32
    ensures !('A' <= c <= 'Z') ==> r == c
  {
    if 'A' <= c <= 'Z' then (c as int + 32) as char else c
  }

  /** `toLowerCase`, ASCII letters only. */
  function Lower(s: string): (r: string)
    ensures |r| == |s|
    ensures forall i :: 0 <= i < |s| ==> r[i] == LowerChar(s[i])
    ensures forall i :: 0 <= i < |r| ==> !('A' <= r[i] <= 'Z')
  {
    seq(|s|, i requires 0 <= i < |s| => LowerChar(s[i]))
  }

  /** `hay.includes(needle)` for strings: `needle` occurs contiguously. */
  predicate Includes(hay: string, needle: string)
  {
    exists i :: 0 <= i <= |hay| - |needle| && OccursAt(hay, needle, i)
  }

  /** `needle` occurs in `hay` starting at index `i`. */
  predicate OccursAt(hay: string, needle: string, i: int)
    requires 0 <= i <= |hay| - |needle|
  {
    hay[i..i + |needle|] == needle
  }

  /** The empty string occurs in every string. */
  lemma IncludesEmpty(hay: string)
    ensures Includes(hay, "")
  {
    assert OccursAt(hay, "", 0);
  }

  /** Whatever occurs in a string is no longer than it. */
  lemma IncludesShorter(hay: string, needle: string)
    requires Includes(hay, needle)
    ensures |needle| <= |hay|
  {
  }
}

/** The Search view's client-side sort: a copy of the result items ordered by a
    comparator over one of four fields, times a direction of +1 or -1. The copy
    is sorted, so the fetched items themselves are never reordered; modelled as a
    function, the sort cannot touch its input at all. */
module Sorting {
  import opened Common
  import opened Movies
  import opened SortSelect

  /** `sort.order === "desc" ? -1 : 1`. */
  function Direction(order: string): (d: int)
    ensures d == -1 <==> order == "desc"
    ensures d == 1 <==> order != "desc"
  {
    if order == "desc" then -1 else 1
  }

  /** The sign of a difference, which is all `Array.prototype.sort` reads of a
      comparator's result. */
  function Sign(x: real): (s: int)
    ensures s == -1 <==> x < 0.0
    ensures s == 0 <==> x == 0.0
    ensures s == 1 <==> x > 0.0
  {
    if x < 0.0 then -1 else if x > 0.0 then 1 else 0
  }

  /** `localeCompare`, taken as plain lexicographic order on character codes. */
  function CompareText(a: string, b: string): (c: int)
    ensures -1 <= c <= 1
    ensures c == 0 <==> a == b
  {
    if a == [] && b == [] then 0
    else if a == [] then -1
    else if b == [] then 1
    else if a[0] < b[0] then -1
    else if a[0] > b[0] then 1
    else
      var c := CompareText(a[1..], b[1..]);
      assert a == [a[0]] + a[1..] && b == [b[0]] + b[1..];
      c
  }

  lemma {:induction false} CompareTextAntisymmetric(a: string, b: string)
    ensures CompareText(a, b) == -CompareText(b, a)
  {
    if a != [] && b != [] && a[0] == b[0] {
      CompareTextAntisymmetric(a[1..], b[1..]);
    }
  }

  lemma {:induction false} CompareTextTransitive(a: string, b: string, c: string)
    requires CompareText(a, b) <= 0 && CompareText(b, c) <= 0
    ensures CompareText(a, c) <= 0
  {
    if a != [] && b != [] && c != [] && a[0] == b[0] == c[0] {
      CompareTextTransitive(a[1..], b[1..], c[1..]);
    }
  }

  /** `a.rating || 0`. */
  function RatingKey(m: Movie): real {
    m.rating.GetOr(0.0)
  }

  /** `a.durationMinutes || 0`. */
  function DurationKey(m: Movie): int {
    m.durationMinutes.GetOr(0)
  }

  /** `new Date(a.releaseDate || 0)` in milliseconds: a missing or empty date is
      the epoch itself. */
  function DateKey(rt: Runtime, m: Movie): int {
    if Truthy(m.releaseDate) then rt.date(m.releaseDate.value) else 0
  }

  /** `String(a.title || "")`. */
  function TitleKey(m: Movie): string {
    m.title.GetOr("")
  }

  /** The comparator of `sortedItems`, as the sign of its result: rating, duration
      and release date compare numerically; every other `by` value compares titles. */
  function Compare(spec: SortSpec, rt: Runtime, a: Movie, b: Movie): (c: int)
    ensures -1 <= c <= 1
  {
    var dir := Direction(spec.order);
    if spec.field == "rating" then dir * Sign(RatingKey(a) - RatingKey(b))
    else if spec.field == "durationMinutes" then dir * Sign((DurationKey(a) - DurationKey(b)) as real)
    else if spec.field == "releaseDate" then dir * Sign((DateKey(rt, a) - DateKey(rt, b)) as real)
    else dir * CompareText(TitleKey(a), TitleKey(b))
  }

  /** When `a` may precede `b` in the sorted list, stated field by field
      independently of the comparator. */
  ghost predicate InOrder(spec: SortSpec, rt: Runtime, a: Movie, b: Movie) {
    var desc := spec.order == "desc";
    if spec.field == "rating" then
      (if desc then RatingKey(a) >= RatingKey(b) else RatingKey(a) <= RatingKey(b))
    else if spec.field == "durationMinutes" then
      (if desc then DurationKey(a) >= DurationKey(b) else DurationKey(a) <= DurationKey(b))
    else if spec.field == "releaseDate" then
      (if desc then DateKey(rt, a) >= DateKey(rt, b) else DateKey(rt, a) <= DateKey(rt, b))
    else
      (if desc then CompareText(TitleKey(b), TitleKey(a)) <= 0 else CompareText(TitleKey(a), TitleKey(b)) <= 0)
  }

  /** Two movies tie exactly when their keys for the chosen field are equal. */
  lemma CompareTies(spec: SortSpec, rt: Runtime, a: Movie, b: Movie)
    ensures spec.field == "rating" ==>
      (Compare(spec, rt, a, b) == 0 <==> RatingKey(a) == RatingKey(b))
    ensures spec.field == "durationMinutes" ==>
      (Compare(spec, rt, a, b) == 0 <==> DurationKey(a) == DurationKey(b))
    ensures spec.field == "releaseDate" ==>
      (Compare(spec, rt, a, b) == 0 <==> DateKey(rt, a) == DateKey(rt, b))
    ensures spec.field !in {"rating", "durationMinutes", "releaseDate"} ==>
      (Compare(spec, rt, a, b) == 0 <==> TitleKey(a) == TitleKey(b))
  {
  }

  /** A non-positive comparator result means exactly that the pair is in order. */
  lemma CompareMeaning(spec: SortSpec, rt: Runtime, a: Movie, b: Movie)
    ensures Compare(spec, rt, a, b) <= 0 <==> InOrder(spec, rt, a, b)
  {
    CompareTextAntisymmetric(TitleKey(a), TitleKey(b));
  }

  /** The comparator is consistent: swapping its arguments negates it. */
  lemma CompareAntisymmetric(spec: SortSpec, rt: Runtime, a: Movie, b: Movie)
    ensures Compare(spec, rt, a, b) == -Compare(spec, rt, b, a)
  {
    CompareTextAntisymmetric(TitleKey(a), TitleKey(b));
  }

  /** The comparator is consistent: "may precede" is transitive. */
  lemma CompareTransitive(spec: SortSpec, rt: Runtime, a: Movie, b: Movie, c: Movie)
    requires Compare(spec, rt, a, b) <= 0 && Compare(spec, rt, b, c) <= 0
    ensures Compare(spec, rt, a, c) <= 0
  {
    if spec.field !in {"rating", "durationMinutes", "releaseDate"} {
      if spec.order == "desc" {
        CompareTextAntisymmetric(TitleKey(a), TitleKey(b));
        CompareTextAntisymmetric(TitleKey(b), TitleKey(c));
        CompareTextAntisymmetric(TitleKey(a), TitleKey(c));
        CompareTextTransitive(TitleKey(c), TitleKey(b), TitleKey(a));
      } else {
        CompareTextTransitive(TitleKey(a), TitleKey(b), TitleKey(c));
      }
    }
  }

  ghost predicate Sorted(spec: SortSpec, rt: Runtime, s: seq<Movie>) {
    forall i, j :: 0 <= i < j < |s| ==> Compare(spec, rt, s[i], s[j]) <= 0
  }

  /** Places `x` before the first element it may precede, so that among equal
      elements the one inserted first stays first. */
  function Insert(spec: SortSpec, rt: Runtime, x: Movie, s: seq<Movie>): (r: seq<Movie>)
    ensures multiset(r) == multiset{x} + multiset(s)
  {
    if s == [] then [x]
    else if Compare(spec, rt, x, s[0]) <= 0 then [x] + s
    else
      var r := [s[0]] + Insert(spec, rt, x, s[1..]);
      assert s == [s[0]] + s[1..];
      r
  }

  /** `[...items].sort(comparator)`: a stable sort. Because the comparator is
      consistent, every stable sort yields this same list. */
  function Sort(spec: SortSpec, rt: Runtime, s: seq<Movie>): (r: seq<Movie>)
    ensures multiset(r) == multiset(s)
  {
    if s == [] then []
    else
      var r := Insert(spec, rt, s[0], Sort(spec, rt, s[1..]));
      assert s == [s[0]] + s[1..];
      r
  }

  lemma {:induction false} InsertSorted(spec: SortSpec, rt: Runtime, x: Movie, s: seq<Movie>)
    requires Sorted(spec, rt, s)
    ensures Sorted(spec, rt, Insert(spec, rt, x, s))
  {
    if s == [] {
    } else if Compare(spec, rt, x, s[0]) <= 0 {
      ConsSorted(spec, rt, x, s);
    } else {
      var tail := Insert(spec, rt, x, s[1..]);
      InsertSorted(spec, rt, x, s[1..]);
      var r := [s[0]] + tail;
      assert Insert(spec, rt, x, s) == r;
      forall i, j | 0 <= i < j < |r| ensures Compare(spec, rt, r[i], r[j]) <= 0 {
        if i == 0 {
          HeadPrecedesInserted(spec, rt, x, s, tail[j - 1]);
        } else {
          assert r[i] == tail[i - 1] && r[j] == tail[j - 1];
        }
      }
    }
  }

  /** An element that may precede the head of a sorted list may go in front of it. */
  lemma ConsSorted(spec: SortSpec, rt: Runtime, x: Movie, s: seq<Movie>)
    requires Sorted(spec, rt, s) && s != []
    requires Compare(spec, rt, x, s[0]) <= 0
    ensures Sorted(spec, rt, [x] + s)
  {
    var r := [x] + s;
    forall i, j | 0 <= i < j < |r| ensures Compare(spec, rt, r[i], r[j]) <= 0 {
      if i == 0 && j > 1 {
        CompareTransitive(spec, rt, x, s[0], s[j - 1]);
      }
    }
  }

  /** When `x` goes after the head of a sorted list, the head may precede every
      element of the rest with `x` inserted. */
  lemma HeadPrecedesInserted(spec: SortSpec, rt: Runtime, x: Movie, s: seq<Movie>, y: Movie)
    requires Sorted(spec, rt, s) && s != []
    requires Compare(spec, rt, x, s[0]) > 0
    requires y in multiset(Insert(spec, rt, x, s[1..]))
    ensures Compare(spec, rt, s[0], y) <= 0
  {
    if y == x {
      CompareAntisymmetric(spec, rt, x, s[0]);
    } else {
      assert y in multiset(s[1..]);
      var k :| 0 <= k < |s[1..]| && s[1..][k] == y;
      assert s[k + 1] == y;
    }
  }

  /** The sorted copy is ordered by the comparator. */
  lemma {:induction false} SortSorted(spec: SortSpec, rt: Runtime, s: seq<Movie>)
    ensures Sorted(spec, rt, Sort(spec, rt, s))
  {
    if s != [] {
      SortSorted(spec, rt, s[1..]);
      InsertSorted(spec, rt, s[0], Sort(spec, rt, s[1..]));
    }
  }

  /** The sorted copy holds exactly the items, and any two of its items appear in
      the order the chosen field and direction ask for. */
  lemma SortedItemsInOrder(spec: SortSpec, rt: Runtime, s: seq<Movie>)
    ensures multiset(Sort(spec, rt, s)) == multiset(s)
    ensures var r := Sort(spec, rt, s);
      forall i, j :: 0 <= i < j < |r| ==> InOrder(spec, rt, r[i], r[j])
  {
    var r := Sort(spec, rt, s);
    SortSorted(spec, rt, s);
    forall i, j | 0 <= i < j < |r| ensures InOrder(spec, rt, r[i], r[j]) {
      CompareMeaning(spec, rt, r[i], r[j]);
    }
  }

  /** Sorting an already sorted list leaves it as it is. */
  lemma {:induction false} SortKeepsSorted(spec: SortSpec, rt: Runtime, s: seq<Movie>)
    requires Sorted(spec, rt, s)
    ensures Sort(spec, rt, s) == s
  {
    if s != [] {
      assert Sorted(spec, rt, s[1..]) by {
        forall i, j | 0 <= i < j < |s[1..]| ensures Compare(spec, rt, s[1..][i], s[1..][j]) <= 0 {
          assert s[1..][i] == s[i + 1] && s[1..][j] == s[j + 1];
        }
      }
      SortKeepsSorted(spec, rt, s[1..]);
      assert s == [s[0]] + s[1..];
    }
  }

  /** Sorting is idempotent. */
  lemma SortIdempotent(spec: SortSpec, rt: Runtime, s: seq<Movie>)
    ensures Sort(spec, rt, Sort(spec, rt, s)) == Sort(spec, rt, s)
  {
    SortSorted(spec, rt, s);
    SortKeepsSorted(spec, rt, Sort(spec, rt, s));
  }

  /** Two search results rated 7 and 9, sorted by rating descending, come out with
      the 9 first. */
  lemma RatingDescendingExample(rt: Runtime)
    ensures var a := Movie(Some("a"), Some("A"), None, Some(7.0), None, None, None, None);
      var b := Movie(Some("b"), Some("B"), None, Some(9.0), None, None, None, None);
      Sort(SortSpec("rating", "desc"), rt, [a, b]) == [b, a]
  {
    var a := Movie(Some("a"), Some("A"), None, Some(7.0), None, None, None, None);
    var b := Movie(Some("b"), Some("B"), None, Some(9.0), None, None, None, None);
    var spec := SortSpec("rating", "desc");
    assert Sort(spec, rt, [b]) == [b] by {
      assert [b][1..] == [];
    }
    assert Compare(spec, rt, a, b) == 1;
    assert Insert(spec, rt, a, [b]) == [b] + Insert(spec, rt, a, []);
  }
}

/**
 * The query helpers the dashboard calls — category names, genre counts, the
 * top categories, the names of predicted categories — and `load_pipeline`,
 * which runs the ETL step and training when their output files are missing.
 * The table the helpers query is the cleaned table the ETL step stores; the
 * database read is not modelled.
 */
module DisasterResponsePipeline {
  import opened Wrappers
  import opened EtlPipeline
  import opened EtlProperties

  // ---------------------------------------------------------------------------
  // Default file names (src/config.py)
  // ---------------------------------------------------------------------------

  const DataFolder: string := "data/"
  const CategoriesFilename: string := DataFolder + "disaster_categories.csv"
  const MessagesFilename: string := DataFolder + "disaster_messages.csv"
  const DatabaseFilename: string := DataFolder + "db.sqlite3"
  const ModelPickleFilename: string := DataFolder + "trained_classifier.pkl"

  // ---------------------------------------------------------------------------
  // get_category_names
  // ---------------------------------------------------------------------------

  /** `get_category_names`: the table's columns from index 4 on, in table order. */
  function GetCategoryNames(t: CleanTable): (names: seq<string>)
    ensures |names| == |Columns(t)| - 4
    ensures forall j :: 0 <= j < |names| ==> names[j] == Columns(t)[4 + j]
    ensures names == t.names
  {
    Columns(t)[4..]
  }

  // ---------------------------------------------------------------------------
  // get_genre_distribution
  // ---------------------------------------------------------------------------

  /** The rows of genre g with a present message: what `count()['message']` counts for g. */
  ghost function MessagesOfGenre(rows: seq<CleanRow>, g: string): set<nat>
  {
    set i: nat | i < |rows| && rows[i].genre == Present(g) && rows[i].message.Present?
  }

  lemma MessagesOfGenreExtend(rows: seq<CleanRow>, g: string)
    requires rows != []
    ensures MessagesOfGenre(rows, g)
            == MessagesOfGenre(rows[..|rows| - 1], g)
               + (if rows[|rows| - 1].genre == Present(g) && rows[|rows| - 1].message.Present?
                  then {|rows| - 1} else {})
  {
    var init := rows[..|rows| - 1];
    assert forall i :: 0 <= i < |init| ==> init[i] == rows[i];
  }

  /**
   * `groupby('genre').count()['message']` over the rows, folded in row order:
   * its keys are genres of rows, and no count exceeds the number of rows.
   */
  function GroupCounts(rows: seq<CleanRow>): (counts: map<string, nat>)
    ensures forall g :: g in counts ==> (exists i :: 0 <= i < |rows| && rows[i].genre == Present(g)) && counts[g] <= |rows|
  {
    if rows == [] then map[]
    else
      var d := GroupCounts(rows[..|rows| - 1]);
      var last := rows[|rows| - 1];
      match last.genre
      case Missing => d
      case Present(g) =>
        d[g := (if g in d then d[g] else 0) + (if last.message.Present? then 1 else 0)]
  }

  /** One more row changes the grouped count of genre g as the fold says. */
  lemma GroupCountsStep(init: seq<CleanRow>, last: CleanRow, g: string)
    requires g in GroupCounts(init) <==> exists i :: 0 <= i < |init| && init[i].genre == Present(g)
    requires g in GroupCounts(init) ==> GroupCounts(init)[g] == |MessagesOfGenre(init, g)|
    ensures var rows := init + [last];
      && (g in GroupCounts(rows) <==> exists i :: 0 <= i < |rows| && rows[i].genre == Present(g))
      && (g in GroupCounts(rows) ==> GroupCounts(rows)[g] == |MessagesOfGenre(rows, g)|)
  {
    var rows := init + [last];
    assert rows[..|rows| - 1] == init && rows[|rows| - 1] == last;
    MessagesOfGenreExtend(rows, g);
    assert |init| !in MessagesOfGenre(init, g);
    if g in GroupCounts(init) {
      var i :| 0 <= i < |init| && init[i].genre == Present(g);
      assert rows[i].genre == Present(g);
    }
    if last.genre != Present(g) {
      if exists i :: 0 <= i < |rows| && rows[i].genre == Present(g) {
        var i :| 0 <= i < |rows| && rows[i].genre == Present(g);
        assert i < |init| && init[i].genre == Present(g);
      }
      assert MessagesOfGenre(rows, g) == MessagesOfGenre(init, g);
    }
  }

  /** The fold groups exactly the genres present and counts each one's rows with a message. */
  lemma {:induction false} GroupCountsCounts(rows: seq<CleanRow>)
    ensures forall g :: g in GroupCounts(rows) <==> exists i :: 0 <= i < |rows| && rows[i].genre == Present(g)
    ensures forall g :: g in GroupCounts(rows) ==> GroupCounts(rows)[g] == |MessagesOfGenre(rows, g)|
  {
    if rows != [] {
      GroupCountsCounts(rows[..|rows| - 1]);
      assert rows == rows[..|rows| - 1] + [rows[|rows| - 1]];
      forall g
        ensures g in GroupCounts(rows) <==> exists i :: 0 <= i < |rows| && rows[i].genre == Present(g)
        ensures g in GroupCounts(rows) ==> GroupCounts(rows)[g] == |MessagesOfGenre(rows, g)|
      {
        GroupCountsStep(rows[..|rows| - 1], rows[|rows| - 1], g);
      }
    }
  }

  /**
   * `get_genre_distribution`: every genre some row has (rows without a genre
   * are not grouped) mapped to the number of its rows with a message.
   */
  function GetGenreDistribution(t: CleanTable): (d: map<string, nat>)
    ensures forall g :: g in d <==> exists row :: row in t.rows && row.genre == Present(g)
    ensures forall g :: g in d ==> d[g] == |MessagesOfGenre(t.rows, g)|
  {
    GroupCountsCounts(t.rows);
    GroupCounts(t.rows)
  }

  // ---------------------------------------------------------------------------
  // get_top_n_categories
  // ---------------------------------------------------------------------------

  /** Every row has one value per category column. */
  predicate Rectangular(t: CleanTable)
  {
    forall row :: row in t.rows ==> |row.flags| == |t.names|
  }

  /** The sum of column j over the rows. */
  function ColumnSum(rows: seq<CleanRow>, j: nat): int
    requires forall row :: row in rows ==> j < |row.flags|
  {
    if rows == [] then 0 else ColumnSum(rows[..|rows| - 1], j) + rows[|rows| - 1].flags[j]
  }

  /** `df.iloc[:, 4:].sum()`: each category column paired with its sum, in column order. */
  function CategorySums(t: CleanTable): seq<(string, int)>
    requires Rectangular(t)
  {
    seq(|t.names|, j requires 0 <= j < |t.names| => (t.names[j], ColumnSum(t.rows, j)))
  }

  predicate NonIncreasing(s: seq<(string, int)>)
  {
    forall a, b :: 0 <= a < b < |s| ==> s[a].1 >= s[b].1
  }

  /** Insert x into a non-increasing sequence. */
  function Insert(x: (string, int), s: seq<(string, int)>): (r: seq<(string, int)>)
    requires NonIncreasing(s)
    ensures NonIncreasing(r)
    ensures multiset(r) == multiset(s) + multiset{x}
  {
    if s == [] || x.1 >= s[0].1 then [x] + s
    else
      var rest := Insert(x, s[1..]);
      InsertBehindHead(x, s, rest);
      [s[0]] + rest
  }

  /** Keeping the head in front of a sorted insertion into the tail stays sorted. */
  lemma InsertBehindHead(x: (string, int), s: seq<(string, int)>, rest: seq<(string, int)>)
    requires NonIncreasing(s) && s != [] && x.1 < s[0].1
    requires NonIncreasing(rest) && multiset(rest) == multiset(s[1..]) + multiset{x}
    ensures NonIncreasing([s[0]] + rest)
    ensures multiset([s[0]] + rest) == multiset(s) + multiset{x}
  {
    assert s == [s[0]] + s[1..];
    forall b | 0 <= b < |rest|
      ensures rest[b].1 <= s[0].1
    {
      var y := rest[b];
      assert y in multiset(rest);
      if y != x {
        assert y in multiset(s[1..]);
        var k :| 0 <= k < |s[1..]| && s[1..][k] == y;
        assert s[k + 1] == y;
      }
    }
    var r := [s[0]] + rest;
    forall a, b | 0 <= a < b < |r|
      ensures r[a].1 >= r[b].1
    {
      if a > 0 {
        assert r[a] == rest[a - 1] && r[b] == rest[b - 1];
      } else {
        assert r[b] == rest[b - 1];
      }
    }
  }

  /**
   * `sort_values(ascending=False)`: a non-increasing permutation. The order
   * among equal sums is this insertion sort's; pandas does not promise one,
   * and no property below depends on it.
   */
  function SortDescending(s: seq<(string, int)>): (r: seq<(string, int)>)
    ensures NonIncreasing(r)
    ensures multiset(r) == multiset(s)
  {
    if s == [] then [] else
      assert s == [s[0]] + s[1..];
      Insert(s[0], SortDescending(s[1..]))
  }

  /** A Python slice bound: clamped to the length, a negative one counted from the end. */
  function SliceBound(len: nat, i: int): (b: nat)
    ensures b <= len
  {
    if i < 0 then (if len + i < 0 then 0 else len + i) else if i > len then len else i
  }

  /** Python's `s[start:stop]`. */
  function PySlice<T>(s: seq<T>, start: int, stop: int): seq<T>
  {
    var lo := SliceBound(|s|, start);
    var hi := SliceBound(|s|, stop);
    if lo >= hi then [] else s[lo..hi]
  }

  /** p is a category paired with its column sum. */
  ghost predicate IsCategoryEntry(t: CleanTable, p: (string, int))
    requires Rectangular(t)
  {
    exists j :: 0 <= j < |t.names| && p == (t.names[j], ColumnSum(t.rows, j))
  }

  /**
   * `get_top_n_categories`: n = 0 stands for the number of categories; the
   * ranking is sliced `[1:n]`. What it returns are categories with their sums,
   * largest first.
   */
  function GetTopNCategories(t: CleanTable, n: int): (top: seq<(string, int)>)
    requires Rectangular(t)
    ensures NonIncreasing(top)
    ensures forall p :: p in top ==> IsCategoryEntry(t, p)
  {
    var stop := if n == 0 then |GetCategoryNames(t)| else n;
    RankingSlice(t, 1, stop);
    PySlice(SortDescending(CategorySums(t)), 1, stop)
  }

  /** The slice `[0:n]` the docstring describes: n = 0 keeps every category. */
  function GetTopNCategoriesAsDocumented(t: CleanTable, n: int): (top: seq<(string, int)>)
    requires Rectangular(t)
    ensures NonIncreasing(top)
    ensures forall p :: p in top ==> IsCategoryEntry(t, p)
  {
    var stop := if n == 0 then |GetCategoryNames(t)| else n;
    RankingSlice(t, 0, stop);
    PySlice(SortDescending(CategorySums(t)), 0, stop)
  }

  /** A slice of a non-increasing sequence is non-increasing, and its elements are the sequence's. */
  lemma SliceOfRanking(sorted: seq<(string, int)>, start: int, stop: int)
    requires NonIncreasing(sorted)
    ensures NonIncreasing(PySlice(sorted, start, stop))
    ensures multiset(PySlice(sorted, start, stop)) <= multiset(sorted)
    ensures forall p :: p in PySlice(sorted, start, stop) ==>
              exists b :: SliceBound(|sorted|, start) <= b < SliceBound(|sorted|, stop) && sorted[b] == p
  {
    var lo := SliceBound(|sorted|, start);
    var hi := SliceBound(|sorted|, stop);
    if lo < hi {
      var r := sorted[lo..hi];
      assert sorted == sorted[..lo] + r + sorted[hi..];
      assert multiset(sorted) == multiset(sorted[..lo]) + multiset(r) + multiset(sorted[hi..]);
      forall p | p in r
        ensures exists b :: lo <= b < hi && sorted[b] == p
      {
        var c :| 0 <= c < |r| && r[c] == p;
        assert sorted[lo + c] == p;
      }
    }
  }

  /** The ranking is a permutation of the column sums: every category once, with its sum. */
  lemma RankingIsCategorySums(t: CleanTable)
    requires Rectangular(t)
    ensures |SortDescending(CategorySums(t))| == |t.names|
    ensures NonIncreasing(SortDescending(CategorySums(t)))
    ensures forall p :: p in SortDescending(CategorySums(t)) ==> IsCategoryEntry(t, p)
    ensures forall j :: 0 <= j < |t.names| ==> (t.names[j], ColumnSum(t.rows, j)) in SortDescending(CategorySums(t))
  {
    var sums := CategorySums(t);
    var sorted := SortDescending(sums);
    assert |sorted| == |multiset(sorted)| == |multiset(sums)| == |sums|;
    forall p | p in sorted
      ensures IsCategoryEntry(t, p)
    {
      assert p in multiset(sums);
      var j :| 0 <= j < |sums| && sums[j] == p;
    }
    forall j | 0 <= j < |t.names|
      ensures (t.names[j], ColumnSum(t.rows, j)) in sorted
    {
      assert sums[j] in multiset(sorted);
    }
  }

  /** A slice of the ranking is ordered and holds categories with their sums. */
  lemma RankingSlice(t: CleanTable, start: int, stop: int)
    requires Rectangular(t)
    ensures NonIncreasing(PySlice(SortDescending(CategorySums(t)), start, stop))
    ensures multiset(PySlice(SortDescending(CategorySums(t)), start, stop)) <= multiset(CategorySums(t))
    ensures forall p :: p in PySlice(SortDescending(CategorySums(t)), start, stop) ==> IsCategoryEntry(t, p)
  {
    var sorted := SortDescending(CategorySums(t));
    RankingIsCategorySums(t);
    SliceOfRanking(sorted, start, stop);
  }

  /**
   * `get_top_n_categories` ranks categories by their sums, largest first, and
   * returns at most n - 1 of them: the slice starts at position 1.
   */
  lemma TopNCategoriesRanked(t: CleanTable, n: int)
    requires Rectangular(t)
    ensures NonIncreasing(GetTopNCategories(t, n))
    ensures multiset(GetTopNCategories(t, n)) <= multiset(CategorySums(t))
    ensures forall p :: p in GetTopNCategories(t, n) ==> IsCategoryEntry(t, p)
    ensures n == 0 ==> |GetTopNCategories(t, n)| == (if |t.names| == 0 then 0 else |t.names| - 1)
    ensures n > 0 ==> |GetTopNCategories(t, n)| == (if n < |t.names| then n - 1 else if |t.names| == 0 then 0 else |t.names| - 1)
    ensures n < 0 ==> |GetTopNCategories(t, n)| == (if |t.names| + n <= 1 then 0 else |t.names| + n - 1)
  {
    RankingIsCategorySums(t);
    RankingSlice(t, 1, if n == 0 then |t.names| else n);
  }

  lemma DistinctCountsOnce<T>(s: seq<T>, x: T)
    requires forall a, b :: 0 <= a < b < |s| ==> s[a] != s[b]
    ensures multiset(s)[x] <= 1
  {
    if s != [] {
      assert s == [s[0]] + s[1..];
      DistinctCountsOnce(s[1..], x);
      if x == s[0] {
        assert x !in s[1..];
      }
    }
  }

  lemma PermutationOfDistinct<T>(s: seq<T>, u: seq<T>)
    requires multiset(s) == multiset(u)
    requires forall a, b :: 0 <= a < b < |u| ==> u[a] != u[b]
    ensures forall a, b :: 0 <= a < b < |s| ==> s[a] != s[b]
  {
    forall a, b | 0 <= a < b < |s|
      ensures s[a] != s[b]
    {
      DistinctCountsOnce(u, s[b]);
      assert s == s[..b] + [s[b]] + s[b + 1..];
      assert s[a] in s[..b];
      assert multiset(s)[s[b]] == multiset(s[..b])[s[b]] + 1 + multiset(s[b + 1..])[s[b]];
    }
  }

  /** With distinct names, two category entries with the same name are the same entry. */
  lemma SameNameSameEntry(t: CleanTable, p: (string, int), q: (string, int))
    requires Rectangular(t)
    requires forall a, b :: 0 <= a < b < |t.names| ==> t.names[a] != t.names[b]
    requires IsCategoryEntry(t, p) && IsCategoryEntry(t, q)
    ensures p.0 == q.0 ==> p == q
  {
    var jp :| 0 <= jp < |t.names| && p == (t.names[jp], ColumnSum(t.rows, jp));
    var jq :| 0 <= jq < |t.names| && q == (t.names[jq], ColumnSum(t.rows, jq));
    assert jp < jq || jp == jq || jq < jp;
  }

  /** With distinct names, the column sums are distinct entries. */
  lemma CategorySumsDistinct(t: CleanTable)
    requires Rectangular(t)
    requires forall a, b :: 0 <= a < b < |t.names| ==> t.names[a] != t.names[b]
    ensures forall a, b :: 0 <= a < b < |CategorySums(t)| ==> CategorySums(t)[a] != CategorySums(t)[b]
  {
    var sums := CategorySums(t);
    forall a, b | 0 <= a < b < |sums|
      ensures sums[a] != sums[b]
    {
      assert sums[a].0 == t.names[a] && sums[b].0 == t.names[b];
    }
  }

  /** With distinct names, no two entries of the ranking share a name. */
  lemma RankingNamesDistinct(t: CleanTable)
    requires Rectangular(t)
    requires forall a, b :: 0 <= a < b < |t.names| ==> t.names[a] != t.names[b]
    ensures forall a, b :: 0 <= a < b < |SortDescending(CategorySums(t))| ==>
              SortDescending(CategorySums(t))[a].0 != SortDescending(CategorySums(t))[b].0
  {
    var sums := CategorySums(t);
    var sorted := SortDescending(sums);
    CategorySumsDistinct(t);
    PermutationOfDistinct(sorted, sums);
    RankingIsCategorySums(t);
    forall a, b | 0 <= a < b < |sorted|
      ensures sorted[a].0 != sorted[b].0
    {
      assert sorted[a] in sorted && sorted[b] in sorted;
      SameNameSameEntry(t, sorted[a], sorted[b]);
    }
  }

  /** The head of a ranking with distinct names is outside the slice `[1:stop]`. */
  lemma HeadOutsideTail(sorted: seq<(string, int)>, stop: int)
    requires |sorted| >= 1
    requires forall a, b :: 0 <= a < b < |sorted| ==> sorted[a].0 != sorted[b].0
    ensures forall p :: p in PySlice(sorted, 1, stop) ==> p.0 != sorted[0].0
  {
    var hi := SliceBound(|sorted|, stop);
    if 1 < hi {
      forall p | p in sorted[1..hi]
        ensures p.0 != sorted[0].0
      {
        var c :| 0 <= c < hi - 1 && sorted[1..hi][c] == p;
        assert sorted[c + 1] == p;
      }
    }
  }

  /** The head of the ranking is a category with the largest sum. */
  lemma RankingHeadIsLargest(t: CleanTable)
    requires Rectangular(t) && |t.names| >= 1
    ensures forall j :: 0 <= j < |t.names| ==> ColumnSum(t.rows, j) <= SortDescending(CategorySums(t))[0].1
    ensures IsCategoryEntry(t, SortDescending(CategorySums(t))[0])
  {
    var sorted := SortDescending(CategorySums(t));
    RankingIsCategorySums(t);
    assert sorted[0] in sorted;
    forall j | 0 <= j < |t.names|
      ensures ColumnSum(t.rows, j) <= sorted[0].1
    {
      var b :| 0 <= b < |sorted| && sorted[b] == (t.names[j], ColumnSum(t.rows, j));
      if b > 0 {
        assert sorted[0].1 >= sorted[b].1;
      }
    }
  }

  /**
   * With distinct category names and at least one category, some category
   * whose sum is the largest never appears in `get_top_n_categories`, for any n.
   */
  lemma TopNCategoriesDropsTopRanked(t: CleanTable, n: int)
    requires Rectangular(t) && |t.names| >= 1
    requires forall a, b :: 0 <= a < b < |t.names| ==> t.names[a] != t.names[b]
    ensures exists j :: 0 <= j < |t.names|
              && (forall j' :: 0 <= j' < |t.names| ==> ColumnSum(t.rows, j') <= ColumnSum(t.rows, j))
              && (forall p :: p in GetTopNCategories(t, n) ==> p.0 != t.names[j])
  {
    var sorted := SortDescending(CategorySums(t));
    var stop := if n == 0 then |t.names| else n;
    assert GetTopNCategories(t, n) == PySlice(sorted, 1, stop);
    RankingIsCategorySums(t);
    RankingHeadIsLargest(t);
    RankingNamesDistinct(t);
    HeadOutsideTail(sorted, stop);
    var j :| 0 <= j < |t.names| && sorted[0] == (t.names[j], ColumnSum(t.rows, j));
    assert forall p :: p in GetTopNCategories(t, n) ==> p.0 != t.names[j];
  }

  /**
   * Past the start of a slice of a non-increasing sequence, an element the
   * slice leaves out is no larger than any element it keeps.
   */
  lemma OutsideSliceIsSmaller(sorted: seq<(string, int)>, lo: nat, hi: nat, p: (string, int), e: (string, int))
    requires NonIncreasing(sorted) && lo <= hi <= |sorted|
    requires p in sorted[lo..hi] && e in sorted[lo..] && e !in sorted[lo..hi]
    ensures e.1 <= p.1
  {
    var slice := sorted[lo..hi];
    var b :| 0 <= b < |slice| && slice[b] == p;
    var c :| 0 <= c < |sorted[lo..]| && sorted[lo..][c] == e;
    assert forall x :: 0 <= x < |slice| ==> slice[x] == sorted[lo + x];
    assert sorted[lo + b].1 >= sorted[lo + c].1;
  }

  /**
   * An element of a non-increasing sequence outside its head and outside the
   * slice from position 1 is no larger than any element of that slice.
   */
  lemma TailSliceKeepsLargest(sorted: seq<(string, int)>, stop: int, p: (string, int), e: (string, int))
    requires NonIncreasing(sorted) && |sorted| >= 1
    requires p in PySlice(sorted, 1, stop)
    requires e in sorted && e != sorted[0] && e !in PySlice(sorted, 1, stop)
    ensures e.1 <= p.1
  {
    var hi := SliceBound(|sorted|, stop);
    assert 1 < hi && PySlice(sorted, 1, stop) == sorted[1..hi];
    var c :| 0 <= c < |sorted| && sorted[c] == e;
    assert sorted[1..][c - 1] == e;
    OutsideSliceIsSmaller(sorted, 1, hi, p, e);
  }

  /**
   * `get_top_n_categories` returns the largest categories after the ranking's
   * head: a category it leaves out, other than the head, has a sum no larger
   * than that of any category it returns.
   */
  lemma TopNCategoriesAreTheLargest(t: CleanTable, n: int)
    requires Rectangular(t) && |t.names| >= 1
    ensures forall j, p :: 0 <= j < |t.names| && p in GetTopNCategories(t, n)
              && (t.names[j], ColumnSum(t.rows, j)) != SortDescending(CategorySums(t))[0]
              && (t.names[j], ColumnSum(t.rows, j)) !in GetTopNCategories(t, n)
              ==> ColumnSum(t.rows, j) <= p.1
  {
    var sorted := SortDescending(CategorySums(t));
    var stop := if n == 0 then |t.names| else n;
    assert GetTopNCategories(t, n) == PySlice(sorted, 1, stop);
    RankingIsCategorySums(t);
    forall j, p | 0 <= j < |t.names| && p in GetTopNCategories(t, n)
                  && (t.names[j], ColumnSum(t.rows, j)) != sorted[0]
                  && (t.names[j], ColumnSum(t.rows, j)) !in GetTopNCategories(t, n)
      ensures ColumnSum(t.rows, j) <= p.1
    {
      TailSliceKeepsLargest(sorted, stop, p, (t.names[j], ColumnSum(t.rows, j)));
    }
  }

  /**
   * The documented slice returns the largest categories: a category it leaves
   * out has a sum no larger than that of any category it returns.
   */
  lemma TopNCategoriesAsDocumentedAreTheLargest(t: CleanTable, n: int)
    requires Rectangular(t)
    ensures forall j, p :: 0 <= j < |t.names| && p in GetTopNCategoriesAsDocumented(t, n)
              && (t.names[j], ColumnSum(t.rows, j)) !in GetTopNCategoriesAsDocumented(t, n)
              ==> ColumnSum(t.rows, j) <= p.1
  {
    var sorted := SortDescending(CategorySums(t));
    var stop := if n == 0 then |t.names| else n;
    assert GetTopNCategoriesAsDocumented(t, n) == PySlice(sorted, 0, stop);
    RankingIsCategorySums(t);
    assert sorted[0..] == sorted;
    var hi := SliceBound(|sorted|, stop);
    forall j, p | 0 <= j < |t.names| && p in GetTopNCategoriesAsDocumented(t, n)
                  && (t.names[j], ColumnSum(t.rows, j)) !in GetTopNCategoriesAsDocumented(t, n)
      ensures ColumnSum(t.rows, j) <= p.1
    {
      assert 0 < hi && GetTopNCategoriesAsDocumented(t, n) == sorted[0..hi];
      OutsideSliceIsSmaller(sorted, 0, hi, p, (t.names[j], ColumnSum(t.rows, j)));
    }
  }

  /**
   * The slice the docstring describes: n = 0 returns every category, n > 0
   * the n largest (all when fewer), ranked by their sums.
   */
  lemma TopNCategoriesAsDocumentedRanked(t: CleanTable, n: int)
    requires Rectangular(t)
    ensures NonIncreasing(GetTopNCategoriesAsDocumented(t, n))
    ensures forall p :: p in GetTopNCategoriesAsDocumented(t, n) ==> IsCategoryEntry(t, p)
    ensures n == 0 ==> multiset(GetTopNCategoriesAsDocumented(t, n)) == multiset(CategorySums(t))
    ensures n > 0 ==> |GetTopNCategoriesAsDocumented(t, n)| == (if n < |t.names| then n else |t.names|)
    ensures n < 0 ==> |GetTopNCategoriesAsDocumented(t, n)| == (if |t.names| + n <= 0 then 0 else |t.names| + n)
  {
    var sorted := SortDescending(CategorySums(t));
    RankingIsCategorySums(t);
    RankingSlice(t, 0, if n == 0 then |t.names| else n);
    if n == 0 {
      assert sorted[0..|sorted|] == sorted;
    }
  }

  /** The documented slice, for n >= 0 and at least one category, starts with a largest sum. */
  lemma TopNCategoriesAsDocumentedLeadsWithLargest(t: CleanTable, n: int)
    requires Rectangular(t) && n >= 0 && |t.names| >= 1
    ensures |GetTopNCategoriesAsDocumented(t, n)| >= 1
    ensures IsCategoryEntry(t, GetTopNCategoriesAsDocumented(t, n)[0])
    ensures forall j :: 0 <= j < |t.names| ==> ColumnSum(t.rows, j) <= GetTopNCategoriesAsDocumented(t, n)[0].1
  {
    var sorted := SortDescending(CategorySums(t));
    assert |sorted| == |multiset(sorted)| == |multiset(CategorySums(t))| == |t.names|;
    var stop := if n == 0 then |t.names| else n;
    assert GetTopNCategoriesAsDocumented(t, n) == sorted[0..SliceBound(|sorted|, stop)];
    RankingHeadIsLargest(t);
  }

  // ---------------------------------------------------------------------------
  // get_predicted_category_names
  // ---------------------------------------------------------------------------

  /** The positions, from `from` on, where the prediction is 1, in increasing order. */
  function Selected(pred: seq<int>, from: nat): (idx: seq<nat>)
    requires from <= |pred|
    ensures forall a :: 0 <= a < |idx| ==> from <= idx[a] < |pred| && pred[idx[a]] == 1
    ensures forall i :: from <= i < |pred| && pred[i] == 1 ==> i in idx
    ensures forall a, b :: 0 <= a < b < |idx| ==> idx[a] < idx[b]
    decreases |pred| - from
  {
    if from == |pred| then [] else (if pred[from] == 1 then [from] else []) + Selected(pred, from + 1)
  }

  /** The IndexError of `category_names[i]`. */
  datatype PredictionError = IndexOutOfRange(index: nat)

  /** The list comprehension of `get_predicted_category_names`, from position `from` on. */
  function NamesFrom(pred: seq<int>, names: seq<string>, from: nat): (r: Result<seq<string>, PredictionError>)
    requires from <= |pred|
    ensures r.Ok? <==> forall i :: from <= i < |pred| && pred[i] == 1 ==> i < |names|
    ensures r.Err? ==> from <= r.error.index < |pred| && pred[r.error.index] == 1 && |names| <= r.error.index
    ensures r.Err? ==> forall i :: from <= i < r.error.index && pred[i] == 1 ==> i < |names|
    decreases |pred| - from
  {
    if from == |pred| then Ok([])
    else if pred[from] != 1 then NamesFrom(pred, names, from + 1)
    else if from >= |names| then Err(IndexOutOfRange(from))
    else
      match NamesFrom(pred, names, from + 1)
      case Ok(rest) => Ok([names[from]] + rest)
      case Err(e) => Err(e)
  }

  /** A successful comprehension holds the names at the selected positions, in order. */
  lemma {:induction false} NamesFromPicksSelected(pred: seq<int>, names: seq<string>, from: nat)
    requires from <= |pred| && NamesFrom(pred, names, from).Ok?
    ensures |NamesFrom(pred, names, from).value| == |Selected(pred, from)|
    ensures forall a :: 0 <= a < |Selected(pred, from)| ==>
              Selected(pred, from)[a] < |names|
              && NamesFrom(pred, names, from).value[a] == names[Selected(pred, from)[a]]
    decreases |pred| - from
  {
    if from < |pred| {
      NamesFromPicksSelected(pred, names, from + 1);
      var rest := NamesFrom(pred, names, from + 1).value;
      var idx := Selected(pred, from + 1);
      if pred[from] == 1 {
        assert Selected(pred, from) == [from] + idx;
        assert NamesFrom(pred, names, from).value == [names[from]] + rest;
        forall a | 0 < a < |Selected(pred, from)|
          ensures Selected(pred, from)[a] < |names|
          ensures NamesFrom(pred, names, from).value[a] == names[Selected(pred, from)[a]]
        {
          assert Selected(pred, from)[a] == idx[a - 1];
          assert NamesFrom(pred, names, from).value[a] == rest[a - 1];
        }
      }
    }
  }

  /**
   * `get_predicted_category_names`: the names at the positions where the
   * prediction is 1, in position order. It raises only when a 1 sits past the
   * last name: positions holding anything else are never looked up.
   */
  function GetPredictedCategoryNames(pred: seq<int>, names: seq<string>): (r: Result<seq<string>, PredictionError>)
    ensures r.Ok? <==> forall i :: |names| <= i < |pred| ==> pred[i] != 1
    ensures r.Ok? ==> |r.value| == |Selected(pred, 0)|
    ensures r.Ok? ==> forall a :: 0 <= a < |r.value| ==>
              Selected(pred, 0)[a] < |names| && r.value[a] == names[Selected(pred, 0)[a]]
    ensures r.Err? ==> r.error.index < |pred| && pred[r.error.index] == 1 && |names| <= r.error.index
  {
    var r := NamesFrom(pred, names, 0);
    if r.Ok? then NamesFromPicksSelected(pred, names, 0); r else r
  }

  // ---------------------------------------------------------------------------
  // load_pipeline
  // ---------------------------------------------------------------------------

  /** The file names `load_pipeline` takes, each defaulting to its src/config.py constant. */
  datatype Paths = Paths(categories: string, messages: string, database: string, model: string)

  const DefaultPaths: Paths := Paths(CategoriesFilename, MessagesFilename, DatabaseFilename, ModelPickleFilename)

  /** The actions `load_pipeline` can take, in the order it takes them. */
  datatype Step =
    | EtlRun(messages: string, categories: string, database: string)      // etl_pipeline.process saves the cleaned table
    | EtlRaised(messages: string, categories: string, error: CleanError)  // etl_pipeline.process raises before saving
    | Training(database: string, model: string)                           // train reads the database, writes the model file
    | ModelLoad(model: string)                                            // load_model reads the model file
    | NamesRead(database: string)                                         // get_category_names reads the database

  /** The files present after a step. */
  function Effect(files: set<string>, step: Step): set<string>
  {
    match step
    case EtlRun(_, _, database) => files + {database}
    case EtlRaised(_, _, _) => files
    case Training(_, model) => files + {model}
    case ModelLoad(_) => files
    case NamesRead(_) => files
  }

  /** The files present after a run of steps. */
  function Replay(files: set<string>, steps: seq<Step>): set<string>
    decreases |steps|
  {
    if steps == [] then files else Effect(Replay(files, steps[..|steps| - 1]), steps[|steps| - 1])
  }

  lemma ReplayAppend(files: set<string>, steps: seq<Step>, step: Step)
    ensures Replay(files, steps + [step]) == Effect(Replay(files, steps), step)
  {
    assert (steps + [step])[..|steps|] == steps;
  }

  /**
   * The steps `load_pipeline` takes when cleaning the two files gives
   * `cleaned`: when the model file is missing, the ETL step (when the file
   * `etlGuard` is missing) and training; then loading. An exception of the
   * ETL step ends the run. The source checks the constant DATABASE_FILENAME,
   * not its parameter.
   */
  function Plan(files: set<string>, p: Paths, etlGuard: string, cleaned: Result<CleanTable, CleanError>): (steps: seq<Step>)
    ensures (|steps| >= 2 && steps[|steps| - 2..] == [ModelLoad(p.model), NamesRead(p.database)])
            || (cleaned.Err? && steps == [EtlRaised(p.messages, p.categories, cleaned.error)])
    ensures forall i :: 0 <= i < |steps| - 1 ==> !steps[i].EtlRaised?
  {
    var load := [ModelLoad(p.model), NamesRead(p.database)];
    if p.model in files then load
    else if etlGuard in files then [Training(p.database, p.model)] + load
    else
      match cleaned
      case Ok(_) => [EtlRun(p.messages, p.categories, p.database), Training(p.database, p.model)] + load
      case Err(e) => [EtlRaised(p.messages, p.categories, e)]
  }

  /** Every training step finds the database it reads. */
  ghost predicate TrainsOnStoredData(files: set<string>, steps: seq<Step>)
  {
    forall i :: 0 <= i < |steps| && steps[i].Training? ==> steps[i].database in Replay(files, steps[..i])
  }

  /** The working directory: the files present and what the pipeline has done so far. */
  class Workspace {
    var files: set<string>
    var log: seq<Step>

    constructor (present: set<string>)
      ensures files == present && log == []
    {
      files := present;
      log := [];
    }

    /**
     * `etl_pipeline.process` on the rows the two CSV files hold: the cleaned
     * table is saved, (re)writing the database file, unless cleaning raises,
     * which leaves the files as they were.
     */
    method RunEtl(messagesFilename: string, categoriesFilename: string, databaseFilename: string,
                  messages: seq<MessageRow>, categories: seq<CategoryRow>)
      returns (r: Result<CleanTable, CleanError>)
      modifies this
      ensures r == Clean(LoadData(messages, categories))
      ensures r.Ok? ==> files == old(files) + {databaseFilename}
                        && log == old(log) + [EtlRun(messagesFilename, categoriesFilename, databaseFilename)]
      ensures r.Err? ==> files == old(files)
                         && log == old(log) + [EtlRaised(messagesFilename, categoriesFilename, r.error)]
    {
      r := EtlPipeline.Process(messages, categories);
      if r.Ok? {
        files := files + {databaseFilename};
        log := log + [EtlRun(messagesFilename, categoriesFilename, databaseFilename)];
      } else {
        log := log + [EtlRaised(messagesFilename, categoriesFilename, r.error)];
      }
    }

    /** `train_classifier.train`: the model file is written. */
    method Train(databaseFilename: string, modelPickleFilename: string)
      modifies this
      ensures files == old(files) + {modelPickleFilename}
      ensures log == old(log) + [Training(databaseFilename, modelPickleFilename)]
    {
      files := files + {modelPickleFilename};
      log := log + [Training(databaseFilename, modelPickleFilename)];
    }

    /** `train_classifier.load_model`: the model, identified by its file, is read. */
    method LoadModel(modelPickleFilename: string) returns (model: string)
      modifies this`log
      ensures model == modelPickleFilename
      ensures log == old(log) + [ModelLoad(modelPickleFilename)]
    {
      model := modelPickleFilename;
      log := log + [ModelLoad(modelPickleFilename)];
    }

    /** `get_category_names`, called for its reading of the database only. */
    method ReadCategoryNames(databaseFilename: string)
      modifies this`log
      ensures log == old(log) + [NamesRead(databaseFilename)]
    {
      log := log + [NamesRead(databaseFilename)];
    }

    /**
     * The steps of `load_pipeline`, guarded by `etlGuard`, appended to the log;
     * the files hold `messages` and `categories`. The run returns the model, or
     * the exception of the ETL step.
     */
    method RunPlan(p: Paths, etlGuard: string, messages: seq<MessageRow>, categories: seq<CategoryRow>)
      returns (r: Result<string, CleanError>)
      modifies this
      ensures log == old(log) + Plan(old(files), p, etlGuard, Clean(LoadData(messages, categories)))
      ensures files == Replay(old(files), Plan(old(files), p, etlGuard, Clean(LoadData(messages, categories))))
      ensures r.Ok? ==> r.value == p.model && p.model in files
      ensures r.Err? <==> p.model !in old(files) && etlGuard !in old(files) && Clean(LoadData(messages, categories)).Err?
      ensures r.Err? ==> r.error == Clean(LoadData(messages, categories)).error
    {
      ghost var cleaned := Clean(LoadData(messages, categories));
      LoadPipelineFiles(files, p, etlGuard, cleaned);
      if p.model !in files {
        if etlGuard !in files {
          var etl := RunEtl(p.messages, p.categories, p.database, messages, categories);
          if etl.Err? {
            return Err(etl.error);
          }
        }
        Train(p.database, p.model);
      }
      var model := LoadModel(p.model);
      ReadCategoryNames(p.database);
      r := Ok(model);
    }

    /**
     * `load_pipeline` on CSV files holding `messages` and `categories`: train
     * the model when its file is missing, first running the ETL step when the
     * default database file is missing; then load it.
     */
    method LoadPipeline(p: Paths, messages: seq<MessageRow>, categories: seq<CategoryRow>)
      returns (r: Result<string, CleanError>)
      modifies this
      ensures log == old(log) + Plan(old(files), p, DatabaseFilename, Clean(LoadData(messages, categories)))
      ensures files == Replay(old(files), Plan(old(files), p, DatabaseFilename, Clean(LoadData(messages, categories))))
      ensures r.Ok? ==> r.value == p.model && p.model in files
      ensures r.Err? <==> p.model !in old(files) && DatabaseFilename !in old(files) && Clean(LoadData(messages, categories)).Err?
      ensures r.Err? ==> r.error == Clean(LoadData(messages, categories)).error
    {
      r := RunPlan(p, DatabaseFilename, messages, categories);
    }

    /** `load_pipeline` with the ETL step guarded by the database file it is given. */
    method LoadPipelineCheckingDatabase(p: Paths, messages: seq<MessageRow>, categories: seq<CategoryRow>)
      returns (r: Result<string, CleanError>)
      modifies this
      ensures log == old(log) + Plan(old(files), p, p.database, Clean(LoadData(messages, categories)))
      ensures files == Replay(old(files), Plan(old(files), p, p.database, Clean(LoadData(messages, categories))))
      ensures TrainsOnStoredData(old(files), Plan(old(files), p, p.database, Clean(LoadData(messages, categories))))
      ensures r.Ok? ==> r.value == p.model && p.model in files
      ensures r.Err? <==> p.model !in old(files) && p.database !in old(files) && Clean(LoadData(messages, categories)).Err?
      ensures r.Err? ==> r.error == Clean(LoadData(messages, categories)).error
    {
      GuardedPlanTrainsOnStoredData(files, p, Clean(LoadData(messages, categories)));
      r := RunPlan(p, p.database, messages, categories);
    }
  }

  /** With the database guard on its own parameter, training always finds its database. */
  lemma GuardedPlanTrainsOnStoredData(files: set<string>, p: Paths, cleaned: Result<CleanTable, CleanError>)
    ensures TrainsOnStoredData(files, Plan(files, p, p.database, cleaned))
  {
    var steps := Plan(files, p, p.database, cleaned);
    forall i | 0 <= i < |steps| && steps[i].Training?
      ensures steps[i].database in Replay(files, steps[..i])
    {
      if p.database in files {
        assert i == 0 && steps[..i] == [];
      } else {
        assert i == 1 && steps[..i] == [EtlRun(p.messages, p.categories, p.database)];
        assert steps[..i][..0] == [];
      }
    }
  }

  // ---------------------------------------------------------------------------
  // Properties of load_pipeline
  // ---------------------------------------------------------------------------

  /**
   * The steps of `load_pipeline` for the files present: with the model file
   * present it only loads; training runs iff the model file is missing and
   * either the guard file is present or the ETL step saves its table; the ETL
   * step runs iff both files are missing, and its exception ends the run.
   */
  lemma LoadPipelineSteps(files: set<string>, p: Paths, etlGuard: string, cleaned: Result<CleanTable, CleanError>)
    ensures p.model in files ==> Plan(files, p, etlGuard, cleaned) == [ModelLoad(p.model), NamesRead(p.database)]
    ensures Training(p.database, p.model) in Plan(files, p, etlGuard, cleaned)
            <==> p.model !in files && (etlGuard in files || cleaned.Ok?)
    ensures EtlRun(p.messages, p.categories, p.database) in Plan(files, p, etlGuard, cleaned)
            <==> p.model !in files && etlGuard !in files && cleaned.Ok?
    ensures (exists e :: EtlRaised(p.messages, p.categories, e) in Plan(files, p, etlGuard, cleaned))
            <==> p.model !in files && etlGuard !in files && cleaned.Err?
  {
    var steps := Plan(files, p, etlGuard, cleaned);
    var load := [ModelLoad(p.model), NamesRead(p.database)];
    var train := Training(p.database, p.model);
    var etl := EtlRun(p.messages, p.categories, p.database);
    if p.model in files {
      assert steps == load;
    } else if etlGuard in files {
      assert steps == [train] + load;
      assert etl !in steps;
    } else if cleaned.Ok? {
      assert steps == [etl, train] + load;
    } else {
      assert steps[0] == EtlRaised(p.messages, p.categories, cleaned.error);
    }
  }

  /**
   * After `load_pipeline` the files present are the old ones plus the model
   * file when training ran, and the database file when the ETL step saved it.
   */
  lemma LoadPipelineFiles(files: set<string>, p: Paths, etlGuard: string, cleaned: Result<CleanTable, CleanError>)
    ensures Replay(files, Plan(files, p, etlGuard, cleaned))
            == if p.model in files then files
               else if etlGuard in files then files + {p.model}
               else if cleaned.Ok? then files + {p.database, p.model}
               else files
  {
    var train := Training(p.database, p.model);
    var etl := EtlRun(p.messages, p.categories, p.database);
    if p.model in files {
      ReplayLoads(files, [], p);
    } else if etlGuard in files {
      ReplayLoads(files, [train], p);
      ReplayAppend(files, [], train);
    } else if cleaned.Ok? {
      ReplayLoads(files, [etl, train], p);
      ReplayAppend(files, [], etl);
      ReplayAppend(files, [etl], train);
      assert [] + [etl] == [etl] && [etl] + [train] == [etl, train];
    } else {
      ReplayAppend(files, [], EtlRaised(p.messages, p.categories, cleaned.error));
    }
  }

  /** Loading the model and reading the names change no file. */
  lemma ReplayLoads(files: set<string>, head: seq<Step>, p: Paths)
    ensures Replay(files, head + [ModelLoad(p.model), NamesRead(p.database)]) == Replay(files, head)
  {
    ReplayAppend(files, head, ModelLoad(p.model));
    ReplayAppend(files, head + [ModelLoad(p.model)], NamesRead(p.database));
    assert head + [ModelLoad(p.model), NamesRead(p.database)] == (head + [ModelLoad(p.model)]) + [NamesRead(p.database)];
  }

  /**
   * A `load_pipeline` run that did not raise leaves nothing to build: a
   * second run only loads, whatever the CSV files then hold, and changes no
   * file. A run that raised leaves the files as they were.
   */
  lemma LoadPipelineRerunOnlyLoads(files: set<string>, p: Paths, etlGuard: string,
                                   cleaned: Result<CleanTable, CleanError>, cleanedAgain: Result<CleanTable, CleanError>)
    ensures var after := Replay(files, Plan(files, p, etlGuard, cleaned));
            (p.model in files || etlGuard in files || cleaned.Ok?) ==>
              && Plan(after, p, etlGuard, cleanedAgain) == [ModelLoad(p.model), NamesRead(p.database)]
              && Replay(after, Plan(after, p, etlGuard, cleanedAgain)) == after
    ensures !(p.model in files || etlGuard in files || cleaned.Ok?) ==> Replay(files, Plan(files, p, etlGuard, cleaned)) == files
  {
    var after := Replay(files, Plan(files, p, etlGuard, cleaned));
    LoadPipelineFiles(files, p, etlGuard, cleaned);
    LoadPipelineSteps(after, p, etlGuard, cleanedAgain);
    LoadPipelineFiles(after, p, etlGuard, cleanedAgain);
  }

  /**
   * As written, a database file other than the default one is never built when
   * the default one exists, and training then reads a database that is missing.
   */
  lemma AsWrittenTrainsWithoutItsDatabase(cleaned: Result<CleanTable, CleanError>)
    ensures !TrainsOnStoredData({DatabaseFilename},
              Plan({DatabaseFilename}, DefaultPaths.(database := "data/other.sqlite3"), DatabaseFilename, cleaned))
  {
    var p := DefaultPaths.(database := "data/other.sqlite3");
    var steps := Plan({DatabaseFilename}, p, DatabaseFilename, cleaned);
    assert steps[0] == Training(p.database, p.model);
    assert steps[..0] == [];
    assert p.database !in Replay({DatabaseFilename}, steps[..0]);
  }

  /** With the default database file name, the guard as written is the intended one. */
  lemma AsWrittenTrainsOnStoredDataByDefault(files: set<string>, p: Paths, cleaned: Result<CleanTable, CleanError>)
    requires p.database == DatabaseFilename
    ensures TrainsOnStoredData(files, Plan(files, p, DatabaseFilename, cleaned))
  {
    GuardedPlanTrainsOnStoredData(files, p, cleaned);
  }

  // ---------------------------------------------------------------------------
  // The ETL output as the dashboard reads it
  // ---------------------------------------------------------------------------

  /**
   * The table `process` stores has one value per category in every row, and
   * its category names, read back by `get_category_names`, are the distinct
   * names taken from the first merged row's categories string.
   */
  lemma EtlTableFeedsDashboard(df: seq<JoinedRow>, t: CleanTable)
    requires Clean(df) == Ok(t)
    ensures Rectangular(t)
    ensures |GetCategoryNames(t)| == |Split(df[0].categories)|
    ensures forall j :: 0 <= j < |t.names| ==> GetCategoryNames(t)[j] == CategoryName(Split(df[0].categories)[j])
    ensures forall a, b :: 0 <= a < b < |t.names| ==> GetCategoryNames(t)[a] != GetCategoryNames(t)[b]
  {
    CleanNamesFromFirstRow(df, t);
    CleanExpandsRowByRow(df, t);
    var e := ExpandedRows(df, Tokens(df), t.names);
    forall row | row in t.rows
      ensures |row.flags| == |t.names|
    {
      var r :| 0 <= r < |t.rows| && t.rows[r] == row;
      assert t.rows[r] in e;
      var i :| 0 <= i < |e| && e[i] == row;
      assert Expands(df[i], e[i], |t.names|);
    }
  }

  // ---------------------------------------------------------------------------
  // get_predicted_category_names on small inputs
  // ---------------------------------------------------------------------------

  /**
   * Names are picked where the prediction is 1; other values are never looked
   * up, even past the end of the names; a 1 past the end raises.
   */
  lemma PredictedCategoryNamesExamples()
    ensures GetPredictedCategoryNames([1, 0, 1], ["related", "request", "offer"]) == Ok(["related", "offer"])
    ensures GetPredictedCategoryNames([0, 0, 5], ["related"]) == Ok([])
    ensures GetPredictedCategoryNames([0, 1, 1], ["related", "request"]) == Err(IndexOutOfRange(2))
  {
    var pred, names := [1, 0, 1], ["related", "request", "offer"];
    assert NamesFrom(pred, names, 3) == Ok([]);
    assert [names[2]] + [] == ["offer"];
    assert NamesFrom(pred, names, 2) == Ok(["offer"]);
    assert NamesFrom(pred, names, 1) == Ok(["offer"]);
    assert [names[0]] + ["offer"] == ["related", "offer"];
  }
}

/**
 * The ETL step of the disaster response pipeline: the messages file is merged
 * with the categories file on `id`, the `;`-separated categories string is
 * expanded into one integer column per category, and duplicate rows are
 * dropped. Files and the SQLite store are not modelled: the inputs are the
 * rows the two CSV files hold.
 */
module EtlPipeline {
  import opened Wrappers

  /** A text cell; pandas reads an empty CSV field as NaN, here `Missing`. */
  datatype Text = Missing | Present(s: string)

  /** A row of the messages file. */
  datatype MessageRow = MessageRow(id: int, message: Text, original: Text, genre: Text)

  /** A row of the categories file; `categories` holds `name-value` tokens joined by `;`. */
  datatype CategoryRow = CategoryRow(id: int, categories: string)

  /** A row of the merged frame: the message columns, then `categories`. */
  datatype JoinedRow = JoinedRow(id: int, message: Text, original: Text, genre: Text, categories: string)

  /** A row of the cleaned frame: the message columns, then one integer per category column. */
  datatype CleanRow = CleanRow(id: int, message: Text, original: Text, genre: Text, flags: seq<int>)

  /** The cleaned frame: the names of its category columns and its rows. */
  datatype CleanTable = CleanTable(names: seq<string>, rows: seq<CleanRow>)

  /** The exceptions `clean_data` raises, in the order it meets them. */
  datatype CleanError =
    | EmptyTable                       // `iloc[0, :]` on a frame without rows
    | ShortFirstRow                    // the first row has fewer tokens than some row: `x[:-2]` meets the padding None
    | DuplicateCategory(name: string)  // two columns share this label: `categories[column]` is a frame, which has no `.str`
    | BadValue(column: nat)            // a cell of this column is padding, an empty token or ends in a non-digit: `astype(int)`

  /** The columns the messages file contributes, in file order. */
  const MessageColumns: seq<string> := ["id", "message", "original", "genre"]

  /** The columns of the merged frame: `merge` appends the right side's non-key column. */
  const JoinedColumns: seq<string> := MessageColumns + ["categories"]

  /** The columns of a cleaned frame: `categories` dropped, the category columns appended. */
  function Columns(t: CleanTable): seq<string>
  {
    JoinedColumns[..4] + t.names
  }

  // ---------------------------------------------------------------------------
  // load_data: the inner merge on `id`
  // ---------------------------------------------------------------------------

  /** The merged row of a message row and a category row with the same id. */
  function Merged(m: MessageRow, c: CategoryRow): JoinedRow
  {
    JoinedRow(m.id, m.message, m.original, m.genre, c.categories)
  }

  /** The merged rows of one message row: one per category row with its id, in file order. */
  function MatchesOf(m: MessageRow, categories: seq<CategoryRow>): (rows: seq<JoinedRow>)
    ensures forall r :: r in rows ==> exists c :: c in categories && c.id == m.id && r == Merged(m, c)
    ensures forall c :: c in categories && c.id == m.id ==> Merged(m, c) in rows
  {
    if categories == [] then []
    else (if categories[0].id == m.id then [Merged(m, categories[0])] else []) + MatchesOf(m, categories[1..])
  }

  /**
   * `pd.merge(messages, categories, on='id')`: an inner join that keeps the
   * order of the left rows; an id repeated on both sides yields every pair.
   */
  function LoadData(messages: seq<MessageRow>, categories: seq<CategoryRow>): (df: seq<JoinedRow>)
    ensures forall r :: r in df ==>
              exists m, c :: m in messages && c in categories && m.id == c.id && r == Merged(m, c)
    ensures forall m, c :: m in messages && c in categories && m.id == c.id ==> Merged(m, c) in df
  {
    if messages == [] then []
    else MatchesOf(messages[0], categories) + LoadData(messages[1..], categories)
  }

  // ---------------------------------------------------------------------------
  // Tokens of the categories string
  // ---------------------------------------------------------------------------

  /** Python's `s.split(';')`: the pieces between separators, at least one, none holding `;`. */
  function Split(s: string): (tokens: seq<string>)
    ensures |tokens| >= 1
    ensures forall t :: t in tokens ==> ';' !in t
  {
    if s == [] then [""]
    else
      var rest := Split(s[1..]);
      if s[0] == ';' then [""] + rest else [[s[0]] + rest[0]] + rest[1..]
  }

  /** Python's `';'.join(tokens)`, the inverse of `Split`. */
  function JoinTokens(tokens: seq<string>): string
    requires |tokens| >= 1
  {
    if |tokens| == 1 then tokens[0] else tokens[0] + ";" + JoinTokens(tokens[1..])
  }

  /** `x[:-2]`: the token without its last two characters; Python gives "" for shorter tokens. */
  function CategoryName(token: string): (name: string)
    ensures |token| >= 2 ==> token == name + token[|token| - 2..]
    ensures |token| < 2 ==> name == ""
  {
    if |token| >= 2 then token[..|token| - 2] else ""
  }

  predicate IsDigit(c: char)
  {
    '0' <= c <= '9'
  }

  /** `.str[-1]` then `astype(int)` on one token: its last character as a number, if it is a digit. */
  function TokenValue(token: string): (v: Option<int>)
    ensures v.Some? <==> |token| > 0 && IsDigit(token[|token| - 1])
    ensures v.Some? ==> 0 <= v.value <= 9 && token[|token| - 1] == ('0' as int + v.value) as char
  {
    if |token| > 0 && IsDigit(token[|token| - 1]) then Some(token[|token| - 1] as int - '0' as int) else None
  }

  // ---------------------------------------------------------------------------
  // The specification of clean_data
  // ---------------------------------------------------------------------------

  /** The tokens of every row, in row order. */
  function Tokens(df: seq<JoinedRow>): seq<seq<string>>
  {
    seq(|df|, i requires 0 <= i < |df| => Split(df[i].categories))
  }

  /** The number of columns `str.split(expand=True)` produces: the most tokens of any row. */
  function Width(grid: seq<seq<string>>): (w: nat)
    ensures forall i :: 0 <= i < |grid| ==> |grid[i]| <= w
    ensures grid != [] ==> exists i :: 0 <= i < |grid| && |grid[i]| == w
    ensures grid == [] ==> w == 0
  {
    if grid == [] then 0
    else
      var w := Width(grid[1..]);
      if |grid[0]| >= w then |grid[0]| else w
  }

  /** The column labels taken from the first row's tokens. */
  function ColumnNames(firstRow: seq<string>): seq<string>
  {
    seq(|firstRow|, j requires 0 <= j < |firstRow| => CategoryName(firstRow[j]))
  }

  /** The integer cell (i, j) becomes, or None when row i has no digit-ending j-th token. */
  function CellValue(grid: seq<seq<string>>, i: nat, j: nat): Option<int>
    requires i < |grid|
  {
    if j < |grid[i]| then TokenValue(grid[i][j]) else None
  }

  /** Another column carries the label of column j. */
  predicate Duplicated(names: seq<string>, j: nat)
    requires j < |names|
  {
    exists c :: 0 <= c < |names| && c != j && names[c] == names[j]
  }

  /** The loop body succeeds on column j. */
  predicate ColumnConverts(grid: seq<seq<string>>, names: seq<string>, j: nat)
    requires j < |names|
  {
    !Duplicated(names, j) && forall i :: 0 <= i < |grid| ==> CellValue(grid, i, j).Some?
  }

  /** The first column, from `from` on, on which the loop body fails. */
  function FirstFailingColumn(grid: seq<seq<string>>, names: seq<string>, from: nat): (r: Option<nat>)
    requires from <= |names|
    ensures r.None? ==> forall c :: from <= c < |names| ==> ColumnConverts(grid, names, c)
    ensures r.Some? ==> from <= r.value < |names| && !ColumnConverts(grid, names, r.value)
    ensures r.Some? ==> forall c :: from <= c < r.value ==> ColumnConverts(grid, names, c)
    decreases |names| - from
  {
    if from == |names| then None
    else if !ColumnConverts(grid, names, from) then Some(from)
    else FirstFailingColumn(grid, names, from + 1)
  }

  /** The exception the loop body raises on a failing column. */
  function ColumnError(names: seq<string>, j: nat): CleanError
    requires j < |names|
  {
    if Duplicated(names, j) then DuplicateCategory(names[j]) else BadValue(j)
  }

  /** The rows after the categories column has been replaced by one integer column per name. */
  function ExpandedRows(df: seq<JoinedRow>, grid: seq<seq<string>>, names: seq<string>): seq<CleanRow>
    requires |grid| == |df|
    requires forall j :: 0 <= j < |names| ==> ColumnConverts(grid, names, j)
  {
    seq(|df|, i requires 0 <= i < |df| =>
      CleanRow(df[i].id, df[i].message, df[i].original, df[i].genre,
               seq(|names|, j requires 0 <= j < |names| =>
                 assert ColumnConverts(grid, names, j); CellValue(grid, i, j).value)))
  }

  /**
   * What `clean_data` returns, or the exception it raises. It raises at
   * `iloc[0]` exactly when the frame is empty; a cleaned table has no more
   * rows than the frame, a column per token of the first row, and a value
   * per column in every row.
   */
  function Clean(df: seq<JoinedRow>): (r: Result<CleanTable, CleanError>)
    ensures r == Err(EmptyTable) <==> df == []
    ensures r.Ok? ==> |r.value.rows| <= |df| && |r.value.names| == |Split(df[0].categories)|
    ensures r.Ok? ==> forall row :: row in r.value.rows ==> |row.flags| == |r.value.names|
  {
    if df == [] then Err(EmptyTable)
    else
      var grid := Tokens(df);
      if |grid[0]| < Width(grid) then Err(ShortFirstRow)
      else
        var names := ColumnNames(grid[0]);
        match FirstFailingColumn(grid, names, 0)
        case Some(j) => Err(ColumnError(names, j))
        case None => Ok(CleanTable(names, DropDuplicates(ExpandedRows(df, grid, names))))
  }

  // ---------------------------------------------------------------------------
  // drop_duplicates
  // ---------------------------------------------------------------------------

  /** `drop_duplicates()`: every value once, at its first occurrence. */
  function DropDuplicates<T(==)>(s: seq<T>): (r: seq<T>)
    ensures |r| <= |s|
    ensures forall i :: 0 <= i < |r| ==> r[i] in s
    ensures forall i :: 0 <= i < |s| ==> s[i] in r
    ensures forall a, b :: 0 <= a < b < |r| ==> r[a] != r[b]
  {
    if s == [] then []
    else
      var kept := DropDuplicates(s[..|s| - 1]);
      if s[|s| - 1] in s[..|s| - 1] then kept else kept + [s[|s| - 1]]
  }

  /** The index of the first occurrence of x in s. */
  function FirstIndex<T(==)>(s: seq<T>, x: T): (i: nat)
    requires x in s
    ensures i < |s| && s[i] == x && x !in s[..i]
  {
    if s[0] == x then 0 else 1 + FirstIndex(s[1..], x)
  }

  lemma {:induction false} FirstIndexOfPrefix<T>(s: seq<T>, n: nat, x: T)
    requires n <= |s| && x in s[..n]
    ensures FirstIndex(s, x) == FirstIndex(s[..n], x)
  {
    var i, k := FirstIndex(s, x), FirstIndex(s[..n], x);
    assert s[..n][..k] == s[..k];
    assert forall m :: 0 <= m < k ==> s[m] != x;
    assert forall m :: 0 <= m < i ==> s[m] != x;
    assert s[k] == x;
  }

  /** The kept values appear in the order of their first occurrences in the input. */
  lemma {:induction false} DropDuplicatesKeepsFirstOccurrenceOrder<T>(s: seq<T>)
    ensures forall a, b :: 0 <= a < b < |DropDuplicates(s)| ==>
              FirstIndex(s, DropDuplicates(s)[a]) < FirstIndex(s, DropDuplicates(s)[b])
  {
    if s != [] {
      var init := s[..|s| - 1];
      var last := s[|s| - 1];
      var kept := DropDuplicates(init);
      DropDuplicatesKeepsFirstOccurrenceOrder(init);
      assert s[..|s| - 1] == init;
      forall x | x in kept
        ensures FirstIndex(s, x) == FirstIndex(init, x)
      {
        FirstIndexOfPrefix(s, |s| - 1, x);
      }
      if last !in init {
        assert DropDuplicates(s) == kept + [last];
        assert FirstIndex(s, last) == |s| - 1 by {
          assert forall m :: 0 <= m < |s| - 1 ==> s[m] == init[m] != last;
        }
        forall a, b | 0 <= a < b < |kept| + 1
          ensures FirstIndex(s, (kept + [last])[a]) < FirstIndex(s, (kept + [last])[b])
        {
          assert (kept + [last])[a] == kept[a];
          assert kept[a] in kept;
          if b == |kept| {
            assert (kept + [last])[b] == last;
          } else {
            assert (kept + [last])[b] == kept[b];
            assert kept[b] in kept;
          }
        }
      } else {
        assert DropDuplicates(s) == kept;
        forall a, b | 0 <= a < b < |kept|
          ensures FirstIndex(s, kept[a]) < FirstIndex(s, kept[b])
        {
          assert kept[a] in kept && kept[b] in kept;
        }
      }
    }
  }

  // ---------------------------------------------------------------------------
  // clean_data, step by step
  // ---------------------------------------------------------------------------

  /** A cell of the expanded categories frame. */
  datatype Cell = NaN | Str(s: string) | Int(v: int)

  /** Column j of `str.split(pat=';', expand=True)`: each row's j-th token, NaN past its last one. */
  function SplitColumn(grid: seq<seq<string>>, j: nat): seq<Cell>
  {
    seq(|grid|, i requires 0 <= i < |grid| => if j < |grid[i]| then Str(grid[i][j]) else NaN)
  }

  /** `.str[-1]`: the last character of each string cell, NaN for an empty string or a non-string. */
  function LastCharacters(col: seq<Cell>): seq<Cell>
  {
    seq(|col|, i requires 0 <= i < |col| =>
      if col[i].Str? && |col[i].s| > 0 then Str([col[i].s[|col[i].s| - 1]]) else NaN)
  }

  predicate IsDigitCell(c: Cell)
  {
    c.Str? && |c.s| == 1 && IsDigit(c.s[0])
  }

  /** `astype(int)` on a column of single characters: it raises unless every cell is a digit. */
  function ToIntegers(col: seq<Cell>): Option<seq<Cell>>
  {
    if forall i :: 0 <= i < |col| ==> IsDigitCell(col[i])
    then Some(seq(|col|, i requires 0 <= i < |col| && IsDigitCell(col[i]) => Int(col[i].s[0] as int - '0' as int)))
    else None
  }

  /** Column j once converted: the integers the spec assigns, NaN where it has none. */
  function IntColumn(grid: seq<seq<string>>, j: nat): seq<Cell>
  {
    seq(|grid|, i requires 0 <= i < |grid| => match CellValue(grid, i, j) case Some(v) => Int(v) case None => NaN)
  }

  /** Lines 52-53 on one column: they raise exactly when a cell has no value, else give IntColumn. */
  lemma ConvertColumn(grid: seq<seq<string>>, j: nat)
    ensures ToIntegers(LastCharacters(SplitColumn(grid, j))).Some?
            <==> forall i :: 0 <= i < |grid| ==> CellValue(grid, i, j).Some?
    ensures ToIntegers(LastCharacters(SplitColumn(grid, j))).Some? ==>
              ToIntegers(LastCharacters(SplitColumn(grid, j))).value == IntColumn(grid, j)
  {
    var col := LastCharacters(SplitColumn(grid, j));
    assert forall i :: 0 <= i < |grid| ==> (IsDigitCell(col[i]) <==> CellValue(grid, i, j).Some?);
  }

  /**
   * `clean_data`: split the categories, name the columns after the first row's
   * tokens, rewrite each column in place to the integer of its last
   * character, replace the categories column and drop duplicate rows.
   */
  method CleanData(df: seq<JoinedRow>) returns (r: Result<CleanTable, CleanError>)
    ensures r == Clean(df)
  {
    var grid := Tokens(df);
    var width := Width(grid);
    var categories := seq(width, j requires 0 <= j < width => SplitColumn(grid, j));
    if |df| == 0 {
      return Err(EmptyTable);
    }
    if |grid[0]| < width {
      return Err(ShortFirstRow);
    }
    var names := ColumnNames(grid[0]);
    var j := 0;
    while j < |names|
      invariant j <= |names| == |categories| == width
      invariant forall c :: 0 <= c < j ==> ColumnConverts(grid, names, c)
      invariant FirstFailingColumn(grid, names, 0) == FirstFailingColumn(grid, names, j)
      invariant forall c :: 0 <= c < j ==> categories[c] == IntColumn(grid, c)
      invariant forall c :: j <= c < width ==> categories[c] == SplitColumn(grid, c)
    {
      if Duplicated(names, j) {
        return Err(DuplicateCategory(names[j]));
      }
      ConvertColumn(grid, j);
      var lastCharacters := LastCharacters(categories[j]);
      var converted := ToIntegers(lastCharacters);
      if converted.None? {
        return Err(BadValue(j));
      }
      categories := categories[j := converted.value];
      j := j + 1;
    }
    forall i, c | 0 <= i < |df| && 0 <= c < width
      ensures CellValue(grid, i, c).Some? && categories[c][i] == Int(CellValue(grid, i, c).value)
    {
      assert ColumnConverts(grid, names, c);
      assert categories[c] == IntColumn(grid, c);
    }
    var rows := seq(|df|, i requires 0 <= i < |df| =>
      CleanRow(df[i].id, df[i].message, df[i].original, df[i].genre,
               seq(width, c requires 0 <= c < width => categories[c][i].v)));
    assert rows == ExpandedRows(df, grid, names) by {
      forall i | 0 <= i < |df|
        ensures rows[i].flags == ExpandedRows(df, grid, names)[i].flags
      {
      }
    }
    r := Ok(CleanTable(names, DropDuplicates(rows)));
  }

  /** `process` without its I/O: load, then clean. */
  method Process(messages: seq<MessageRow>, categories: seq<CategoryRow>) returns (r: Result<CleanTable, CleanError>)
    ensures r == Clean(LoadData(messages, categories))
  {
    var df := LoadData(messages, categories);
    r := CleanData(df);
  }
}

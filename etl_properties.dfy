/**
 * What the ETL model guarantees: which ids the merge keeps, how the tokens of
 * the categories string become named integer columns, which frames
 * `clean_data` rejects, and what `drop_duplicates` leaves.
 */
module EtlProperties {
  import opened Wrappers
  import opened EtlPipeline

  // ---------------------------------------------------------------------------
  // load_data
  // ---------------------------------------------------------------------------

  /** The merged frame has a row with an id exactly when both files have a row with that id. */
  lemma JoinKeepsCommonIds(messages: seq<MessageRow>, categories: seq<CategoryRow>, id: int)
    ensures (exists r :: r in LoadData(messages, categories) && r.id == id)
        <==> (exists m :: m in messages && m.id == id) && (exists c :: c in categories && c.id == id)
  {
    var df := LoadData(messages, categories);
    if exists r :: r in df && r.id == id {
      var r :| r in df && r.id == id;
      var m, c :| m in messages && c in categories && m.id == c.id && r == Merged(m, c);
      assert m.id == id && c.id == id;
    }
    if (exists m :: m in messages && m.id == id) && (exists c :: c in categories && c.id == id) {
      var m :| m in messages && m.id == id;
      var c :| c in categories && c.id == id;
      assert Merged(m, c) in df;
    }
  }

  /**
   * A categories row appended to its file adds at most one merged row to a
   * message, after the ones it had: the pairs follow the categories file.
   */
  lemma {:induction false} MatchesOfAppend(m: MessageRow, categories: seq<CategoryRow>, c: CategoryRow)
    ensures MatchesOf(m, categories + [c]) == MatchesOf(m, categories) + (if c.id == m.id then [Merged(m, c)] else [])
  {
    if categories == [] {
      assert [c][1..] == [];
    } else {
      assert (categories + [c])[1..] == categories[1..] + [c];
      MatchesOfAppend(m, categories[1..], c);
    }
  }

  /**
   * A message row appended to its file adds its merged rows after all the
   * others: the merge follows the messages file.
   */
  lemma {:induction false} LoadDataAppend(messages: seq<MessageRow>, m: MessageRow, categories: seq<CategoryRow>)
    ensures LoadData(messages + [m], categories) == LoadData(messages, categories) + MatchesOf(m, categories)
  {
    if messages == [] {
      assert [m][1..] == [];
    } else {
      assert (messages + [m])[1..] == messages[1..] + [m];
      LoadDataAppend(messages[1..], m, categories);
    }
  }

  /** A message's first merged row pairs it with the first categories row of its id. */
  lemma {:induction false} MatchesOfFirst(m: MessageRow, categories: seq<CategoryRow>, k: nat)
    requires k < |categories| && categories[k].id == m.id
    requires forall k' :: 0 <= k' < k ==> categories[k'].id != m.id
    ensures MatchesOf(m, categories) != [] && MatchesOf(m, categories)[0] == Merged(m, categories[k])
  {
    if k > 0 {
      MatchesOfFirst(m, categories[1..], k - 1);
    }
  }

  /** A message without a categories row of its id has no merged rows. */
  lemma {:induction false} MatchesOfNone(m: MessageRow, categories: seq<CategoryRow>)
    requires forall c :: c in categories ==> c.id != m.id
    ensures MatchesOf(m, categories) == []
  {
    if categories != [] {
      assert categories[0] in categories;
      MatchesOfNone(m, categories[1..]);
    }
  }

  /**
   * The first merged row pairs the first message that has a categories row of
   * its id with the first such categories row.
   */
  lemma {:induction false} LoadDataFirstRow(messages: seq<MessageRow>, categories: seq<CategoryRow>, i: nat, k: nat)
    requires i < |messages| && k < |categories| && categories[k].id == messages[i].id
    requires forall i' :: 0 <= i' < i ==> forall c :: c in categories ==> c.id != messages[i'].id
    requires forall k' :: 0 <= k' < k ==> categories[k'].id != messages[i].id
    ensures LoadData(messages, categories) != []
    ensures LoadData(messages, categories)[0] == Merged(messages[i], categories[k])
  {
    if i == 0 {
      MatchesOfFirst(messages[0], categories, k);
    } else {
      MatchesOfNone(messages[0], categories);
      LoadDataFirstRow(messages[1..], categories, i - 1, k);
    }
  }

  /**
   * The column names `process` stores come from the categories string of the
   * first categories row matching the first message that has a match.
   */
  lemma ProcessNamesFromFirstMatch(messages: seq<MessageRow>, categories: seq<CategoryRow>, i: nat, k: nat, t: CleanTable)
    requires i < |messages| && k < |categories| && categories[k].id == messages[i].id
    requires forall i' :: 0 <= i' < i ==> forall c :: c in categories ==> c.id != messages[i'].id
    requires forall k' :: 0 <= k' < k ==> categories[k'].id != messages[i].id
    requires Clean(LoadData(messages, categories)) == Ok(t)
    ensures |t.names| == |Split(categories[k].categories)|
    ensures forall j :: 0 <= j < |t.names| ==> t.names[j] == CategoryName(Split(categories[k].categories)[j])
  {
    LoadDataFirstRow(messages, categories, i, k);
    CleanNamesFromFirstRow(LoadData(messages, categories), t);
  }

  // ---------------------------------------------------------------------------
  // Splitting the categories string
  // ---------------------------------------------------------------------------

  /** Joining the pieces of a split with `;` gives back the string. */
  lemma {:induction false} JoinSplit(s: string)
    ensures JoinTokens(Split(s)) == s
  {
    if s != [] {
      var tail := s[1..];
      JoinSplit(tail);
      var rest := Split(tail);
      assert s == [s[0]] + tail;
      if s[0] == ';' {
        var pieces := [""] + rest;
        assert Split(s) == pieces;
        assert pieces[0] == "" && pieces[1..] == rest;
        calc {
          JoinTokens(pieces);
          "" + ";" + JoinTokens(rest);
          { assert "" + ";" == [';']; }
          [';'] + tail;
        }
      } else {
        var first := [s[0]] + rest[0];
        var pieces := [first] + rest[1..];
        assert Split(s) == pieces;
        if |rest| == 1 {
          assert JoinTokens(pieces) == first;
          assert JoinTokens(rest) == rest[0];
        } else {
          assert pieces[0] == first && pieces[1..] == rest[1..];
          var more := JoinTokens(rest[1..]);
          calc {
            JoinTokens(pieces);
            first + ";" + more;
            ([s[0]] + rest[0]) + ";" + more;
            [s[0]] + (rest[0] + ";" + more);
            [s[0]] + JoinTokens(rest);
          }
        }
      }
    }
  }

  /** Splitting a `;`-free prefix followed by more text: the prefix opens the first piece. */
  lemma {:induction false} SplitPrefix(t: string, s: string)
    requires ';' !in t
    ensures Split(t + s) == [t + Split(s)[0]] + Split(s)[1..]
  {
    var pieces := Split(s);
    if t == [] {
      assert t + s == s;
      assert t + pieces[0] == pieces[0];
      assert pieces == [pieces[0]] + pieces[1..];
    } else {
      var u := t[1..];
      assert ';' !in u by {
        assert forall k :: 0 <= k < |u| ==> u[k] == t[k + 1];
      }
      SplitPrefix(u, s);
      assert (t + s)[1..] == u + s;
      assert (t + s)[0] == t[0] && t[0] != ';';
      var rest := Split(u + s);
      assert rest == [u + pieces[0]] + pieces[1..];
      assert Split(t + s) == [[t[0]] + rest[0]] + rest[1..];
      assert rest[0] == u + pieces[0] && rest[1..] == pieces[1..];
      calc {
        [t[0]] + rest[0];
        [t[0]] + (u + pieces[0]);
        ([t[0]] + u) + pieces[0];
        { assert [t[0]] + u == t; }
        t + pieces[0];
      }
    }
  }

  /** Splitting `;`-free tokens joined with `;` gives back the tokens. */
  lemma {:induction false} SplitJoin(tokens: seq<string>)
    requires |tokens| >= 1
    requires forall t :: t in tokens ==> ';' !in t
    ensures Split(JoinTokens(tokens)) == tokens
  {
    if |tokens| == 1 {
      SplitPrefix(tokens[0], "");
      assert tokens[0] + "" == tokens[0];
    } else {
      assert forall t :: t in tokens[1..] ==> t in tokens;
      SplitJoin(tokens[1..]);
      SplitJoinStep(tokens);
    }
  }

  /** The inductive step of `SplitJoin`: a `;`-free first token in front of a round trip. */
  lemma SplitJoinStep(tokens: seq<string>)
    requires |tokens| >= 2 && ';' !in tokens[0]
    requires Split(JoinTokens(tokens[1..])) == tokens[1..]
    ensures Split(JoinTokens(tokens)) == tokens
  {
    var rest := JoinTokens(tokens[1..]);
    SplitAfterSeparator(rest);
    SplitPrefix(tokens[0], ";" + rest);
    assert tokens[0] + ";" + rest == tokens[0] + (";" + rest);
    assert tokens[0] + "" == tokens[0];
    assert tokens == [tokens[0]] + tokens[1..];
  }

  /** A leading `;` splits off an empty first piece. */
  lemma SplitAfterSeparator(s: string)
    ensures Split(";" + s) == [""] + Split(s)
  {
    assert (";" + s)[0] == ';' && (";" + s)[1..] == s;
  }

  // ---------------------------------------------------------------------------
  // clean_data
  // ---------------------------------------------------------------------------

  /**
   * The frames `clean_data` accepts: at least one row, every row with as many
   * tokens as the first, distinct column labels, and every token ending in a
   * digit.
   */
  ghost predicate Cleanable(df: seq<JoinedRow>)
  {
    && df != []
    && (forall i :: 0 <= i < |df| ==> |Split(df[i].categories)| == |Split(df[0].categories)|)
    && (forall a, b :: 0 <= a < b < |Split(df[0].categories)| ==>
          CategoryName(Split(df[0].categories)[a]) != CategoryName(Split(df[0].categories)[b]))
    && (forall i, j :: 0 <= i < |df| && 0 <= j < |Split(df[i].categories)| ==>
          TokenValue(Split(df[i].categories)[j]).Some?)
  }

  /**
   * A cleaned row stems from this merged row: same text columns, one integer
   * per token, each the value of that token's last character. The token's
   * name part is not consulted.
   */
  ghost predicate Expands(src: JoinedRow, row: CleanRow, k: nat)
  {
    && row.id == src.id && row.message == src.message
    && row.original == src.original && row.genre == src.genre
    && |Split(src.categories)| == k == |row.flags|
    && forall j :: 0 <= j < k ==> TokenValue(Split(src.categories)[j]) == Some(row.flags[j])
  }

  /** The checks a successful cleaning has passed. */
  lemma CleanOkPassedChecks(df: seq<JoinedRow>)
    requires Clean(df).Ok?
    ensures df != [] && |Tokens(df)[0]| >= Width(Tokens(df))
    ensures FirstFailingColumn(Tokens(df), ColumnNames(Tokens(df)[0]), 0).None?
    ensures Clean(df).value.names == ColumnNames(Tokens(df)[0])
  {
  }

  /** A successful cleaning saw only cleanable frames. */
  lemma CleanOkIsCleanable(df: seq<JoinedRow>)
    requires Clean(df).Ok?
    ensures Cleanable(df)
  {
    CleanOkPassedChecks(df);
    var grid := Tokens(df);
    var first := Split(df[0].categories);
    assert grid[0] == first;
    var names := ColumnNames(first);
    var k := |names|;
    forall i | 0 <= i < |df|
      ensures |Split(df[i].categories)| == |first|
    {
      assert grid[i] == Split(df[i].categories);
      if k > 0 {
        assert ColumnConverts(grid, names, k - 1);
        assert CellValue(grid, i, k - 1).Some?;
      }
    }
    forall a, b | 0 <= a < b < |first|
      ensures CategoryName(first[a]) != CategoryName(first[b])
    {
      assert ColumnConverts(grid, names, a);
      assert names[a] == CategoryName(first[a]) && names[b] == CategoryName(first[b]);
    }
    forall i, j | 0 <= i < |df| && 0 <= j < |Split(df[i].categories)|
      ensures TokenValue(Split(df[i].categories)[j]).Some?
    {
      assert grid[i] == Split(df[i].categories);
      assert ColumnConverts(grid, names, j);
      assert CellValue(grid, i, j).Some?;
    }
  }

  /** Cleaning a cleanable frame does not raise. */
  lemma CleanableCleansOk(df: seq<JoinedRow>)
    requires Cleanable(df)
    ensures Clean(df).Ok?
  {
    var grid := Tokens(df);
    var names := ColumnNames(grid[0]);
    var k := |names|;
    var w := Width(grid);
    var iw :| 0 <= iw < |grid| && |grid[iw]| == w;
    assert grid[iw] == Split(df[iw].categories);
    assert w == k;
    forall c | 0 <= c < k
      ensures ColumnConverts(grid, names, c)
    {
      forall c' | 0 <= c' < k && c' != c
        ensures names[c'] != names[c]
      {
      }
      forall i | 0 <= i < |grid|
        ensures CellValue(grid, i, c).Some?
      {
        assert grid[i] == Split(df[i].categories);
        assert TokenValue(Split(df[i].categories)[c]).Some?;
      }
    }
    assert FirstFailingColumn(grid, names, 0).None?;
  }

  /** `clean_data` returns a frame exactly on the cleanable frames, and raises on all others. */
  lemma CleanSucceedsIff(df: seq<JoinedRow>)
    ensures Clean(df).Ok? <==> Cleanable(df)
  {
    if Clean(df).Ok? {
      CleanOkIsCleanable(df);
    }
    if Cleanable(df) {
      CleanableCleansOk(df);
    }
  }

  /** Cleaning a frame without rows raises, since it has no first row to name the columns after. */
  lemma CleanOfEmptyFrame()
    ensures Clean([]) == Err(EmptyTable)
  {
  }

  /** The column labels are the first row's tokens, each without its last two characters, in token order. */
  lemma CleanNamesFromFirstRow(df: seq<JoinedRow>, t: CleanTable)
    requires Clean(df) == Ok(t)
    ensures |t.names| == |Split(df[0].categories)|
    ensures forall j :: 0 <= j < |t.names| ==> t.names[j] == CategoryName(Split(df[0].categories)[j])
    ensures forall a, b :: 0 <= a < b < |t.names| ==> t.names[a] != t.names[b]
  {
    CleanSucceedsIff(df);
  }

  /**
   * Before duplicates are dropped, row i of the cleaned frame stems from row i
   * of the merged frame; the result is what `drop_duplicates` leaves of it.
   */
  lemma CleanExpandsRowByRow(df: seq<JoinedRow>, t: CleanTable)
    requires Clean(df) == Ok(t)
    ensures |Tokens(df)| == |df|
    ensures forall j :: 0 <= j < |t.names| ==> ColumnConverts(Tokens(df), t.names, j)
    ensures |ExpandedRows(df, Tokens(df), t.names)| == |df|
    ensures forall i :: 0 <= i < |df| ==> Expands(df[i], ExpandedRows(df, Tokens(df), t.names)[i], |t.names|)
    ensures t.rows == DropDuplicates(ExpandedRows(df, Tokens(df), t.names))
  {
    CleanSucceedsIff(df);
    var grid := Tokens(df);
    var names := ColumnNames(grid[0]);
    assert FirstFailingColumn(grid, names, 0).None?;
    assert names == t.names;
    var e := ExpandedRows(df, grid, names);
    forall i | 0 <= i < |df|
      ensures Expands(df[i], e[i], |names|)
    {
      assert grid[i] == Split(df[i].categories);
      forall j | 0 <= j < |names|
        ensures TokenValue(grid[i][j]) == Some(e[i].flags[j])
      {
        assert ColumnConverts(grid, names, j);
      }
    }
  }

  /**
   * Every cleaned row stems from some merged row: its text columns are the
   * row's, and column j holds the value of the last character of the row's
   * j-th token.
   */
  lemma CleanRowsStemFromMergedRows(df: seq<JoinedRow>, t: CleanTable)
    requires Clean(df) == Ok(t)
    ensures forall row :: row in t.rows ==> exists i :: 0 <= i < |df| && Expands(df[i], row, |t.names|)
  {
    CleanExpandsRowByRow(df, t);
    var e, k := ExpandedRows(df, Tokens(df), t.names), |t.names|;
    forall row | row in t.rows
      ensures exists i :: 0 <= i < |df| && Expands(df[i], row, k)
    {
      var a :| 0 <= a < |t.rows| && t.rows[a] == row;
      var i :| 0 <= i < |e| && e[i] == row;
      assert Expands(df[i], e[i], k);
    }
  }

  /** Every merged row is represented in the cleaned frame by a row expanding it. */
  lemma CleanKeepsEveryRowsValues(df: seq<JoinedRow>, t: CleanTable)
    requires Clean(df) == Ok(t)
    ensures forall i :: 0 <= i < |df| ==> exists row :: row in t.rows && Expands(df[i], row, |t.names|)
  {
    CleanExpandsRowByRow(df, t);
    var e, k := ExpandedRows(df, Tokens(df), t.names), |t.names|;
    forall i | 0 <= i < |df|
      ensures exists row :: row in t.rows && Expands(df[i], row, k)
    {
      assert e[i] in t.rows;
    }
  }

  /** Dropping duplicates from row-by-row expansions keeps an expansion of every row and nothing else. */
  lemma ExpansionSurvivesDropDuplicates(df: seq<JoinedRow>, e: seq<CleanRow>, k: nat)
    requires |e| == |df|
    requires forall i :: 0 <= i < |df| ==> Expands(df[i], e[i], k)
    ensures forall row :: row in DropDuplicates(e) ==> exists i :: 0 <= i < |df| && Expands(df[i], row, k)
    ensures forall i :: 0 <= i < |df| ==> exists row :: row in DropDuplicates(e) && Expands(df[i], row, k)
  {
    var rows := DropDuplicates(e);
    forall row | row in rows
      ensures exists i :: 0 <= i < |df| && Expands(df[i], row, k)
    {
      var a :| 0 <= a < |rows| && rows[a] == row;
      var i :| 0 <= i < |e| && e[i] == row;
      assert Expands(df[i], e[i], k);
    }
    forall i | 0 <= i < |df|
      ensures exists row :: row in rows && Expands(df[i], row, k)
    {
      assert e[i] in rows;
    }
  }

  /**
   * After `drop_duplicates` no two rows are equal, every expanded row value is
   * still there, the rows keep the order of their first occurrences, and
   * there are no more rows than the merged frame had.
   */
  lemma CleanDropsDuplicates(df: seq<JoinedRow>, t: CleanTable)
    requires Clean(df) == Ok(t)
    ensures |t.rows| <= |df|
    ensures forall a, b :: 0 <= a < b < |t.rows| ==> t.rows[a] != t.rows[b]
    ensures forall i :: 0 <= i < |df| ==> ExpandedRows(df, Tokens(df), t.names)[i] in t.rows
    ensures forall a, b :: 0 <= a < b < |t.rows| ==>
              FirstIndex(ExpandedRows(df, Tokens(df), t.names), t.rows[a])
              < FirstIndex(ExpandedRows(df, Tokens(df), t.names), t.rows[b])
  {
    CleanExpandsRowByRow(df, t);
    DropDuplicatesKeepsFirstOccurrenceOrder(ExpandedRows(df, Tokens(df), t.names));
  }

  /** A row whose tokens do not all end in a digit makes `clean_data` raise. */
  lemma CleanRejectsNonDigit(df: seq<JoinedRow>, i: nat, j: nat)
    requires i < |df| && j < |Split(df[i].categories)|
    requires TokenValue(Split(df[i].categories)[j]).None?
    ensures Clean(df).Err?
  {
    CleanSucceedsIff(df);
  }

  /** A row with a different number of tokens than the first makes `clean_data` raise. */
  lemma CleanRejectsRaggedRow(df: seq<JoinedRow>, i: nat)
    requires i < |df| && |Split(df[i].categories)| != |Split(df[0].categories)|
    ensures Clean(df).Err?
  {
    CleanSucceedsIff(df);
  }
}

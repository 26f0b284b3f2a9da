/**
 * Worked inputs for `clean_data`: a value of 2 is kept as 2, a non-digit
 * value raises, tokens fill columns by position whatever their names, and
 * the merge-then-clean of a single message.
 */
module EtlExamples {
  import opened Wrappers
  import opened EtlPipeline
  import opened EtlProperties

  /** A string without `;` splits into itself alone. */
  lemma SplitWithoutSeparator(s: string)
    requires ';' !in s
    ensures Split(s) == [s]
  {
    SplitPrefix(s, "");
    assert s + "" == s;
  }

  /** Two `;`-free strings joined by `;` split back into the two. */
  lemma SplitTwo(a: string, b: string)
    requires ';' !in a && ';' !in b
    ensures Split(a + ";" + b) == [a, b]
  {
    SplitJoin([a, b]);
    assert JoinTokens([a, b]) == a + ";" + JoinTokens([b]);
  }

  /** A cleanable single row becomes one row whose values are its tokens' digits, under its tokens' names. */
  lemma CleanOneRow(r: JoinedRow, names: seq<string>, flags: seq<int>)
    requires Cleanable([r])
    requires |names| == |flags| == |Split(r.categories)|
    requires forall j :: 0 <= j < |names| ==>
               CategoryName(Split(r.categories)[j]) == names[j] && TokenValue(Split(r.categories)[j]) == Some(flags[j])
    ensures Clean([r]) == Ok(CleanTable(names, [CleanRow(r.id, r.message, r.original, r.genre, flags)]))
  {
    var df := [r];
    CleanSucceedsIff(df);
    var t := Clean(df).value;
    CleanNamesFromFirstRow(df, t);
    assert t.names == names;
    CleanExpandsRowByRow(df, t);
    var e := ExpandedRows(df, Tokens(df), t.names);
    assert Expands(df[0], e[0], |names|);
    assert e[0].flags == flags;
    assert e[..0] == [];
    assert DropDuplicates(e) == e;
    assert e == [CleanRow(r.id, r.message, r.original, r.genre, flags)];
  }

  /** A row of one token ending in a digit is cleanable on its own. */
  lemma OneTokenCleanable(r: JoinedRow, token: string)
    requires Split(r.categories) == [token] && TokenValue(token).Some?
    ensures Cleanable([r])
  {
  }

  /** Two cleanable rows with different ids become two rows, in order, under the first row's names. */
  lemma CleanTwoRows(r1: JoinedRow, r2: JoinedRow, names: seq<string>, flags1: seq<int>, flags2: seq<int>)
    requires Cleanable([r1, r2]) && r1.id != r2.id
    requires |names| == |flags1| == |flags2| == |Split(r1.categories)| == |Split(r2.categories)|
    requires forall j :: 0 <= j < |names| ==>
               CategoryName(Split(r1.categories)[j]) == names[j]
               && TokenValue(Split(r1.categories)[j]) == Some(flags1[j])
               && TokenValue(Split(r2.categories)[j]) == Some(flags2[j])
    ensures Clean([r1, r2]) == Ok(CleanTable(names, [
              CleanRow(r1.id, r1.message, r1.original, r1.genre, flags1),
              CleanRow(r2.id, r2.message, r2.original, r2.genre, flags2)]))
  {
    var df := [r1, r2];
    CleanSucceedsIff(df);
    var t := Clean(df).value;
    CleanNamesFromFirstRow(df, t);
    assert t.names == names;
    CleanExpandsRowByRow(df, t);
    var e := ExpandedRows(df, Tokens(df), t.names);
    assert Expands(df[0], e[0], |names|) && Expands(df[1], e[1], |names|);
    assert e[0].flags == flags1 && e[1].flags == flags2;
    assert e[..1] == [e[0]] && e[..1][..0] == [];
    assert e[1] !in e[..1];
    assert DropDuplicates(e) == e;
    assert e == [CleanRow(r1.id, r1.message, r1.original, r1.genre, flags1),
                 CleanRow(r2.id, r2.message, r2.original, r2.genre, flags2)];
  }

  /** A value outside {0, 1} is not rejected: `related-2` is stored as 2. */
  lemma ValueTwoPassesThrough(r: JoinedRow)
    requires r.categories == "related-2"
    ensures Clean([r]) == Ok(CleanTable(["related"], [CleanRow(r.id, r.message, r.original, r.genre, [2])]))
  {
    SplitWithoutSeparator("related-2");
    assert "related-2"[..7] == "related";
    assert TokenValue("related-2") == Some(2);
    OneTokenCleanable(r, "related-2");
    CleanOneRow(r, ["related"], [2]);
  }

  /** A token ending in a letter makes `astype(int)` raise on its column. */
  lemma NonDigitValueRaises(r: JoinedRow)
    requires r.categories == "related-x"
    ensures Clean([r]) == Err(BadValue(0))
  {
    var df := [r];
    SplitWithoutSeparator("related-x");
    var grid := Tokens(df);
    var names := ColumnNames(grid[0]);
    assert grid == [["related-x"]];
    assert TokenValue("related-x") == None;
    assert CellValue(grid, 0, 0) == None;
    assert !ColumnConverts(grid, names, 0);
    assert FirstFailingColumn(grid, names, 0) == Some(0);
    assert !Duplicated(names, 0);
  }

  /** Two rows naming `a` and `b` in either order, with digit values, pass every check of `clean_data`. */
  lemma TwoRowsCleanable(r1: JoinedRow, r2: JoinedRow)
    requires Split(r1.categories) == ["a-1", "b-0"] && Split(r2.categories) == ["b-1", "a-0"]
    ensures Cleanable([r1, r2])
  {
    assert "a-1"[..1] == "a" && "b-0"[..1] == "b";
    assert CategoryName("a-1") != CategoryName("b-0");
    assert TokenValue("a-1") == Some(1) && TokenValue("b-0") == Some(0);
    assert TokenValue("b-1") == Some(1) && TokenValue("a-0") == Some(0);
  }

  /**
   * The second row lists its categories in the other order, yet its values
   * land by position: its `b-1` fills column `a`.
   */
  lemma TokensGoByPosition(r1: JoinedRow, r2: JoinedRow)
    requires r1.categories == "a-1;b-0" && r2.categories == "b-1;a-0" && r1.id != r2.id
    ensures Clean([r1, r2]) == Ok(CleanTable(["a", "b"], [
              CleanRow(r1.id, r1.message, r1.original, r1.genre, [1, 0]),
              CleanRow(r2.id, r2.message, r2.original, r2.genre, [1, 0])]))
  {
    SplitTwo("a-1", "b-0");
    SplitTwo("b-1", "a-0");
    assert "a-1" + ";" + "b-0" == "a-1;b-0";
    assert "b-1" + ";" + "a-0" == "b-1;a-0";
    TwoRowsCleanable(r1, r2);
    assert "a-1"[..1] == "a" && "b-0"[..1] == "b";
    assert TokenValue("a-1") == Some(1) && TokenValue("b-0") == Some(0);
    assert TokenValue("b-1") == Some(1) && TokenValue("a-0") == Some(0);
    CleanTwoRows(r1, r2, ["a", "b"], [1, 0], [1, 0]);
  }

  /** A row with the tokens `water-1` and `food-0` passes every check of `clean_data`. */
  lemma WaterFoodCleanable(r: JoinedRow)
    requires Split(r.categories) == ["water-1", "food-0"]
    ensures Cleanable([r])
  {
    assert "water-1"[..5] == "water" && "food-0"[..4] == "food";
    assert CategoryName("water-1") != CategoryName("food-0");
    assert TokenValue("water-1") == Some(1) && TokenValue("food-0") == Some(0);
  }

  /** One message row and one category row with the same id merge into one row. */
  lemma LoadOneMatchingPair(m: MessageRow, c: CategoryRow)
    requires m.id == c.id
    ensures LoadData([m], [c]) == [Merged(m, c)]
  {
    assert [c][1..] == [] && [m][1..] == [];
    assert MatchesOf(m, [c]) == [Merged(m, c)] + MatchesOf(m, []);
    assert LoadData([m], [c]) == MatchesOf(m, [c]) + LoadData([], [c]);
  }

  /** A merged row labelled `water-1;food-0` cleans to the columns water = 1 and food = 0. */
  lemma CleanWaterFood(r: JoinedRow)
    requires r.categories == "water-1;food-0"
    ensures Clean([r]) == Ok(CleanTable(["water", "food"], [CleanRow(r.id, r.message, r.original, r.genre, [1, 0])]))
  {
    SplitTwo("water-1", "food-0");
    assert "water-1" + ";" + "food-0" == "water-1;food-0";
    WaterFoodCleanable(r);
    assert "water-1"[..5] == "water" && "food-0"[..4] == "food";
    assert TokenValue("water-1") == Some(1) && TokenValue("food-0") == Some(0);
    CleanOneRow(r, ["water", "food"], [1, 0]);
  }

  /** A message labelled `water-1;food-0` becomes one row with columns water = 1 and food = 0. */
  lemma WaterFoodExample(m: MessageRow, c: CategoryRow)
    requires m.id == c.id && c.categories == "water-1;food-0"
    ensures Clean(LoadData([m], [c])) == Ok(CleanTable(["water", "food"], [CleanRow(m.id, m.message, m.original, m.genre, [1, 0])]))
  {
    LoadOneMatchingPair(m, c);
    CleanWaterFood(Merged(m, c));
  }
}

/**
  UTFGrid assembly for a stored grid. The decompressed grid object is extended
  by plain string splicing rather than by decoding and re-encoding JSON: its
  closing brace is cut off, a `"data"` member is opened, one `"key":json,` is
  appended per grid_data row, trailing commas are cut and both objects closed.
 */
module Grid {
  import opened PhpStrings

  /** One grid_data row: the feature key and its attributes, already JSON text. */
  datatype GridRow = GridRow(key: string, json: string)

  const CommaSet: set<char> := {','}
  const DataOpen: string := ",\"data\":{"

  /** What the loop starts from: the trimmed grid without its last character, then the opened data member. */
  function Head(blob: string): string
  {
    SubstrPrefix(Trim(blob), -1) + DataOpen
  }

  /** The text the loop appends for one row. */
  function Entry(row: GridRow): string
  {
    "\"" + row.key + "\":" + row.json + ","
  }

  /** Everything the loop appends, in row order. */
  function Entries(rows: seq<GridRow>): string
  {
    if rows == [] then [] else Entries(rows[..|rows| - 1]) + Entry(rows[|rows| - 1])
  }

  /** One more row appends one more entry. */
  lemma EntriesStep(rows: seq<GridRow>, i: nat)
    requires i < |rows|
    ensures Entries(rows[..i + 1]) == Entries(rows[..i]) + Entry(rows[i])
  {
    assert rows[..i + 1][..i] == rows[..i];
  }

  /** The string getUTFgrid returns for a stored grid with these grid_data rows. */
  function Splice(blob: string, rows: seq<GridRow>): (r: string)
    ensures |r| >= |Head(blob)| + 2 && r[..|Head(blob)|] == Head(blob)
    ensures r[|r| - 2..] == "}}"
  {
    var h := Head(blob);
    var s := h + Entries(rows);
    var t := RTrim(s, CommaSet);
    assert h[|h| - 1] == '{';
    assert s[|h| - 1] !in CommaSet;
    assert t[..|h|] == s[..|h|] == h;
    t + "}}"
  }

  /** The foreach of getUTFgrid: append `"key":json,` for every row, in order. */
  method AppendEntries(start: string, rows: seq<GridRow>) returns (grid: string)
    ensures grid == start + Entries(rows)
  {
    grid := start;
    var i := 0;
    while i < |rows|
      invariant 0 <= i <= |rows|
      invariant grid == start + Entries(rows[..i])
    {
      EntriesStep(rows, i);
      grid := grid + "\"" + rows[i].key + "\":" + rows[i].json + ",";
      i := i + 1;
    }
    assert rows[..i] == rows;
  }

  /** getUTFgrid's splice of a stored grid: cut the closing brace, open the data
      member, append the entries, cut trailing commas and close both objects. */
  method AssembleGrid(blob: string, rows: seq<GridRow>) returns (grid: string)
    ensures grid == Splice(blob, rows)
  {
    grid := SubstrPrefix(Trim(blob), -1);
    grid := grid + DataOpen;
    grid := AppendEntries(grid, rows);
    grid := RTrim(grid, CommaSet) + "}}";
  }

  /** `"key":json`: one member of the injected data object. */
  function Member(row: GridRow): string
  {
    "\"" + row.key + "\":" + row.json
  }

  /** The members separated by commas, with no comma after the last: the body of a JSON object. */
  function Members(rows: seq<GridRow>): string
  {
    if rows == [] then []
    else if |rows| == 1 then Member(rows[0])
    else Members(rows[..|rows| - 1]) + "," + Member(rows[|rows| - 1])
  }

  predicate EndsWithComma(s: string)
  {
    s != [] && s[|s| - 1] == ','
  }

  /** The appended entries are the members plus one trailing comma. */
  lemma {:induction false} EntriesAreMembers(rows: seq<GridRow>)
    requires rows != []
    ensures Entries(rows) == Members(rows) + ","
  {
    var init := rows[..|rows| - 1];
    if |rows| > 1 {
      EntriesAreMembers(init);
    }
  }

  lemma RTrimNoComma(s: string)
    requires !EndsWithComma(s)
    ensures RTrim(s, CommaSet) == s
  {
  }

  lemma RTrimOneComma(s: string)
    requires !EndsWithComma(s)
    ensures RTrim(s + ",", CommaSet) == s
  {
    assert (s + ",")[..|s|] == s;
    RTrimNoComma(s);
  }

  lemma MemberNoComma(row: GridRow)
    requires !EndsWithComma(row.json)
    ensures !EndsWithComma(Member(row))
  {
    var m := Member(row);
    if row.json == [] {
      assert m[|m| - 1] == ':';
    } else {
      assert m[|m| - 1] == row.json[|row.json| - 1];
    }
  }

  lemma MembersNoComma(rows: seq<GridRow>)
    requires rows != [] && !EndsWithComma(rows[|rows| - 1].json)
    ensures Members(rows) != [] && !EndsWithComma(Members(rows))
  {
    var last := Member(rows[|rows| - 1]);
    MemberNoComma(rows[|rows| - 1]);
    if |rows| > 1 {
      var m := Members(rows);
      assert m == Members(rows[..|rows| - 1]) + "," + last;
      assert m[|m| - 1] == last[|last| - 1];
    }
  }

  lemma HeadNoComma(blob: string)
    ensures !EndsWithComma(Head(blob))
  {
    var h := Head(blob);
    assert h[|h| - 1] == DataOpen[|DataOpen| - 1];
  }

  /** Cutting the trailing commas after the entries leaves exactly the members. */
  lemma CloseEntries(head: string, rows: seq<GridRow>)
    requires !EndsWithComma(head)
    requires rows == [] || !EndsWithComma(rows[|rows| - 1].json)
    ensures RTrim(head + Entries(rows), CommaSet) == head + Members(rows)
  {
    if rows == [] {
      assert head + Entries(rows) == head + Members(rows) == head;
      RTrimNoComma(head);
    } else {
      var m := Members(rows);
      MembersNoComma(rows);
      assert (head + m)[|head + m| - 1] == m[|m| - 1];
      EntriesAreMembers(rows);
      assert head + Entries(rows) == head + m + ",";
      RTrimOneComma(head + m);
    }
  }

  /** The splice output is the trimmed grid without its last character, then
      `,"data":{`, the members in row order separated by single commas, and `}}`;
      this needs only that the last row's JSON does not itself end in a comma. */
  lemma SpliceShape(blob: string, rows: seq<GridRow>)
    requires rows == [] || !EndsWithComma(rows[|rows| - 1].json)
    ensures Splice(blob, rows) == SubstrPrefix(Trim(blob), -1) + DataOpen + Members(rows) + "}}"
  {
    HeadNoComma(blob);
    CloseEntries(Head(blob), rows);
  }

  /** When the trimmed grid is a JSON object `body}`, the output is the same object
      with one more member, `"data"`, holding the rows' members. */
  lemma SpliceAddsDataMember(blob: string, body: string, rows: seq<GridRow>)
    requires Trim(blob) == body + "}"
    requires rows == [] || !EndsWithComma(rows[|rows| - 1].json)
    ensures Splice(blob, rows) == body + ",\"data\":{" + Members(rows) + "}}"
  {
    SpliceShape(blob, rows);
    assert SubstrPrefix(body + "}", -1) == body;
  }

  /** With a single data row the data object holds exactly that row's member. */
  lemma SpliceOneRow(blob: string, body: string, row: GridRow)
    requires Trim(blob) == body + "}"
    requires !EndsWithComma(row.json)
    ensures Splice(blob, [row]) == body + DataOpen + Member(row) + "}}"
  {
    SpliceAddsDataMember(blob, body, [row]);
  }

  /** The grid {"a":1} with no data rows becomes {"a":1,"data":{}}. */
  lemma SpliceExampleNoRows(blob: string)
    requires Trim(blob) == "{\"a\":1}"
    ensures Splice(blob, []) == "{\"a\":1,\"data\":{}}"
  {
    assert Trim(blob) == "{\"a\":1" + "}";
    SpliceAddsDataMember(blob, "{\"a\":1", []);
    NoRowsText();
  }

  lemma NoRowsText()
    ensures "{\"a\":1" + ",\"data\":{" + Members([]) + "}}" == "{\"a\":1,\"data\":{}}"
  {
  }

  /** The grid {"a":1} with the single row k1 = 5 becomes {"a":1,"data":{"k1":5}}. */
  lemma SpliceExampleOneRow(blob: string)
    requires Trim(blob) == "{\"a\":1}"
    ensures Splice(blob, [GridRow("k1", "5")]) == "{\"a\":1,\"data\":{\"k1\":5}}"
  {
    assert Trim(blob) == "{\"a\":1" + "}";
    SpliceOneRow(blob, "{\"a\":1", GridRow("k1", "5"));
    OneRowText();
  }

  lemma OneRowText()
    ensures "{\"a\":1" + DataOpen + Member(GridRow("k1", "5")) + "}}" == "{\"a\":1,\"data\":{\"k1\":5}}"
  {
  }

  /** The splice assumes the grid object already has a member: an empty object
      comes out with a comma straight after its brace, which is not JSON. */
  lemma SpliceOfEmptyObject(blob: string)
    requires Trim(blob) == "{}"
    ensures Splice(blob, []) == "{,\"data\":{}}"
  {
    assert Trim(blob) == "{" + "}";
    SpliceAddsDataMember(blob, "{", []);
    EmptyObjectText();
  }

  lemma EmptyObjectText()
    ensures "{" + ",\"data\":{" + Members([]) + "}}" == "{,\"data\":{}}"
  {
  }
}

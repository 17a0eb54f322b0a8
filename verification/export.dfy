/** The spreadsheet export of test_tc_generator/app.py (create_excel_with_testcases): a header
    row, one row per test case with its score text and grade, and column widths fitted to the
    longest value in each column. */
module Export {
  import opened Values
  import opened Structure
  import opened Synthesis
  import opened Validation

  const ItemKey := "항목번호"
  const GradeKey := "등급"

  /** The eleven column headers of line 63, in column order. */
  const Headers := [ItemKey] + RecordKeys + [ScoreKey, GradeKey]

  const Columns := 11

  const SheetTitle := "Testcases"

  /** Lines 93-100: the grade shown for a score. */
  function Grade(score: int): string {
    if score >= 90 then "🟢"
    else if score >= 70 then "🟡"
    else if score >= 50 then "🟠"
    else "🔴"
  }

  /** The position of a grade from worst (0) to best (3). */
  function Rank(grade: string): nat {
    if grade == "🟢" then 3
    else if grade == "🟡" then 2
    else if grade == "🟠" then 1
    else 0
  }

  /** The grade is a step function with steps at 90, 70 and 50. */
  lemma GradeBands(score: int)
    ensures Grade(score) == "🟢" <==> score >= 90
    ensures Grade(score) == "🟡" <==> 70 <= score < 90
    ensures Grade(score) == "🟠" <==> 50 <= score < 70
    ensures Grade(score) == "🔴" <==> score < 50
  {
  }

  /** A higher score never gets a worse grade. */
  lemma GradeMonotone(a: int, b: int)
    requires a <= b
    ensures Rank(Grade(a)) <= Rank(Grade(b))
  {
  }

  lemma GradeBoundaries()
    ensures Grade(90) == "🟢" && Grade(89) == "🟡" && Grade(70) == "🟡" && Grade(69) == "🟠"
    ensures Grade(50) == "🟠" && Grade(49) == "🔴"
  {
  }

  /** tc[key]: a KeyError when a dict lacks the key, a TypeError when tc is no dict. */
  function Item(tc: Json, key: string): (r: Result<Json>)
    ensures r.Ok? <==> tc.JObj? && key in Keys(tc.fields)
    ensures r.Ok? ==> Get(tc.fields, key) == Some(r.value)
    ensures r.Err? ==> r.error == if tc.JObj? then KeyError(key) else TypeError
  {
    if !tc.JObj? then Err(TypeError)
    else
      match Get(tc.fields, key)
      case Some(v) => Ok(v)
      case None => Err(KeyError(key))
  }

  /** What a cell accepts: openpyxl refuses a list or a dict with a ValueError. */
  function Storable(v: Json): (r: Result<Json>)
    ensures r.Ok? <==> IsScalar(v)
    ensures r.Ok? ==> r.value == v
    ensures r.Err? ==> r.error.ValueError?
  {
    if IsScalar(v) then Ok(v) else Err(ValueError("Cannot convert to Excel"))
  }

  /** The cells of lines 79-86: tc[key] for each key in turn, the first failure raising
      (FieldsFirstFailure). */
  function Fields(tc: Json, keys: seq<string>): (r: Result<seq<Json>>)
    ensures r.Ok? <==> forall j :: 0 <= j < |keys| ==> Item(tc, keys[j]).Ok? && IsScalar(Item(tc, keys[j]).value)
    ensures r.Ok? ==> |r.value| == |keys| && forall j :: 0 <= j < |keys| ==> Item(tc, keys[j]) == Ok(r.value[j])
    ensures r.Err? ==> r.error.ValueError? || r.error == TypeError || exists j :: 0 <= j < |keys| && r.error == KeyError(keys[j])
  {
    if keys == [] then Ok([])
    else
      var v :- Item(tc, keys[0]);
      var cell :- Storable(v);
      var rest :- Fields(tc, keys[1..]);
      Ok([cell] + rest)
  }

  /** When the cells cannot all be written, the error raised is that of the first key, in
      column order, whose cell fails. */
  lemma {:induction false} FieldsFirstFailure(tc: Json, keys: seq<string>)
    requires Fields(tc, keys).Err?
    ensures exists j :: 0 <= j < |keys| && StoredBefore(tc, keys, j) && Fields(tc, keys).error == CellError(tc, keys[j])
  {
    if Item(tc, keys[0]).Ok? && IsScalar(Item(tc, keys[0]).value) {
      assert Fields(tc, keys[1..]).Err? && Fields(tc, keys).error == Fields(tc, keys[1..]).error;
      FieldsFirstFailure(tc, keys[1..]);
      FirstFailureShifted(tc, keys, Fields(tc, keys).error);
    } else {
      assert StoredBefore(tc, keys, 0);
      assert Fields(tc, keys).error == CellError(tc, keys[0]);
    }
  }

  /** A failure first met after the cell for keys[0] was written is first met among keys. */
  lemma FirstFailureShifted(tc: Json, keys: seq<string>, e: Exc)
    requires keys != [] && Item(tc, keys[0]).Ok? && IsScalar(Item(tc, keys[0]).value)
    requires exists j :: 0 <= j < |keys[1..]| && StoredBefore(tc, keys[1..], j) && e == CellError(tc, keys[1..][j])
    ensures exists j :: 0 <= j < |keys| && StoredBefore(tc, keys, j) && e == CellError(tc, keys[j])
  {
    var j :| 0 <= j < |keys[1..]| && StoredBefore(tc, keys[1..], j) && e == CellError(tc, keys[1..][j]);
    assert keys[j + 1] == keys[1..][j];
    forall i | 0 <= i < j + 1 ensures Item(tc, keys[i]).Ok? && IsScalar(Item(tc, keys[i]).value) {
      if i > 0 { assert keys[i] == keys[1..][i - 1]; }
    }
    assert StoredBefore(tc, keys, j + 1);
  }

  /** The cells for the first j keys are all written without raising. */
  ghost predicate StoredBefore(tc: Json, keys: seq<string>, j: nat)
    requires j <= |keys|
  {
    forall i :: 0 <= i < j ==> Item(tc, keys[i]).Ok? && IsScalar(Item(tc, keys[i]).value)
  }

  /** What writing the cell for key raises when it raises: tc[key]'s own error, or the
      ValueError of a value openpyxl cannot store. */
  function CellError(tc: Json, key: string): Exc {
    if Item(tc, key).Err? then Item(tc, key).error else ValueError("Cannot convert to Excel")
  }

  /** `score >= 90` is defined for an int or a bool (counted as 0 or 1); any other value
      raises a TypeError. */
  function AsNumber(score: Json): (r: Result<int>)
    ensures r.Ok? <==> score.JInt? || score.JBool?
    ensures score.JInt? ==> r == Ok(score.n)
    ensures r.Err? ==> r.error == TypeError
  {
    match score
    case JInt(n) => Ok(n)
    case JBool(b) => Ok(if b then 1 else 0)
    case _ => Err(TypeError)
  }

  /** Lines 78-102: the eleven cells of the row of test case tc, the k-th one (from 0). */
  function Row(tc: Json, k: nat): (r: Result<seq<Json>>)
    ensures r.Ok? ==> |r.value| == Columns
  {
    var fields :- Fields(tc, RecordKeys);
    var score :- Item(tc, ScoreKey);
    var n :- AsNumber(score);
    Ok([JInt(k + 1)] + fields + [JStr(ScalarToString(score) + "점"), JStr(Grade(n))])
  }

  /** A row exists exactly when tc is a dict holding the eight fields as plain values and a
      numeric score. */
  lemma RowExists(tc: Json, k: nat)
    ensures Row(tc, k).Ok? <==>
      && (forall j :: 0 <= j < |RecordKeys| ==> Item(tc, RecordKeys[j]).Ok? && IsScalar(Item(tc, RecordKeys[j]).value))
      && Item(tc, ScoreKey).Ok? && AsNumber(Item(tc, ScoreKey).value).Ok?
  {
    var fields := Fields(tc, RecordKeys);
    var score := Item(tc, ScoreKey);
    if !(fields.Ok? && score.Ok? && AsNumber(score.value).Ok?) {
      assert Row(tc, k).Err?;
    }
  }

  /** A row holds the item number k + 1, the eight fields verbatim in header order, the
      score followed by "점", and the grade of the score. */
  lemma {:induction false} RowLayout(tc: Json, k: nat)
    requires Row(tc, k).Ok?
    ensures tc.JObj? && ScoreKey in Keys(tc.fields)
    ensures var row := Row(tc, k).value;
      var score := Get(tc.fields, ScoreKey).value;
      && row[0] == JInt(k + 1)
      && (forall c :: 1 <= c <= |RecordKeys| ==> Get(tc.fields, Headers[c]) == Some(row[c]))
      && row[9] == JStr(ScalarToString(score) + "점")
      && row[10] == JStr(Grade(AsNumber(score).value))
  {
    var fields := Fields(tc, RecordKeys).value;
    var score := Item(tc, ScoreKey).value;
    var row := [JInt(k + 1)] + fields + [JStr(ScalarToString(score) + "점"), JStr(Grade(AsNumber(score).value))];
    assert Row(tc, k) == Ok(row);
    assert Headers[1..|RecordKeys| + 1] == RecordKeys;
    assert row[1..|RecordKeys| + 1] == fields;
    ShiftedCells(tc, RecordKeys, Headers, fields, row);
  }

  /** Cells read under keys and laid out one column to the right, under headers shifted the
      same way, sit under their own header. */
  lemma {:induction false} ShiftedCells(tc: Json, keys: seq<string>, headers: seq<string>, fields: seq<Json>, row: seq<Json>)
    requires tc.JObj? && |fields| == |keys| < |headers| && |keys| < |row|
    requires forall j :: 0 <= j < |keys| ==> Item(tc, keys[j]) == Ok(fields[j])
    requires headers[1..|keys| + 1] == keys && row[1..|keys| + 1] == fields
    ensures forall c :: 1 <= c <= |keys| ==> Get(tc.fields, headers[c]) == Some(row[c])
  {
    forall c | 1 <= c <= |keys|
      ensures Get(tc.fields, headers[c]) == Some(row[c])
    {
      assert headers[c] == keys[c - 1];
      assert row[c] == fields[c - 1];
      assert Item(tc, keys[c - 1]) == Ok(fields[c - 1]);
    }
  }

  /** The header row of lines 70-74. */
  function HeaderRow(): (row: seq<Json>)
    ensures |row| == Columns
    ensures forall c :: 0 <= c < Columns ==> row[c] == JStr(Headers[c])
  {
    seq(Columns, c requires 0 <= c < Columns => JStr(Headers[c]))
  }

  /** The step of the loop of lines 77-102: record k gets row k + 2. */
  function RowStep(): (Json, nat) -> Result<seq<Json>> {
    (tc: Json, k: nat) => Row(tc, k)
  }

  /** The rows of lines 77-102; the first record without a row raises. */
  function Rows(testcases: seq<Json>): Result<seq<seq<Json>>> {
    MapRun(testcases, RowStep())
  }

  /** The rows exist exactly when every record has its row, and are then those rows, one per
      record, in the records' order, each with the eleven columns. */
  lemma RowsSpec(testcases: seq<Json>)
    ensures Rows(testcases).Ok? <==> forall k :: 0 <= k < |testcases| ==> Row(testcases[k], k).Ok?
    ensures Rows(testcases).Ok? ==>
      && |Rows(testcases).value| == |testcases|
      && Rectangular(Rows(testcases).value)
      && forall k :: 0 <= k < |testcases| ==> Rows(testcases).value[k] == Row(testcases[k], k).value
  {
    MapRunSpec(testcases, RowStep());
  }

  /** Every row of the sheet has the eleven columns. */
  predicate Rectangular(grid: seq<seq<Json>>) {
    forall i :: 0 <= i < |grid| ==> |grid[i]| == Columns
  }

  /** The sheet's content: the header row above the record rows. */
  function Layout(rows: seq<seq<Json>>): (grid: seq<seq<Json>>)
    requires Rectangular(rows)
    ensures Rectangular(grid) && |grid| == |rows| + 1
  {
    [HeaderRow()] + rows
  }

  /** cells holds grid, row r and column c (both from 1) at key (r, c), and nothing else. */
  predicate Shows(cells: map<(int, int), Json>, grid: seq<seq<Json>>)
    requires Rectangular(grid)
  {
    && (forall r, c :: 1 <= r <= |grid| && 1 <= c <= Columns ==> (r, c) in cells)
    && (forall p :: p in cells ==> 1 <= p.0 <= |grid| && 1 <= p.1 <= Columns && cells[p] == grid[p.0 - 1][p.1 - 1])
  }

  /** The longest str(v) over the truthy values in column `column` of the first n rows, or 0
      (lines 106-110). */
  function ColumnMax(grid: seq<seq<Json>>, column: nat, n: nat): nat
    requires Rectangular(grid) && 1 <= column <= Columns && n <= |grid|
  {
    if n == 0 then 0
    else
      var m := ColumnMax(grid, column, n - 1);
      var v := grid[n - 1][column - 1];
      if Truthy(v) then Max(m, |ScalarToString(v)|) else m
  }

  function Max(a: int, b: int): int {
    if a < b then b else a
  }

  /** ColumnMax is the maximum: no truthy value is longer, and it is the length of one of them
      or 0 when there is none. */
  lemma {:induction false} ColumnMaxIsMax(grid: seq<seq<Json>>, column: nat, n: nat)
    requires Rectangular(grid) && 1 <= column <= Columns && n <= |grid|
    ensures forall i :: 0 <= i < n && Truthy(grid[i][column - 1]) ==> |ScalarToString(grid[i][column - 1])| <= ColumnMax(grid, column, n)
    ensures (forall i :: 0 <= i < n ==> !Truthy(grid[i][column - 1])) ==> ColumnMax(grid, column, n) == 0
    ensures ColumnMax(grid, column, n) == 0 ||
      exists i :: 0 <= i < n && Truthy(grid[i][column - 1]) && |ScalarToString(grid[i][column - 1])| == ColumnMax(grid, column, n)
  {
    if n > 0 {
      ColumnMaxIsMax(grid, column, n - 1);
    }
  }

  /** Line 111: the width of a column. */
  function ColumnWidth(grid: seq<seq<Json>>, column: nat): int
    requires Rectangular(grid) && 1 <= column <= Columns
  {
    ColumnMax(grid, column, |grid|) + 2
  }

  /** A sheet showing a layout holds the headers across row 1. */
  lemma HeaderCells(cells: map<(int, int), Json>, rows: seq<seq<Json>>)
    requires Rectangular(rows) && Shows(cells, Layout(rows))
    ensures forall c :: 1 <= c <= Columns ==> (1, c) in cells && cells[(1, c)] == JStr(Headers[c - 1])
  {
    assert Layout(rows)[0] == HeaderRow();
  }

  /** Writing row as row |grid| + 1 below a shown grid shows the grid with that row added. */
  lemma {:induction false} ShowsAppend(before: map<(int, int), Json>, after: map<(int, int), Json>, grid: seq<seq<Json>>, row: seq<Json>)
    requires Rectangular(grid) && |row| == Columns && Shows(before, grid)
    requires forall p :: p in after <==> p in before || (p.0 == |grid| + 1 && 1 <= p.1 <= |row|)
    requires forall p :: p in after ==> after[p] == if p.0 == |grid| + 1 && 1 <= p.1 <= |row| then row[p.1 - 1] else before[p]
    ensures Rectangular(grid + [row]) && Shows(after, grid + [row])
  {
    var g := grid + [row];
    forall r, c | 1 <= r <= |g| && 1 <= c <= Columns
      ensures (r, c) in after
    {
      if r <= |grid| {
        assert (r, c) in before;
      }
    }
    forall p | p in after
      ensures 1 <= p.0 <= |g| && 1 <= p.1 <= Columns && after[p] == g[p.0 - 1][p.1 - 1]
    {
      if !(p.0 == |grid| + 1 && 1 <= p.1 <= |row|) {
        assert p in before;
      }
    }
  }

  /** The worksheet as openpyxl keeps it: its title, its cells by (row, column), the largest
      row and column written so far, and the column widths. */
  class Worksheet {
    var title: string
    var cells: map<(int, int), Json>
    var maxRow: nat
    var maxColumn: nat
    var widths: map<int, int>

    /** wb.active of a new Workbook: an empty sheet reports one row and one column. */
    constructor ()
      ensures title == "Sheet" && cells == map[] && maxRow == 1 && maxColumn == 1 && widths == map[]
    {
      title := "Sheet";
      cells := map[];
      maxRow := 1;
      maxColumn := 1;
      widths := map[];
    }

    /** ws.title = t. */
    method SetTitle(t: string)
      modifies this
      ensures title == t
      ensures cells == old(cells) && maxRow == old(maxRow) && maxColumn == old(maxColumn) && widths == old(widths)
    {
      title := t;
    }

    /** ws.cell(row=row, column=column, value=value) with a value openpyxl accepts. */
    method Cell(row: nat, column: nat, value: Json)
      modifies this
      ensures cells == old(cells)[(row, column) := value]
      ensures maxRow == Max(old(maxRow), row) && maxColumn == Max(old(maxColumn), column)
      ensures title == old(title) && widths == old(widths)
    {
      cells := cells[(row, column) := value];
      maxRow := Max(maxRow, row);
      maxColumn := Max(maxColumn, column);
    }

    /** Writes values into row `row`, one cell per column from column 1. */
    method WriteRow(row: nat, values: seq<Json>)
      requires values != []
      modifies this
      ensures forall p :: p in cells <==> p in old(cells) || (p.0 == row && 1 <= p.1 <= |values|)
      ensures forall p :: p in cells ==> cells[p] == if p.0 == row && 1 <= p.1 <= |values| then values[p.1 - 1] else old(cells)[p]
      ensures maxRow == Max(old(maxRow), row) && maxColumn == Max(old(maxColumn), |values|)
      ensures title == old(title) && widths == old(widths)
    {
      Cell(row, 1, values[0]);
      var c := 1;
      while c < |values|
        invariant 1 <= c <= |values|
        invariant forall p :: p in cells <==> p in old(cells) || (p.0 == row && 1 <= p.1 <= c)
        invariant forall p :: p in cells ==> cells[p] == if p.0 == row && 1 <= p.1 <= c then values[p.1 - 1] else old(cells)[p]
        invariant maxRow == Max(old(maxRow), row) && maxColumn == Max(old(maxColumn), c)
        invariant title == old(title) && widths == old(widths)
      {
        Cell(row, c + 1, values[c]);
        c := c + 1;
      }
    }

    /** Writes the next record row below the shown rows. */
    method AppendRow(ghost rows: seq<seq<Json>>, row: seq<Json>)
      requires Rectangular(rows) && |row| == Columns && Shows(cells, Layout(rows))
      requires maxRow == |rows| + 1 && maxColumn == Columns
      modifies this
      ensures Rectangular(rows + [row]) && Shows(cells, Layout(rows + [row]))
      ensures maxRow == |rows| + 2 && maxColumn == Columns
      ensures title == old(title) && widths == old(widths)
    {
      ghost var before := cells;
      WriteRow(maxRow + 1, row);
      ShowsAppend(before, cells, Layout(rows), row);
      assert Layout(rows + [row]) == Layout(rows) + [row];
    }

    /** Lines 105-112: every column of the sheet gets the width of its longest truthy value
        plus 2. */
    method FitColumnWidths(ghost grid: seq<seq<Json>>)
      requires Rectangular(grid) && Shows(cells, grid) && maxRow == |grid| && maxColumn == Columns
      modifies this
      ensures forall c :: c in widths <==> c in old(widths) || 1 <= c <= Columns
      ensures forall c :: c in widths ==> widths[c] == if 1 <= c <= Columns then ColumnWidth(grid, c) else old(widths)[c]
      ensures title == old(title) && cells == old(cells) && maxRow == old(maxRow) && maxColumn == old(maxColumn)
    {
      var column := 1;
      while column <= maxColumn
        invariant 1 <= column <= Columns + 1
        invariant title == old(title) && cells == old(cells) && maxRow == old(maxRow) && maxColumn == old(maxColumn)
        invariant forall c :: c in widths <==> c in old(widths) || 1 <= c < column
        invariant forall c :: c in widths ==> widths[c] == if 1 <= c < column then ColumnWidth(grid, c) else old(widths)[c]
      {
        var maxLength := 0;
        var row := 1;
        while row <= maxRow
          invariant 1 <= row <= |grid| + 1
          invariant maxLength == ColumnMax(grid, column, row - 1)
        {
          var value := cells[(row, column)];
          if Truthy(value) {
            maxLength := Max(maxLength, |ScalarToString(value)|);
          }
          row := row + 1;
        }
        SetWidth(column, maxLength + 2);
        column := column + 1;
      }
    }

    /** ws.column_dimensions[letter].width = width. */
    method SetWidth(column: int, width: int)
      modifies this
      ensures widths == old(widths)[column := width]
      ensures title == old(title) && cells == old(cells) && maxRow == old(maxRow) && maxColumn == old(maxColumn)
    {
      widths := widths[column := width];
    }
  }

  /** create_excel_with_testcases: the sheet is returned only when every record has its row;
      it then shows the header row above the record rows, and every column is as wide as its
      longest truthy value plus 2. */
  method CreateExcelWithTestcases(testcases: seq<Json>) returns (r: Result<Worksheet>)
    ensures r.Err? <==> Rows(testcases).Err?
    ensures r.Err? ==> r.error == Rows(testcases).error
    ensures r.Ok? ==> fresh(r.value) && r.value.title == SheetTitle
    ensures r.Ok? ==> Rectangular(Rows(testcases).value) && Shows(r.value.cells, Layout(Rows(testcases).value))
    ensures r.Ok? ==> forall c :: c in r.value.widths <==> 1 <= c <= Columns
    ensures r.Ok? ==> forall c :: 1 <= c <= Columns ==> r.value.widths[c] == ColumnWidth(Layout(Rows(testcases).value), c)
  {
    var ws := new Worksheet();
    ws.SetTitle(SheetTitle);
    ghost var before := ws.cells;
    ws.WriteRow(1, HeaderRow());
    ShowsAppend(before, ws.cells, [], HeaderRow());
    ghost var step := RowStep();
    var rows: seq<seq<Json>> := [];
    var i := 0;
    while i < |testcases|
      invariant 0 <= i <= |testcases|
      invariant MapRun(testcases[..i], step) == Ok(rows) && |rows| == i && Rectangular(rows)
      invariant ws.title == SheetTitle && ws.widths == map[]
      invariant ws.maxRow == i + 1 && ws.maxColumn == Columns
      invariant Shows(ws.cells, Layout(rows))
    {
      assert testcases[..i + 1][..i] == testcases[..i];
      var row := Row(testcases[i], i);
      assert step(testcases[i], i) == row;
      if row.Err? {
        MapRunErrorPersists(testcases, step, i + 1);
        return Err(row.error);
      }
      ws.AppendRow(rows, row.value);
      rows := rows + [row.value];
      i := i + 1;
    }
    assert testcases[..i] == testcases;
    ws.FitColumnWidths(Layout(rows));
    r := Ok(ws);
  }
}

/**
 * Flattening of a chart table into the columns ("graphs") of an export
 * (src/server/controllers/export-entries.ts): the column tree becomes its
 * titled leaf columns, row-header grids become the cartesian product of
 * their levels, and every body and footer row is distributed over the
 * columns.
 *
 * Date formatting (moment), markup detection and markup-to-text conversion
 * are library code: they are the `Formatting` parameter.
 */
module ExportEntries {
  import opened Js

  // ---------------------------------------------------------------------------
  // Columns

  /** A column of the table head; a column with `sub` is a group. */
  datatype Column =
    | Leaf(name: Value, id: Value, kind: Value, scale: Value, format: Value)
    | Group(name: Value, id: Value, kind: Value, scale: Value, format: Value, sub: seq<Column>)

  /** An export column: the head column it comes from (with its `type` and
      `format`), its full title, its scale and its values. */
  datatype Graph = Graph(column: Column, title: string, scale: Value, data: seq<Value>)

  /** `column.name ?? column.id ?? column.type ?? ''` */
  function Title(c: Column): (r: Value)
    ensures !IsNullish(c.name) ==> r == c.name
    ensures IsNullish(c.name) && !IsNullish(c.id) ==> r == c.id
    ensures IsNullish(c.name) && IsNullish(c.id) ==> r == Coalesce(c.kind, Str(""))
  {
    Coalesce(c.name, Coalesce(c.id, Coalesce(c.kind, Str(""))))
  }

  /** The prefix passed to a group's sub-columns: the group title joined to
      the current prefix with an en dash, or the bare title at the top. */
  function NextPrefix(prefix: Value, title: Value): Value
  {
    if Truthy(prefix) then Str(ToStr(prefix) + " – " + ToStr(title)) else title
  }

  /** A leaf's title: the prefix and a hyphen, then its own title. */
  function LeafTitle(prefix: Value, title: Value): string
  {
    (if Truthy(prefix) then ToStr(prefix) + " - " else "") + ToStr(title)
  }

  /** `{...column, title, type: column.type, scale: column.scale || 'd', data: []}` */
  function LeafGraph(c: Column, prefix: Value): Graph
  {
    Graph(c, LeafTitle(prefix, Title(c)), Or(c.scale, Str("d")), [])
  }

  /** A fresh export column: a leaf with the default scale and no values. */
  predicate FreshGraph(g: Graph)
  {
    g.column.Leaf? && g.data == [] && g.scale == Or(g.column.scale, Str("d"))
  }

  /** `tableHeadToGraphs(head, prefix)`: the reduce over the head. */
  function TableHeadToGraphs(head: seq<Column>, prefix: Value): (r: seq<Graph>)
    ensures forall i :: 0 <= i < |r| ==> FreshGraph(r[i])
    decreases head
  {
    if head == [] then [] else ColumnGraphs(head[0], prefix) + TableHeadToGraphs(head[1..], prefix)
  }

  /** The graphs one column contributes. */
  function ColumnGraphs(c: Column, prefix: Value): (r: seq<Graph>)
    ensures forall i :: 0 <= i < |r| ==> FreshGraph(r[i])
    decreases c
  {
    match c
    case Group(_, _, _, _, _, sub) => TableHeadToGraphs(sub, NextPrefix(prefix, Title(c)))
    case Leaf(_, _, _, _, _) => [LeafGraph(c, prefix)]
  }

  /** The reference definition: the leaf columns, depth first, left to right. */
  function LeafColumns(head: seq<Column>): seq<Column>
    decreases head
  {
    if head == [] then [] else LeavesOf(head[0]) + LeafColumns(head[1..])
  }

  function LeavesOf(c: Column): seq<Column>
    decreases c
  {
    if c.Group? then LeafColumns(c.sub) else [c]
  }

  function Columns(gs: seq<Graph>): (r: seq<Column>)
    ensures |r| == |gs|
    ensures forall i :: 0 <= i < |gs| ==> r[i] == gs[i].column
  {
    seq(|gs|, i requires 0 <= i < |gs| => gs[i].column)
  }

  lemma ColumnsAppend(a: seq<Graph>, b: seq<Graph>)
    ensures Columns(a + b) == Columns(a) + Columns(b)
  {
  }

  /** The export has exactly the leaf columns, in depth-first left-to-right
      order, whatever the prefix. */
  lemma {:induction false} GraphsAreLeaves(head: seq<Column>, prefix: Value)
    ensures Columns(TableHeadToGraphs(head, prefix)) == LeafColumns(head)
    decreases head
  {
    if head != [] {
      ColumnGraphsAreLeaves(head[0], prefix);
      GraphsAreLeaves(head[1..], prefix);
      ColumnsAppend(ColumnGraphs(head[0], prefix), TableHeadToGraphs(head[1..], prefix));
    }
  }

  lemma {:induction false} ColumnGraphsAreLeaves(c: Column, prefix: Value)
    ensures Columns(ColumnGraphs(c, prefix)) == LeavesOf(c)
    decreases c
  {
    if c.Group? {
      GraphsAreLeaves(c.sub, NextPrefix(prefix, Title(c)));
    }
  }

  /** A top-level leaf keeps its own title. */
  lemma TopLevelLeafTitle(c: Column)
    requires c.Leaf?
    ensures TableHeadToGraphs([c], Undefined) == [Graph(c, ToStr(Title(c)), Or(c.scale, Str("d")), [])]
  {
    assert [c][1..] == [];
    assert TableHeadToGraphs([c], Undefined) == ColumnGraphs(c, Undefined) + TableHeadToGraphs([], Undefined);
    assert LeafTitle(Undefined, Title(c)) == ToStr(Title(c));
  }

  /** Under a titled group a leaf is titled `group - leaf`; two groups deep
      the group titles are joined with an en dash: `outer – inner - leaf`. */
  lemma NestedTitles(outer: Column, inner: Column, c: Column)
    requires outer.Group? && inner.Group? && c.Leaf?
    requires Truthy(Title(outer)) && outer.sub == [c]
    ensures TableHeadToGraphs([outer], Undefined) ==
      [Graph(c, ToStr(Title(outer)) + " - " + ToStr(Title(c)), Or(c.scale, Str("d")), [])]
    ensures TableHeadToGraphs([outer.(sub := [inner.(sub := [c])])], Undefined) ==
      [Graph(c, ToStr(Title(outer)) + " – " + ToStr(Title(inner)) + " - " + ToStr(Title(c)), Or(c.scale, Str("d")), [])]
  {
    assert [c][1..] == [] && [outer][1..] == [];
    assert TableHeadToGraphs([outer], Undefined) == TableHeadToGraphs([c], Title(outer)) == [LeafGraph(c, Title(outer))];
    var inner' := inner.(sub := [c]);
    var outer' := outer.(sub := [inner']);
    assert [inner'][1..] == [] && [outer'][1..] == [];
    var p := Str(ToStr(Title(outer)) + " – " + ToStr(Title(inner)));
    assert p.s[|ToStr(Title(outer))|] == ' ';
    assert TableHeadToGraphs([outer'], Undefined) == TableHeadToGraphs([inner'], Title(outer));
    assert TableHeadToGraphs([inner'], Title(outer)) == TableHeadToGraphs([c], p) == [LeafGraph(c, p)];
  }

  /** A group whose title is falsy (the empty text) passes no prefix on. */
  lemma UntitledGroupAddsNoPrefix(g: Column, c: Column)
    requires g.Group? && g.sub == [c] && c.Leaf? && Title(g) == Str("")
    ensures TableHeadToGraphs([g], Undefined) == [Graph(c, ToStr(Title(c)), Or(c.scale, Str("d")), [])]
  {
    assert [c][1..] == [] && [g][1..] == [];
    assert NextPrefix(Undefined, Title(g)) == Str("");
    assert TableHeadToGraphs([g], Undefined) == ColumnGraphs(g, Undefined) + TableHeadToGraphs([], Undefined);
    assert TableHeadToGraphs([c], Str("")) == ColumnGraphs(c, Str("")) + TableHeadToGraphs([], Str(""));
    assert LeafTitle(Str(""), Title(c)) == ToStr(Title(c));
  }

  // ---------------------------------------------------------------------------
  // Row-header grids

  /** A grid cell: a nested grid or an object whose `value` is used. */
  datatype GridCell = NestedGrid(levels: seq<Level>) | ValueCell(value: Value)

  /** One level of a grid: its cells. */
  datatype Level = Level(cells: seq<GridCell>)

  /** `${a} — ${b}` */
  function Joined(a: Value, b: Value): Value
  {
    Str(ToStr(a) + " — " + ToStr(b))
  }

  /** `prepareCellValue(cell)` */
  function CellValues(c: GridCell): seq<Value>
    decreases c
  {
    match c
    case NestedGrid(levels) => RowHeaders(levels)
    case ValueCell(v) => [v]
  }

  /** The concatenated values of the first `n` cells of a level. */
  function LevelValues(level: Level, n: nat): seq<Value>
    requires n <= |level.cells|
    decreases level, n
  {
    if n == 0 then [] else LevelValues(level, n - 1) + CellValues(level.cells[n - 1])
  }

  function AllLevelValues(level: Level): seq<Value>
    decreases level, |level.cells| + 1
  {
    LevelValues(level, |level.cells|)
  }

  /** Every value of `a` joined with every value of `b`, `a` outermost. */
  function Product(a: seq<Value>, b: seq<Value>): (r: seq<Value>)
    ensures |r| == |a| * |b|
  {
    if a == [] then [] else Product(a[..|a| - 1], b) + Pair(a[|a| - 1], b)
  }

  function Pair(x: Value, b: seq<Value>): (r: seq<Value>)
    ensures |r| == |b|
    ensures forall j :: 0 <= j < |b| ==> r[j] == Joined(x, b[j])
  {
    seq(|b|, j requires 0 <= j < |b| => Joined(x, b[j]))
  }

  /** One level folded into the result: an empty result is replaced by the
      level's values, a non-empty one is multiplied with them. */
  function Step(result: seq<Value>, levelValues: seq<Value>): seq<Value>
  {
    if |result| == 0 then levelValues else Product(result, levelValues)
  }

  /** The levels of `grid` folded into `acc`, first level first. */
  function HeadersFrom(acc: seq<Value>, grid: seq<Level>): seq<Value>
    decreases grid, 0
  {
    if grid == [] then acc
    else Step(HeadersFrom(acc, grid[..|grid| - 1]), AllLevelValues(grid[|grid| - 1]))
  }

  /** `prepareRowHeadersForGrid(grid)` */
  function RowHeaders(grid: seq<Level>): seq<Value>
    decreases grid, 1
  {
    HeadersFrom([], grid)
  }

  /** `prepareCellValue(cell)`. */
  method PrepareCellValue(cell: GridCell) returns (r: seq<Value>)
    ensures r == CellValues(cell)
    decreases cell
  {
    if cell.NestedGrid? {
      r := PrepareRowHeadersForGrid(cell.levels);
    } else {
      r := [cell.value];
    }
  }

  /** `prepareRowHeadersForGrid(grid)`: the nested `forEach` loops. */
  method PrepareRowHeadersForGrid(grid: seq<Level>) returns (result: seq<Value>)
    ensures result == RowHeaders(grid)
    decreases grid
  {
    result := [];
    var i := 0;
    while i < |grid|
      invariant 0 <= i <= |grid|
      invariant result == HeadersFrom([], grid[..i])
    {
      assert grid[..i + 1][..i] == grid[..i];
      var levelResult := PrepareLevel(grid, i);
      if |result| == 0 {
        result := levelResult;
      } else {
        result := MultiplyLevels(result, levelResult);
      }
      i := i + 1;
    }
    assert grid[..|grid|] == grid;
  }

  /** `level.forEach((cell) => levelResult = levelResult.concat(prepareCellValue(cell)))` */
  method PrepareLevel(grid: seq<Level>, i: nat) returns (levelResult: seq<Value>)
    requires i < |grid|
    ensures levelResult == AllLevelValues(grid[i])
    decreases grid, 0
  {
    var level := grid[i];
    levelResult := [];
    var j := 0;
    while j < |level.cells|
      invariant 0 <= j <= |level.cells|
      invariant levelResult == LevelValues(level, j)
    {
      var cell := level.cells[j];
      assert cell < level;
      var values := PrepareCellValue(cell);
      levelResult := levelResult + values;
      j := j + 1;
    }
  }

  /** The two nested loops that push every `${resultValue} — ${levelResultValue}`. */
  method MultiplyLevels(result: seq<Value>, levelResult: seq<Value>) returns (realResult: seq<Value>)
    ensures realResult == Product(result, levelResult)
  {
    realResult := [];
    var i := 0;
    while i < |result|
      invariant 0 <= i <= |result|
      invariant realResult == Product(result[..i], levelResult)
    {
      assert result[..i + 1][..i] == result[..i];
      var j := 0;
      while j < |levelResult|
        invariant 0 <= j <= |levelResult|
        invariant realResult == Product(result[..i], levelResult) + Pair(result[i], levelResult[..j])
      {
        assert Pair(result[i], levelResult[..j + 1]) ==
          Pair(result[i], levelResult[..j]) + [Joined(result[i], levelResult[j])];
        realResult := realResult + [Joined(result[i], levelResult[j])];
        j := j + 1;
      }
      assert levelResult[..|levelResult|] == levelResult;
      i := i + 1;
    }
    assert result[..|result|] == result;
  }

  lemma MulStep(i: nat, n: nat, m: nat, j: nat)
    requires i + 1 < n && j < m
    ensures i * m + j < (n - 1) * m
  {
    assert (i + 1) * m <= (n - 1) * m;
  }

  /** The product lists its pairs row by row: entry `i * |b| + j` joins
      `a[i]` with `b[j]`. */
  lemma {:induction false} ProductEntry(a: seq<Value>, b: seq<Value>, i: nat, j: nat)
    requires i < |a| && j < |b|
    ensures i * |b| + j < |Product(a, b)|
    ensures Product(a, b)[i * |b| + j] == Joined(a[i], b[j])
  {
    var n := |a|;
    var init := a[..n - 1];
    if i == n - 1 {
      assert |Product(init, b)| == (n - 1) * |b|;
    } else {
      MulStep(i, n, |b|, j);
      assert init[i] == a[i];
      ProductEntry(init, b, i, j);
    }
  }

  /** The product of the level sizes. */
  function SizesProduct(grid: seq<Level>): nat
  {
    if grid == [] then 1 else SizesProduct(grid[..|grid| - 1]) * |AllLevelValues(grid[|grid| - 1])|
  }

  /** When every level has values, the headers are the full cartesian
      product: their number is the product of the level sizes. */
  lemma {:induction false} RowHeadersCount(grid: seq<Level>)
    requires forall i :: 0 <= i < |grid| ==> |AllLevelValues(grid[i])| > 0
    ensures grid != [] ==> |RowHeaders(grid)| == SizesProduct(grid)
    ensures grid != [] ==> |RowHeaders(grid)| > 0
  {
    if |grid| > 1 {
      var init := grid[..|grid| - 1];
      assert forall i :: 0 <= i < |init| ==> init[i] == grid[i];
      RowHeadersCount(init);
      assert |AllLevelValues(grid[|grid| - 1])| > 0;
      assert 1 * |AllLevelValues(grid[|grid| - 1])| == |AllLevelValues(grid[|grid| - 1])|;
      PositiveProduct(|RowHeaders(init)|, |AllLevelValues(grid[|grid| - 1])|);
    } else if |grid| == 1 {
      assert grid[..0] == [];
      assert HeadersFrom([], grid[..0]) == [];
      assert RowHeaders(grid) == AllLevelValues(grid[0]);
      assert SizesProduct(grid) == 1 * |AllLevelValues(grid[0])|;
    }
  }

  lemma PositiveProduct(x: nat, y: nat)
    requires x > 0 && y > 0
    ensures x * y > 0
  {
  }

  /** A single level is returned as its values, not joined with anything. */
  lemma SingleLevelUnchanged(level: Level)
    ensures RowHeaders([level]) == AllLevelValues(level)
  {
    assert [level][..0] == [];
    assert HeadersFrom([], [level][..0]) == [];
  }

  /** Folding two runs of levels is folding the second into the first. */
  lemma {:induction false} HeadersFromAppend(acc: seq<Value>, a: seq<Level>, b: seq<Level>)
    ensures HeadersFrom(acc, a + b) == HeadersFrom(HeadersFrom(acc, a), b)
    decreases b
  {
    if b == [] {
      assert a + b == a;
    } else {
      var n := |b| - 1;
      assert (a + b)[..|a + b| - 1] == a + b[..n];
      assert (a + b)[|a + b| - 1] == b[n];
      HeadersFromAppend(acc, a, b[..n]);
    }
  }

  /** A level without values empties the result, so whatever came before
      it is lost and the levels after it start afresh. */
  lemma EmptyLevelRestarts(before: seq<Level>, empty: Level, after: seq<Level>)
    requires AllLevelValues(empty) == []
    ensures RowHeaders(before + [empty] + after) == RowHeaders(after)
  {
    HeadersFromAppend([], before + [empty], after);
    HeadersFromAppend([], before, [empty]);
    assert [empty][..0] == [];
  }

  // ---------------------------------------------------------------------------
  // Reading grids out of row values

  /** A row value read as a grid: a list of lists whose cells are lists
      (nested grids) or objects. `None` when `forEach` or `cell.value`
      would throw on it. */
  function AsGrid(v: Value): Option<seq<Level>>
    decreases v, 2, 0
  {
    if v.Arr? then AsLevels(v, 0) else None
  }

  function AsLevels(v: Value, i: nat): Option<seq<Level>>
    requires v.Arr? && i <= |v.items|
    decreases v, 1, |v.items| - i
  {
    if i == |v.items| then Some([])
    else
      var level := v.items[i];
      if !level.Arr? then None
      else
        match AsCells(level, 0)
        case None => None
        case Some(cells) =>
          match AsLevels(v, i + 1)
          case None => None
          case Some(levels) => Some([Level(cells)] + levels)
  }

  function AsCells(level: Value, j: nat): Option<seq<GridCell>>
    requires level.Arr? && j <= |level.items|
    decreases level, 1, |level.items| - j
  {
    if j == |level.items| then Some([])
    else
      var cell := level.items[j];
      var parsed :=
        if cell.Arr? then (match AsGrid(cell) case Some(g) => Some(NestedGrid(g)) case None => None)
        else if IsNullish(cell) then None
        else Some(ValueCell(Prop(cell, "value")));
      match parsed
      case None => None
      case Some(c) =>
        match AsCells(level, j + 1)
        case None => None
        case Some(rest) => Some([c] + rest)
  }

  // ---------------------------------------------------------------------------
  // prepareValues

  /** The library code `prepareValues` calls. */
  datatype Formatting = Formatting(
    isMarkupItem: Value -> bool,
    markupToRawString: Value -> Value,
    formatDate: (Value, Value) -> Value)

  /** A table cell: its `grid` and its `value`. */
  datatype RowCell = RowCell(grid: Value, value: Value)

  /** A table row: plain `values`, or else `cells`. */
  datatype Row = Row(values: Option<seq<Value>>, cells: Option<seq<RowCell>>)

  /** `chartData.data`; missing rows or footer are empty lists. */
  datatype TableData = TableData(head: seq<Column>, rows: seq<Row>, footer: seq<Row>)

  /** `TABLE_DATE_FORMAT_BY_SCALE[scale]` */
  function DateFormatByScale(scale: Value): (r: Value)
    ensures scale in {Str("d"), Str("w")} ==> r == Str("DD.MM.YYYY")
    ensures scale == Str("m") ==> r == Str("MMMM YYYY")
    ensures scale in {Str("h"), Str("i")} ==> r == Str("DD.MM.YYYY HH:mm")
    ensures scale == Str("s") ==> r == Str("DD.MM.YYYY HH:mm:ss")
    ensures scale in {Str("q"), Str("y")} ==> r == Str("YYYY")
    ensures !(scale.Str? && scale.s in {"d", "w", "m", "h", "i", "s", "q", "y"}) ==> r == Undefined
  {
    match scale
    case Str(s) =>
      if s == "d" || s == "w" then Str("DD.MM.YYYY")
      else if s == "m" then Str("MMMM YYYY")
      else if s == "h" || s == "i" then Str("DD.MM.YYYY HH:mm")
      else if s == "s" then Str("DD.MM.YYYY HH:mm:ss")
      else if s == "q" || s == "y" then Str("YYYY")
      else Undefined
    case _ => Undefined
  }

  /** `data[index] = v` on a JavaScript array: positions skipped over are
      holes, which read as undefined. */
  function Assign(data: seq<Value>, index: nat, v: Value): (r: seq<Value>)
    ensures |r| == if index < |data| then |data| else index + 1
    ensures r[index] == v
    ensures forall k :: 0 <= k < |data| && k != index ==> r[k] == data[k]
    ensures forall k :: |data| <= k < index ==> r[k] == Undefined
  {
    if index < |data| then data[index := v]
    else data + seq(index - |data|, _ => Undefined) + [v]
  }

  /** `row.values?.map((value) => ({value})) || row.cells` */
  function RowCells(row: Row): Option<seq<RowCell>>
  {
    if row.values.Some? then
      Some(seq(|row.values.value|, k requires 0 <= k < |row.values.value| => RowCell(Undefined, row.values.value[k])))
    else row.cells
  }

  /** `cell.grid || cell.value` */
  function Content(cell: RowCell): Value
  {
    Or(cell.grid, cell.value)
  }

  /** `value.map((cell) => cell.value)`, which throws on a non-list or a
      null cell. */
  function CellValuesOfList(v: Value): (r: Option<seq<Value>>)
    ensures r.Some? ==> v.Arr? && |r.value| == |v.items|
  {
    if v.Arr? && forall k :: 0 <= k < |v.items| ==> !IsNullish(v.items[k]) then
      Some(seq(|v.items|, k requires 0 <= k < |v.items| => Prop(v.items[k], "value")))
    else None
  }

  /** The values cell `index` of row `rowIndex` adds to its graph. */
  function ProcessCell(graphs: seq<Graph>, content: Value, index: nat, rowIndex: nat, f: Formatting)
    : (r: Result<seq<Graph>>)
    ensures r.Ok? ==> |r.value| == |graphs|
    ensures r.Ok? ==> forall k :: 0 <= k < |graphs| ==>
      r.value[k].column == graphs[k].column && r.value[k].title == graphs[k].title &&
      r.value[k].scale == graphs[k].scale
    ensures r.Ok? ==> forall k :: 0 <= k < |graphs| && k != index ==> r.value[k] == graphs[k]
  {
    if index >= |graphs| then Ok(graphs)
    else
      var g := graphs[index];
      if f.isMarkupItem(content) then
        Ok(graphs[index := g.(data := g.data + [f.markupToRawString(content)])])
      else if g.column.kind == Str("date") then
        var dateFormat := if Truthy(g.column.format) then g.column.format else DateFormatByScale(g.scale);
        var v := if Truthy(content) then f.formatDate(content, dateFormat) else content;
        Ok(graphs[index := g.(data := Assign(g.data, rowIndex, v))])
      else if g.column.kind == Str("grid") then
        if index == 0 then
          match AsGrid(content)
          case None => Throws(TypeError)
          case Some(grid) => Ok(graphs[index := g.(data := g.data + RowHeaders(grid))])
        else
          match CellValuesOfList(content)
          case None => Throws(TypeError)
          case Some(values) => Ok(graphs[index := g.(data := g.data + values)])
      else
        Ok(graphs[index := g.(data := Assign(g.data, rowIndex, content))])
  }

  /** The first `n` cells of row `rowIndex` distributed over the graphs. */
  function ProcessCells(graphs: seq<Graph>, cells: seq<RowCell>, n: nat, rowIndex: nat, f: Formatting)
    : Result<seq<Graph>>
    requires n <= |cells|
  {
    if n == 0 then Ok(graphs)
    else
      match ProcessCells(graphs, cells, n - 1, rowIndex, f)
      case Throws(e) => Throws(e)
      case Ok(gs) => ProcessCell(gs, Content(cells[n - 1]), n - 1, rowIndex, f)
  }

  /** One row; a row with neither `values` nor `cells` throws. */
  function ProcessRow(graphs: seq<Graph>, row: Row, rowIndex: nat, f: Formatting): Result<seq<Graph>>
  {
    match RowCells(row)
    case None => Throws(TypeError)
    case Some(cells) => ProcessCells(graphs, cells, |cells|, rowIndex, f)
  }

  /** The rows in order, the first of them having index `offset`. */
  function ProcessRows(r: Result<seq<Graph>>, rows: seq<Row>, offset: nat, f: Formatting): Result<seq<Graph>>
    decreases |rows|
  {
    if rows == [] || r.Throws? then r
    else
      var n := |rows| - 1;
      match ProcessRows(r, rows[..n], offset, f)
      case Throws(e) => Throws(e)
      case Ok(gs) => ProcessRow(gs, rows[n], offset + n, f)
  }

  /** `prepareValues(chartData).graphs` */
  function Values(t: TableData, f: Formatting): Result<seq<Graph>>
  {
    ProcessRows(Ok(TableHeadToGraphs(t.head, Undefined)), t.rows + t.footer, 0, f)
  }

  /** `cells.forEach((cell, index) => ...)` for one row. */
  method PrepareRow(graphs: seq<Graph>, cells: seq<RowCell>, rowIndex: nat, f: Formatting)
    returns (r: Result<seq<Graph>>)
    ensures r == ProcessCells(graphs, cells, |cells|, rowIndex, f)
  {
    var gs := graphs;
    var index := 0;
    while index < |cells|
      invariant 0 <= index <= |cells|
      invariant ProcessCells(graphs, cells, index, rowIndex, f) == Ok(gs)
    {
      var step := ProcessCell(gs, Content(cells[index]), index, rowIndex, f);
      if step.Throws? {
        r := step;
        ThrowPropagates(graphs, cells, index + 1, rowIndex, f);
        return;
      }
      gs := step.value;
      index := index + 1;
    }
    r := Ok(gs);
  }

  lemma {:induction false} ThrowPropagates(graphs: seq<Graph>, cells: seq<RowCell>, n: nat, rowIndex: nat, f: Formatting)
    requires 0 < n <= |cells|
    requires ProcessCells(graphs, cells, n, rowIndex, f).Throws?
    ensures ProcessCells(graphs, cells, |cells|, rowIndex, f) == ProcessCells(graphs, cells, n, rowIndex, f)
    decreases |cells| - n
  {
    if n < |cells| {
      ThrowPropagates(graphs, cells, n + 1, rowIndex, f);
    }
  }

  /** `prepareValues(chartData)`: the head flattened, then every body row and
      every footer row distributed over the graphs in place. */
  method PrepareValues(t: TableData, f: Formatting) returns (r: Result<seq<Graph>>)
    ensures r == Values(t, f)
  {
    var graphs := TableHeadToGraphs(t.head, Undefined);
    var allTableRows := t.rows + t.footer;
    var rowIndex := 0;
    while rowIndex < |allTableRows|
      invariant 0 <= rowIndex <= |allTableRows|
      invariant ProcessRows(Ok(TableHeadToGraphs(t.head, Undefined)), allTableRows[..rowIndex], 0, f) == Ok(graphs)
    {
      assert allTableRows[..rowIndex + 1][..rowIndex] == allTableRows[..rowIndex];
      var cells := RowCells(allTableRows[rowIndex]);
      if cells.None? {
        r := Throws(TypeError);
        RowsThrowPropagates(Ok(TableHeadToGraphs(t.head, Undefined)), allTableRows, rowIndex + 1, f);
        return;
      }
      r := PrepareRow(graphs, cells.value, rowIndex, f);
      if r.Throws? {
        RowsThrowPropagates(Ok(TableHeadToGraphs(t.head, Undefined)), allTableRows, rowIndex + 1, f);
        return;
      }
      graphs := r.value;
      rowIndex := rowIndex + 1;
    }
    assert allTableRows[..|allTableRows|] == allTableRows;
    r := Ok(graphs);
  }

  lemma {:induction false} RowsThrowPropagates(r: Result<seq<Graph>>, rows: seq<Row>, n: nat, f: Formatting)
    requires 0 < n <= |rows|
    requires ProcessRows(r, rows[..n], 0, f).Throws?
    ensures ProcessRows(r, rows, 0, f) == ProcessRows(r, rows[..n], 0, f)
    decreases |rows| - n
  {
    if n < |rows| {
      assert rows[..n + 1][..n] == rows[..n];
      RowsThrowPropagates(r, rows, n + 1, f);
    } else {
      assert rows[..n] == rows;
    }
  }

  /** Processing two runs of rows is processing the second after the first,
      its row indexes continuing after the first run's. */
  lemma {:induction false} ProcessRowsAppend(r: Result<seq<Graph>>, a: seq<Row>, b: seq<Row>, offset: nat, f: Formatting)
    ensures ProcessRows(r, a + b, offset, f) == ProcessRows(ProcessRows(r, a, offset, f), b, offset + |a|, f)
    decreases |b|
  {
    if b == [] {
      assert a + b == a;
    } else if r.Throws? {
      assert ProcessRows(r, a, offset, f) == r;
    } else {
      var n := |b| - 1;
      assert (a + b)[..|a + b| - 1] == a + b[..n];
      assert (a + b)[|a + b| - 1] == b[n];
      ProcessRowsAppend(r, a, b[..n], offset, f);
      if ProcessRows(r, a, offset, f).Throws? {
        ThrowsStays(ProcessRows(r, a, offset, f), b, offset + |a|, f);
        ThrowsStays(ProcessRows(r, a, offset, f), b[..n], offset + |a|, f);
      }
    }
  }

  lemma {:induction false} ThrowsStays(r: Result<seq<Graph>>, rows: seq<Row>, offset: nat, f: Formatting)
    requires r.Throws?
    ensures ProcessRows(r, rows, offset, f) == r
  {
  }

  /** Footer rows come after the body rows and carry the row indexes that
      follow them. */
  lemma FooterAfterBody(t: TableData, f: Formatting)
    ensures Values(t, f) ==
      ProcessRows(ProcessRows(Ok(TableHeadToGraphs(t.head, Undefined)), t.rows, 0, f), t.footer, |t.rows|, f)
  {
    ProcessRowsAppend(Ok(TableHeadToGraphs(t.head, Undefined)), t.rows, t.footer, 0, f);
  }

  /** A cell past the last graph changes nothing. */
  lemma CellBeyondGraphsIgnored(graphs: seq<Graph>, content: Value, index: nat, rowIndex: nat, f: Formatting)
    requires index >= |graphs|
    ensures ProcessCell(graphs, content, index, rowIndex, f) == Ok(graphs)
  {
  }

  /** A plain value (not markup) of a column that is neither a date nor a
      grid lands at `data[rowIndex]`. */
  lemma PlainValueAtRowIndex(graphs: seq<Graph>, content: Value, index: nat, rowIndex: nat, f: Formatting)
    requires index < |graphs| && !f.isMarkupItem(content)
    requires graphs[index].column.kind != Str("date") && graphs[index].column.kind != Str("grid")
    ensures ProcessCell(graphs, content, index, rowIndex, f).Ok?
    ensures var gs := ProcessCell(graphs, content, index, rowIndex, f).value;
      rowIndex < |gs[index].data| && gs[index].data[rowIndex] == content
  {
  }

  /** Distributing rows never adds, drops, renames or reorders a graph. */
  lemma {:induction false} RowsKeepGraphs(r: Result<seq<Graph>>, rows: seq<Row>, offset: nat, f: Formatting)
    requires r.Ok? && ProcessRows(r, rows, offset, f).Ok?
    ensures var gs := ProcessRows(r, rows, offset, f).value;
      |gs| == |r.value| &&
      forall k :: 0 <= k < |gs| ==> gs[k].column == r.value[k].column && gs[k].title == r.value[k].title
    decreases |rows|
  {
    if rows != [] {
      var n := |rows| - 1;
      RowsKeepGraphs(r, rows[..n], offset, f);
      var gs := ProcessRows(r, rows[..n], offset, f).value;
      var cells := RowCells(rows[n]).value;
      CellsKeepGraphs(gs, cells, |cells|, offset + n, f);
    }
  }

  lemma {:induction false} CellsKeepGraphs(graphs: seq<Graph>, cells: seq<RowCell>, n: nat, rowIndex: nat, f: Formatting)
    requires n <= |cells| && ProcessCells(graphs, cells, n, rowIndex, f).Ok?
    ensures var gs := ProcessCells(graphs, cells, n, rowIndex, f).value;
      |gs| == |graphs| &&
      forall k :: 0 <= k < |gs| ==> gs[k].column == graphs[k].column && gs[k].title == graphs[k].title
  {
    if n > 0 {
      CellsKeepGraphs(graphs, cells, n - 1, rowIndex, f);
    }
  }
}

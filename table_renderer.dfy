/**
 * The rendering policy of the chart table plugin
 * (src/ui/libs/DatalensChartkit/ChartKit/plugins/Table/renderer/utils/renderer.tsx):
 * the inline styles of a cell, the kind of content a cell renders as, and
 * the column definition built from a head cell.
 *
 * React elements are represented by what they are built from. Markup
 * detection, date and number formatting and the numeric-property helper are
 * library code: they are the `Rendering` parameter.
 */
module TableRenderer {
  import opened Js

  /** The library code the renderer calls. `formatDate` is `None` when
      `dateTime` gives no valid date. `numericProperty(value, base)` is
      `calculateNumericProperty({value, base})`. */
  datatype Rendering = Rendering(
    isMarkupItem: Value -> bool,
    formatDate: (Value, Value) -> Option<string>,
    numberFormatter: (Value, Value) -> string,
    numericProperty: (Value, Option<int>) -> Value)

  // ---------------------------------------------------------------------------
  // getCellContentStyles

  /** The `contentStyles` object; `None` is a property that is not set.
      A width can be set to undefined. */
  datatype ContentStyles = ContentStyles(textAlign: Option<string>, width: Option<Value>)

  /** `cell.type ?? get(column, 'type')`, for a cell that is not nullish. */
  function CellType(cell: Value, column: Value): Value
  {
    Coalesce(Prop(cell, "type"), Prop(column, "type"))
  }

  /** `columns.some((col) => !col.width)`: throws at a nullish column met
      before a column without a width. */
  function SomeLacksWidth(columns: seq<Value>): (r: Result<bool>)
    ensures r == Ok(true) ==> exists i :: 0 <= i < |columns| && !IsNullish(columns[i]) && !Truthy(Prop(columns[i], "width"))
    ensures r == Ok(false) <==> forall i :: 0 <= i < |columns| ==> !IsNullish(columns[i]) && Truthy(Prop(columns[i], "width"))
  {
    if columns == [] then Ok(false)
    else if IsNullish(columns[0]) then Throws(TypeError)
    else if !Truthy(Prop(columns[0], "width")) then Ok(true)
    else
      var rest := SomeLacksWidth(columns[1..]);
      assert forall i :: 1 <= i < |columns| ==> columns[i] == columns[1..][i - 1];
      rest
  }

  /** `String(w).slice(-1) === '%'` */
  predicate IsPercentWidth(w: Value)
  {
    var s := ToStr(w);
    |s| > 0 && s[|s| - 1] == '%'
  }

  /** `get(cell, 'width', get(column, 'width'))` */
  function CellWidth(cell: Value, column: Value): (r: Value)
    ensures Prop(cell, "width") != Undefined ==> r == Prop(cell, "width")
    ensures Prop(cell, "width") == Undefined ==> r == Prop(column, "width")
  {
    Get(cell, "width", Get(column, "width", Undefined))
  }

  /** `getCellContentStyles({cell, column, columns})` */
  function GetCellContentStyles(cell: Value, column: Value, columns: seq<Value>): (r: Result<ContentStyles>)
    ensures IsNullish(cell) ==> r.Throws?
    ensures r.Ok? ==> (r.value.textAlign == Some("right") <==> CellType(cell, column) == Str("number"))
    ensures r.Ok? ==> (r.value.textAlign.None? <==> CellType(cell, column) != Str("number"))
    ensures r.Ok? ==> (r.value.width.Some? <==>
      SomeLacksWidth(columns) == Ok(true) && !IsPercentWidth(CellWidth(cell, column)))
    ensures r.Ok? && r.value.width.Some? ==> r.value.width.value == CellWidth(cell, column)
    ensures !IsNullish(cell) ==> (r.Throws? <==> SomeLacksWidth(columns).Throws?)
  {
    if IsNullish(cell) then Throws(TypeError)
    else
      var textAlign := if CellType(cell, column) == Str("number") then Some("right") else None;
      match SomeLacksWidth(columns)
      case Throws(e) => Throws(e)
      case Ok(canUseCellWidth) =>
        var cellWidth := CellWidth(cell, column);
        var width := if canUseCellWidth && !IsPercentWidth(cellWidth) then Some(cellWidth) else None;
        Ok(ContentStyles(textAlign, width))
  }

  /** When every column has a width the table fills its container, so no
      cell width is set, whatever the cell says. */
  lemma AllColumnsSizedSetsNoWidth(cell: Value, column: Value, columns: seq<Value>)
    requires !IsNullish(cell)
    requires forall i :: 0 <= i < |columns| ==> !IsNullish(columns[i]) && Truthy(Prop(columns[i], "width"))
    ensures GetCellContentStyles(cell, column, columns).Ok?
    ensures GetCellContentStyles(cell, column, columns).value.width.None?
  {
  }

  /** A percentage width is never set, and a cell's own width overrides
      its column's. */
  lemma CellWidthOverridesColumn(cell: Value, column: Value, columns: seq<Value>)
    requires GetCellContentStyles(cell, column, columns).Ok?
    requires Prop(cell, "width") != Undefined && !IsPercentWidth(Prop(cell, "width"))
    requires SomeLacksWidth(columns) == Ok(true)
    ensures GetCellContentStyles(cell, column, columns).value.width == Some(Prop(cell, "width"))
  {
  }

  /** The cell's type decides the alignment over the column's. */
  lemma CellTypeOverridesColumn(cell: Value, column: Value, columns: seq<Value>)
    requires GetCellContentStyles(cell, column, columns).Ok?
    requires !IsNullish(Prop(cell, "type")) && Prop(cell, "type") != Str("number")
    ensures GetCellContentStyles(cell, column, columns).value.textAlign.None?
  {
  }

  // ---------------------------------------------------------------------------
  // renderCellContent

  /** What a cell renders as: one of the three cell components, or text
      (the formatted value, which need not be a string). */
  datatype CellContent = BarCell | MarkupCell | TreeCell | Text(formatted: Value)

  /** `get(cell, 'view', get(column, 'view'))` */
  function CellView(cell: Value, column: Value): Value
  {
    Get(cell, "view", Get(column, "view", Undefined))
  }

  predicate ShowsBar(cell: Value, column: Value, header: bool)
  {
    CellView(cell, column) == Str("bar") && !header
  }

  predicate ShowsMarkup(cell: Value, column: Value, rd: Rendering)
  {
    CellType(cell, column) == Str("markup") || rd.isMarkupItem(Prop(cell, "value"))
  }

  predicate ShowsTree(cell: Value, header: bool)
  {
    Truthy(Prop(cell, "treeNodeState")) && !header
  }

  /** The text of a cell without a `formattedValue`. */
  function FormatValue(cell: Value, column: Value, rd: Rendering): (r: Value)
    ensures r.Str?
    ensures CellType(cell, column) != Str("date") && CellType(cell, column) != Str("number") ==>
      r == Str(ToStr(Prop(cell, "value")))
  {
    var value := Prop(cell, "value");
    var cellType := CellType(cell, column);
    if cellType == Str("date") then
      match rd.formatDate(value, Prop(column, "format"))
      case Some(s) => Str(s)
      case None => Str(ToStr(value))
    else if cellType == Str("number") then Str(rd.numberFormatter(value, column))
    else Str(ToStr(value))
  }

  /** `renderCellContent({cell, column, header})`: the bar view outside a
      header first, then markup, then a tree node outside a header, then
      text. */
  function RenderCellContent(cell: Value, column: Value, header: bool, rd: Rendering): (r: Result<CellContent>)
    ensures r.Throws? <==> IsNullish(cell)
    ensures r.Ok? ==> (r.value == BarCell <==> ShowsBar(cell, column, header))
    ensures r.Ok? ==> (r.value == MarkupCell <==> !ShowsBar(cell, column, header) && ShowsMarkup(cell, column, rd))
    ensures r.Ok? ==> (r.value == TreeCell <==>
      !ShowsBar(cell, column, header) && !ShowsMarkup(cell, column, rd) && ShowsTree(cell, header))
    ensures r.Ok? && r.value.Text? && Prop(cell, "formattedValue") != Undefined ==>
      r.value.formatted == Prop(cell, "formattedValue")
  {
    if IsNullish(cell) then Throws(TypeError)
    else if ShowsBar(cell, column, header) then Ok(BarCell)
    else if ShowsMarkup(cell, column, rd) then Ok(MarkupCell)
    else if ShowsTree(cell, header) then Ok(TreeCell)
    else
      var formattedValue := Prop(cell, "formattedValue");
      Ok(Text(if formattedValue.Undefined? then FormatValue(cell, column, rd) else formattedValue))
  }

  /** A header cell never renders as a bar or a tree node. */
  lemma HeaderIsMarkupOrText(cell: Value, column: Value, rd: Rendering)
    requires !IsNullish(cell)
    ensures RenderCellContent(cell, column, true, rd).Ok?
    ensures var c := RenderCellContent(cell, column, true, rd).value; c == MarkupCell || c.Text?
  {
  }

  /** A cell that is not a bar, markup or tree node and has a
      `formattedValue` shows it unchanged; without one, a cell that is
      neither a date nor a number shows `String(value)`. */
  lemma TextCellValue(cell: Value, column: Value, header: bool, rd: Rendering)
    requires !IsNullish(cell)
    requires !ShowsBar(cell, column, header) && !ShowsMarkup(cell, column, rd) && !ShowsTree(cell, header)
    ensures Prop(cell, "formattedValue") != Undefined ==>
      RenderCellContent(cell, column, header, rd) == Ok(Text(Prop(cell, "formattedValue")))
    ensures (Prop(cell, "formattedValue") == Undefined &&
      CellType(cell, column) != Str("date") && CellType(cell, column) != Str("number")) ==>
      RenderCellContent(cell, column, header, rd) == Ok(Text(Str(ToStr(Prop(cell, "value")))))
  {
  }

  // ---------------------------------------------------------------------------
  // mapHeadCell

  datatype SortIcon = CaretLeft | CaretRight

  /** What the `cell` renderer of a column shows for one body cell. */
  datatype BodyCell = BodyCell(styles: ContentStyles, content: CellContent, sortIcon: Option<SortIcon>)

  /** The column definition `mapHeadCell` builds. `source` is the head cell
      spread into it; `header` is what the header renderer shows. */
  datatype HeadCell = HeadCell(
    source: Value,
    width: Value,
    id: string,
    header: Result<CellContent>,
    enableSorting: Value,
    sortingFn: string,
    enableRowGrouping: Value,
    columns: seq<HeadCell>,
    pinned: Value,
    head: Option<seq<Value>>)

  /** The cell the header renderer builds from a head cell. */
  function HeaderCell(th: Value): Value
  {
    var columnType := Prop(th, "type");
    Object(map[
      "value" := Coalesce(Prop(th, "markup"), Prop(th, "name")),
      "formattedValue" := Prop(th, "formattedName"),
      "type" := if Truthy(Prop(th, "markup")) then Str("markup") else columnType])
  }

  /** The `cell` renderer of the column built from `th`, for one body
      cell: styles against the sibling columns `head || []`, content, and
      the sort icon. */
  function RenderBodyCell(th: Value, head: Option<seq<Value>>, cell: Value, rd: Rendering): (r: Result<BodyCell>)
    ensures r.Throws? <==> IsNullish(cell) || SomeLacksWidth(if head.Some? then head.value else []).Throws?
    ensures r.Ok? ==> Ok(r.value.styles) == GetCellContentStyles(cell, th, if head.Some? then head.value else [])
    ensures r.Ok? ==> Ok(r.value.content) == RenderCellContent(cell, th, false, rd)
    ensures r.Ok? ==> (r.value.sortIcon.Some? <==> Truthy(Prop(cell, "sortDirection")))
  {
    match GetCellContentStyles(cell, th, if head.Some? then head.value else [])
    case Throws(e) => Throws(e)
    case Ok(styles) =>
      match RenderCellContent(cell, th, false, rd)
      case Throws(e) => Throws(e)
      case Ok(content) =>
        var direction := Prop(cell, "sortDirection");
        var icon := if !Truthy(direction) then None
          else if direction == Str("asc") then Some(CaretLeft) else Some(CaretRight);
        Ok(BodyCell(styles, content, icon))
  }

  /** `mapHeadCell(th, tableWidth, head)`. Sub-columns are mapped with
      `get(th, 'sub', []).map(mapHeadCell)`, so each receives its index as
      `tableWidth` and the list of sub-columns as `head`; a `sub` that is
      defined but not a list throws. */
  function MapHeadCell(th: Value, tableWidth: Option<int>, head: Option<seq<Value>>, rd: Rendering)
    : (r: Result<HeadCell>)
    decreases th, 1
  {
    if IsNullish(th) then Throws(TypeError)
    else
      var sub := Prop(th, "sub");
      var mapped := if sub.Undefined? then Ok([]) else if sub.Arr? then MapSubColumns(sub, 0, rd) else Throws(TypeError);
      match mapped
        case Throws(e) => Throws(e)
        case Ok(columns) =>
          Ok(BuildHeadCell(th, tableWidth, head, columns, rd))
  }

  /** The column definition of `th` once its sub-columns are mapped. */
  function BuildHeadCell(th: Value, tableWidth: Option<int>, head: Option<seq<Value>>, columns: seq<HeadCell>, rd: Rendering)
    : HeadCell
  {
    HeadCell(
      th,
      rd.numericProperty(Prop(th, "width"), tableWidth),
      ToStr(Prop(th, "id")),
      RenderCellContent(HeaderCell(th), th, true, rd),
      Get(th, "sortable", Bool(true)),
      if Prop(th, "type") == Str("number") then "alphanumeric" else "auto",
      Get(th, "group", Bool(false)),
      columns,
      Get(th, "pinned", Bool(false)),
      head)
  }

  /** The sub-columns from index `k` on. */
  function MapSubColumns(sub: Value, k: nat, rd: Rendering): (r: Result<seq<HeadCell>>)
    requires sub.Arr? && k <= |sub.items|
    ensures r.Ok? ==> |r.value| == |sub.items| - k
    ensures r.Ok? ==> forall i :: 0 <= i < |r.value| ==>
      Ok(r.value[i]) == MapHeadCell(sub.items[k + i], Some(k + i), Some(sub.items), rd)
    decreases sub, 0, |sub.items| - k
  {
    if k == |sub.items| then Ok([])
    else
      match MapHeadCell(sub.items[k], Some(k), Some(sub.items), rd)
      case Throws(e) => Throws(e)
      case Ok(c) =>
        match MapSubColumns(sub, k + 1, rd)
        case Throws(e) => Throws(e)
        case Ok(rest) => Ok([c] + rest)
  }

  /** The defaults of a column: sorting on, alphanumeric sorting exactly for
      number columns, no grouping and not pinned; the id is `String(th.id)`. */
  lemma HeadCellDefaults(th: Value, tableWidth: Option<int>, head: Option<seq<Value>>, rd: Rendering)
    requires MapHeadCell(th, tableWidth, head, rd).Ok?
    ensures var c := MapHeadCell(th, tableWidth, head, rd).value;
      c.source == th && c.id == ToStr(Prop(th, "id")) &&
      (!Has(th, "sortable") ==> c.enableSorting == Bool(true)) &&
      (Has(th, "sortable") && Prop(th, "sortable") != Undefined ==> c.enableSorting == Prop(th, "sortable")) &&
      (c.sortingFn == "alphanumeric" <==> Prop(th, "type") == Str("number")) &&
      (!Has(th, "group") ==> c.enableRowGrouping == Bool(false)) &&
      (!Has(th, "pinned") ==> c.pinned == Bool(false))
  {
  }

  /** The header of a column with markup renders the markup; any other
      header renders as text. */
  lemma HeaderOfMarkupColumn(th: Value, tableWidth: Option<int>, head: Option<seq<Value>>, rd: Rendering)
    requires MapHeadCell(th, tableWidth, head, rd).Ok?
    ensures Truthy(Prop(th, "markup")) ==> MapHeadCell(th, tableWidth, head, rd).value.header == Ok(MarkupCell)
    ensures var h := MapHeadCell(th, tableWidth, head, rd).value.header; h == Ok(MarkupCell) || (h.Ok? && h.value.Text?)
  {
    var cell := HeaderCell(th);
    assert Prop(cell, "type") == (if Truthy(Prop(th, "markup")) then Str("markup") else Prop(th, "type"));
    HeaderIsMarkupOrText(cell, th, rd);
  }

  /** Sub-columns are mapped one to one and in order; sub-column `i` is
      mapped with `i` as its table width and its siblings as its head. */
  lemma HeadCellColumns(th: Value, tableWidth: Option<int>, head: Option<seq<Value>>, rd: Rendering, i: nat)
    requires MapHeadCell(th, tableWidth, head, rd).Ok?
    requires Prop(th, "sub").Arr? && i < |Prop(th, "sub").items|
    ensures |MapHeadCell(th, tableWidth, head, rd).value.columns| == |Prop(th, "sub").items|
    ensures var subs := Prop(th, "sub").items;
      MapHeadCell(subs[i], Some(i), Some(subs), rd).Ok? &&
      MapHeadCell(th, tableWidth, head, rd).value.columns[i] == MapHeadCell(subs[i], Some(i), Some(subs), rd).value
  {
    var sub := Prop(th, "sub");
    var columns := MapSubColumns(sub, 0, rd);
    assert MapHeadCell(th, tableWidth, head, rd).value.columns == columns.value;
    assert Ok(columns.value[i]) == MapHeadCell(sub.items[0 + i], Some(0 + i), Some(sub.items), rd);
  }

  /** A column without `sub` has no sub-columns. */
  lemma LeafHasNoColumns(th: Value, tableWidth: Option<int>, head: Option<seq<Value>>, rd: Rendering)
    requires !IsNullish(th) && !Has(th, "sub")
    ensures MapHeadCell(th, tableWidth, head, rd).Ok?
    ensures MapHeadCell(th, tableWidth, head, rd).value.columns == []
  {
  }
}

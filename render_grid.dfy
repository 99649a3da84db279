/** The 'grid' output of `render_output`: a text table framed with
    box-drawing characters, one column per field and one or more text lines
    per item. */
module RenderGrid {
  import opened Wrappers
  import opened Text
  import opened Py

  type Item = seq<(string, Value)>

  /** The eleven frame characters, in this order: top-left corner, horizontal
      line, top joint, top-right corner, left joint, vertical line, cross,
      right joint, bottom-left corner, bottom joint, bottom-right corner. The
      first style the options name wins; rounded corners are the default. */
  function Chars(options: seq<string>): (chars: string)
    ensures |chars| == 11
  {
    if "unicode" in options then
      "\U{250c}\U{2500}\U{252c}\U{2510}\U{251c}\U{2502}\U{253c}\U{2524}\U{2514}\U{2534}\U{2518}"
    else if "unicode-bld" in options then
      "\U{250f}\U{2501}\U{252f}\U{2513}\U{2523}\U{2503}\U{254b}\U{252b}\U{2517}\U{253b}\U{251b}"
    else if "unicode-dbl" in options then
      "\U{2554}\U{2550}\U{2566}\U{2557}\U{2560}\U{2551}\U{256c}\U{2563}\U{255a}\U{2569}\U{255d}"
    else if "ascii" in options then "+-+++|+++++"
    else if "ascii-h" in options then "----- -----"
    else if "ascii-v" in options then "| ||||||| |"
    else "\U{256d}\U{2500}\U{252c}\U{256e}\U{251c}\U{2502}\U{253c}\U{2524}\U{2570}\U{2534}\U{256f}"
  }

  /** `len(n)`: a string, a list and a dictionary have a length; anything
      else raises TypeError. */
  function Len(v: Value): Result<nat> {
    match v
    case Str(s) => Ok(|s|)
    case List(xs) => Ok(|xs|)
    case Dict(d) => Ok(|d|)
    case _ => Raised("TypeError")
  }

  // ------------------------------------------------- measuring the cells

  /** `maximums[field]`; every field the frame and the rows look up has been
      measured (`MeasureFits`), so the default is never used. */
  function Width(widths: map<string, int>, field: string): int {
    if field in widths then widths[field] else 0
  }

  /** `maximums[field]` starting at 0 when absent, then raised to at least `n`. */
  function Widen(widths: map<string, int>, field: string, n: int): map<string, int> {
    var w := Width(widths, field);
    widths[field := if w < n then n else w]
  }

  /** The text lines of one cell of one item. */
  datatype Column = Column(field: string, rows: seq<Value>)

  /** The cells stored for the item at position `index` of the data. */
  datatype Entry = Entry(index: nat, columns: seq<Column>)

  /** What the measuring loops build: `maximums`, `grid`, and the last value
      the loop variable `n` held, which the empty-list branch reads. */
  datatype Layout = Layout(widths: map<string, int>, grid: seq<Entry>, last: Option<Value>)

  /** `rows[row] = v` on a dictionary keyed 0, 1, ...; rows are stored in
      order, so a new row always comes last. */
  function SetRow(rows: seq<Value>, row: nat, v: Value): (r: seq<Value>)
    ensures |r| >= 1
  {
    if row < |rows| then rows[row := v] else rows + [v]
  }

  /** `columns[field][row] = v`, creating the column last when absent. */
  function PutRow(columns: seq<Column>, field: string, row: nat, v: Value): seq<Column> {
    if |columns| == 0 then [Column(field, SetRow([], row, v))]
    else if columns[0].field == field then [Column(field, SetRow(columns[0].rows, row, v))] + columns[1..]
    else [columns[0]] + PutRow(columns[1..], field, row, v)
  }

  /** `grid[index][field][row] = v`, creating the entry last when absent. */
  function Store(grid: seq<Entry>, index: nat, field: string, row: nat, v: Value): seq<Entry> {
    if |grid| == 0 then [Entry(index, PutRow([], field, row, v))]
    else if grid[0].index == index then [Entry(index, PutRow(grid[0].columns, field, row, v))] + grid[1..]
    else [grid[0]] + Store(grid[1..], index, field, row, v)
  }

  /** `str(value).split('\n')` with every carriage return removed. */
  function TextRows(v: Value): (rows: seq<Value>)
    ensures |rows| >= 1 && forall k :: 0 <= k < |rows| ==> rows[k].Str?
  {
    var pieces := Split(PyStr(v), "\n");
    seq(|pieces|, k requires 0 <= k < |pieces| => Str(RemoveChar(pieces[k], '\r')))
  }

  /** One text line `n` of a cell: measured, stored, and remembered as `n`. */
  function PlaceRow(l: Layout, index: nat, field: string, row: nat, n: Value): Result<Layout> {
    match Len(n)
    case Raised(e) => Raised(e)
    case Ok(k) => Ok(Layout(Widen(l.widths, field, k), Store(l.grid, index, field, row, n), Some(n)))
  }

  /** The text lines `rows[row..]` of a cell, one after another. */
  function PlaceRows(l: Layout, index: nat, field: string, rows: seq<Value>, row: nat): Result<Layout>
    decreases |rows| - row
  {
    if row >= |rows| then Ok(l)
    else
      match PlaceRow(l, index, field, row, rows[row])
      case Raised(e) => Raised(e)
      case Ok(l') => PlaceRows(l', index, field, rows, row + 1)
  }

  /** The value of a field; a missing field reads as the empty string. */
  function ValueOf(item: Item, field: string): Value {
    match Get(item, field)
    case None => Str("")
    case Some(v) => v
  }

  /** One cell: the field name widens its column; a list gives one text line
      per element, a string, number or bool one per line of its text, and
      `None` or a dictionary nothing at all. An empty list measures the stale
      `n` (UnboundLocalError when there is none) and stores one empty line. */
  function PlaceCell(l: Layout, index: nat, field: string, value: Value): Result<Layout> {
    var named := l.(widths := Widen(l.widths, field, |field|));
    match value
    case List(xs) =>
      if |xs| == 0 then
        match named.last
        case None => Raised("UnboundLocalError")
        case Some(n) =>
          match Len(n)
          case Raised(e) => Raised(e)
          case Ok(k) =>
            Ok(named.(widths := Widen(named.widths, field, k), grid := Store(named.grid, index, field, 0, Str(""))))
      else PlaceRows(named, index, field, xs, 0)
    case Null => Ok(named)
    case Dict(_) => Ok(named)
    case _ => PlaceRows(named, index, field, TextRows(value), 0)
  }

  /** The cells of fields `fields[j..]` of the item at `index`. */
  function PlaceFields(l: Layout, index: nat, item: Item, fields: seq<string>, j: nat): Result<Layout>
    decreases |fields| - j
  {
    if j >= |fields| then Ok(l)
    else
      match PlaceCell(l, index, fields[j], ValueOf(item, fields[j]))
      case Raised(e) => Raised(e)
      case Ok(l') => PlaceFields(l', index, item, fields, j + 1)
  }

  /** The items `data[i..]`. */
  function PlaceItems(l: Layout, fields: seq<string>, data: seq<Item>, i: nat): Result<Layout>
    decreases |data| - i
  {
    if i >= |data| then Ok(l)
    else
      match PlaceFields(l, i, data[i], fields, 0)
      case Raised(e) => Raised(e)
      case Ok(l') => PlaceItems(l', fields, data, i + 1)
  }

  /** `maximums` and `grid` for the whole data. */
  function Measure(fields: seq<string>, data: seq<Item>): Result<Layout> {
    PlaceItems(Layout(map[], [], None), fields, data, 0)
  }

  method PlaceRowsOf(l: Layout, index: nat, field: string, rows: seq<Value>) returns (r: Result<Layout>)
    ensures r == PlaceRows(l, index, field, rows, 0)
  {
    var cur := l;
    for row := 0 to |rows|
      invariant PlaceRows(cur, index, field, rows, row) == PlaceRows(l, index, field, rows, 0)
    {
      var n := rows[row];
      var len := Len(n);
      if len.Raised? {
        return Raised(len.exception);
      }
      cur := Layout(Widen(cur.widths, field, len.value), Store(cur.grid, index, field, row, n), Some(n));
    }
    return Ok(cur);
  }

  method PlaceCellOf(l: Layout, index: nat, field: string, value: Value) returns (r: Result<Layout>)
    ensures r == PlaceCell(l, index, field, value)
  {
    var named := l.(widths := Widen(l.widths, field, |field|));
    if value.List? {
      if |value.items| == 0 {
        if named.last.None? {
          return Raised("UnboundLocalError");
        }
        var len := Len(named.last.value);
        if len.Raised? {
          return Raised(len.exception);
        }
        r := Ok(named.(widths := Widen(named.widths, field, len.value), grid := Store(named.grid, index, field, 0, Str(""))));
      } else {
        r := PlaceRowsOf(named, index, field, value.items);
      }
    } else if value.Str? || value.Int? || value.Bool? {
      r := PlaceRowsOf(named, index, field, TextRows(value));
    } else {
      r := Ok(named);
    }
  }

  method MeasureItem(l: Layout, index: nat, item: Item, fields: seq<string>) returns (r: Result<Layout>)
    ensures r == PlaceFields(l, index, item, fields, 0)
  {
    var cur := l;
    for j := 0 to |fields|
      invariant PlaceFields(cur, index, item, fields, j) == PlaceFields(l, index, item, fields, 0)
    {
      var field := fields[j];
      var value := ValueOf(item, field);
      var next := PlaceCellOf(cur, index, field, value);
      if next.Raised? {
        return next;
      }
      cur := next.value;
    }
    return Ok(cur);
  }

  method MeasureAll(fields: seq<string>, data: seq<Item>) returns (r: Result<Layout>)
    ensures r == Measure(fields, data)
  {
    var cur := Layout(map[], [], None);
    for i := 0 to |data|
      invariant PlaceItems(cur, fields, data, i) == Measure(fields, data)
    {
      var next := MeasureItem(cur, i, data[i], fields);
      if next.Raised? {
        return next;
      }
      cur := next.value;
    }
    return Ok(cur);
  }

  // ------------------------------------------- what the measuring keeps

  /** `n` fits a column `w` characters wide. */
  predicate FitsIn(v: Value, w: int) {
    Len(v).Ok? && Len(v).value <= w
  }

  predicate RowsFit(rows: seq<Value>, w: int) {
    forall k :: 0 <= k < |rows| ==> FitsIn(rows[k], w)
  }

  predicate ColumnsFit(columns: seq<Column>, widths: map<string, int>) {
    forall j :: 0 <= j < |columns| ==>
      columns[j].field in widths && RowsFit(columns[j].rows, widths[columns[j].field])
  }

  /** Every stored text line has a length, which is at most its column's
      width, and no width is negative. */
  predicate Fits(l: Layout) {
    (forall i :: 0 <= i < |l.grid| ==> ColumnsFit(l.grid[i].columns, l.widths))
    && forall f :: f in l.widths ==> l.widths[f] >= 0
  }

  /** Widths only grow. */
  predicate Wider(w2: map<string, int>, w1: map<string, int>) {
    forall f :: f in w1 ==> f in w2 && w2[f] >= w1[f]
  }

  /** Each field from `fields[from]` on has a width at least its name's length. */
  predicate Named(widths: map<string, int>, fields: seq<string>, from: nat) {
    forall k :: from <= k < |fields| ==> fields[k] in widths && widths[fields[k]] >= |fields[k]|
  }

  /** A measuring step from `l` that succeeds keeps `Fits` and widens. */
  predicate Keeps(l: Layout, r: Result<Layout>) {
    r.Ok? ==> Fits(r.value) && Wider(r.value.widths, l.widths)
  }

  lemma {:induction false} ColumnsFitWider(columns: seq<Column>, w1: map<string, int>, w2: map<string, int>)
    requires ColumnsFit(columns, w1) && Wider(w2, w1)
    ensures ColumnsFit(columns, w2)
  {
    forall j | 0 <= j < |columns|
      ensures columns[j].field in w2 && RowsFit(columns[j].rows, w2[columns[j].field])
    {
      assert columns[j].field in w1 && RowsFit(columns[j].rows, w1[columns[j].field]);
    }
  }

  lemma {:induction false} PutRowFits(columns: seq<Column>, field: string, row: nat, v: Value, widths: map<string, int>)
    requires ColumnsFit(columns, widths) && field in widths && FitsIn(v, widths[field])
    ensures ColumnsFit(PutRow(columns, field, row, v), widths)
    decreases |columns|
  {
    if |columns| > 0 && columns[0].field != field {
      PutRowFits(columns[1..], field, row, v, widths);
    }
  }

  lemma {:induction false} StoreFits(grid: seq<Entry>, index: nat, field: string, row: nat, v: Value, widths: map<string, int>)
    requires forall i :: 0 <= i < |grid| ==> ColumnsFit(grid[i].columns, widths)
    requires field in widths && FitsIn(v, widths[field])
    ensures forall i :: 0 <= i < |Store(grid, index, field, row, v)| ==>
      ColumnsFit(Store(grid, index, field, row, v)[i].columns, widths)
    decreases |grid|
  {
    if |grid| == 0 {
      PutRowFits([], field, row, v, widths);
    } else if grid[0].index == index {
      PutRowFits(grid[0].columns, field, row, v, widths);
    } else {
      StoreFits(grid[1..], index, field, row, v, widths);
    }
  }

  /** Widening a column and storing a line that fits the new width. */
  lemma {:induction false} WidenStore(l: Layout, index: nat, field: string, row: nat, v: Value, n: int)
    requires Fits(l) && FitsIn(v, n)
    ensures Fits(Layout(Widen(l.widths, field, n), Store(l.grid, index, field, row, v), l.last))
    ensures Wider(Widen(l.widths, field, n), l.widths)
  {
    var w := Widen(l.widths, field, n);
    forall i | 0 <= i < |l.grid| ensures ColumnsFit(l.grid[i].columns, w) {
      ColumnsFitWider(l.grid[i].columns, l.widths, w);
    }
    StoreFits(l.grid, index, field, row, v, w);
  }

  lemma {:induction false} PlaceRowsKeeps(l: Layout, index: nat, field: string, rows: seq<Value>, row: nat)
    requires Fits(l)
    ensures Keeps(l, PlaceRows(l, index, field, rows, row))
    decreases |rows| - row
  {
    if row < |rows| {
      var n := rows[row];
      if Len(n).Ok? {
        WidenStore(l, index, field, row, n, Len(n).value);
        var l' := PlaceRow(l, index, field, row, n).value;
        PlaceRowsKeeps(l', index, field, rows, row + 1);
      }
    }
  }

  lemma {:induction false} PlaceCellKeeps(l: Layout, index: nat, field: string, value: Value)
    requires Fits(l)
    ensures Keeps(l, PlaceCell(l, index, field, value))
    ensures PlaceCell(l, index, field, value).Ok? ==> Named(PlaceCell(l, index, field, value).value.widths, [field], 0)
  {
    var named := l.(widths := Widen(l.widths, field, |field|));
    assert Fits(named) by {
      forall i | 0 <= i < |l.grid| ensures ColumnsFit(l.grid[i].columns, named.widths) {
        ColumnsFitWider(l.grid[i].columns, l.widths, named.widths);
      }
    }
    if value.List? && |value.items| == 0 {
      if named.last.Some? && Len(named.last.value).Ok? {
        WidenStore(named, index, field, 0, Str(""), Len(named.last.value).value);
      }
    } else if value.List? {
      PlaceRowsKeeps(named, index, field, value.items, 0);
    } else if !value.Null? && !value.Dict? {
      PlaceRowsKeeps(named, index, field, TextRows(value), 0);
    }
  }

  lemma {:induction false} PlaceFieldsKeeps(l: Layout, index: nat, item: Item, fields: seq<string>, j: nat)
    requires Fits(l)
    ensures Keeps(l, PlaceFields(l, index, item, fields, j))
    ensures PlaceFields(l, index, item, fields, j).Ok? ==> Named(PlaceFields(l, index, item, fields, j).value.widths, fields, j)
    decreases |fields| - j
  {
    if j < |fields| {
      var field := fields[j];
      PlaceCellKeeps(l, index, field, ValueOf(item, field));
      var next := PlaceCell(l, index, field, ValueOf(item, field));
      if next.Ok? {
        PlaceFieldsKeeps(next.value, index, item, fields, j + 1);
        assert [field][0] == field;
      }
    }
  }

  lemma {:induction false} PlaceItemsKeeps(l: Layout, fields: seq<string>, data: seq<Item>, i: nat)
    requires Fits(l)
    ensures Keeps(l, PlaceItems(l, fields, data, i))
    ensures PlaceItems(l, fields, data, i).Ok? && (i < |data| || Named(l.widths, fields, 0))
      ==> Named(PlaceItems(l, fields, data, i).value.widths, fields, 0)
    decreases |data| - i
  {
    if i < |data| {
      PlaceFieldsKeeps(l, i, data[i], fields, 0);
      var next := PlaceFields(l, i, data[i], fields, 0);
      if next.Ok? {
        PlaceItemsKeeps(next.value, fields, data, i + 1);
      }
    }
  }

  /** After measuring, every stored text line fits its column and, when there
      is at least one item, every field has a width at least as long as its
      name. */
  lemma {:induction false} MeasureFits(fields: seq<string>, data: seq<Item>)
    requires Measure(fields, data).Ok?
    ensures Fits(Measure(fields, data).value)
    ensures |data| > 0 ==> Named(Measure(fields, data).value.widths, fields, 0)
  {
    PlaceItemsKeeps(Layout(map[], [], None), fields, data, 0);
  }

  // ------------------------------------------------------ the frame lines

  /** One field's stretch of a frame line: the field's width plus two in
      `fill`, then `joint`. */
  function Segment(fill: char, w: int, joint: char): string {
    [fill] + Repeat(fill, w) + [fill] + [joint]
  }

  /** A frame line after `acc` from field `k` on: the last field ends in `end`,
      the others in `mid`. */
  function RuleFrom(acc: string, fill: char, mid: char, end: char, widths: map<string, int>, fields: seq<string>, k: nat): string
    decreases |fields| - k
  {
    if k >= |fields| then acc
    else
      var joint := if k < |fields| - 1 then mid else end;
      RuleFrom(acc + Segment(fill, Width(widths, fields[k]), joint), fill, mid, end, widths, fields, k + 1)
  }

  /** One field's stretch of the title line: the name padded to the width. */
  function Title(field: string, w: int, bar: char): string {
    " " + field + Repeat(' ', w - |field|) + " " + [bar]
  }

  function TitlesFrom(acc: string, bar: char, widths: map<string, int>, fields: seq<string>, k: nat): string
    decreases |fields| - k
  {
    if k >= |fields| then acc
    else TitlesFrom(acc + Title(fields[k], Width(widths, fields[k]), bar), bar, widths, fields, k + 1)
  }

  /** The width of the columns `fields[k..]`, each with its two spaces and
      its closing character. */
  function SpanFrom(widths: map<string, int>, fields: seq<string>, k: nat): int
    decreases |fields| - k
  {
    if k >= |fields| then 0 else Width(widths, fields[k]) + 3 + SpanFrom(widths, fields, k + 1)
  }

  /** The four frame lines, built field by field. */
  method FrameLines(chars: string, widths: map<string, int>, fields: seq<string>)
    returns (top: string, titles: string, between: string, bottom: string)
    requires |chars| == 11
    ensures top == RuleFrom([chars[0]], chars[1], chars[2], chars[3], widths, fields, 0)
    ensures titles == TitlesFrom([chars[5]], chars[5], widths, fields, 0)
    ensures between == RuleFrom([chars[4]], chars[1], chars[6], chars[7], widths, fields, 0)
    ensures bottom == RuleFrom([chars[8]], chars[1], chars[9], chars[10], widths, fields, 0)
  {
    top, titles, between, bottom := [chars[0]], [chars[5]], [chars[4]], [chars[8]];
    for k := 0 to |fields|
      invariant RuleFrom(top, chars[1], chars[2], chars[3], widths, fields, k)
        == RuleFrom([chars[0]], chars[1], chars[2], chars[3], widths, fields, 0)
      invariant TitlesFrom(titles, chars[5], widths, fields, k) == TitlesFrom([chars[5]], chars[5], widths, fields, 0)
      invariant RuleFrom(between, chars[1], chars[6], chars[7], widths, fields, k)
        == RuleFrom([chars[4]], chars[1], chars[6], chars[7], widths, fields, 0)
      invariant RuleFrom(bottom, chars[1], chars[9], chars[10], widths, fields, k)
        == RuleFrom([chars[8]], chars[1], chars[9], chars[10], widths, fields, 0)
    {
      var field := fields[k];
      var w := Width(widths, field);
      var last := k == |fields| - 1;
      top := top + ([chars[1]] + Repeat(chars[1], w) + [chars[1]] + [if !last then chars[2] else chars[3]]);
      titles := titles + (" " + field + Repeat(' ', w - |field|) + " " + [chars[5]]);
      between := between + ([chars[1]] + Repeat(chars[1], w) + [chars[1]] + [if !last then chars[6] else chars[7]]);
      bottom := bottom + ([chars[1]] + Repeat(chars[1], w) + [chars[1]] + [if !last then chars[9] else chars[10]]);
    }
  }

  lemma {:induction false} RuleWidth(acc: string, fill: char, mid: char, end: char, widths: map<string, int>, fields: seq<string>, k: nat)
    requires Named(widths, fields, k)
    ensures |RuleFrom(acc, fill, mid, end, widths, fields, k)| == |acc| + SpanFrom(widths, fields, k)
    decreases |fields| - k
  {
    if k < |fields| {
      var joint := if k < |fields| - 1 then mid else end;
      RuleWidth(acc + Segment(fill, Width(widths, fields[k]), joint), fill, mid, end, widths, fields, k + 1);
    }
  }

  lemma {:induction false} TitlesWidth(acc: string, bar: char, widths: map<string, int>, fields: seq<string>, k: nat)
    requires Named(widths, fields, k)
    ensures |TitlesFrom(acc, bar, widths, fields, k)| == |acc| + SpanFrom(widths, fields, k)
    decreases |fields| - k
  {
    if k < |fields| {
      TitlesWidth(acc + Title(fields[k], Width(widths, fields[k]), bar), bar, widths, fields, k + 1);
    }
  }

  /** When every width covers its field's name, the top line, the title line,
      the line between items and the bottom line are equally long: one
      character plus each column's width and three. */
  lemma {:induction false} FrameAligned(chars: string, widths: map<string, int>, fields: seq<string>)
    requires |chars| == 11 && Named(widths, fields, 0)
    ensures |RuleFrom([chars[0]], chars[1], chars[2], chars[3], widths, fields, 0)| == 1 + SpanFrom(widths, fields, 0)
    ensures |TitlesFrom([chars[5]], chars[5], widths, fields, 0)| == 1 + SpanFrom(widths, fields, 0)
    ensures |RuleFrom([chars[4]], chars[1], chars[6], chars[7], widths, fields, 0)| == 1 + SpanFrom(widths, fields, 0)
    ensures |RuleFrom([chars[8]], chars[1], chars[9], chars[10], widths, fields, 0)| == 1 + SpanFrom(widths, fields, 0)
  {
    RuleWidth([chars[0]], chars[1], chars[2], chars[3], widths, fields, 0);
    TitlesWidth([chars[5]], chars[5], widths, fields, 0);
    RuleWidth([chars[4]], chars[1], chars[6], chars[7], widths, fields, 0);
    RuleWidth([chars[8]], chars[1], chars[9], chars[10], widths, fields, 0);
  }

  // ------------------------------------------------------ the data lines

  /** `grid[key]`: the cells of the entry with that key. */
  function EntryAt(grid: seq<Entry>, key: nat): Option<seq<Column>> {
    if |grid| == 0 then None
    else if grid[0].index == key then Some(grid[0].columns)
    else EntryAt(grid[1..], key)
  }

  /** The position of the column for `field`, if there is one. */
  function ColumnIndex(columns: seq<Column>, field: string): (r: Option<nat>)
    ensures r.Some? ==> r.value < |columns| && columns[r.value].field == field
    ensures r.None? ==> forall j :: 0 <= j < |columns| ==> columns[j].field != field
  {
    if |columns| == 0 then None
    else if columns[0].field == field then Some(0)
    else match ColumnIndex(columns[1..], field)
      case None => None
      case Some(j) => Some(j + 1)
  }

  /** The most text lines any cell of `columns` has. */
  function MaxRows(columns: seq<Column>): (m: nat)
    ensures forall j :: 0 <= j < |columns| ==> |columns[j].rows| <= m
    ensures |columns| > 0 ==> exists j :: 0 <= j < |columns| && m == |columns[j].rows|
  {
    if |columns| == 0 then 0
    else
      var m := MaxRows(columns[..|columns| - 1]);
      assert forall j :: 0 <= j < |columns| - 1 ==> columns[..|columns| - 1][j] == columns[j];
      if m < |columns[|columns| - 1].rows| then |columns[|columns| - 1].rows| else m
  }

  method RowCount(columns: seq<Column>) returns (m: nat)
    ensures m == MaxRows(columns)
  {
    m := 0;
    for j := 0 to |columns|
      invariant m == MaxRows(columns[..j])
    {
      assert columns[..j + 1][..j] == columns[..j];
      if m < |columns[j].rows| {
        m := |columns[j].rows|;
      }
    }
    assert columns[..|columns|] == columns;
  }

  /** A blank stretch of a data line. */
  function Blank(w: int, bar: char): string {
    " " + Repeat(' ', w) + " " + [bar]
  }

  /** Line `r` of one cell: blank when the cell has no such line or the line
      is `'None'` or empty, else the text padded to the width. */
  function Slot(rows: seq<Value>, r: nat, w: int, bar: char): string {
    if r < |rows| && rows[r] != Str("None") && rows[r] != Str("") then
      " " + PyStr(rows[r]) + Repeat(' ', w - |PyStr(rows[r])|) + " " + [bar]
    else Blank(w, bar)
  }

  /** Text line `r` of an item after `acc`, from its column `k` on. The
      columns are the item's own (`own`), but their text is looked up in
      `other`, the entry whose key is the item's position among the entries;
      an absent entry or column raises KeyError. */
  function SlotsFrom(acc: string, bar: char, widths: map<string, int>, own: seq<Column>,
                     other: Option<seq<Column>>, r: nat, k: nat): Result<string>
    decreases |own| - k
  {
    if k >= |own| then Ok(acc)
    else
      match other
      case None => Raised("KeyError")
      case Some(cols) =>
        match ColumnIndex(cols, own[k].field)
        case None => Raised("KeyError")
        case Some(c) =>
          var slot := Slot(cols[c].rows, r, Width(widths, own[k].field), bar);
          SlotsFrom(acc + slot, bar, widths, own, other, r, k + 1)
  }

  /** The text lines `r` up to `count` of an item, after `acc`. */
  function LinesFrom(acc: string, bar: char, widths: map<string, int>, own: seq<Column>,
                     other: Option<seq<Column>>, r: nat, count: nat): Result<string>
    decreases count - r
  {
    if r >= count then Ok(acc)
    else
      match SlotsFrom([bar], bar, widths, own, other, r, 0)
      case Raised(e) => Raised(e)
      case Ok(line) => LinesFrom(acc + line + "\n", bar, widths, own, other, r + 1, count)
  }

  /** The entries from position `p` on, after `acc`; with the separator option
      each item is followed by the line between items, the last one by the
      bottom line. */
  function SectionFrom(acc: string, bar: char, widths: map<string, int>, grid: seq<Entry>, p: nat,
                       separate: bool, between: string, bottom: string): Result<string>
    decreases |grid| - p
  {
    if p >= |grid| then Ok(acc)
    else
      var own := grid[p].columns;
      match LinesFrom(acc, bar, widths, own, EntryAt(grid, p), 0, MaxRows(own))
      case Raised(e) => Raised(e)
      case Ok(body) =>
        var next := if separate then body + (if p < |grid| - 1 then between else bottom) + "\n" else body;
        SectionFrom(next, bar, widths, grid, p + 1, separate, between, bottom)
  }

  method WriteSlot(rows: seq<Value>, r: nat, w: int, bar: char) returns (slot: string)
    ensures slot == Slot(rows, r, w, bar)
  {
    slot := " " + Repeat(' ', w) + " " + [bar];
    if r < |rows| {
      var value := rows[r];
      if value != Str("None") && value != Str("") {
        slot := " " + PyStr(value) + Repeat(' ', w - |PyStr(value)|) + " " + [bar];
      }
    }
  }

  /** One column of a text line, taken as a single step. */
  lemma {:induction false} SlotsStep(acc: string, bar: char, widths: map<string, int>, own: seq<Column>,
                  other: Option<seq<Column>>, r: nat, k: nat)
    requires k < |own|
    ensures other.None? ==> SlotsFrom(acc, bar, widths, own, other, r, k) == Raised("KeyError")
    ensures other.Some? && ColumnIndex(other.value, own[k].field).None? ==>
              SlotsFrom(acc, bar, widths, own, other, r, k) == Raised("KeyError")
    ensures other.Some? && ColumnIndex(other.value, own[k].field).Some? ==>
              var c := ColumnIndex(other.value, own[k].field).value;
              SlotsFrom(acc, bar, widths, own, other, r, k)
              == SlotsFrom(acc + Slot(other.value[c].rows, r, Width(widths, own[k].field), bar),
                           bar, widths, own, other, r, k + 1)
  {
  }

  method WriteSlots(bar: char, widths: map<string, int>, own: seq<Column>, other: Option<seq<Column>>, r: nat)
    returns (line: Result<string>)
    ensures line == SlotsFrom([bar], bar, widths, own, other, r, 0)
  {
    var text := [bar];
    for k := 0 to |own|
      invariant SlotsFrom(text, bar, widths, own, other, r, k) == SlotsFrom([bar], bar, widths, own, other, r, 0)
    {
      SlotsStep(text, bar, widths, own, other, r, k);
      var field := own[k].field;
      if other.None? {
        return Raised("KeyError");
      }
      var c := ColumnIndex(other.value, field);
      if c.None? {
        return Raised("KeyError");
      }
      var slot := WriteSlot(other.value[c.value].rows, r, Width(widths, field), bar);
      text := text + slot;
    }
    return Ok(text);
  }

  method WriteItem(acc: string, bar: char, widths: map<string, int>, own: seq<Column>, other: Option<seq<Column>>)
    returns (r: Result<string>)
    ensures r == LinesFrom(acc, bar, widths, own, other, 0, MaxRows(own))
  {
    var count := RowCount(own);
    var content := acc;
    for row := 0 to count
      invariant LinesFrom(content, bar, widths, own, other, row, count) == LinesFrom(acc, bar, widths, own, other, 0, count)
    {
      var line := WriteSlots(bar, widths, own, other, row);
      if line.Raised? {
        return Raised(line.exception);
      }
      content := content + line.value + "\n";
    }
    return Ok(content);
  }

  /** One entry of the data section, taken as a single step. */
  lemma {:induction false} SectionStep(acc: string, bar: char, widths: map<string, int>, grid: seq<Entry>, p: nat,
                    separate: bool, between: string, bottom: string, body: Result<string>)
    requires p < |grid| && body == LinesFrom(acc, bar, widths, grid[p].columns, EntryAt(grid, p), 0, MaxRows(grid[p].columns))
    ensures body.Raised? ==> SectionFrom(acc, bar, widths, grid, p, separate, between, bottom) == Raised(body.exception)
    ensures body.Ok? ==>
              SectionFrom(acc, bar, widths, grid, p, separate, between, bottom)
              == SectionFrom(if separate then body.value + (if p < |grid| - 1 then between else bottom) + "\n" else body.value,
                             bar, widths, grid, p + 1, separate, between, bottom)
  {
  }

  method WriteSection(acc: string, bar: char, widths: map<string, int>, grid: seq<Entry>,
                      separate: bool, between: string, bottom: string) returns (r: Result<string>)
    ensures r == SectionFrom(acc, bar, widths, grid, 0, separate, between, bottom)
  {
    var content := acc;
    for p := 0 to |grid|
      invariant SectionFrom(content, bar, widths, grid, p, separate, between, bottom)
        == SectionFrom(acc, bar, widths, grid, 0, separate, between, bottom)
    {
      var body := WriteItem(content, bar, widths, grid[p].columns, EntryAt(grid, p));
      SectionStep(content, bar, widths, grid, p, separate, between, bottom, body);
      if body.Raised? {
        return body;
      }
      content := body.value;
      if separate {
        content := content + (if p < |grid| - 1 then between else bottom) + "\n";
      }
    }
    return Ok(content);
  }

  /** The grid text: the frame's top, the titles and the line under them,
      the data section, then the bottom line unless the separator option
      already closed the last item with it; one final line feed is dropped. */
  function GridText(fields: seq<string>, data: seq<Item>, options: seq<string>): Result<string> {
    match Measure(fields, data)
    case Raised(e) => Raised(e)
    case Ok(l) => Drawn(l, fields, options)
  }

  /** The grid text once the cells are measured. */
  function Drawn(l: Layout, fields: seq<string>, options: seq<string>): Result<string> {
    var chars := Chars(options);
    var top := RuleFrom([chars[0]], chars[1], chars[2], chars[3], l.widths, fields, 0);
    var titles := TitlesFrom([chars[5]], chars[5], l.widths, fields, 0);
    var between := RuleFrom([chars[4]], chars[1], chars[6], chars[7], l.widths, fields, 0);
    var bottom := RuleFrom([chars[8]], chars[1], chars[9], chars[10], l.widths, fields, 0);
    var separate := "seperator" in options;
    match SectionFrom(top + "\n" + titles + "\n" + between + "\n", chars[5], l.widths, l.grid, 0, separate, between, bottom)
    case Raised(e) => Raised(e)
    case Ok(body) =>
      var content := if separate then body else body + bottom;
      Ok(if |content| > 0 && content[|content| - 1] == '\n' then content[..|content| - 1] else content)
  }

  method Draw(l: Layout, fields: seq<string>, options: seq<string>) returns (r: Result<string>)
    ensures r == Drawn(l, fields, options)
  {
    var chars := Chars(options);
    var top, titles, between, bottom := FrameLines(chars, l.widths, fields);
    var separate := "seperator" in options;
    var body := WriteSection(top + "\n" + titles + "\n" + between + "\n", chars[5], l.widths, l.grid, separate, between, bottom);
    if body.Raised? {
      return Raised(body.exception);
    }
    var content := body.value;
    if !separate {
      content := content + bottom;
    }
    if |content| > 0 && content[|content| - 1] == '\n' {
      content := content[..|content| - 1];
    }
    return Ok(content);
  }

  method GridContent(fields: seq<string>, data: seq<Item>, options: seq<string>) returns (r: Result<string>)
    ensures r == GridText(fields, data, options)
  {
    var measured := MeasureAll(fields, data);
    if measured.Raised? {
      return Raised(measured.exception);
    }
    r := Draw(measured.value, fields, options);
  }

  // ------------------------------------------- what the data lines keep

  /** The fields of the columns, in order. */
  function FieldsOf(columns: seq<Column>): (fs: seq<string>)
    ensures |fs| == |columns| && forall j :: 0 <= j < |columns| ==> fs[j] == columns[j].field
  {
    if |columns| == 0 then [] else [columns[0].field] + FieldsOf(columns[1..])
  }

  /** Every stored text line of the columns is a string. */
  predicate AllText(columns: seq<Column>) {
    forall j, k :: 0 <= j < |columns| && 0 <= k < |columns[j].rows| ==> columns[j].rows[k].Str?
  }

  lemma {:induction false} SlotWidth(rows: seq<Value>, r: nat, w: int, bar: char)
    requires w >= 0 && RowsFit(rows, w) && forall k :: 0 <= k < |rows| ==> rows[k].Str?
    ensures |Slot(rows, r, w, bar)| == w + 3
  {
    if r < |rows| {
      assert FitsIn(rows[r], w);
    }
  }

  lemma {:induction false} SlotsWidth(acc: string, bar: char, widths: map<string, int>, own: seq<Column>,
                                      cols: seq<Column>, r: nat, k: nat)
    requires ColumnsFit(cols, widths) && AllText(cols) && forall f :: f in widths ==> widths[f] >= 0
    requires SlotsFrom(acc, bar, widths, own, Some(cols), r, k).Ok?
    ensures |SlotsFrom(acc, bar, widths, own, Some(cols), r, k).value| == |acc| + SpanFrom(widths, FieldsOf(own), k)
    decreases |own| - k
  {
    if k < |own| {
      var c := ColumnIndex(cols, own[k].field).value;
      var w := Width(widths, own[k].field);
      SlotWidth(cols[c].rows, r, w, bar);
      SlotsWidth(acc + Slot(cols[c].rows, r, w, bar), bar, widths, own, cols, r, k + 1);
    }
  }

  /** A data line of an item that has a cell for every field, in the order of
      the field list, and whose entry is found under its own position, is
      exactly as long as the frame lines, provided every stored line is a
      string. */
  lemma {:induction false} DataLineAligned(fields: seq<string>, data: seq<Item>, options: seq<string>, p: nat, r: nat)
    requires Measure(fields, data).Ok? && |data| > 0
    requires p < |Measure(fields, data).value.grid|
    requires EntryAt(Measure(fields, data).value.grid, p) == Some(Measure(fields, data).value.grid[p].columns)
    requires FieldsOf(Measure(fields, data).value.grid[p].columns) == fields
    requires AllText(Measure(fields, data).value.grid[p].columns)
    requires SlotsFrom([Chars(options)[5]], Chars(options)[5], Measure(fields, data).value.widths,
                       Measure(fields, data).value.grid[p].columns, Some(Measure(fields, data).value.grid[p].columns), r, 0).Ok?
    ensures |SlotsFrom([Chars(options)[5]], Chars(options)[5], Measure(fields, data).value.widths,
                       Measure(fields, data).value.grid[p].columns, Some(Measure(fields, data).value.grid[p].columns), r, 0).value|
            == |RuleFrom([Chars(options)[0]], Chars(options)[1], Chars(options)[2], Chars(options)[3],
                         Measure(fields, data).value.widths, fields, 0)|
  {
    var l := Measure(fields, data).value;
    var chars := Chars(options);
    MeasureFits(fields, data);
    var own := l.grid[p].columns;
    SlotsWidth([chars[5]], chars[5], l.widths, own, own, r, 0);
    FrameAligned(chars, l.widths, fields);
  }

  /** The data loop reads each item's cells from the entry whose key is the
      item's position among the entries. When an earlier item stored nothing
      (all its values `None` or dictionaries), the entry at position `p` has a
      larger key, and when no entry has key `p` the grid raises KeyError. */
  lemma {:induction false} MisplacedEntryRaises(acc: string, bar: char, widths: map<string, int>, grid: seq<Entry>, p: nat,
                             separate: bool, between: string, bottom: string)
    requires p < |grid| && |grid[p].columns| > 0 && |grid[p].columns[0].rows| > 0
    requires EntryAt(grid, p).None?
    ensures SectionFrom(acc, bar, widths, grid, p, separate, between, bottom) == Raised("KeyError")
  {
    var own := grid[p].columns;
    assert MaxRows(own) > 0;
    assert SlotsFrom([bar], bar, widths, own, None, 0, 0) == Raised("KeyError");
  }
}

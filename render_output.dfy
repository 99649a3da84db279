/** The numbered column `render_output` adds in front of the data. */
module RowNumbers {
  import opened Py

  type Item = seq<(string, Value)>

  /** `item[key] = counter` for every item, counting from 1 (the key is
      always 'No'). */
  function Numbered(data: seq<Item>, key: string): (r: seq<Item>)
    ensures |r| == |data|
  {
    if |data| == 0 then []
    else Numbered(data[..|data| - 1], key) + [Put(data[|data| - 1], key, Int(|data|))]
  }

  /** Item `i` is numbered `i + 1`. */
  lemma {:induction false} NumberedAt(data: seq<Item>, key: string, i: nat)
    requires i < |data|
    ensures Numbered(data, key)[i] == Put(data[i], key, Int(i + 1))
    decreases |data|
  {
    var init := data[..|data| - 1];
    if i < |data| - 1 {
      NumberedAt(init, key, i);
      assert init[i] == data[i];
    }
  }

  /** The numbering loop, which sets `item[key] = counter` on each item. */
  method NumberRows(data: seq<Item>, key: string) returns (r: seq<Item>)
    ensures r == Numbered(data, key)
  {
    r := [];
    var counter := 0;
    for i := 0 to |data|
      invariant counter == i && r == Numbered(data[..i], key)
    {
      counter := counter + 1;
      assert data[..i + 1][..i] == data[..i];
      r := r + [Put(data[i], key, Int(counter))];
    }
    assert data[..|data|] == data;
  }
}

/** `render_output`: a list of dictionaries rendered as HTML, CSV, a text
    grid or a data frame, with an optional numbered first column. */
module Render {
  import opened Wrappers
  import opened Text
  import opened Py
  import RenderGrid
  import opened RowNumbers

  /** One row of output data: a dictionary from field names to values. */
  type Item = seq<(string, Value)>

  /** Python's `text[:-1]`. */
  function DropLast(s: string): string {
    if |s| == 0 then "" else s[..|s| - 1]
  }

  // ---------------------------------------------------------------- CSV

  /** Each cell followed by a comma, as the CSV loops append them. */
  function Terminated(cells: seq<string>): string {
    if |cells| == 0 then "" else Terminated(cells[..|cells| - 1]) + cells[|cells| - 1] + ","
  }

  lemma {:induction false} TerminatedJoin(cells: seq<string>)
    requires |cells| > 0
    ensures Terminated(cells) == Join(cells, ",") + ","
    decreases |cells|
  {
    var init := cells[..|cells| - 1];
    if |cells| == 1 {
      assert init == [];
    } else {
      TerminatedJoin(init);
      JoinSnoc(init, cells[|cells| - 1], ",");
      assert init + [cells[|cells| - 1]] == cells;
    }
  }

  /** Dropping the comma after the last cell leaves the cells joined by commas. */
  lemma {:induction false} CloseRow(before: string, cells: seq<string>)
    requires |cells| > 0
    ensures DropLast(before + Terminated(cells)) == before + Join(cells, ",")
  {
    TerminatedJoin(cells);
    var j := Join(cells, ",");
    assert before + (j + ",") == (before + j) + ",";
  }

  function HeaderCell(field: string): string {
    "\"" + field + "\""
  }

  /** A missing or `None` value leaves the cell empty, a number (or a bool)
      is written bare and anything else is `str()` of it in double quotes. */
  function CsvCell(item: Item, field: string): string {
    match Get(item, field)
    case None => ""
    case Some(v) =>
      if v.Null? then ""
      else if v.Int? || v.Bool? then PyStr(v)
      else "\"" + PyStr(v) + "\""
  }

  function HeaderCells(fields: seq<string>): (cells: seq<string>)
    ensures |cells| == |fields|
  {
    seq(|fields|, j requires 0 <= j < |fields| => HeaderCell(fields[j]))
  }

  function RowCells(item: Item, fields: seq<string>): (cells: seq<string>)
    ensures |cells| == |fields|
  {
    seq(|fields|, j requires 0 <= j < |fields| => CsvCell(item, fields[j]))
  }

  function CsvRow(item: Item, fields: seq<string>): string {
    Join(RowCells(item, fields), ",")
  }

  /** One line per item, before the line feeds. */
  function RowLines(fields: seq<string>, data: seq<Item>): (ls: seq<string>)
    ensures |ls| == |data|
  {
    if |data| == 0 then [] else RowLines(fields, data[..|data| - 1]) + [CsvRow(data[|data| - 1], fields)]
  }

  /** Line `i` is item `i`'s. */
  lemma {:induction false} RowLinesAt(fields: seq<string>, data: seq<Item>, i: nat)
    requires i < |data|
    ensures RowLines(fields, data)[i] == CsvRow(data[i], fields)
    decreases |data|
  {
    var init := data[..|data| - 1];
    if i < |data| - 1 {
      RowLinesAt(fields, init, i);
      assert init[i] == data[i];
    }
  }

  /** The header line and the item lines. */
  function CsvLines(fields: seq<string>, data: seq<Item>): (ls: seq<string>)
    ensures |ls| == |data| + 1
  {
    [Join(HeaderCells(fields), ",")] + RowLines(fields, data)
  }

  /** The CSV text. With no fields every line collapses to nothing and the
      text is a single line feed. */
  function Csv(fields: seq<string>, data: seq<Item>): string {
    if |fields| == 0 then "\n" else Lines(CsvLines(fields, data))
  }

  /** The header cells, each followed by a comma. */
  method WriteHeader(fields: seq<string>) returns (content: string)
    ensures content == Terminated(HeaderCells(fields))
  {
    content := "";
    for j := 0 to |fields|
      invariant content == Terminated(HeaderCells(fields)[..j])
    {
      content := content + "\"" + fields[j] + "\",";
      assert HeaderCells(fields)[..j + 1][..j] == HeaderCells(fields)[..j];
    }
    assert HeaderCells(fields)[..|fields|] == HeaderCells(fields);
  }

  /** One item's cells, each followed by a comma, after `content`. */
  method WriteRow(content: string, item: Item, fields: seq<string>) returns (r: string)
    ensures r == content + Terminated(RowCells(item, fields))
  {
    var cells := "";
    for j := 0 to |fields|
      invariant cells == Terminated(RowCells(item, fields)[..j])
    {
      var cell := CsvCell(item, fields[j]);
      cells := cells + cell + ",";
      assert RowCells(item, fields)[..j + 1][..j] == RowCells(item, fields)[..j];
    }
    assert RowCells(item, fields)[..|fields|] == RowCells(item, fields);
    r := content + cells;
  }

  /** The header line closes with its last comma turned into a line feed. */
  lemma {:induction false} CsvStart(fields: seq<string>)
    ensures Csv(fields, []) == DropLast(Terminated(HeaderCells(fields))) + "\n"
  {
    if |fields| > 0 {
      var header := Join(HeaderCells(fields), ",");
      CloseRow("", HeaderCells(fields));
      assert "" + header == header;
      assert CsvLines(fields, []) == [header];
      assert Lines([header]) == header + "\n" + Lines([]);
    }
  }

  /** Each item's line closes the same way. */
  lemma {:induction false} CsvStep(fields: seq<string>, data: seq<Item>, i: nat)
    requires i < |data|
    ensures Csv(fields, data[..i + 1])
      == DropLast(Csv(fields, data[..i]) + Terminated(RowCells(data[i], fields))) + "\n"
  {
    if |fields| > 0 {
      var before := Csv(fields, data[..i]);
      CloseRow(before, RowCells(data[i], fields));
      LinesSnoc(CsvLines(fields, data[..i]), CsvRow(data[i], fields));
      assert data[..i + 1][..i] == data[..i];
      assert CsvLines(fields, data[..i + 1]) == CsvLines(fields, data[..i]) + [CsvRow(data[i], fields)];
    }
  }

  method CsvContent(fields: seq<string>, data: seq<Item>) returns (content: string)
    ensures content == Csv(fields, data)
  {
    content := WriteHeader(fields);
    content := DropLast(content) + "\n";
    CsvStart(fields);
    assert data[..0] == [];
    for i := 0 to |data|
      invariant content == Csv(fields, data[..i])
    {
      content := WriteRow(content, data[i], fields);
      CsvStep(fields, data, i);
      content := DropLast(content) + "\n";
    }
    assert data[..|data|] == data;
  }

  /** A cell that holds neither a comma nor a line feed. */
  predicate Clean(s: string) {
    forall k :: 0 <= k < |s| ==> s[k] != ',' && s[k] != '\n'
  }

  /** Every header and data cell is clean. */
  predicate Plain(fields: seq<string>, data: seq<Item>) {
    (forall j :: 0 <= j < |fields| ==> Clean(HeaderCell(fields[j])))
    && forall i, j :: 0 <= i < |data| && 0 <= j < |fields| ==> Clean(CsvCell(data[i], fields[j]))
  }

  /** Clean cells split back out of their line. */
  lemma {:induction false} ReadRow(cells: seq<string>)
    requires |cells| > 0 && forall j :: 0 <= j < |cells| ==> Clean(cells[j])
    ensures Split(Join(cells, ","), ",") == cells
    ensures NoNewline(Join(cells, ","))
  {
    SplitJoin(cells, ',');
    JoinLacks(cells, ",", '\n');
  }

  /** When no cell holds a comma or a line feed, the CSV text reads back:
      splitting it at line feeds gives the header line, one line per item and
      the empty text after the final line feed, and splitting each line at
      commas gives its cells. */
  lemma {:induction false} CsvReadsBack(fields: seq<string>, data: seq<Item>)
    requires |fields| > 0 && Plain(fields, data)
    ensures Split(Csv(fields, data), "\n") == [Join(HeaderCells(fields), ",")] + RowLines(fields, data) + [""]
    ensures Split(Join(HeaderCells(fields), ","), ",") == HeaderCells(fields)
    ensures forall i :: 0 <= i < |data| ==> Split(CsvRow(data[i], fields), ",") == RowCells(data[i], fields)
  {
    ReadRow(HeaderCells(fields));
    forall i | 0 <= i < |data| ensures Split(CsvRow(data[i], fields), ",") == RowCells(data[i], fields) {
      ReadRow(RowCells(data[i], fields));
    }
    CsvLinesClean(fields, data);
    SplitLines(CsvLines(fields, data));
  }

  /** With clean cells no line holds a line feed. */
  lemma {:induction false} CsvLinesClean(fields: seq<string>, data: seq<Item>)
    requires |fields| > 0 && Plain(fields, data)
    ensures var ls := CsvLines(fields, data); forall k :: 0 <= k < |ls| ==> NoNewline(ls[k])
  {
    var ls := CsvLines(fields, data);
    forall k | 0 <= k < |ls| ensures NoNewline(ls[k]) {
      if k > 0 {
        RowLinesAt(fields, data, k - 1);
        ReadRow(RowCells(data[k - 1], fields));
      } else {
        ReadRow(HeaderCells(fields));
      }
    }
  }

  /** A double quote inside a text value is written as it is, not doubled as
      RFC 4180 section 2 asks. */
  lemma {:induction false} QuoteNotDoubled(item: Item, field: string, s: string)
    requires Get(item, field) == Some(Str(s))
    ensures CsvCell(item, field) == "\"" + s + "\""
  {
  }

  // ---------------------------------------------------------------- HTML

  /** The text the source writes before the header cells. */
  const HtmlHead: string :=
    "<!DOCTYPE html>\n<html>\n  <head>\n"
    + "    <link rel=\"stylesheet\" href=\"styles.css\">\n"
    + "  </head>\n" + "  <body>\n" + "    <table>\n      <thead>\n"

  /** Between the header cells and the rows; the header closes with a second
      opening `<thead>` tag, as the source writes it. */
  const HtmlMiddle: string := "      <thead>\n      <tbody>\n"

  const HtmlTail: string := "      </tbody>\n    </table>\n" + "  </body>\n</html>\n"

  function HeadCell(field: string): string {
    "        <th>" + field + "</th>\n"
  }

  function Strs(xs: seq<Value>): (ts: seq<string>)
    ensures |ts| == |xs|
  {
    seq(|xs|, k requires 0 <= k < |xs| => PyStr(xs[k]))
  }

  /** What goes between `<td>` and `</td>`: nothing for a missing field or
      `None`, the text with line feeds turned into `<br>` for a string, a
      number or a bool, the elements joined by `<br>` for a list; a dictionary
      gets no cell at all. */
  function CellText(item: Item, field: string): Option<string> {
    match Get(item, field)
    case None => Some("")
    case Some(v) =>
      match v
      case Null => Some("")
      case List(xs) => Some(Join(Strs(xs), "<br>"))
      case Dict(_) => None
      case _ => Some(Replace(PyStr(v), "\n", "<br>"))
  }

  function HtmlCell(item: Item, field: string): string {
    match CellText(item, field)
    case None => ""
    case Some(t) => "          <td>" + t + "</td>\n"
  }

  function HtmlRow(item: Item, fields: seq<string>): string {
    "        <tr>\n" + Concat(HtmlCells(item, fields)) + "        </tr>\n"
  }

  function HeadCells(fields: seq<string>): string {
    Concat(seq(|fields|, j requires 0 <= j < |fields| => HeadCell(fields[j])))
  }

  function HtmlRows(fields: seq<string>, data: seq<Item>): string {
    Concat(seq(|data|, i requires 0 <= i < |data| => HtmlRow(data[i], fields)))
  }

  function Html(fields: seq<string>, data: seq<Item>): string {
    HtmlHead + HeadCells(fields) + HtmlMiddle + HtmlRows(fields, data) + HtmlTail
  }

  /** A prefix of a comprehension of texts, concatenated, grows by one text. */
  lemma {:induction false} ConcatStep(ts: seq<string>, j: nat)
    requires j < |ts|
    ensures Concat(ts[..j + 1]) == Concat(ts[..j]) + ts[j]
  {
    assert ts[..j + 1][..j] == ts[..j];
  }

  lemma {:induction false} Regroup(a: string, b: string, c: string)
    ensures a + b + c == a + (b + c)
  {
  }

  /** The elements of a list cell, `<br>` between each two. */
  method ListCell(xs: seq<Value>) returns (text: string)
    ensures text == Join(Strs(xs), "<br>")
  {
    text := "";
    for index := 0 to |xs|
      invariant text == Join(Strs(xs)[..index], "<br>") + (if 0 < index < |xs| then "<br>" else "")
    {
      ghost var done := Join(Strs(xs)[..index], "<br>");
      text := text + PyStr(xs[index]);
      if index > 0 {
        JoinSnoc(Strs(xs)[..index], PyStr(xs[index]), "<br>");
      }
      assert Strs(xs)[..index] + [PyStr(xs[index])] == Strs(xs)[..index + 1];
      if index != |xs| - 1 {
        text := text + "<br>";
      }
    }
    assert Strs(xs)[..|xs|] == Strs(xs);
  }

  /** One cell of a row; a list cell is built by `ListCell`. */
  method WriteCell(item: Item, field: string) returns (cell: string)
    ensures cell == HtmlCell(item, field)
  {
    var v := Get(item, field);
    if v.Some? && v.value.List? {
      var text := ListCell(v.value.items);
      cell := "          <td>" + text + "</td>\n";
    } else {
      cell := HtmlCell(item, field);
    }
  }

  function HtmlCells(item: Item, fields: seq<string>): (cells: seq<string>)
    ensures |cells| == |fields|
  {
    seq(|fields|, j requires 0 <= j < |fields| => HtmlCell(item, fields[j]))
  }

  /** One item's row after `content`. */
  method WriteHtmlRow(content: string, item: Item, fields: seq<string>) returns (r: string)
    ensures r == content + HtmlRow(item, fields)
  {
    var cells := "";
    for j := 0 to |fields|
      invariant cells == Concat(HtmlCells(item, fields)[..j])
    {
      var cell := WriteCell(item, fields[j]);
      cells := cells + cell;
      ConcatStep(HtmlCells(item, fields), j);
    }
    assert HtmlCells(item, fields)[..|fields|] == HtmlCells(item, fields);
    r := content + ("        <tr>\n" + cells + "        </tr>\n");
  }

  /** The header cells after `content`. */
  method WriteHeadCells(content: string, fields: seq<string>) returns (r: string)
    ensures r == content + HeadCells(fields)
  {
    ghost var heads := seq(|fields|, j requires 0 <= j < |fields| => HeadCell(fields[j]));
    r := "";
    for j := 0 to |fields|
      invariant r == Concat(heads[..j])
    {
      r := r + "        <th>" + fields[j] + "</th>\n";
      ConcatStep(heads, j);
    }
    assert heads[..|fields|] == heads;
    r := content + r;
  }

  lemma {:induction false} HtmlRowsStep(fields: seq<string>, data: seq<Item>, i: nat)
    requires i < |data|
    ensures HtmlRows(fields, data[..i + 1]) == HtmlRows(fields, data[..i]) + HtmlRow(data[i], fields)
  {
    var rows := seq(|data|, k requires 0 <= k < |data| => HtmlRow(data[k], fields));
    assert seq(i + 1, k requires 0 <= k < i + 1 => HtmlRow(data[..i + 1][k], fields)) == rows[..i + 1];
    assert seq(i, k requires 0 <= k < i => HtmlRow(data[..i][k], fields)) == rows[..i];
    ConcatStep(rows, i);
  }

  method HtmlContent(fields: seq<string>, data: seq<Item>) returns (content: string)
    ensures content == Html(fields, data)
  {
    content := WriteHeadCells(HtmlHead, fields);
    content := content + HtmlMiddle;
    ghost var start := content;
    assert data[..0] == [];
    for i := 0 to |data|
      invariant content == start + HtmlRows(fields, data[..i])
    {
      content := WriteHtmlRow(content, data[i], fields);
      HtmlRowsStep(fields, data, i);
      Regroup(start, HtmlRows(fields, data[..i]), HtmlRow(data[i], fields));
    }
    assert data[..|data|] == data;
    content := content + HtmlTail;
  }

  /** A string, number or bool cell stays on one line of the HTML text. */
  lemma {:induction false} ScalarCellOneLine(item: Item, field: string, v: Value)
    requires Get(item, field) == Some(v) && (v.Str? || v.Int? || v.Bool?)
    ensures CellText(item, field).Some? && NoNewline(CellText(item, field).value)
  {
    ReplacedLacks(PyStr(v), '\n', "<br>");
  }

  // ------------------------------------------------------- render_output

  /** What `render_output` returns: `(False, message)`, `(True, text)`, or
      `(True, data frame)` for the 'pandas' type. */
  datatype Output =
    | Refused(message: string)
    | Rendered(content: string)
    | DataFrame(columns: seq<string>, rows: seq<Item>)

  predicate Supported(kind: string) {
    kind == "csv" || kind == "grid" || kind == "html" || kind == "pandas"
  }

  /** The call gets past both refusals and is asked for the numbered column. */
  predicate Numbers(data: seq<Item>, outputType: string, options: seq<string>) {
    |data| > 0 && Supported(Lower(outputType)) && "row_id_column" in options
  }

  /** The content for a supported `kind` once the fields and data are final. */
  function Emit(kind: string, fields: seq<string>, data: seq<Item>, options: seq<string>): Result<Output> {
    if kind == "html" then Ok(Rendered(Html(fields, data)))
    else if kind == "csv" then Ok(Rendered(Csv(fields, data)))
    else if kind == "grid" then
      match RenderGrid.GridText(fields, data, options)
      case Raised(e) => Raised(e)
      case Ok(text) => Ok(Rendered(text))
    else Ok(DataFrame(fields, data))
  }

  /** The result of `render_output(fields, data, outputType, options)`. */
  function Render(fields: seq<string>, data: seq<Item>, outputType: string, options: seq<string>): Result<Output> {
    if |data| == 0 then Ok(Refused("No results were returned."))
    else if !Supported(Lower(outputType)) then
      Ok(Refused("The output type of '" + outputType + "' is not supported."))
    else if "row_id_column" in options then
      Emit(Lower(outputType), ["No"] + fields, Numbered(data, "No"), options)
    else
      Emit(Lower(outputType), fields, data, options)
  }

  method EmitContent(kind: string, fields: seq<string>, data: seq<Item>, options: seq<string>) returns (r: Result<Output>)
    ensures r == Emit(kind, fields, data, options)
  {
    if kind == "html" {
      var content := HtmlContent(fields, data);
      r := Ok(Rendered(content));
    } else if kind == "csv" {
      var content := CsvContent(fields, data);
      r := Ok(Rendered(content));
    } else if kind == "grid" {
      var content := RenderGrid.GridContent(fields, data, options);
      if content.Raised? {
        return Raised(content.exception);
      }
      r := Ok(Rendered(content.value));
    } else {
      r := Ok(DataFrame(fields, data));
    }
  }

  /** The caller's field list and output data, which `render_output` changes
      in place when it adds the numbered column. */
  class Request {
    var fields: seq<string>
    var data: seq<Item>

    constructor (fields: seq<string>, data: seq<Item>)
      ensures this.fields == fields && this.data == data
    {
      this.fields := fields;
      this.data := data;
    }

    /** `field_list.insert(0, key)` and the numbering loop. */
    method Number(key: string)
      modifies this
      ensures fields == [key] + old(fields)
      ensures data == Numbered(old(data), key)
    {
      fields := [key] + fields;
      data := NumberRows(data, key);
    }

    method RenderOutput(outputType: string, options: seq<string>) returns (r: Result<Output>)
      modifies this
      ensures r == Render(old(fields), old(data), outputType, options)
      ensures fields == if Numbers(old(data), outputType, options) then ["No"] + old(fields) else old(fields)
      ensures data == if Numbers(old(data), outputType, options) then Numbered(old(data), "No") else old(data)
    {
      if |data| == 0 {
        return Ok(Refused("No results were returned."));
      }
      var kind := Lower(outputType);
      if !(kind == "csv" || kind == "grid" || kind == "html" || kind == "pandas") {
        return Ok(Refused("The output type of '" + outputType + "' is not supported."));
      }
      if "row_id_column" in options {
        Number("No");
      }
      r := EmitContent(kind, fields, data, options);
    }
  }

  /** The call refuses exactly when there is no data or the type (in any
      letter case) is none of csv, grid, html and pandas. */
  lemma {:induction false} RefusesExactly(fields: seq<string>, data: seq<Item>, outputType: string, options: seq<string>)
    ensures (Render(fields, data, outputType, options).Ok? && Render(fields, data, outputType, options).value.Refused?)
            <==> (|data| == 0 || !Supported(Lower(outputType)))
  {
  }

  /** With the numbered column, the cell of item `i` under the new key is
      `i + 1`... */
  lemma {:induction false} NumberedCell(data: seq<Item>, key: string, i: nat)
    requires i < |data|
    ensures CsvCell(Numbered(data, key)[i], key) == IntToString(i + 1)
  {
    NumberedAt(data, key, i);
    assert PyStr(Int(i + 1)) == IntToString(i + 1);
  }

  /** ... and every other field keeps its cell. */
  lemma {:induction false} NumberedKeeps(data: seq<Item>, key: string, i: nat, field: string)
    requires i < |data| && field != key
    ensures CsvCell(Numbered(data, key)[i], field) == CsvCell(data[i], field)
  {
    NumberedAt(data, key, i);
    assert Get(Numbered(data, key)[i], field) == Get(data[i], field);
  }
}

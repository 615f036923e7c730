/**
 One frame of the display, as the text of its lines: three summary lines of
 three entries each, a blank line, the title row, and as many data rows as the
 terminal height leaves room for, in display order. The functions say what the
 frame is; the methods build it the way `refresh_display` does, with loops, and
 are proved to build exactly that.
 */
module Layout {
  import opened Text
  import opened Stats
  import opened Uptime
  import opened Ordering

  const Titles: seq<string> := ["TUBE", "READY", "URGENT", "RESRVD", "DELAYD", "BURIED"]

  /** The nine summary entries; the uptime is shown as UptimeText renders it. */
  function SummaryItems(o: Overview): (items: seq<string>)
    ensures |items| == 9
  {
    ["PID: " + Show(o.pid),
     "Uptime: " + UptimeText(o.uptime),
     "Total Jobs: " + Show(o.totalJobs),
     "Connections: " + Show(o.currentConnections) + " (" + Show(o.currentProducers) + ":" + Show(o.currentWorkers) + ")",
     "Cur. Tubes: " + Show(o.currentTubes),
     "Cur. Ready: " + Show(o.currentJobsReady),
     "Cur. Urgent: " + Show(o.currentJobsUrgent),
     "Cur. Buried: " + Show(o.currentJobsBuried),
     "Cur. Resv'd: " + Show(o.currentJobsReserved)]
  }

  /** The entries split into lines: the first three, the next three, the rest. */
  function Groups(items: seq<string>): (g: seq<seq<string>>)
    requires |items| == 9
    ensures |g| == 3 && forall j :: 0 <= j < 3 ==> |g[j]| == 3
  {
    [items[0..3], items[3..6], items[6..]]
  }

  /** The size of the largest group. */
  function Widest(groups: seq<seq<string>>): nat
  {
    if groups == [] then 0 else Max(|groups[0]|, Widest(groups[1..]))
  }

  /** The width every summary entry is padded to: the terminal width divided
      by the number of entries on the fullest line, rounded down. */
  function SummaryWidth(width: nat): nat
  {
    width / 3
  }

  /** `''.join(s.ljust(w) for s in items)`. */
  function Padded(items: seq<string>, w: int): string
  {
    Concat(seq(|items|, i requires 0 <= i < |items| => Ljust(items[i], w)))
  }

  /** The three summary lines, each left-justified to the terminal width. */
  function SummaryLines(items: seq<string>, width: nat): (lines: seq<string>)
    requires |items| == 9
    ensures |lines| == 3
  {
    var groups := Groups(items);
    seq(3, j requires 0 <= j < 3 => Ljust(Padded(groups[j], SummaryWidth(width)), width))
  }

  /** `colwidth`: one more than a sixth of the terminal width. */
  function ColWidth(width: nat): nat
  {
    width / |Titles| + 1
  }

  /** The cell in column c: the first column is left-justified after a leading
      space, the others right-justified before a trailing space, each to width
      k, never cut short. */
  function Cell(c: nat, text: string, k: int): (r: string)
    ensures |r| == Max(|text| + 1, k)
  {
    if c == 0 then Ljust(" " + text, k) else Rjust(text + " ", k)
  }

  /** The cells of one row, column by column. */
  function Cells(texts: seq<string>, k: int): (r: seq<string>)
    ensures |r| == |texts|
  {
    seq(|texts|, c requires 0 <= c < |texts| => Cell(c, texts[c], k))
  }

  /** The title row: the title cells, then filler up to the terminal width. */
  function TitleRow(width: nat): (r: string)
    ensures |r| >= width
  {
    var cells := Concat(Cells(Titles, ColWidth(width) - 1));
    cells + Spaces(width - |cells|)
  }

  /** The texts of a tube's row, in the column order of the titles. */
  function Columns(t: Tube): seq<string>
  {
    [t.name, Show(t.ready), Show(t.urgent), Show(t.reserved), Show(t.delayed), Show(t.buried)]
  }

  /** A tube's row, left-justified to the terminal width. */
  function DataRow(t: Tube, width: nat): (r: string)
    ensures |r| >= width
  {
    Ljust(Concat(Cells(Columns(t), ColWidth(width) - 1)), width)
  }

  /** `max_lines`: the height less the summary lines and the blank line. */
  function MaxLines(height: int): int
  {
    height - (3 + 1)
  }

  /** How many data rows are drawn: `range(max_lines)` stopped early when the
      tubes run out. */
  function RowCount(height: int, tubes: nat): (n: nat)
    ensures n <= tubes && n <= Max(MaxLines(height), 0)
    ensures n == tubes || n == Max(MaxLines(height), 0)
  {
    if MaxLines(height) <= 0 then 0
    else if MaxLines(height) < tubes then MaxLines(height)
    else tubes
  }

  /** The tubes whose rows are drawn, in the order they are drawn. */
  function ShownTubes(height: int, tubes: seq<Tube>): (shown: seq<Tube>)
    ensures |shown| == RowCount(height, |tubes|)
  {
    DisplayOrder(tubes)[..RowCount(height, |tubes|)]
  }

  /** The rows of the given tubes, in their order. */
  function DataRows(shown: seq<Tube>, width: nat): (rows: seq<string>)
    ensures |rows| == |shown|
  {
    seq(|shown|, i requires 0 <= i < |shown| => DataRow(shown[i], width))
  }

  /** The lines above the data rows: the summary, a blank line and the
      title row. */
  function Header(width: nat, o: Overview): (h: seq<string>)
    ensures |h| == 5
  {
    SummaryLines(SummaryItems(o), width) + [Spaces(width), TitleRow(width)]
  }

  /** The whole frame. */
  function Frame(width: nat, height: int, o: Overview, tubes: seq<Tube>): (f: seq<string>)
    ensures |f| == 5 + RowCount(height, |tubes|)
  {
    Header(width, o) + DataRows(ShownTubes(height, tubes), width)
  }

  // ---------------------------------------------------------------------
  // Building the frame, loop by loop

  /** The column loops (the title loop of lines 158-167 and the row loop of
      lines 190-198): each cell appended in turn, its length added to a running
      total. */
  method JoinCells(texts: seq<string>, k: int) returns (row: string, total: nat)
    ensures row == Concat(Cells(texts, k))
    ensures total == |row|
  {
    var cells := Cells(texts, k);
    row, total := "", 0;
    for c := 0 to |texts|
      invariant row == Concat(cells[..c])
      invariant total == |row|
    {
      var cell := Cell(c, texts[c], k);
      assert cells[..c + 1] == cells[..c] + [cell];
      row := row + cell;
      total := total + |cell|;
    }
    assert cells[..|texts|] == cells;
  }

  /** One summary line (line 150-151): the entries padded and joined, the
      line padded to the terminal width. */
  method PadLine(items: seq<string>, w: int, width: nat) returns (line: string)
    ensures line == Ljust(Padded(items, w), width)
  {
    var padded := seq(|items|, i requires 0 <= i < |items| => Ljust(items[i], w));
    line := "";
    for i := 0 to |items|
      invariant line == Concat(padded[..i])
    {
      assert padded[..i + 1] == padded[..i] + [Ljust(items[i], w)];
      line := line + Ljust(items[i], w);
    }
    assert padded[..|items|] == padded;
    line := Ljust(line, width);
  }

  /** The summary loop of lines 141-151. */
  method BuildSummary(items: seq<string>, width: nat) returns (lines: seq<string>)
    requires |items| == 9
    ensures lines == SummaryLines(items, width)
  {
    var groups := Groups(items);
    assert Widest(groups) == 3 by {
      assert Widest(groups[2..]) == 3;
      assert Widest(groups[1..]) == 3;
    }
    var w := width / Widest(groups);
    lines := [];
    for j := 0 to 3
      invariant lines == SummaryLines(items, width)[..j]
    {
      var line := PadLine(groups[j], w, width);
      lines := lines + [line];
    }
  }

  /** The title row of lines 155-169: the cells, then `width - titlelen`
      spaces of filler. */
  method BuildTitle(width: nat) returns (line: string)
    ensures line == TitleRow(width)
  {
    var colwidth := width / |Titles| + 1;
    var cells, titlelen := JoinCells(Titles, colwidth - 1);
    assert cells == Concat(Cells(Titles, ColWidth(width) - 1));
    line := cells + Spaces(width - titlelen);
  }

  /** One data row of lines 189-200. */
  method BuildDataRow(t: Tube, width: nat) returns (line: string)
    ensures line == DataRow(t, width)
  {
    var colwidth := width / |Titles| + 1;
    var row, _ := JoinCells(Columns(t), colwidth - 1);
    line := Ljust(row, width);
  }

  lemma DataRowsSnoc(s: seq<Tube>, i: nat, width: nat)
    requires i < |s|
    ensures DataRows(s[..i + 1], width) == DataRows(s[..i], width) + [DataRow(s[i], width)]
  {
  }

  /** The data-row loop of lines 180-202: one row per tube in display order
      for each of the `max_lines` rows, stopping when the tubes run out. */
  method BuildRows(width: nat, height: int, tubes: seq<Tube>) returns (rows: seq<string>)
    ensures rows == DataRows(ShownTubes(height, tubes), width)
  {
    var sorted := DisplayOrder(tubes);
    var maxLines := MaxLines(height);
    rows := [];
    var i := 0;
    while i < maxLines
      invariant 0 <= i <= |sorted|
      invariant i <= maxLines || i == 0
      invariant rows == DataRows(sorted[..i], width)
      decreases maxLines - i
    {
      if i >= |sorted| {
        break;
      }
      var row := BuildDataRow(sorted[i], width);
      DataRowsSnoc(sorted, i, width);
      rows := rows + [row];
      i := i + 1;
    }
    assert i == RowCount(height, |tubes|);
  }

  /** The frame of lines 122-202: the summary, the blank line, the title row
      and the data rows. */
  method BuildFrame(width: nat, height: int, o: Overview, tubes: seq<Tube>) returns (frame: seq<string>)
    ensures frame == Frame(width, height, o, tubes)
  {
    var summary := BuildSummary(SummaryItems(o), width);
    var title := BuildTitle(width);
    var rows := BuildRows(width, height, tubes);
    frame := summary + [Spaces(width), title] + rows;
    assert summary + [Spaces(width), title] == Header(width, o);
  }
}

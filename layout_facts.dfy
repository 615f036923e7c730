/**
 What the frame looks like, proved from its definition in Layout: the summary
 block, the width of the title row, the number of data rows and their order.
 */
module LayoutFacts {
  import opened Wrappers
  import opened Text
  import opened Stats
  import opened Ordering
  import opened Layout

  /** Entries no wider than w each take exactly w characters, entry i at
      offset i * w. */
  lemma PaddedUniform(items: seq<string>, w: nat)
    requires forall i :: 0 <= i < |items| ==> |items[i]| <= w
    ensures |Padded(items, w)| == |items| * w
    ensures forall i :: 0 <= i < |items| ==> i * w + w <= |Padded(items, w)| && Padded(items, w)[i * w..i * w + w] == Ljust(items[i], w)
  {
    var parts := seq(|items|, i requires 0 <= i < |items| => Ljust(items[i], w));
    ConcatUniformLength(parts, w);
    forall i | 0 <= i < |items|
      ensures i * w + w <= |Padded(items, w)| && Padded(items, w)[i * w..i * w + w] == Ljust(items[i], w)
    {
      ConcatUniformAt(parts, w, i);
    }
  }

  /** The summary is three lines, each at least the terminal width and
      beginning with its three entries padded to a third of the width. */
  lemma SummaryShape(items: seq<string>, width: nat)
    requires |items| == 9
    ensures var lines := SummaryLines(items, width);
      |lines| == 3 &&
      forall j :: 0 <= j < 3 ==>
        var p := Padded(items[3 * j..3 * j + 3], width / 3);
        |lines[j]| == Max(width, |p|) && lines[j][..|p|] == p
  {
    var lines := SummaryLines(items, width);
    var groups := Groups(items);
    assert groups[0] == items[0..3] && groups[1] == items[3..6] && groups[2] == items[6..9];
  }

  /** The title cells are at least as wide as their titles: the row of cells
      is 5, 6 and four times 7 characters, each raised to k when k is larger. */
  lemma TitleCellsLength(k: int)
    ensures |Concat(Cells(Titles, k))| == Max(5, k) + Max(6, k) + 4 * Max(7, k)
  {
    var cells := Cells(Titles, k);
    assert |cells[0]| == Max(5, k) && |cells[1]| == Max(6, k);
    assert |cells[2]| == Max(7, k) && |cells[3]| == Max(7, k);
    assert |cells[4]| == Max(7, k) && |cells[5]| == Max(7, k);
    assert cells[..1][..0] == [] && cells[..2][..1] == cells[..1] && cells[..3][..2] == cells[..2];
    assert cells[..4][..3] == cells[..3] && cells[..5][..4] == cells[..4] && cells[..6] == cells;
    assert |Concat(cells[..1])| == Max(5, k);
    assert |Concat(cells[..2])| == Max(5, k) + Max(6, k);
    assert |Concat(cells[..3])| == Max(5, k) + Max(6, k) + Max(7, k);
    assert |Concat(cells[..4])| == Max(5, k) + Max(6, k) + 2 * Max(7, k);
    assert |Concat(cells[..5])| == Max(5, k) + Max(6, k) + 3 * Max(7, k);
  }

  /** The title row is as long as the wider of the terminal and its cells. */
  lemma TitleRowLength(width: nat)
    ensures var k := width / 6;
      |TitleRow(width)| == Max(width, Max(5, k) + Max(6, k) + 4 * Max(7, k))
  {
    TitleCellsLength(ColWidth(width) - 1);
  }

  /** From 42 columns on, every title cell is exactly a sixth of the width
      (rounded down), and the filler after the cells, fewer than six spaces,
      brings the row exactly to the terminal width. */
  lemma TitleRowExact(width: nat)
    requires width >= 42
    ensures var k := width / 6; var cells := Concat(Cells(Titles, k));
      |TitleRow(width)| == width &&
      (forall c :: 0 <= c < 6 ==> |Cells(Titles, k)[c]| == k) &&
      |cells| == 6 * k && width - |cells| < 6 &&
      TitleRow(width) == cells + Spaces(width - |cells|)
  {
    var k := width / 6;
    TitleCellsUniform(k);
    ConcatUniformLength(Cells(Titles, k), k);
    assert 6 * k <= width;
  }

  /** From 42 columns on, title cell c sits at the offset of column c: from
      c * k up to (c + 1) * k, where k is a sixth of the width. */
  lemma TitleRowColumns(width: nat, c: nat)
    requires width >= 42 && c < 6
    ensures var k := width / 6;
      c * k + k <= |TitleRow(width)| &&
      TitleRow(width)[c * k..c * k + k] == Cell(c, Titles[c], k)
  {
    var k := width / 6;
    var cells := Cells(Titles, k);
    TitleRowExact(width);
    ConcatUniformAt(cells, k, c);
    var row := Concat(cells);
    SliceOfAppend(row, Spaces(width - |row|), c * k, c * k + k);
  }

  /** When every text of a tube's row is narrower than a sixth of the width,
      cell c of the row is exactly that wide and sits at the offset of
      column c, under title cell c: from c * k up to (c + 1) * k. */
  lemma DataRowColumns(t: Tube, width: nat, c: nat)
    requires forall j :: 0 <= j < 6 ==> |Columns(t)[j]| < width / 6
    requires c < 6
    ensures var k := width / 6;
      0 <= c * k && c * k + k <= |DataRow(t, width)| &&
      DataRow(t, width)[c * k..c * k + k] == Cell(c, Columns(t)[c], k)
  {
    RowColumns(Columns(t), width, c);
  }

  /** Six texts each narrower than k = width / 6 make cells exactly k wide,
      cell c at offset c * k of the row left-justified to the width. */
  lemma RowColumns(texts: seq<string>, width: nat, c: nat)
    requires |texts| == 6 && c < 6
    requires forall j :: 0 <= j < 6 ==> |texts[j]| < width / 6
    ensures var k := width / 6; var row := Ljust(Concat(Cells(texts, ColWidth(width) - 1)), width);
      0 <= c * k && c * k + k <= |row| && row[c * k..c * k + k] == Cell(c, texts[c], k)
  {
    var k := width / 6;
    assert ColWidth(width) - 1 == k;
    var cells := Cells(texts, k);
    forall j | 0 <= j < |cells| ensures |cells[j]| == k {
    }
    ConcatUniformLength(cells, k);
    ConcatUniformAt(cells, k, c);
    var row := Concat(cells);
    assert 6 * k <= width;
    assert Ljust(row, width) == row + Spaces(width - |row|);
    SliceOfAppend(row, Spaces(width - |row|), c * k, c * k + k);
  }

  /** The ready column of a row, under the READY title: the shown count,
      right-justified with a trailing space, and a count that is a number
      reads back as that number. */
  lemma ReadyColumn(t: Tube, width: nat)
    requires forall j :: 0 <= j < 6 ==> |Columns(t)[j]| < width / 6
    ensures var k := width / 6;
      2 * k <= |DataRow(t, width)| &&
      DataRow(t, width)[k..2 * k] == Rjust(Show(t.ready) + " ", k) &&
      (t.ready.Num? ==> ParseInt(Show(t.ready)) == Some(t.ready.n))
  {
    DataRowColumns(t, width, 1);
  }

  /** From a cell width of 7 on, every title cell is exactly that wide. */
  lemma TitleCellsUniform(k: int)
    requires k >= 7
    ensures forall c :: 0 <= c < |Cells(Titles, k)| ==> |Cells(Titles, k)[c]| == k
  {
    var parts := Cells(Titles, k);
    forall c | 0 <= c < |parts| ensures |parts[c]| == k {
      assert |Titles[c]| <= 6;
    }
  }

  /** On a terminal 12 columns wide the title row takes 39 characters: the
      cells are never cut to fit. */
  lemma TitleRowOverflows()
    ensures |TitleRow(12)| == 39
  {
    TitleRowLength(12);
  }

  lemma TiesPrefix(s: seq<Tube>, n: nat, v: Value)
    requires n <= |s|
    ensures Ties(s[..n], v) <= Ties(s, v)
  {
    assert s == s[..n] + s[n..];
    TiesAppend(s[..n], s[n..], v);
  }

  /** The rows drawn are the first rows of a permutation of the tubes in
      non-increasing ready order: no tube left out has more ready jobs than
      a tube drawn. Among tubes whose ready counts tie, those drawn are the
      last ones of the input, latest first. */
  lemma ShownTubesSpec(height: int, tubes: seq<Tube>)
    ensures var shown := ShownTubes(height, tubes);
      |shown| == RowCount(height, |tubes|) &&
      multiset(shown) <= multiset(tubes) &&
      Descending(shown) &&
      (forall t, i :: t in multiset(tubes) - multiset(shown) && 0 <= i < |shown| ==> KeyLe(t.ready, shown[i].ready)) &&
      forall v :: Ties(shown, v) <= Reverse(Ties(tubes, v))
  {
    var order := DisplayOrder(tubes);
    var n := RowCount(height, |tubes|);
    assert ShownTubes(height, tubes) == order[..n];
    DisplayOrderSpec(tubes);
    PrefixOnTop(order, n);
    forall v ensures Ties(order[..n], v) <= Reverse(Ties(tubes, v)) {
      TiesPrefix(order, n, v);
    }
  }

  /** The first n tubes of a sequence in non-increasing ready order are a
      part of it in the same order, and no tube after them has more ready
      jobs than one of them. */
  lemma PrefixOnTop(order: seq<Tube>, n: nat)
    requires n <= |order| && Descending(order)
    ensures multiset(order[..n]) <= multiset(order)
    ensures Descending(order[..n])
    ensures forall t, i :: t in multiset(order) - multiset(order[..n]) && 0 <= i < n ==> KeyLe(t.ready, order[i].ready)
  {
    assert order == order[..n] + order[n..];
    assert multiset(order) == multiset(order[..n]) + multiset(order[n..]);
    forall t, i | t in multiset(order) - multiset(order[..n]) && 0 <= i < n
      ensures KeyLe(t.ready, order[i].ready)
    {
      assert t in multiset(order[n..]);
      assert t in order[n..];
      var m :| 0 <= m < |order[n..]| && order[n..][m] == t;
      assert order[n + m] == t;
    }
  }

  /** The frame: three summary lines, a blank line of the terminal width, the
      title row, then the rows of the shown tubes, each at least the terminal
      width. */
  lemma FrameShape(width: nat, height: int, o: Overview, tubes: seq<Tube>)
    ensures |Frame(width, height, o, tubes)| == 5 + RowCount(height, |tubes|)
    ensures Frame(width, height, o, tubes)[3] == Spaces(width)
    ensures Frame(width, height, o, tubes)[4] == TitleRow(width)
    ensures var f := Frame(width, height, o, tubes); var shown := ShownTubes(height, tubes);
      forall i :: 0 <= i < |shown| ==> 5 + i < |f| && f[5 + i] == DataRow(shown[i], width) && |f[5 + i]| >= width
  {
    FrameHeader(width, height, o, tubes);
    FrameRows(width, height, o, tubes);
  }

  lemma FrameHeader(width: nat, height: int, o: Overview, tubes: seq<Tube>)
    ensures |Frame(width, height, o, tubes)| == 5 + RowCount(height, |tubes|)
    ensures Frame(width, height, o, tubes)[3] == Spaces(width)
    ensures Frame(width, height, o, tubes)[4] == TitleRow(width)
  {
    HeaderLines(width, o);
    var rows := DataRows(ShownTubes(height, tubes), width);
    assert Frame(width, height, o, tubes) == Header(width, o) + rows;
  }

  lemma HeaderLines(width: nat, o: Overview)
    ensures Header(width, o)[3] == Spaces(width)
    ensures Header(width, o)[4] == TitleRow(width)
  {
  }

  lemma FrameRows(width: nat, height: int, o: Overview, tubes: seq<Tube>)
    ensures var f := Frame(width, height, o, tubes); var shown := ShownTubes(height, tubes);
      forall i :: 0 <= i < |shown| ==> 5 + i < |f| && f[5 + i] == DataRow(shown[i], width) && |f[5 + i]| >= width
  {
    var shown := ShownTubes(height, tubes);
    forall i | 0 <= i < |shown|
      ensures 5 + i < |Frame(width, height, o, tubes)| && Frame(width, height, o, tubes)[5 + i] == DataRow(shown[i], width)
    {
      FrameRow(width, height, o, tubes, i);
    }
  }

  lemma FrameRow(width: nat, height: int, o: Overview, tubes: seq<Tube>, i: nat)
    requires i < |ShownTubes(height, tubes)|
    ensures 5 + i < |Frame(width, height, o, tubes)|
    ensures Frame(width, height, o, tubes)[5 + i] == DataRow(ShownTubes(height, tubes)[i], width)
  {
    RowAfter(Header(width, o), ShownTubes(height, tubes), width, i);
  }

  /** Behind any lines, row i of the shown tubes sits i lines after them. */
  lemma RowAfter(header: seq<string>, shown: seq<Tube>, width: nat, i: nat)
    requires i < |shown|
    ensures |header| + i < |header + DataRows(shown, width)|
    ensures (header + DataRows(shown, width))[|header| + i] == DataRow(shown[i], width)
  {
    var rows := DataRows(shown, width);
    assert rows[i] == DataRow(shown[i], width);
    IndexAfter(header, rows, i);
  }

  lemma IndexAfter(a: seq<string>, b: seq<string>, i: nat)
    requires i < |b|
    ensures |a| + i < |a + b| && (a + b)[|a| + i] == b[i]
  {
  }

  /** At height 4 or less the frame holds the header lines and no data row. */
  lemma NoRoomNoRows(width: nat, height: int, o: Overview, tubes: seq<Tube>)
    requires height <= 4
    ensures |Frame(width, height, o, tubes)| == 5
  {
    FrameShape(width, height, o, tubes);
  }
}

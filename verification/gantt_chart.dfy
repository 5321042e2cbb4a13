/** The chart panel: its layout arithmetic as specification functions over
    draw commands, lemmas about that layout, and the panel class whose paint
    method issues the commands one row at a time. */
module Chart {
  import opened JavaArith
  import opened Expense

  const TASK_HEIGHT: int := 30
  const BAR_GAP: int := 20
  const TOP_MARGIN: int := 50
  const LEFT_MARGIN: int := 100

  /** What the panel asks the graphics context to draw, in order. Text is
      positioned by its left end and its baseline. */
  datatype Cmd =
    | Text(text: string, x: int, y: int)
    | Rect(color: Color, x: int, y: int, width: int, height: int)

  /** What the panel takes from the toolkit: the string widths of the
      18pt bold title font and the 14pt bold label font, the label font's
      line height and descent, and the "$%.2f" formatting of an amount. */
  datatype Toolkit = Toolkit(
    titleWidth: string -> int,
    labelWidth: string -> int,
    labelHeight: int,
    labelDescent: int,
    formatAmount: real -> string)

  /** The width left for bars: the panel less a 100px margin on each side. */
  function ChartWidth(panelWidth: int): (w: int)
    ensures LEFT_MARGIN + w + LEFT_MARGIN == panelWidth
  {
    panelWidth - LEFT_MARGIN * 2
  }

  /** The top of row `i`: the `i`-th multiple of the row pitch (bar height
      plus gap) below the top margin. */
  function RowY(i: nat): (y: int)
    ensures y >= TOP_MARGIN
    ensures (y - TOP_MARGIN) % (TASK_HEIGHT + BAR_GAP) == 0
    ensures (y - TOP_MARGIN) / (TASK_HEIGHT + BAR_GAP) == i
  {
    TOP_MARGIN + i * (TASK_HEIGHT + BAR_GAP)
  }

  /** The exact length a category's amount asks for: its share of the
      maximum amount, scaled to the chart width. */
  function ExactWidth(chartWidth: int, c: Category): real {
    chartWidth as real * c.amount / MaxAmount(c)
  }

  /** The bar length of a category: the exact length truncated toward
      zero, with no clamping. An amount of 0 gives no bar and the maximum
      amount a full-width bar; when the chart width is not negative (the
      panel is at least 200px wide), a negative amount gives a bar of
      non-positive length and an amount up to the maximum a bar within the
      chart width. */
  function BarWidth(chartWidth: int, c: Category): (w: int)
    ensures c.amount == 0.0 ==> w == 0
    ensures c.amount == MAX_AMOUNT ==> w == chartWidth
    ensures chartWidth >= 0 && c.amount < 0.0 ==> w <= 0
    ensures chartWidth >= 0 && 0.0 <= c.amount <= MAX_AMOUNT ==> 0 <= w <= chartWidth
  {
    ScaleBounds(chartWidth as real, c.amount);
    Truncate(ExactWidth(chartWidth, c))
  }

  /** Scaling a width by a share of the maximum amount keeps the sign rules
      of multiplication, and keeps a share in [0, 1] inside [0, width]. */
  lemma ScaleBounds(width: real, amount: real)
    ensures amount == MAX_AMOUNT ==> width * amount / MAX_AMOUNT == width
    ensures width >= 0.0 && amount < 0.0 ==> width * amount / MAX_AMOUNT <= 0.0
    ensures width >= 0.0 && 0.0 <= amount <= MAX_AMOUNT ==> 0.0 <= width * amount / MAX_AMOUNT <= width
  {
    if width >= 0.0 {
      if amount < 0.0 {
        ScaleMonotone(width, amount, 0.0);
      } else if amount <= MAX_AMOUNT {
        ScaleMonotone(width, amount, MAX_AMOUNT);
        ScaleMonotone(width, 0.0, amount);
      }
    }
  }

  lemma ScaleMonotone(width: real, a: real, b: real)
    requires width >= 0.0 && a <= b
    ensures width * a <= width * b
  {
    assert width * b - width * a == width * (b - a);
  }

  /** The title, centred on the panel to within one pixel (Java's int
      division truncates the odd pixel), on the baseline half-way down the
      top margin. */
  function TitleCmd(title: string, panelWidth: int, tk: Toolkit): (cmd: Cmd)
    ensures cmd.Text? && cmd.text == title && cmd.y == 25
    ensures var slack := panelWidth - tk.titleWidth(title) - 2 * cmd.x;
      Abs(slack) <= 1 && (slack == 0 || (slack < 0) == (panelWidth - tk.titleWidth(title) < 0))
  {
    Text(title, Quot(panelWidth - tk.titleWidth(title), 2), Quot(TOP_MARGIN, 2))
  }

  /** The bar of row `i`: 100px in from the left edge, at the row's top,
      30 high, in the category's colour; no bar for an amount of 0, and for
      the maximum amount a bar that ends where the right margin begins. */
  function BarCmd(i: nat, c: Category, panelWidth: int): (r: Cmd)
    ensures r.Rect? && r.x == 100 && r.y == RowY(i) && r.height == 30 && r.color == c.color
    ensures c.amount == 0.0 ==> r.width == 0
    ensures c.amount == MAX_AMOUNT ==> r.x + r.width == panelWidth - 100
  {
    Rect(c.color, LEFT_MARGIN, RowY(i), BarWidth(ChartWidth(panelWidth), c), TASK_HEIGHT)
  }

  /** The three commands of row `i`: the bar, the name label right-aligned
      10px left of the bar on a baseline centred by the label font's
      metrics, and the amount label 10px right of the bar's end, 15px below
      the bar's top. */
  function RowCmds(i: nat, c: Category, panelWidth: int, tk: Toolkit): (r: seq<Cmd>)
    ensures |r| == 3 && r[0] == BarCmd(i, c, panelWidth)
    ensures r[1].Text? && r[1].text == c.name
    ensures r[1].x + tk.labelWidth(c.name) == r[0].x - 10
    ensures r[1].y == r[0].y + 15 + Quot(tk.labelHeight, 2) - tk.labelDescent
    ensures r[2].Text? && r[2].text == tk.formatAmount(c.amount)
    ensures r[2].x == r[0].x + r[0].width + 10
    ensures r[2].y == r[0].y + 15
  {
    var y := RowY(i);
    var w := BarWidth(ChartWidth(panelWidth), c);
    [ BarCmd(i, c, panelWidth),
      Text(c.name, LEFT_MARGIN - tk.labelWidth(c.name) - 10,
           y + Quot(TASK_HEIGHT, 2) + Quot(tk.labelHeight, 2) - tk.labelDescent),
      Text(tk.formatAmount(c.amount), LEFT_MARGIN + w + 10, y + Quot(TASK_HEIGHT, 2)) ]
  }

  /** The commands of the first `n` rows, in row order. */
  function Rows(cs: seq<Category>, n: nat, panelWidth: int, tk: Toolkit): (r: seq<Cmd>)
    requires n <= |cs|
    ensures |r| == 3 * n
  {
    if n == 0 then [] else Rows(cs, n - 1, panelWidth, tk) + RowCmds(n - 1, cs[n - 1], panelWidth, tk)
  }

  /** Everything one paint issues: the title, then every row. */
  function Layout(title: string, cs: seq<Category>, panelWidth: int, tk: Toolkit): (r: seq<Cmd>)
    ensures |r| == 1 + 3 * |cs|
    ensures r[0].Text? && r[0].text == title
  {
    [TitleCmd(title, panelWidth, tk)] + Rows(cs, |cs|, panelWidth, tk)
  }

  /** Row `i`'s commands sit at positions 3i, 3i+1, 3i+2 of the rows. */
  lemma {:induction false} RowsAt(cs: seq<Category>, n: nat, i: nat, panelWidth: int, tk: Toolkit)
    requires i < n <= |cs|
    ensures Rows(cs, n, panelWidth, tk)[3 * i .. 3 * i + 3] == RowCmds(i, cs[i], panelWidth, tk)
  {
    var prefix := Rows(cs, n - 1, panelWidth, tk);
    assert Rows(cs, n, panelWidth, tk) == prefix + RowCmds(n - 1, cs[n - 1], panelWidth, tk);
    if i < n - 1 {
      RowsAt(cs, n - 1, i, panelWidth, tk);
      assert Rows(cs, n, panelWidth, tk)[3 * i .. 3 * i + 3] == prefix[3 * i .. 3 * i + 3];
    }
  }

  /** An empty chart draws its title and nothing else. */
  lemma LayoutOfNoCategories(title: string, panelWidth: int, tk: Toolkit)
    ensures Layout(title, [], panelWidth, tk) == [TitleCmd(title, panelWidth, tk)]
  {
  }

  /** The geometry of row `i` in a full paint: a bar at x = 100 and
      y = 50 + 50i, 30 high, in the category's colour and of the category's
      bar width; the name label ending 10px before the bar, on a baseline
      centred by the label font's metrics; and the amount label starting
      10px after the bar's end, 15px below the bar's top. */
  lemma RowGeometry(title: string, cs: seq<Category>, panelWidth: int, tk: Toolkit, i: nat)
    requires i < |cs|
    ensures var L := Layout(title, cs, panelWidth, tk);
      var bar, nameText, amount := L[1 + 3 * i], L[2 + 3 * i], L[3 + 3 * i];
      && bar == Rect(cs[i].color, 100, 50 + 50 * i, BarWidth(panelWidth - 200, cs[i]), 30)
      && nameText.Text? && nameText.text == cs[i].name
      && nameText.x + tk.labelWidth(cs[i].name) == 90
      && nameText.y == bar.y + 15 + Quot(tk.labelHeight, 2) - tk.labelDescent
      && amount.Text? && amount.text == tk.formatAmount(cs[i].amount)
      && amount.x == bar.x + bar.width + 10
      && amount.y == bar.y + 15
  {
    var L := Layout(title, cs, panelWidth, tk);
    var rows := Rows(cs, |cs|, panelWidth, tk);
    var row := RowCmds(i, cs[i], panelWidth, tk);
    assert L == [TitleCmd(title, panelWidth, tk)] + rows;
    RowsAt(cs, |cs|, i, panelWidth, tk);
    assert rows[3 * i] == row[0] && rows[3 * i + 1] == row[1] && rows[3 * i + 2] == row[2];
    assert L[1 + 3 * i] == row[0] && L[2 + 3 * i] == row[1] && L[3 + 3 * i] == row[2];
  }

  /** Consecutive rows are exactly one bar height plus one gap apart. */
  lemma RowsStacked(title: string, cs: seq<Category>, panelWidth: int, tk: Toolkit, i: nat)
    requires i + 1 < |cs|
    ensures var L := Layout(title, cs, panelWidth, tk);
      L[1 + 3 * (i + 1)].Rect? && L[1 + 3 * i].Rect? &&
      L[1 + 3 * (i + 1)].y - L[1 + 3 * i].y == TASK_HEIGHT + BAR_GAP
  {
    RowGeometry(title, cs, panelWidth, tk, i);
    RowGeometry(title, cs, panelWidth, tk, i + 1);
  }

  /** Bar lengths grow with the amount when the chart width is not negative
      (the panel is at least 200px wide). */
  lemma BarWidthMonotone(chartWidth: int, c: Category, d: Category)
    requires chartWidth >= 0 && c.amount <= d.amount
    ensures BarWidth(chartWidth, c) <= BarWidth(chartWidth, d)
  {
    ExactWidthMonotone(chartWidth, c, d);
    TruncateMonotone(ExactWidth(chartWidth, c), ExactWidth(chartWidth, d));
  }

  lemma ExactWidthMonotone(chartWidth: int, c: Category, d: Category)
    requires chartWidth >= 0 && c.amount <= d.amount
    ensures ExactWidth(chartWidth, c) <= ExactWidth(chartWidth, d)
  {
    ScaleMonotone(chartWidth as real, c.amount, d.amount);
  }

  /** The rectangles of a command sequence, in order. */
  function Bars(cmds: seq<Cmd>): (r: seq<Cmd>)
    ensures |r| <= |cmds|
    ensures forall k :: 0 <= k < |r| ==> r[k].Rect?
  {
    if cmds == [] then []
    else (if cmds[0].Rect? then [cmds[0]] else []) + Bars(cmds[1..])
  }

  lemma {:induction false} BarsAppend(a: seq<Cmd>, b: seq<Cmd>)
    ensures Bars(a + b) == Bars(a) + Bars(b)
  {
    if a == [] {
      assert a + b == b;
    } else {
      assert (a + b)[1..] == a[1..] + b;
      BarsAppend(a[1..], b);
    }
  }

  /** The only rectangle of a row is its bar. */
  lemma BarsOfRow(i: nat, c: Category, panelWidth: int, tk: Toolkit)
    ensures Bars(RowCmds(i, c, panelWidth, tk)) == [BarCmd(i, c, panelWidth)]
  {
    var row := RowCmds(i, c, panelWidth, tk);
    assert row[1..][1..][1..] == [];
    assert Bars(row[1..][1..]) == [];
    assert Bars(row[1..]) == [];
  }

  lemma {:induction false} BarsOfRows(cs: seq<Category>, n: nat, panelWidth: int, tk: Toolkit)
    requires n <= |cs|
    ensures var bars := Bars(Rows(cs, n, panelWidth, tk));
      |bars| == n && forall i :: 0 <= i < n ==> bars[i] == BarCmd(i, cs[i], panelWidth)
  {
    if n > 0 {
      BarsOfRows(cs, n - 1, panelWidth, tk);
      BarsAppend(Rows(cs, n - 1, panelWidth, tk), RowCmds(n - 1, cs[n - 1], panelWidth, tk));
      BarsOfRow(n - 1, cs[n - 1], panelWidth, tk);
    }
  }

  /** A paint draws exactly one bar per category, in the order of the
      categories, each in its category's colour, at its row's height. */
  lemma BarsInCategoryOrder(title: string, cs: seq<Category>, panelWidth: int, tk: Toolkit)
    ensures var bars := Bars(Layout(title, cs, panelWidth, tk));
      |bars| == |cs| && forall i :: 0 <= i < |cs| ==> bars[i] == BarCmd(i, cs[i], panelWidth)
  {
    var head := TitleCmd(title, panelWidth, tk);
    var rows := Rows(cs, |cs|, panelWidth, tk);
    assert Bars([head]) == [] by {
      assert [head][1..] == [];
    }
    assert Bars(Layout(title, cs, panelWidth, tk)) == Bars(rows) by {
      assert Layout(title, cs, panelWidth, tk) == [head] + rows;
      BarsAppend([head], rows);
    }
    BarsOfRows(cs, |cs|, panelWidth, tk);
  }

  /** The three names of the worked example below are table keys once
      lower-cased. */
  lemma ExampleColors()
    ensures ColorFor("Food") == FOOD_COLOR
    ensures ColorFor("Transportation") == TRANSPORTATION_COLOR
    ensures ColorFor("Others") == OTHERS_COLOR
  {
    assert ToLower("Food") == "food";
    assert ToLower("Transportation") == "transportation";
    assert ToLower("Others") == "others";
  }

  /** The bars of Food 250, Transportation 75 and Others 1000 in rows 0,
      1 and 2 of an 800px panel: 150, 45 and 600 long, 50px apart, in the
      table colours of their names. */
  lemma ExampleBars()
    ensures BarCmd(0, MakeCategory("Food", 250.0), 800) == Rect(FOOD_COLOR, 100, 50, 150, 30)
    ensures BarCmd(1, MakeCategory("Transportation", 75.0), 800) == Rect(TRANSPORTATION_COLOR, 100, 100, 45, 30)
    ensures BarCmd(2, MakeCategory("Others", 1000.0), 800) == Rect(OTHERS_COLOR, 100, 150, 600, 30)
  {
    var food, transportation, others :=
      MakeCategory("Food", 250.0), MakeCategory("Transportation", 75.0), MakeCategory("Others", 1000.0);
    ExampleColors();
    assert BarWidth(600, food) == 150 by {
      assert ExactWidth(600, food) == 150.0;
    }
    assert BarWidth(600, transportation) == 45 by {
      assert ExactWidth(600, transportation) == 45.0;
    }
    assert BarWidth(600, others) == 600 by {
      assert ExactWidth(600, others) == 600.0;
    }
    assert ChartWidth(800) == 600 && RowY(0) == 50 && RowY(1) == 100 && RowY(2) == 150;
  }

  /** A worked example: on an 800px panel the paint of Food 250,
      Transportation 75 and Others 1000 draws exactly the three bars of
      ExampleBars, in that order. */
  lemma ThreeCategoryExample(tk: Toolkit)
    ensures Bars(Layout("Expenses of the Day",
        [MakeCategory("Food", 250.0), MakeCategory("Transportation", 75.0), MakeCategory("Others", 1000.0)],
        800, tk)) ==
      [ Rect(FOOD_COLOR, 100, 50, 150, 30),
        Rect(TRANSPORTATION_COLOR, 100, 100, 45, 30),
        Rect(OTHERS_COLOR, 100, 150, 600, 30) ]
  {
    var cs := [MakeCategory("Food", 250.0), MakeCategory("Transportation", 75.0), MakeCategory("Others", 1000.0)];
    ExampleBars();
    BarsInCategoryOrder("Expenses of the Day", cs, 800, tk);
    var bars := Bars(Layout("Expenses of the Day", cs, 800, tk));
    assert |bars| == 3;
    assert bars[0] == BarCmd(0, cs[0], 800);
    assert bars[1] == BarCmd(1, cs[1], 800);
    assert bars[2] == BarCmd(2, cs[2], 800);
  }

  /** The three commands as the paint loop computes them for row `i`, from
      its local row top, bar length and label baseline, are that row's
      commands. */
  lemma PaintedRow(i: nat, c: Category, width: int, tk: Toolkit, chartWidth: int, y: int, taskWidth: int, textY: int)
    requires chartWidth == width - 100 * 2
    requires y == 50 + i * (30 + 20)
    requires taskWidth == Truncate(chartWidth as real * c.amount / MaxAmount(c))
    requires textY == y + Quot(30, 2) + Quot(tk.labelHeight, 2) - tk.labelDescent
    ensures RowCmds(i, c, width, tk) ==
      [ Rect(c.color, 100, y, taskWidth, 30),
        Text(c.name, 100 - tk.labelWidth(c.name) - 10, textY),
        Text(tk.formatAmount(c.amount), 100 + taskWidth + 10, y + Quot(30, 2)) ]
  {
    assert y == RowY(i);
    assert taskWidth == BarWidth(ChartWidth(width), c) by {
      assert chartWidth as real * c.amount / MaxAmount(c) == ExactWidth(ChartWidth(width), c);
    }
  }

  /** The chart panel: a title and the categories it currently shows. */
  class GanttChart {
    var chartTitle: string
    var expenseCategories: seq<Category>

    constructor (chartTitle: string)
      ensures this.chartTitle == chartTitle && expenseCategories == []
    {
      this.chartTitle := chartTitle;
      expenseCategories := [];
    }

    /** Replaces the whole dataset; the title is kept. */
    method SetExpenseCategories(categories: seq<Category>)
      modifies this
      ensures expenseCategories == categories && chartTitle == old(chartTitle)
    {
      expenseCategories := categories;
    }

    /** Paints the chart on a panel `width` pixels wide: the title, then for
        each category in turn its bar, its name and its amount. */
    method PaintComponent(width: int, tk: Toolkit) returns (cmds: seq<Cmd>)
      ensures cmds == Layout(chartTitle, expenseCategories, width, tk)
    {
      var taskHeight, barGap, topMargin, leftMargin := 30, 20, 50, 100;
      var chartWidth := width - leftMargin * 2;
      var titleWidth := tk.titleWidth(chartTitle);
      cmds := [Text(chartTitle, Quot(width - titleWidth, 2), Quot(topMargin, 2))];
      for i := 0 to |expenseCategories|
        invariant cmds == [TitleCmd(chartTitle, width, tk)] + Rows(expenseCategories, i, width, tk)
      {
        var category := expenseCategories[i];
        var y := topMargin + i * (taskHeight + barGap);
        var taskWidth := Truncate(chartWidth as real * category.amount / MaxAmount(category));
        var bar := Rect(category.color, leftMargin, y, taskWidth, taskHeight);
        var textWidth := tk.labelWidth(category.name);
        var textX := leftMargin - textWidth - 10;
        var textY := y + Quot(taskHeight, 2) + Quot(tk.labelHeight, 2) - tk.labelDescent;
        var nameLabel := Text(category.name, textX, textY);
        var amountLabel := Text(tk.formatAmount(category.amount), leftMargin + taskWidth + 10, y + Quot(taskHeight, 2));
        PaintedRow(i, category, width, tk, chartWidth, y, taskWidth, textY);
        cmds := cmds + [bar, nameLabel, amountLabel];
        assert Rows(expenseCategories, i + 1, width, tk) == Rows(expenseCategories, i, width, tk) + RowCmds(i, category, width, tk);
      }
    }
  }
}

/** The spend chart: one bar of `o`s per category, bucketed by tens of percent, with the
    category names written vertically underneath. Output is the sequence of printed lines. */
module Chart {
  import opened Numbers
  import opened Strings
  import opened Ledger

  /** What the chart reads of a category. */
  datatype Standing = Standing(name: string, balance: int, withdrawn: int)

  function StandingOf(c: Category): Standing
    reads c
  {
    Standing(c.name, c.finalTotal, c.withdrawn)
  }

  /** The standings of the given categories, in order. */
  function Standings(categories: seq<Category>): seq<Standing>
    reads categories
  {
    seq(|categories|, j requires 0 <= j < |categories| reads categories => StandingOf(categories[j]))
  }

  function Names(cs: seq<Standing>): seq<string>
  {
    seq(|cs|, j requires 0 <= j < |cs| => cs[j].name)
  }

  /** `withdrawn * 100 // balance`, or 0 for a zero balance. */
  function Percentage(s: Standing): int
  {
    if s.balance == 0 then 0 else FloorDiv(s.withdrawn * 100, s.balance)
  }

  /** The percentage is the floor of `100 * withdrawn / balance`, and 0 for a zero
      balance whatever was withdrawn. */
  lemma {:induction false} PercentageIsFloor(s: Standing)
    ensures s.balance == 0 ==> Percentage(s) == 0
    ensures s.balance > 0 ==>
      Percentage(s) * s.balance <= s.withdrawn * 100 < Percentage(s) * s.balance + s.balance
    ensures s.balance < 0 ==>
      Percentage(s) * s.balance + s.balance < s.withdrawn * 100 <= Percentage(s) * s.balance
  {
  }

  /** The number of bar rows, one per threshold of `range(100, -1, -10)`. */
  const Rows := 11

  /** Row `k` holds the bars of at least `Threshold(k)` percent. */
  function Threshold(k: int): int
  {
    100 - 10 * k
  }

  lemma {:induction false} NatStrWidth(p: nat)
    requires p <= 100
    ensures |NatStr(p)| <= 3
  {
    if p >= 10 {
      assert NatStr(p) == NatStr(p / 10) + [DigitChar(p % 10)];
      if p >= 100 {
        assert NatStr(p / 10) == NatStr(p / 100) + [DigitChar(p / 10 % 10)];
      }
    }
  }

  /** `f"{percent:3}"`: right-aligned in a field of three. */
  function Pad3(p: int): string
  {
    var digits := IntStr(p);
    Repeat(" ", 3 - |digits|) + digits
  }

  /** The left field of a bar row, `f" {percent:3} |"`. */
  function RowLabel(threshold: int): (r: string)
    requires 0 <= threshold <= 100
    ensures |r| == 6
  {
    NatStrWidth(threshold);
    " " + Pad3(threshold) + " |"
  }

  /** A field of three characters, blanks then digits, framed as in a row label. */
  lemma {:induction false} LabelFrame(blanks: string, digits: string)
    requires |blanks| + |digits| == 3
    requires forall i :: 0 <= i < |blanks| ==> blanks[i] == ' '
    ensures var r := " " + (blanks + digits) + " |";
      && r[0] == ' ' && r[4..6] == " |"
      && (forall i :: 1 <= i < 4 - |digits| ==> r[i] == ' ')
      && r[4 - |digits|..4] == digits
  {
    var pad := blanks + digits;
    var r := " " + pad + " |";
    forall i | 0 <= i < |digits| ensures r[4 - |digits| + i] == digits[i] {
      assert r[4 - |digits| + i] == pad[3 - |digits| + i];
    }
    forall i | 1 <= i < 4 - |digits| ensures r[i] == ' ' {
      assert r[i] == pad[i - 1] == blanks[i - 1];
    }
    assert r[4..6] == " |";
  }

  /** The label of a bar row shows the threshold right-aligned behind blanks, where it
      reads back as the threshold, and ends in ` |`. */
  lemma {:induction false} RowLabelShape(threshold: int)
    requires 0 <= threshold <= 100
    ensures var r, digits := RowLabel(threshold), IntStr(threshold);
      && r[0] == ' ' && r[4..6] == " |"
      && (forall i :: 1 <= i < 4 - |digits| ==> r[i] == ' ')
      && r[4 - |digits|..4] == digits
      && ParseInt(r[4 - |digits|..4]) == threshold
  {
    var digits := IntStr(threshold);
    NatStrWidth(threshold);
    var blanks := Repeat(" ", 3 - |digits|);
    assert forall i :: 0 <= i < |blanks| ==> blanks[i] == ' ';
    LabelFrame(blanks, digits);
    IntStrRoundTrip(threshold);
  }

  /** The bar of one category: `o` when its percentage reaches the threshold. */
  function Bar(s: Standing, threshold: int): char
  {
    if Percentage(s) >= threshold then 'o' else ' '
  }

  /** `f" {c} "`: one character between two blanks. */
  function Cell(c: char): string
  {
    [' ', c, ' ']
  }

  /** Bar row for `threshold` as far as the cell of category `j - 1`: the label, then
      one cell per category. */
  function RowUpTo(cs: seq<Standing>, threshold: int, j: nat): (r: string)
    requires 0 <= threshold <= 100 && j <= |cs|
    ensures |r| == 6 + 3 * j
  {
    if j == 0 then RowLabel(threshold)
    else RowUpTo(cs, threshold, j - 1) + Cell(Bar(cs[j - 1], threshold))
  }

  lemma {:induction false} RowUpToLayout(cs: seq<Standing>, threshold: int, j: nat)
    requires 0 <= threshold <= 100 && j <= |cs|
    ensures forall c :: 0 <= c < 6 ==> RowUpTo(cs, threshold, j)[c] == RowLabel(threshold)[c]
    ensures forall j' :: 0 <= j' < j ==>
      && RowUpTo(cs, threshold, j)[6 + 3 * j'] == ' '
      && RowUpTo(cs, threshold, j)[7 + 3 * j'] == Bar(cs[j'], threshold)
      && RowUpTo(cs, threshold, j)[8 + 3 * j'] == ' '
  {
    if j > 0 {
      var prev, cell := RowUpTo(cs, threshold, j - 1), Cell(Bar(cs[j - 1], threshold));
      RowUpToLayout(cs, threshold, j - 1);
      forall j' | 0 <= j' < j - 1
        ensures RowUpTo(cs, threshold, j)[6 + 3 * j'] == prev[6 + 3 * j']
        ensures RowUpTo(cs, threshold, j)[7 + 3 * j'] == prev[7 + 3 * j']
        ensures RowUpTo(cs, threshold, j)[8 + 3 * j'] == prev[8 + 3 * j']
      {
      }
      assert RowUpTo(cs, threshold, j)[3 + 3 * j] == cell[0];
      assert RowUpTo(cs, threshold, j)[4 + 3 * j] == cell[1];
      assert RowUpTo(cs, threshold, j)[5 + 3 * j] == cell[2];
    }
  }

  /** One bar row: the label, then a cell per category. */
  function Row(cs: seq<Standing>, threshold: int): (r: string)
    requires 0 <= threshold <= 100
    ensures |r| == 6 + 3 * |cs|
  {
    RowUpTo(cs, threshold, |cs|)
  }

  /** A bar row starts with its label, and the bar of category `j` sits at column
      `7 + 3 * j` between two blanks. */
  lemma {:induction false} RowLayout(cs: seq<Standing>, threshold: int)
    requires 0 <= threshold <= 100
    ensures Row(cs, threshold)[..6] == RowLabel(threshold)
    ensures forall j :: 0 <= j < |cs| ==>
      && Row(cs, threshold)[6 + 3 * j] == ' '
      && Row(cs, threshold)[7 + 3 * j] == Bar(cs[j], threshold)
      && Row(cs, threshold)[8 + 3 * j] == ' '
  {
    RowUpToLayout(cs, threshold, |cs|);
  }

  function Separator(n: nat): string
  {
    "     -" + Repeat("---", n)
  }

  /** `max(len(name) for name in names)`. */
  function MaxNameLength(names: seq<string>): (m: nat)
    requires |names| > 0
    ensures forall j :: 0 <= j < |names| ==> |names[j]| <= m
    ensures exists j :: 0 <= j < |names| && |names[j]| == m
  {
    if |names| == 1 then |names[0]|
    else
      var rest := MaxNameLength(names[..|names| - 1]);
      var last := |names[|names| - 1]|;
      if last > rest then last else rest
  }

  /** The cell of one name in row `i` of the name block: its `i`-th character, or three
      blanks past its end. */
  function NameCell(name: string, i: nat): string
  {
    if i < |name| then Cell(name[i]) else "   "
  }

  /** Row `i` of the name block as far as the cell of category `j - 1`: an indent of
      five, then one cell per name. */
  function NameRowUpTo(cs: seq<Standing>, i: nat, j: nat): (r: string)
    requires j <= |cs|
    ensures |r| == 5 + 3 * j
  {
    if j == 0 then "     " else NameRowUpTo(cs, i, j - 1) + NameCell(cs[j - 1].name, i)
  }

  lemma {:induction false} NameRowUpToLayout(cs: seq<Standing>, i: nat, j: nat)
    requires j <= |cs|
    ensures forall c :: 0 <= c < 5 ==> NameRowUpTo(cs, i, j)[c] == ' '
    ensures forall j' :: 0 <= j' < j ==>
      && NameRowUpTo(cs, i, j)[5 + 3 * j'] == ' '
      && NameRowUpTo(cs, i, j)[6 + 3 * j'] == (if i < |cs[j'].name| then cs[j'].name[i] else ' ')
      && NameRowUpTo(cs, i, j)[7 + 3 * j'] == ' '
  {
    if j > 0 {
      var prev, cell := NameRowUpTo(cs, i, j - 1), NameCell(cs[j - 1].name, i);
      NameRowUpToLayout(cs, i, j - 1);
      forall j' | 0 <= j' < j - 1
        ensures NameRowUpTo(cs, i, j)[5 + 3 * j'] == prev[5 + 3 * j']
        ensures NameRowUpTo(cs, i, j)[6 + 3 * j'] == prev[6 + 3 * j']
        ensures NameRowUpTo(cs, i, j)[7 + 3 * j'] == prev[7 + 3 * j']
      {
      }
      assert NameRowUpTo(cs, i, j)[2 + 3 * j] == cell[0];
      assert NameRowUpTo(cs, i, j)[3 + 3 * j] == cell[1];
      assert NameRowUpTo(cs, i, j)[4 + 3 * j] == cell[2];
    }
  }

  /** Row `i` of the name block. */
  function NameRow(cs: seq<Standing>, i: nat): (r: string)
    ensures |r| == 5 + 3 * |cs|
  {
    NameRowUpTo(cs, i, |cs|)
  }

  /** In row `i` of the name block, column `6 + 3 * j` holds the `i`-th character of
      name `j`, or a blank past its end; every other column is blank. */
  lemma {:induction false} NameRowLayout(cs: seq<Standing>, i: nat)
    ensures forall j :: 0 <= j < |cs| ==>
      NameRow(cs, i)[6 + 3 * j] == (if i < |cs[j].name| then cs[j].name[i] else ' ')
    ensures forall c :: 0 <= c < |NameRow(cs, i)| && NameRow(cs, i)[c] != ' ' ==>
      c >= 5 && (c - 5) % 3 == 1
  {
    var row := NameRow(cs, i);
    NameRowUpToLayout(cs, i, |cs|);
    forall c | 0 <= c < |row| && row[c] != ' '
      ensures c >= 5 && (c - 5) % 3 == 1
    {
      if c >= 5 {
        var j := (c - 5) / 3;
        assert c == 5 + 3 * j || c == 6 + 3 * j || c == 7 + 3 * j;
      }
    }
  }

  /** The first two lines of the chart: an empty line, then the title. */
  const Heading: seq<string> := ["", "Percentage spent by category"]

  /** The heading followed by the first `k` bar rows, from threshold 100 down. */
  function HeadAndBars(cs: seq<Standing>, k: nat): (lines: seq<string>)
    requires k <= Rows
    ensures |lines| == 2 + k
  {
    if k == 0 then Heading else HeadAndBars(cs, k - 1) + [Row(cs, Threshold(k - 1))]
  }

  lemma {:induction false} HeadAndBarsAt(cs: seq<Standing>, k: nat)
    requires k <= Rows
    ensures HeadAndBars(cs, k)[0] == Heading[0] && HeadAndBars(cs, k)[1] == Heading[1]
    ensures forall k' :: 0 <= k' < k ==> HeadAndBars(cs, k)[2 + k'] == Row(cs, Threshold(k'))
  {
    if k > 0 {
      HeadAndBarsAt(cs, k - 1);
    }
  }

  /** The lines printed before the name block: the heading, the eleven bar rows and the
      separator. */
  function BarLines(cs: seq<Standing>): (lines: seq<string>)
    ensures |lines| == 3 + Rows
  {
    HeadAndBars(cs, Rows) + [Separator(|cs|)]
  }

  /** The bar lines followed by the first `i` rows of the name block. */
  function ChartUpTo(cs: seq<Standing>, i: nat): (lines: seq<string>)
    ensures |lines| == 3 + Rows + i
  {
    if i == 0 then BarLines(cs) else ChartUpTo(cs, i - 1) + [NameRow(cs, i - 1)]
  }

  lemma {:induction false} ChartUpToAt(cs: seq<Standing>, i: nat)
    ensures forall k :: 0 <= k < 3 + Rows ==> ChartUpTo(cs, i)[k] == BarLines(cs)[k]
    ensures forall i' :: 0 <= i' < i ==> ChartUpTo(cs, i)[3 + Rows + i'] == NameRow(cs, i')
  {
    if i > 0 {
      ChartUpToAt(cs, i - 1);
    }
  }

  /** What was printed, whether or not the rendering completed. */
  function Printed(r: Rendered<seq<string>>): seq<string>
  {
    if r.Rendered? then r.value else r.printed
  }

  /** `create_spend_chart(categories)`, printed lines collected in order. With no
      category, `max` of the names raises after the bar rows and the separator. */
  function SpendChart(cs: seq<Standing>): (r: Rendered<seq<string>>)
    ensures r.Rendered? <==> |cs| > 0
  {
    if cs == [] then MaxOfEmpty(BarLines(cs))
    else Rendered(ChartUpTo(cs, MaxNameLength(Names(cs))))
  }

  /** The chart, line by line: an empty line and the heading, bar row `k` for threshold
      `Threshold(k)`, the separator, and as many name rows as the longest name has
      characters. */
  lemma {:induction false} ChartLines(cs: seq<Standing>)
    ensures var lines := Printed(SpendChart(cs));
      && |lines| == 3 + Rows + (if |cs| > 0 then MaxNameLength(Names(cs)) else 0)
      && lines[0] == Heading[0] && lines[1] == Heading[1]
      && (forall k :: 0 <= k < Rows ==> lines[2 + k] == Row(cs, Threshold(k)))
      && lines[2 + Rows] == Separator(|cs|)
      && (forall i :: 0 <= i < |lines| - 3 - Rows ==> lines[3 + Rows + i] == NameRow(cs, i))
  {
    HeadAndBarsAt(cs, Rows);
    if cs != [] {
      ChartUpToAt(cs, MaxNameLength(Names(cs)));
    }
  }

  /** Line `2 + k` of the chart is bar row `k`. */
  lemma {:induction false} ChartBarRowAt(cs: seq<Standing>, k: nat)
    requires k < Rows
    ensures var lines := Printed(SpendChart(cs));
      2 + k < |lines| && lines[2 + k] == Row(cs, Threshold(k))
  {
    HeadAndBarsAt(cs, Rows);
    if cs != [] {
      ChartUpToAt(cs, MaxNameLength(Names(cs)));
    }
  }

  /** Line `3 + Rows + i` of the chart is row `i` of the name block. */
  lemma {:induction false} ChartNameRowAt(cs: seq<Standing>, i: nat)
    ensures var lines := Printed(SpendChart(cs));
      3 + Rows + i < |lines| ==> lines[3 + Rows + i] == NameRow(cs, i)
  {
    if cs != [] {
      ChartUpToAt(cs, MaxNameLength(Names(cs)));
    }
  }

  /** In bar row `k`, the column of category `j` holds `o` exactly when the category's
      percentage reaches the row's threshold, and a blank otherwise; the row is
      `6 + 3 * n` wide and starts with the threshold's label. */
  lemma {:induction false} BarMeansPercentage(cs: seq<Standing>, k: nat, j: nat)
    requires k < Rows && j < |cs|
    ensures var lines := Printed(SpendChart(cs));
      && 2 + k < |lines| && |lines[2 + k]| == 6 + 3 * |cs|
      && lines[2 + k][..6] == RowLabel(Threshold(k))
      && (lines[2 + k][7 + 3 * j] == 'o' <==> Percentage(cs[j]) >= Threshold(k))
      && (lines[2 + k][7 + 3 * j] != 'o' ==> lines[2 + k][7 + 3 * j] == ' ')
  {
    ChartBarRowAt(cs, k);
    RowLayout(cs, Threshold(k));
  }

  /** A bar is drawn from the bottom up: once a column has an `o` at some threshold, it
      has one at every lower threshold. */
  lemma {:induction false} BarsAreContiguous(cs: seq<Standing>, j: nat, k: nat, k': nat)
    requires j < |cs| && k <= k' < Rows
    ensures var lines := Printed(SpendChart(cs));
      && 2 + k' < |lines| && 7 + 3 * j < |lines[2 + k]| && 7 + 3 * j < |lines[2 + k']|
      && (lines[2 + k][7 + 3 * j] == 'o' ==> lines[2 + k'][7 + 3 * j] == 'o')
  {
    BarMeansPercentage(cs, k, j);
    BarMeansPercentage(cs, k', j);
  }

  /** A category whose balance is zero has a bar only in the bottom row, whatever it
      withdrew. */
  lemma {:induction false} ZeroBalanceBar(cs: seq<Standing>, j: nat, k: nat)
    requires j < |cs| && k < Rows
    requires cs[j].balance == 0
    ensures var lines := Printed(SpendChart(cs));
      && 2 + k < |lines| && 7 + 3 * j < |lines[2 + k]|
      && (lines[2 + k][7 + 3 * j] == 'o' <==> k == Rows - 1)
  {
    BarMeansPercentage(cs, k, j);
  }

  /** Line `i` of the name block holds, in the column of category `j`, the `i`-th
      character of its name, or a blank past its end. */
  lemma {:induction false} NameColumnAt(cs: seq<Standing>, j: nat, i: nat)
    requires j < |cs|
    ensures var lines := Printed(SpendChart(cs));
      3 + Rows <= i < |lines| ==>
        && 6 + 3 * j < |lines[i]|
        && lines[i][6 + 3 * j]
           == (if i - 3 - Rows < |cs[j].name| then cs[j].name[i - 3 - Rows] else ' ')
  {
    if 3 + Rows <= i < |Printed(SpendChart(cs))| {
      ChartNameRowAt(cs, i - 3 - Rows);
      NameRowLayout(cs, i - 3 - Rows);
    }
  }

  /** Read down the column of category `j`, the name block spells its name, then blanks
      down to the length of the longest name. */
  lemma {:induction false} NameColumn(cs: seq<Standing>, j: nat)
    requires j < |cs|
    ensures var lines := Printed(SpendChart(cs));
      && 3 + Rows + |cs[j].name| <= |lines|
      && forall i :: 3 + Rows <= i < |lines| ==>
           && 6 + 3 * j < |lines[i]|
           && lines[i][6 + 3 * j]
              == (if i - 3 - Rows < |cs[j].name| then cs[j].name[i - 3 - Rows] else ' ')
  {
    var lines := Printed(SpendChart(cs));
    assert Names(cs)[j] == cs[j].name;
    forall i | 3 + Rows <= i < |lines|
      ensures 6 + 3 * j < |lines[i]|
      ensures lines[i][6 + 3 * j]
              == (if i - 3 - Rows < |cs[j].name| then cs[j].name[i - 3 - Rows] else ' ')
    {
      NameColumnAt(cs, j, i);
    }
  }

  /** The name block is as tall as the longest name. */
  lemma {:induction false} NameBlockHeight(cs: seq<Standing>)
    requires |cs| > 0
    ensures var lines := Printed(SpendChart(cs));
      && (exists j :: 0 <= j < |cs| && |lines| == 3 + Rows + |cs[j].name|)
      && (forall j :: 0 <= j < |cs| ==> 3 + Rows + |cs[j].name| <= |lines|)
  {
    var names := Names(cs);
    var j :| 0 <= j < |names| && |names[j]| == MaxNameLength(names);
    assert names[j] == cs[j].name;
    forall j' | 0 <= j' < |cs|
      ensures |cs[j'].name| <= MaxNameLength(names)
    {
      assert names[j'] == cs[j'].name;
    }
  }

  /** The chart of an empty list raises after printing the heading, eleven rows holding
      only the threshold labels, and a separator without dashes. */
  lemma EmptyChart()
    ensures SpendChart([]).MaxOfEmpty?
    ensures var printed := SpendChart([]).printed;
      && |printed| == 3 + Rows
      && printed[0] == Heading[0] && printed[1] == Heading[1]
      && (forall k :: 0 <= k < Rows ==> printed[2 + k] == RowLabel(Threshold(k)))
      && printed[2 + Rows] == "     -"
  {
    ChartLines([]);
    assert Separator(0) == "     -" + [];
  }

  /** One bar row of `create_spend_chart`: the inner loop over the categories. */
  method BarRow(categories: seq<Category>, percent: int) returns (row: string)
    requires 0 <= percent <= 100
    ensures row == Row(Standings(categories), percent)
  {
    ghost var cs := Standings(categories);
    row := " " + Pad3(percent) + " |";
    var j := 0;
    while j < |categories|
      invariant 0 <= j <= |categories|
      invariant row == RowUpTo(cs, percent, j)
    {
      var category := categories[j];
      var percentage;
      if category.finalTotal == 0 {
        percentage := 0;
      } else {
        percentage := FloorDiv(category.withdrawn * 100, category.finalTotal);
      }
      var bar := if percentage >= percent then 'o' else ' ';
      assert cs[j] == StandingOf(category);
      row := row + Cell(bar);
      j := j + 1;
    }
  }

  /** One row of the name block: the inner loop over the names. */
  method NameLine(names: seq<string>, i: nat, ghost cs: seq<Standing>) returns (line: string)
    requires names == Names(cs)
    ensures line == NameRow(cs, i)
  {
    line := "     ";
    var j := 0;
    while j < |names|
      invariant 0 <= j <= |names|
      invariant line == NameRowUpTo(cs, i, j)
    {
      assert names[j] == cs[j].name;
      if i < |names[j]| {
        line := line + Cell(names[j][i]);
      } else {
        line := line + "   ";
      }
      j := j + 1;
    }
  }

  /** The heading, the bar rows and the separator of `create_spend_chart`: the outer loop
      over the thresholds. */
  method PrintBars(categories: seq<Category>) returns (out: seq<string>)
    ensures out == BarLines(Standings(categories))
  {
    ghost var cs := Standings(categories);
    out := ["", "Percentage spent by category"];
    var percent := 100;
    ghost var k := 0;
    while percent >= 0
      invariant 0 <= k <= Rows && percent == Threshold(k)
      invariant out == HeadAndBars(cs, k)
    {
      var row := BarRow(categories, percent);
      out := out + [row];
      percent := percent - 10;
      k := k + 1;
    }
    assert k == Rows && |cs| == |categories|;
    out := out + ["     -" + Repeat("---", |categories|)];
  }

  /** The name block of `create_spend_chart`, printed after `bars`: the outer loop over
      the character positions, as many as the longest name has. */
  method PrintNames(names: seq<string>, bars: seq<string>, ghost cs: seq<Standing>)
    returns (out: seq<string>)
    requires |cs| > 0 && names == Names(cs) && bars == BarLines(cs)
    ensures out == ChartUpTo(cs, MaxNameLength(Names(cs)))
  {
    out := bars;
    var maxLen := MaxNameLength(names);
    var i := 0;
    while i < maxLen
      invariant 0 <= i <= maxLen
      invariant out == ChartUpTo(cs, i)
    {
      var line := NameLine(names, i, cs);
      out := out + [line];
      i := i + 1;
    }
  }

  /** `create_spend_chart`, with each `print` appending a line to the result. */
  method CreateSpendChart(categories: seq<Category>) returns (r: Rendered<seq<string>>)
    ensures r == SpendChart(Standings(categories))
  {
    ghost var cs := Standings(categories);
    var out := PrintBars(categories);
    if |categories| == 0 {
      return MaxOfEmpty(out);
    }
    var names := seq(|categories|, j requires 0 <= j < |categories| reads categories => categories[j].name);
    assert names == Names(cs);
    out := PrintNames(names, out, cs);
    return Rendered(out);
  }
}

/**
 * The budget CSV export (src/lib/csvExport.ts): a header row, one row per
 * category (income, then expenses, then each custom section's items), each
 * cell wrapped in double quotes, cells joined by "," and rows by a newline.
 * Cells are not escaped: a quote inside a name is written as it is.
 */
module CsvExport {
  import opened Wrappers
  import opened Text
  import opened Money
  import opened Decimal
  import opened BudgetData

  type Row = seq<string>

  const Header: Row := ["Section", "Name", "Budgeted", "Actual", "Difference"]

  const IncomeLabel := "Income"

  const ExpensesLabel := "Expenses"

  /**
   * One category's row: its section label, its name, then budgeted, actual
   * (the raw `spent`) and the difference `spent - budgeted`, each written
   * with two decimals so that it reads back exactly.
   */
  function ItemRow(section: string, item: BudgetCategory): (r: Row)
    ensures |r| == 5 && r[0] == section && r[1] == item.name
  {
    [section, item.name] + AmountCells([item.budgeted, item.spent, item.spent - item.budgeted])
  }

  /** Amounts in cents, each written by `toFixed(2)`. */
  function AmountCells(amounts: seq<int>): (r: seq<string>)
    ensures |r| == |amounts|
    decreases |amounts|
  {
    if amounts == [] then [] else [ToFixed2(amounts[0])] + AmountCells(amounts[1..])
  }

  /** Each amount cell is that amount written by `toFixed(2)`. */
  lemma {:induction false} AmountCellsAt(amounts: seq<int>, i: nat)
    requires i < |amounts|
    ensures AmountCells(amounts)[i] == ToFixed2(amounts[i])
    decreases |amounts|
  {
    if i > 0 {
      AmountCellsAt(amounts[1..], i - 1);
    }
  }

  /** The amount cells of a row: budgeted, actual, difference. */
  lemma ItemRowCells(section: string, item: BudgetCategory)
    ensures ItemRow(section, item)[2] == ToFixed2(item.budgeted)
    ensures ItemRow(section, item)[3] == ToFixed2(item.spent)
    ensures ItemRow(section, item)[4] == ToFixed2(item.spent - item.budgeted)
  {
    var amounts := [item.budgeted, item.spent, item.spent - item.budgeted];
    AmountCellsAt(amounts, 0);
    AmountCellsAt(amounts, 1);
    AmountCellsAt(amounts, 2);
  }

  /** The three amount cells read back as budgeted, actual and `spent - budgeted`, exactly. */
  lemma ItemRowAmounts(section: string, item: BudgetCategory)
    ensures ParseFixed2(ItemRow(section, item)[2]) == Some(item.budgeted)
    ensures ParseFixed2(ItemRow(section, item)[3]) == Some(item.spent)
    ensures ParseFixed2(ItemRow(section, item)[4]) == Some(item.spent - item.budgeted)
  {
    ItemRowCells(section, item);
    ToFixed2RoundTrip(item.budgeted);
    ToFixed2RoundTrip(item.spent);
    ToFixed2RoundTrip(item.spent - item.budgeted);
  }

  /** The rows of one list of categories under one section label, in list order. */
  function SectionRows(section: string, items: seq<BudgetCategory>): (r: seq<Row>)
    ensures |r| == |items|
    ensures forall i :: 0 <= i < |r| ==> r[i] == ItemRow(section, items[i])
  {
    seq(|items|, i requires 0 <= i < |items| => ItemRow(section, items[i]))
  }

  /** Every custom section's rows, section by section, labelled with the section's name. */
  function CustomRows(sections: seq<CustomSection>): seq<Row>
    decreases |sections|
  {
    if sections == [] then []
    else
      var last := sections[|sections| - 1];
      CustomRows(sections[..|sections| - 1]) + SectionRows(last.name, last.items)
  }

  /**
   * The `rows` array once every `push` has run: the header, then one row per
   * income category, expense category and custom section item.
   */
  function Rows(income: seq<BudgetCategory>, expenses: seq<BudgetCategory>, sections: seq<CustomSection>)
    : (r: seq<Row>)
    ensures |r| == 1 + |income| + |expenses| + Sum(sections, ItemCount)
    ensures r[0] == Header
  {
    CustomRowsCount(sections);
    [Header] + SectionRows(IncomeLabel, income) + SectionRows(ExpensesLabel, expenses) + CustomRows(sections)
  }

  function ItemCount(s: CustomSection): int { |s.items| }

  /** The rows a single section contributes, after those of the sections before it. */
  lemma {:induction false} CustomRowsAt(sections: seq<CustomSection>, k: nat, j: nat)
    requires k < |sections| && j < |sections[k].items|
    ensures |CustomRows(sections)| == Sum(sections, ItemCount)
    ensures 0 <= Sum(sections[..k], ItemCount) && Sum(sections[..k], ItemCount) + j < |CustomRows(sections)|
      && CustomRows(sections)[Sum(sections[..k], ItemCount) + j] == ItemRow(sections[k].name, sections[k].items[j])
    decreases |sections|
  {
    var n := |sections| - 1;
    var p, last := sections[..n], sections[n];
    var c, d := CustomRows(p), SectionRows(last.name, last.items);
    assert CustomRows(sections) == c + d;
    CustomRowsCount(sections);
    if k < n {
      CustomRowsAt(p, k, j);
      assert p[..k] == sections[..k];
      assert (c + d)[Sum(p[..k], ItemCount) + j] == c[Sum(p[..k], ItemCount) + j];
    } else {
      assert sections[..k] == p;
      CustomRowsCount(p);
      assert (c + d)[|c| + j] == d[j];
    }
  }

  lemma {:induction false} CustomRowsCount(sections: seq<CustomSection>)
    ensures |CustomRows(sections)| == Sum(sections, ItemCount)
    decreases |sections|
  {
    if sections != [] {
      var n := |sections| - 1;
      CustomRowsCount(sections[..n]);
      assert Sum(sections, ItemCount) == Sum(sections[..n], ItemCount) + ItemCount(sections[n]);
    }
  }

  /**
   * The shape of the export: the header first, then one row per income
   * category and one per expense category in list order, then the custom
   * sections' rows (laid out section by section as `CustomRowsAt` states).
   */
  lemma RowsShape(income: seq<BudgetCategory>, expenses: seq<BudgetCategory>, sections: seq<CustomSection>)
    ensures |Rows(income, expenses, sections)| == 1 + |income| + |expenses| + Sum(sections, ItemCount)
    ensures Rows(income, expenses, sections)[0] == Header
    ensures forall i :: 0 <= i < |income| ==> Rows(income, expenses, sections)[1 + i] == ItemRow(IncomeLabel, income[i])
    ensures forall i :: 1 + |income| <= i < 1 + |income| + |expenses| ==>
      Rows(income, expenses, sections)[i] == ItemRow(ExpensesLabel, expenses[i - 1 - |income|])
    ensures Rows(income, expenses, sections)[1 + |income| + |expenses|..] == CustomRows(sections)
  {
    var a, b, c := SectionRows(IncomeLabel, income), SectionRows(ExpensesLabel, expenses), CustomRows(sections);
    assert Rows(income, expenses, sections) == [Header] + a + b + c;
    RowsRuns(Header, a, b, c, income, expenses);
  }

  /** The same layout, for the rows written as a header and three runs. */
  lemma RowsRuns(h: Row, a: seq<Row>, b: seq<Row>, c: seq<Row>, income: seq<BudgetCategory>, expenses: seq<BudgetCategory>)
    requires a == SectionRows(IncomeLabel, income) && b == SectionRows(ExpensesLabel, expenses)
    ensures forall i :: 0 <= i < |income| ==> ([h] + a + b + c)[1 + i] == ItemRow(IncomeLabel, income[i])
    ensures forall i :: 1 + |income| <= i < 1 + |income| + |expenses| ==>
      ([h] + a + b + c)[i] == ItemRow(ExpensesLabel, expenses[i - 1 - |income|])
    ensures ([h] + a + b + c)[1 + |income| + |expenses|..] == c
  {
    ConcatIndex(h, a, b, c);
  }

  /** Positions in a list made of a head and three runs. */
  lemma ConcatIndex<T>(h: T, a: seq<T>, b: seq<T>, c: seq<T>)
    ensures var s := [h] + a + b + c;
      |s| == 1 + |a| + |b| + |c| && s[0] == h
      && (forall i :: 0 <= i < |a| ==> s[1 + i] == a[i])
      && (forall i :: 1 + |a| <= i < 1 + |a| + |b| ==> s[i] == b[i - 1 - |a|])
      && s[1 + |a| + |b|..] == c
  {
    var s := [h] + a + b + c;
    assert s[1 + |a| + |b|..] == c;
  }

  /** `items.forEach(item => rows.push([...]))` for one section label. */
  method PushRows(rows: seq<Row>, section: string, items: seq<BudgetCategory>) returns (r: seq<Row>)
    ensures r == rows + SectionRows(section, items)
  {
    r := rows;
    var i := 0;
    while i < |items|
      invariant 0 <= i <= |items|
      invariant r == rows + SectionRows(section, items)[..i]
    {
      r := r + [ItemRow(section, items[i])];
      assert SectionRows(section, items)[..i + 1] == SectionRows(section, items)[..i] + [ItemRow(section, items[i])];
      i := i + 1;
    }
    assert SectionRows(section, items)[..i] == SectionRows(section, items);
  }

  lemma AppendAssoc<T>(a: seq<T>, b: seq<T>, c: seq<T>)
    ensures (a + b) + c == a + (b + c)
  {
  }

  lemma CustomRowsSnoc(sections: seq<CustomSection>, k: nat)
    requires k < |sections|
    ensures CustomRows(sections[..k + 1]) == CustomRows(sections[..k]) + SectionRows(sections[k].name, sections[k].items)
  {
    assert sections[..k + 1][..k] == sections[..k];
  }

  /** The header and the three `forEach` passes. */
  method BuildRows(income: seq<BudgetCategory>, expenses: seq<BudgetCategory>, sections: seq<CustomSection>)
    returns (rows: seq<Row>)
    ensures rows == Rows(income, expenses, sections)
  {
    rows := [Header];
    rows := PushRows(rows, IncomeLabel, income);
    rows := PushRows(rows, ExpensesLabel, expenses);
    ghost var base := rows;
    var k := 0;
    while k < |sections|
      invariant 0 <= k <= |sections|
      invariant rows == base + CustomRows(sections[..k])
    {
      rows := PushRows(rows, sections[k].name, sections[k].items);
      CustomRowsSnoc(sections, k);
      AppendAssoc(base, CustomRows(sections[..k]), SectionRows(sections[k].name, sections[k].items));
      k := k + 1;
    }
    assert sections[..k] == sections;
  }

  /** A cell as written: between two double quotes, nothing escaped. */
  function QuoteCell(c: string): (q: string)
    ensures |q| == |c| + 2 && q[0] == '"' && q[|q| - 1] == '"' && q[1..|q| - 1] == c
  {
    "\"" + c + "\""
  }

  function QuotedCells(row: Row): (r: seq<string>)
    ensures |r| == |row| && forall i :: 0 <= i < |r| ==> r[i] == QuoteCell(row[i])
  {
    seq(|row|, i requires 0 <= i < |row| => QuoteCell(row[i]))
  }

  /** `r.map(c => `"${c}"`).join(",")`: a line of at least one cell opens and closes with a quote. */
  function CsvLine(row: Row): (line: string)
    ensures |row| > 0 ==> |line| > 0 && line[0] == '"' && line[|line| - 1] == '"'
  {
    var q := QuotedCells(row);
    if |row| > 0 then
      JoinEnds(q, ',');
      Join(q, ',')
    else
      Join(q, ',')
  }

  function CsvLines(rows: seq<Row>): (r: seq<string>)
    ensures |r| == |rows| && forall i :: 0 <= i < |r| ==> r[i] == CsvLine(rows[i])
  {
    seq(|rows|, i requires 0 <= i < |rows| => CsvLine(rows[i]))
  }

  /**
   * The file contents: the lines joined by newlines. When there is a row and
   * none is empty, the file opens and closes with a quote, so no newline ends it.
   */
  function CsvContent(rows: seq<Row>): (content: string)
    ensures |rows| > 0 && (forall i :: 0 <= i < |rows| ==> |rows[i]| > 0) ==>
      |content| > 0 && content[0] == '"' && content[|content| - 1] == '"'
  {
    var lines := CsvLines(rows);
    if |rows| > 0 && (forall i :: 0 <= i < |rows| ==> |rows[i]| > 0) then
      JoinEnds(lines, '\n');
      Join(lines, '\n')
    else
      Join(lines, '\n')
  }

  /** The download name. */
  function FileName(monthKey: string): (name: string)
    ensures |name| == |monthKey| + 11
    ensures name[..7] == "budget-" && name[|name| - 4..] == ".csv"
    ensures name[7..|name| - 4] == monthKey
  {
    "budget-" + monthKey + ".csv"
  }

  /** `exportBudgetToCSV` up to the download: the file contents and the file name. */
  method ExportBudgetToCsv(monthKey: string, income: seq<BudgetCategory>, expenses: seq<BudgetCategory>,
                           sections: seq<CustomSection>)
    returns (content: string, fileName: string)
    ensures content == CsvContent(Rows(income, expenses, sections))
    ensures fileName == FileName(monthKey)
  {
    var rows := BuildRows(income, expenses, sections);
    content := CsvContent(rows);
    fileName := FileName(monthKey);
  }

  /** A character in none of the parts, other than the separator, is not in the joined string. */
  lemma {:induction false} JoinFree(parts: seq<string>, sep: char, x: char)
    requires x != sep && forall p :: p in parts ==> x !in p
    ensures x !in Join(parts, sep)
    decreases |parts|
  {
    if |parts| > 1 {
      assert forall p :: p in parts[1..] ==> p in parts;
      JoinFree(parts[1..], sep, x);
      assert parts[0] in parts;
    }
  }

  /** Quoting adds only quotes. */
  lemma QuoteCellFree(c: string, x: char)
    requires x != '"' && x !in c
    ensures x !in QuoteCell(c)
  {
    var q := QuoteCell(c);
    forall k | 0 <= k < |q| ensures q[k] != x {
      if 0 < k < |q| - 1 {
        assert q[k] == q[1..|q| - 1][k - 1];
      }
    }
  }

  lemma LineFree(row: Row, x: char)
    requires x != ',' && x != '"' && forall m :: 0 <= m < |row| ==> x !in row[m]
    ensures x !in CsvLine(row)
  {
    var q := QuotedCells(row);
    forall p | p in q ensures x !in p {
      var i :| 0 <= i < |q| && q[i] == p;
      QuoteCellFree(row[i], x);
    }
    JoinFree(q, ',', x);
  }

  /** A category row holds `x` only in its label or its name: the amounts are signs, digits and a point. */
  lemma ItemRowFree(section: string, item: BudgetCategory, x: char)
    requires x != '-' && x != '.' && !IsDigit(x) && x !in section && x !in item.name
    ensures forall m :: 0 <= m < |ItemRow(section, item)| ==> x !in ItemRow(section, item)[m]
  {
    ItemRowCells(section, item);
    ToFixed2Alphabet(item.budgeted);
    ToFixed2Alphabet(item.spent);
    ToFixed2Alphabet(item.spent - item.budgeted);
  }

  /** No export cell holds `x` unless a category or section name does. */
  lemma CellsFree(income: seq<BudgetCategory>, expenses: seq<BudgetCategory>, sections: seq<CustomSection>, x: char)
    requires x != '-' && x != '.' && !IsDigit(x) && x !in IncomeLabel && x !in ExpensesLabel
    requires forall c :: c in Header ==> x !in c
    requires forall c :: c in income ==> x !in c.name
    requires forall c :: c in expenses ==> x !in c.name
    requires forall s :: s in sections ==> x !in s.name && forall c :: c in s.items ==> x !in c.name
    ensures var rows := Rows(income, expenses, sections);
      forall n, m :: 0 <= n < |rows| && 0 <= m < |rows[n]| ==> x !in rows[n][m]
  {
    var rows := Rows(income, expenses, sections);
    forall n, m | 0 <= n < |rows| && 0 <= m < |rows[n]| ensures x !in rows[n][m] {
      if n == 0 {
        assert rows[n] == Header && Header[m] in Header;
      } else {
        RowOrigin(income, expenses, sections, n, x);
        var sec: string, item: BudgetCategory :| rows[n] == ItemRow(sec, item) && x !in sec && x !in item.name;
        ItemRowFree(sec, item, x);
      }
    }
  }

  /** Every data row is some category's row under a label and name free of `x`. */
  lemma RowOrigin(income: seq<BudgetCategory>, expenses: seq<BudgetCategory>, sections: seq<CustomSection>,
                  n: nat, x: char)
    requires 0 < n < |Rows(income, expenses, sections)|
    requires x !in IncomeLabel && x !in ExpensesLabel
    requires forall c :: c in income ==> x !in c.name
    requires forall c :: c in expenses ==> x !in c.name
    requires forall s :: s in sections ==> x !in s.name && forall c :: c in s.items ==> x !in c.name
    ensures exists sec: string, item: BudgetCategory ::
      Rows(income, expenses, sections)[n] == ItemRow(sec, item) && x !in sec && x !in item.name
  {
    var a, b := SectionRows(IncomeLabel, income), SectionRows(ExpensesLabel, expenses);
    var rows := Rows(income, expenses, sections);
    if n <= |a| {
      assert rows[n] == a[n - 1] && income[n - 1] in income;
      assert rows[n] == ItemRow(IncomeLabel, income[n - 1]);
    } else if n <= |a| + |b| {
      assert rows[n] == b[n - 1 - |a|] && expenses[n - 1 - |a|] in expenses;
      assert rows[n] == ItemRow(ExpensesLabel, expenses[n - 1 - |a|]);
    } else {
      assert rows[n] == CustomRows(sections)[n - 1 - |a| - |b|];
      CustomRowOrigin(sections, n - 1 - |a| - |b|, x);
    }
  }

  lemma {:induction false} CustomRowOrigin(sections: seq<CustomSection>, m: nat, x: char)
    requires m < |CustomRows(sections)|
    requires forall s :: s in sections ==> x !in s.name && forall c :: c in s.items ==> x !in c.name
    ensures exists sec: string, item: BudgetCategory ::
      CustomRows(sections)[m] == ItemRow(sec, item) && x !in sec && x !in item.name
    decreases |sections|
  {
    var n := |sections| - 1;
    var p, last := sections[..n], sections[n];
    assert last in sections;
    var c := CustomRows(p);
    if m < |c| {
      assert forall s :: s in p ==> s in sections;
      CustomRowOrigin(p, m, x);
    } else {
      assert last.items[m - |c|] in last.items;
      assert CustomRows(sections)[m] == ItemRow(last.name, last.items[m - |c|]);
    }
  }

  /**
   * When no name holds a newline, splitting the file at newlines gives back
   * one line per row, the header's first.
   */
  lemma ContentLines(income: seq<BudgetCategory>, expenses: seq<BudgetCategory>, sections: seq<CustomSection>)
    requires forall c :: c in income ==> '\n' !in c.name
    requires forall c :: c in expenses ==> '\n' !in c.name
    requires forall s :: s in sections ==> '\n' !in s.name && forall c :: c in s.items ==> '\n' !in c.name
    ensures var rows := Rows(income, expenses, sections);
      Split(CsvContent(rows), '\n') == CsvLines(rows)
      && |Split(CsvContent(rows), '\n')| == 1 + |income| + |expenses| + Sum(sections, ItemCount)
  {
    var rows := Rows(income, expenses, sections);
    CellsFree(income, expenses, sections, '\n');
    RowsShape(income, expenses, sections);
    var lines := CsvLines(rows);
    forall l | l in lines ensures '\n' !in l {
      var i :| 0 <= i < |lines| && lines[i] == l;
      LineFree(rows[i], '\n');
    }
    SplitJoin(lines, '\n');
  }

  /** When no cell holds a comma, splitting a line at commas gives back its quoted cells. */
  lemma LineCells(row: Row)
    requires |row| > 0
    requires forall c :: c in row ==> ',' !in c
    ensures Split(CsvLine(row), ',') == QuotedCells(row)
  {
    var q := QuotedCells(row);
    forall p | p in q ensures ',' !in p {
      var i :| 0 <= i < |q| && q[i] == p;
      assert row[i] in row;
      QuoteCellFree(row[i], ',');
    }
    SplitJoin(q, ',');
  }

  /** Every line of an export opens and closes with a quote, so the file does not end in a newline. */
  lemma ContentEndsWithQuote(income: seq<BudgetCategory>, expenses: seq<BudgetCategory>, sections: seq<CustomSection>)
    ensures var content := CsvContent(Rows(income, expenses, sections));
      |content| > 0 && content[0] == '"' && content[|content| - 1] == '"'
  {
    RowsWidth(income, expenses, sections);
  }

  predicate AllWidth(rows: seq<Row>, n: nat) {
    forall i :: 0 <= i < |rows| ==> |rows[i]| == n
  }

  lemma AllWidthConcat(a: seq<Row>, b: seq<Row>, n: nat)
    requires AllWidth(a, n) && AllWidth(b, n)
    ensures AllWidth(a + b, n)
  {
    forall i | 0 <= i < |a + b| ensures |(a + b)[i]| == n {
      if i >= |a| { assert (a + b)[i] == b[i - |a|]; }
    }
  }

  /** Every row of an export, the header's included, has five cells. */
  lemma RowsWidth(income: seq<BudgetCategory>, expenses: seq<BudgetCategory>, sections: seq<CustomSection>)
    ensures AllWidth(Rows(income, expenses, sections), 5)
  {
    CustomRowsWidth(sections);
    var a, b, c := SectionRows(IncomeLabel, income), SectionRows(ExpensesLabel, expenses), CustomRows(sections);
    AllWidthConcat([Header], a, 5);
    AllWidthConcat([Header] + a, b, 5);
    AllWidthConcat([Header] + a + b, c, 5);
  }

  lemma {:induction false} CustomRowsWidth(sections: seq<CustomSection>)
    ensures AllWidth(CustomRows(sections), 5)
    decreases |sections|
  {
    if sections != [] {
      var last := sections[|sections| - 1];
      CustomRowsWidth(sections[..|sections| - 1]);
      AllWidthConcat(CustomRows(sections[..|sections| - 1]), SectionRows(last.name, last.items), 5);
    }
  }

  /** Joining non-empty parts that all start and end with a quote gives such a string. */
  lemma {:induction false} JoinEnds(parts: seq<string>, sep: char)
    requires |parts| > 0
    requires forall i :: 0 <= i < |parts| ==> |parts[i]| > 0 && parts[i][0] == '"' && parts[i][|parts[i]| - 1] == '"'
    ensures var j := Join(parts, sep); |j| > 0 && j[0] == '"' && j[|j| - 1] == '"'
    decreases |parts|
  {
    if |parts| > 1 {
      JoinEnds(parts[1..], sep);
    }
  }

  /**
   * The cells are not escaped (section 2, rule 7 of RFC 4180 doubles a quote
   * inside a quoted field): a name holding `","` writes the same line as
   * two separate cells, so the line does not determine the row.
   */
  lemma UnescapedQuoteCollision()
    ensures ["a\",\"b"] != ["a", "b"]
    ensures CsvLine(["a\",\"b"]) == CsvLine(["a", "b"])
  {
    QuoteCollision("a", "b");
    assert "a" + "\",\"" + "b" == "a\",\"b";
  }

  /** A cell `a","b` writes what the two cells `a` and `b` write. */
  lemma QuoteCollision(a: string, b: string)
    ensures CsvLine([a + "\",\"" + b]) == CsvLine([a, b])
  {
    OneCellLine(a + "\",\"" + b);
    TwoCellLine(a, b);
    assert QuoteCell(a + "\",\"" + b) == QuoteCell(a) + [','] + QuoteCell(b);
  }

  lemma OneCellLine(c: string)
    ensures CsvLine([c]) == QuoteCell(c)
  {
    assert QuotedCells([c]) == [QuoteCell(c)];
  }

  lemma TwoCellLine(a: string, b: string)
    ensures CsvLine([a, b]) == QuoteCell(a) + [','] + QuoteCell(b)
  {
    var q := QuotedCells([a, b]);
    assert q == [QuoteCell(a), QuoteCell(b)];
    JoinTwo(QuoteCell(a), QuoteCell(b), ',');
  }

  lemma JoinTwo(a: string, b: string, sep: char)
    ensures Join([a, b], sep) == a + [sep] + b
  {
    assert [a, b][1..] == [b];
  }
}

/** The profit and loss report of app/profit-loss/page.tsx: income from the revenue
    rows, expenses from the expense rows, net profit and margin, the health label, the
    expense bar and the CSV export. */
module ProfitLoss {
  import opened Basics
  import opened Decimal

  datatype Figures = Figures(income: int, expenses: int, netProfit: int, margin: real)

  /** The figures before the first fetch. */
  function InitialFigures(): Figures
  {
    Figures(0, 0, 0, 0.0)
  }

  /** `data?.reduce((acc, curr) => acc + (curr.x || 0), 0) || 0` over one column; null
      data reads as no rows. */
  function ColumnTotal(column: Option<seq<Option<int>>>): int
  {
    if column.Some? then SumOf(OrZero, column.value) else 0
  }

  /** `fetchFinancialData`: query errors are not checked, so a failed query reads as no
      rows. */
  function Compute(revenue: Option<seq<Option<int>>>, expenses: Option<seq<Option<int>>>): (f: Figures)
    ensures f.income == ColumnTotal(revenue) && f.expenses == ColumnTotal(expenses)
    ensures f.netProfit + f.expenses == f.income
    ensures f.income > 0 ==> f.margin * f.income as real == f.netProfit as real * 100.0
    ensures f.income <= 0 ==> f.margin == 0.0
  {
    var income := ColumnTotal(revenue);
    var spent := ColumnTotal(expenses);
    var net := income - spent;
    Figures(income, spent, net, if income > 0 then (net as real / income as real) * 100.0 else 0.0)
  }

  /** With no negative expenses the margin never exceeds 100 percent. */
  lemma MarginAtMost100(revenue: Option<seq<Option<int>>>, expenses: Option<seq<Option<int>>>)
    requires Compute(revenue, expenses).expenses >= 0
    ensures Compute(revenue, expenses).margin <= 100.0
  {
    var f := Compute(revenue, expenses);
    if f.income > 0 {
      var q := f.netProfit as real / f.income as real;
      assert q * f.income as real == f.netProfit as real;
      assert f.netProfit <= f.income;
    }
  }

  /** The health label under the net profit. */
  function Label(netProfit: int): string
  {
    if netProfit >= 0 then "Performa Bagus" else "Defisit Keuangan"
  }

  lemma LabelIff(netProfit: int)
    ensures Label(netProfit) == "Performa Bagus" <==> netProfit >= 0
    ensures Label(netProfit) == "Defisit Keuangan" <==> netProfit < 0
  {
  }

  /** The width of the expense bar, in percent: `expenses / (income || 1) * 100`, capped
      at 100. */
  function ExpenseBarWidth(f: Figures): (w: real)
    ensures w <= 100.0
    ensures f.income > 0 && f.expenses >= 0 ==> w >= 0.0
    ensures f.income != 0 && f.expenses as real * 100.0 / f.income as real <= 100.0 ==>
      w == f.expenses as real * 100.0 / f.income as real
    ensures f.income != 0 && f.expenses as real * 100.0 / f.income as real > 100.0 ==> w == 100.0
    ensures f.income == 0 && f.expenses <= 1 ==> w == f.expenses as real * 100.0
    ensures f.income == 0 && f.expenses > 1 ==> w == 100.0
  {
    var base := if f.income != 0 then f.income else 1;
    var raw := (f.expenses as real / base as real) * 100.0;
    assert f.income != 0 ==> raw == f.expenses as real * 100.0 / f.income as real;
    if raw <= 100.0 then raw else 100.0
  }

  // ---------------------------------------------------------------- the export

  const CsvPrefix := "data:text/csv;charset=utf-8,"

  /** The four rows of the export, as category and value; `fixed2` is `toFixed(2)`. */
  function CsvRows(f: Figures, fixed2: real -> string): seq<seq<string>>
  {
    [["Total Pendapatan", IntToString(f.income)],
     ["Total Pengeluaran", IntToString(f.expenses)],
     ["Laba Bersih", IntToString(f.netProfit)],
     ["Margin (%)", fixed2(f.margin)]]
  }

  function JoinFields(row: seq<string>): string
  {
    Join(row, ",")
  }

  /** `exportToCSV`'s data URI: the prefix, the header, a line break and the rows one per
      line. */
  function CsvContent(f: Figures, fixed2: real -> string): string
  {
    CsvPrefix + Join(["Kategori", "Nilai (IDR)"], ",") + "\n" + Join(Map(JoinFields, CsvRows(f, fixed2)), "\n")
  }

  /** The download name `Laporan_Keuangan_${date}.csv`; `today` is the date as
      `toLocaleDateString` prints it. The date can be cut back out of the name. */
  function CsvFileName(today: string): (name: string)
    ensures |name| == 17 + |today| + 4
    ensures name[..17] == "Laporan_Keuangan_" && name[|name| - 4..] == ".csv"
    ensures name[17..|name| - 4] == today
  {
    "Laporan_Keuangan_" + today + ".csv"
  }

  /** The rows come in the fixed order income, expenses, net profit, margin, and the
      three whole-number values read back as the figures they print. */
  lemma CsvReadsBack(f: Figures, fixed2: real -> string)
    ensures var rows := CsvRows(f, fixed2);
            && |rows| == 4
            && (forall k :: 0 <= k < 4 ==> |rows[k]| == 2)
            && rows[0][0] == "Total Pendapatan" && ParseInt(rows[0][1]) == Some(f.income)
            && rows[1][0] == "Total Pengeluaran" && ParseInt(rows[1][1]) == Some(f.expenses)
            && rows[2][0] == "Laba Bersih" && ParseInt(rows[2][1]) == Some(f.netProfit)
            && rows[3] == ["Margin (%)", fixed2(f.margin)]
  {
    IntRoundTrip(f.income);
    IntRoundTrip(f.expenses);
    IntRoundTrip(f.netProfit);
  }

  /** The content after the prefix is the header line over the four row lines. */
  lemma CsvLayout(f: Figures, fixed2: real -> string)
    ensures CsvContent(f, fixed2) ==
      CsvPrefix + Join(["Kategori,Nilai (IDR)"] + Map(JoinFields, CsvRows(f, fixed2)), "\n")
  {
    var lines := Map(JoinFields, CsvRows(f, fixed2));
    var header := ["Kategori", "Nilai (IDR)"];
    assert header[..1] == ["Kategori"];
    assert Join(header, ",") == "Kategori,Nilai (IDR)";
    JoinSplit(["Kategori,Nilai (IDR)"], lines, "\n");
  }
}

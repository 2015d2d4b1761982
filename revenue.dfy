/** The revenue report of app/revenue/page.tsx: the fetched revenue records, the
    dine-in / takeaway tabs, the summary figures, the CSV export and the reset. */
module Revenue {
  import opened Basics
  import opened Decimal

  /** A row of the `revenue` table; a null column is `None`. */
  datatype RevenueRow = RevenueRow(
    id: string,
    createdAt: int,
    tableNumber: Option<int>,
    paymentMethod: Option<string>,
    totalAmount: Option<int>)

  datatype Tab = DineIn | Takeaway

  /** The tab's name as the page writes it into file names and toasts. */
  function TabName(tab: Tab): string
  {
    match tab
    case DineIn => "dine_in"
    case Takeaway => "takeaway"
  }

  // ---------------------------------------------------------------- the tabs

  /** The tab test: `table_number === 0` for takeaway, `table_number > 0` otherwise; a
      null table number passes neither. */
  function InTab(tab: Tab): RevenueRow -> bool
  {
    (r: RevenueRow) =>
      if tab == Takeaway then r.tableNumber == Some(0)
      else r.tableNumber.Some? && r.tableNumber.value > 0
  }

  /** `filteredData`: the records of the active tab, in fetch order. */
  function FilteredData(rows: seq<RevenueRow>, tab: Tab): (r: seq<RevenueRow>)
    ensures forall i :: 0 <= i < |r| ==> r[i] in rows && InTab(tab)(r[i])
    ensures forall i :: 0 <= i < |rows| && InTab(tab)(rows[i]) ==> rows[i] in r
  {
    Filter(InTab(tab), rows)
  }

  /** Each tab keeps the fetch order. */
  lemma FilteredDataKeepsOrder(a: seq<RevenueRow>, b: seq<RevenueRow>, tab: Tab)
    ensures FilteredData(a + b, tab) == FilteredData(a, tab) + FilteredData(b, tab)
  {
    FilterAppend(InTab(tab), a, b);
  }

  /** No record is on both tabs. */
  lemma TabsDisjoint(rows: seq<RevenueRow>, i: nat, j: nat)
    requires i < |FilteredData(rows, Takeaway)| && j < |FilteredData(rows, DineIn)|
    ensures FilteredData(rows, Takeaway)[i] != FilteredData(rows, DineIn)[j]
  {
  }

  function HasTableNumber(r: RevenueRow): bool
  {
    r.tableNumber.Some? && r.tableNumber.value >= 0
  }

  /** Together the two tabs hold every record with a table number of at least 0, each
      once. */
  lemma {:induction false} TabsCover(rows: seq<RevenueRow>)
    ensures |FilteredData(rows, Takeaway)| + |FilteredData(rows, DineIn)| == Count(HasTableNumber, rows)
  {
    if rows != [] {
      var r, rest := rows[0], rows[1..];
      TabsCover(rest);
      assert Filter(InTab(Takeaway), rows) == (if InTab(Takeaway)(r) then [r] else []) + Filter(InTab(Takeaway), rest);
      assert Filter(InTab(DineIn), rows) == (if InTab(DineIn)(r) then [r] else []) + Filter(InTab(DineIn), rest);
      assert Filter(HasTableNumber, rows) == (if HasTableNumber(r) then [r] else []) + Filter(HasTableNumber, rest);
    }
  }

  // ---------------------------------------------------------------- the summary

  function Amount(r: RevenueRow): int
  {
    OrZero(r.totalAmount)
  }

  /** `totalRevenue`: over all records, whatever the tab; a missing amount counts as 0. */
  function TotalRevenue(rows: seq<RevenueRow>): int
  {
    SumOf(Amount, rows)
  }

  /** `averageTransaction`, in exact arithmetic. */
  function AverageTransaction(rows: seq<RevenueRow>): (avg: real)
    ensures |rows| > 0 ==> avg * |rows| as real == TotalRevenue(rows) as real
    ensures |rows| == 0 ==> avg == 0.0
  {
    if |rows| > 0 then TotalRevenue(rows) as real / |rows| as real else 0.0
  }

  /** With no negative amounts the average is no more than the total and not below 0. */
  lemma AverageBounds(rows: seq<RevenueRow>)
    requires forall i :: 0 <= i < |rows| ==> Amount(rows[i]) >= 0
    ensures 0.0 <= AverageTransaction(rows) <= TotalRevenue(rows) as real
  {
    forall x | x in rows ensures Amount(x) >= 0 {
      var i :| 0 <= i < |rows| && rows[i] == x;
    }
    SumNonNegative(Amount, rows);
  }

  // ---------------------------------------------------------------- the export

  const Header := "ID Transaksi,Tanggal,Waktu,Tipe/Meja,Metode Pembayaran,Total Amount\n"

  /** A template-literal field: a null column prints as "null". */
  function OrNull(x: Option<string>): string
  {
    if x.Some? then x.value else "null"
  }

  function AmountText(x: Option<int>): string
  {
    if x.Some? then IntToString(x.value) else "null"
  }

  /** `tableInfo`. */
  function TableInfo(t: Option<int>): string
  {
    if t == Some(0) then "Takeaway"
    else "Meja " + (if t.Some? then IntToString(t.value) else "null")
  }

  /** The fields of one CSV row; `dateText` and `timeText` stand for the id-ID date and
      time formatting of the timestamp. */
  function RowFields(r: RevenueRow, dateText: int -> string, timeText: int -> string): seq<string>
  {
    [r.id, dateText(r.createdAt), timeText(r.createdAt), TableInfo(r.tableNumber),
     OrNull(r.paymentMethod), AmountText(r.totalAmount)]
  }

  function RowText(dateText: int -> string, timeText: int -> string): RevenueRow -> string
  {
    (r: RevenueRow) => Join(RowFields(r, dateText, timeText), ",")
  }

  datatype Export =
    | NoData(toast: Toast)
    | Download(content: string, fileName: string, toast: Toast)

  /** `exportToCSV` on the active tab; `today` is the local date text in the file
      name. */
  function ExportCsv(rows: seq<RevenueRow>, tab: Tab, dateText: int -> string, timeText: int -> string,
                     today: string): (e: Export)
    ensures e.NoData? <==> |FilteredData(rows, tab)| == 0
    ensures e.NoData? ==> e.toast == ErrorToast("Tidak ada data untuk diekspor")
    ensures e.Download? ==>
      && e.fileName == "Laporan_" + TabName(tab) + "_" + today + ".csv"
      && e.toast == SuccessToast("Laporan " + TabName(tab) + " berhasil diunduh!")
  {
    var data := FilteredData(rows, tab);
    if |data| == 0 then NoData(ErrorToast("Tidak ada data untuk diekspor"))
    else
      Download(Join([Header] + Map(RowText(dateText, timeText), data), "\n"),
               "Laporan_" + TabName(tab) + "_" + today + ".csv",
               SuccessToast("Laporan " + TabName(tab) + " berhasil diunduh!"))
  }

  /** The file is the header (which already ends in a newline, so a blank line follows
      it) and then one row per record of the tab, in tab order. */
  lemma ExportLayout(rows: seq<RevenueRow>, tab: Tab, dateText: int -> string, timeText: int -> string,
                     today: string)
    requires |FilteredData(rows, tab)| > 0
    ensures var data := FilteredData(rows, tab);
            var lines := Map(RowText(dateText, timeText), data);
            && |lines| == |data|
            && (forall i :: 0 <= i < |data| ==> lines[i] == Join(RowFields(data[i], dateText, timeText), ","))
            && ExportCsv(rows, tab, dateText, timeText, today).content == Header + "\n" + Join(lines, "\n")
  {
    var lines := Map(RowText(dateText, timeText), FilteredData(rows, tab));
    JoinSplit([Header], lines, "\n");
  }

  function NewlineFree(s: string): bool
  {
    CharCount(s, '\n') == 0
  }

  predicate FieldsNewlineFree(r: RevenueRow, dateText: int -> string, timeText: int -> string)
  {
    var fields := RowFields(r, dateText, timeText);
    forall k :: 0 <= k < |fields| ==> NewlineFree(fields[k])
  }

  /** When no field holds a newline, the file has the header's own line break and then
      exactly one more per record: the blank line after the header, and one between
      each two rows. */
  lemma ExportLineBreaks(rows: seq<RevenueRow>, tab: Tab, dateText: int -> string, timeText: int -> string,
                         today: string)
    requires |FilteredData(rows, tab)| > 0
    requires forall i :: 0 <= i < |rows| ==> FieldsNewlineFree(rows[i], dateText, timeText)
    ensures CharCount(ExportCsv(rows, tab, dateText, timeText, today).content, '\n') ==
            CharCount(Header, '\n') + |FilteredData(rows, tab)|
  {
    var lines := Map(RowText(dateText, timeText), FilteredData(rows, tab));
    LinesNewlineFree(rows, tab, dateText, timeText);
    AfterHeaderCount(Header, lines);
  }

  lemma LinesNewlineFree(rows: seq<RevenueRow>, tab: Tab, dateText: int -> string, timeText: int -> string)
    requires forall i :: 0 <= i < |rows| ==> FieldsNewlineFree(rows[i], dateText, timeText)
    ensures var lines := Map(RowText(dateText, timeText), FilteredData(rows, tab));
            forall i :: 0 <= i < |lines| ==> NewlineFree(lines[i])
  {
    var data := FilteredData(rows, tab);
    forall i | 0 <= i < |data| ensures NewlineFree(RowText(dateText, timeText)(data[i])) {
      assert data[i] in rows;
      JoinNoNewline(RowFields(data[i], dateText, timeText));
    }
  }

  lemma AfterHeaderCount(head: string, lines: seq<string>)
    requires forall i :: 0 <= i < |lines| ==> NewlineFree(lines[i])
    ensures CharCount(Join([head] + lines, "\n"), '\n') == CharCount(head, '\n') + |lines|
  {
    JoinLinesCount([head] + lines);
  }

  /** Joining newline-free fields with commas adds no newline. */
  lemma {:induction false} JoinNoNewline(fields: seq<string>)
    requires forall k :: 0 <= k < |fields| ==> NewlineFree(fields[k])
    ensures NewlineFree(Join(fields, ","))
    decreases |fields|
  {
    if |fields| > 1 {
      var init := fields[..|fields| - 1];
      JoinNoNewline(init);
      CharCountAppend(Join(init, ",") + ",", fields[|fields| - 1], '\n');
      CharCountAppend(Join(init, ","), ",", '\n');
      assert CharCount(",", '\n') == 0 by {
        assert ","[1..] == [];
      }
    }
  }

  /** The line breaks of a newline join: one between each two parts, plus those of the
      first part; the others hold none. */
  lemma {:induction false} JoinLinesCount(parts: seq<string>)
    requires |parts| > 0
    requires forall i :: 1 <= i < |parts| ==> CharCount(parts[i], '\n') == 0
    ensures CharCount(Join(parts, "\n"), '\n') == |parts| - 1 + CharCount(parts[0], '\n')
    decreases |parts|
  {
    if |parts| > 1 {
      var init := parts[..|parts| - 1];
      JoinLinesCount(init);
      CharCountAppend(Join(init, "\n") + "\n", parts[|parts| - 1], '\n');
      CharCountAppend(Join(init, "\n"), "\n", '\n');
      assert CharCount("\n", '\n') == 1 by {
        assert "\n"[1..] == [];
      }
    }
  }

  // ---------------------------------------------------------------- the page

  /** How the backend answered: an error (with its message) or the rows, which may be
      null. */
  datatype FetchReply = FetchFailed(message: string) | Fetched(data: Option<seq<RevenueRow>>)

  /** How the delete of every row ended. */
  datatype DeleteReply = DeleteFailed(message: string) | Deleted

  class RevenuePage {
    var revenueData: seq<RevenueRow>
    var activeTab: Tab

    constructor ()
      ensures revenueData == [] && activeTab == DineIn
    {
      revenueData := [];
      activeTab := DineIn;
    }

    /** `fetchRevenue`: the rows newest first as the backend sorts them; null data reads
        as no rows; on an error the old rows stay. */
    method FetchRevenue(reply: FetchReply) returns (toast: Toast)
      modifies this`revenueData
      ensures reply.Fetched? ==> toast == NoToast && revenueData == (if reply.data.Some? then reply.data.value else [])
      ensures reply.FetchFailed? ==> toast == ErrorToast("Gagal memuat laporan") && revenueData == old(revenueData)
    {
      match reply
      case Fetched(data) =>
        revenueData := if data.Some? then data.value else [];
        toast := NoToast;
      case FetchFailed(_) =>
        toast := ErrorToast("Gagal memuat laporan");
    }

    /** `handleResetRevenue`: the backend deletes every row; only on success does the
        page clear its list. */
    method ResetRevenue(reply: DeleteReply) returns (toast: Toast)
      modifies this`revenueData
      ensures reply.Deleted? ==> revenueData == [] && toast == SuccessToast("Penjualan telah di-reset.")
      ensures reply.DeleteFailed? ==>
        revenueData == old(revenueData) && toast == ErrorToast("Gagal reset: " + reply.message)
    {
      match reply
      case Deleted =>
        revenueData := [];
        toast := SuccessToast("Penjualan telah di-reset.");
      case DeleteFailed(message) =>
        toast := ErrorToast("Gagal reset: " + message);
    }

    method SetTab(tab: Tab)
      modifies this`activeTab
      ensures activeTab == tab
    {
      activeTab := tab;
    }

    function Shown(): seq<RevenueRow>
      reads this
    {
      FilteredData(revenueData, activeTab)
    }

    function Export(dateText: int -> string, timeText: int -> string, today: string): Export
      reads this
    {
      ExportCsv(revenueData, activeTab, dateText, timeText, today)
    }
  }
}

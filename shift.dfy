/** The cashier shift manager of app/shift/page.tsx: a session is opened with a staff
    name and an opening float, the sales booked since it opened accumulate, and closing
    it with the counted drawer cash records the variance. The page's React state is the
    class `ShiftPage`; the rows of the owner's `shifts` table that the page writes are its
    `store` field. */
module Shift {
  import opened Basics
  import opened Decimal

  datatype ShiftStatus = Active | Closed

  /** A row of the `shifts` table. Timestamps are instants as integers. */
  datatype ShiftRecord = ShiftRecord(
    id: string,
    picName: string,
    startingCash: int,
    shiftName: string,
    status: ShiftStatus,
    startTime: int,
    actualCash: Option<int>,
    expectedRevenue: Option<int>,
    endTime: Option<int>,
    notes: Option<string>)

  /** An order row as the sales query reads it; a `totalAmount` of None is a null or
      non-numeric amount. */
  datatype OrderRow = OrderRow(totalAmount: Option<int>, createdAt: int, status: string)

  /** How a backend round trip ended: no signed-in user (the handler returns without a
      message), an error, or success. */
  datatype Reply = NoUser | Failed | Ok

  /** `now.getHours() < 15 ? "PAGI" : "SORE"`: the morning shift runs until 15:00. */
  function ShiftName(hour: int): (r: string)
    ensures r == "PAGI" <==> hour < 15
    ensures r == "PAGI" || r == "SORE"
  {
    if hour < 15 then "PAGI" else "SORE"
  }

  // ---------------------------------------------------------------- sales in a shift

  /** The order statuses the sales query accepts. */
  predicate IsPaidStatus(status: string)
  {
    status == "paid" || status == "completed" || status == "success"
  }

  /** `Number(order.total_amount) || 0`. */
  function OrderAmount(o: OrderRow): int
  {
    OrZero(o.totalAmount)
  }

  /** The sales query's filter: created at or after the shift's start, and paid. */
  function SoldSince(since: int): OrderRow -> bool
  {
    (o: OrderRow) => o.createdAt >= since && IsPaidStatus(o.status)
  }

  /** `realtimeSales` as `fetchActiveShift` computes it. */
  function SalesSince(orders: seq<OrderRow>, since: int): int
  {
    SumOf(OrderAmount, Filter(SoldSince(since), orders))
  }

  /** One more order adds its amount exactly when it is paid and not older than the
      shift; together with the empty case this determines the sales figure. */
  lemma SalesSinceSnoc(orders: seq<OrderRow>, o: OrderRow, since: int)
    ensures SalesSince(orders + [o], since) ==
            SalesSince(orders, since) +
            (if o.createdAt >= since && IsPaidStatus(o.status) then OrZero(o.totalAmount) else 0)
  {
    var p := SoldSince(since);
    FilterAppend(p, orders, [o]);
    SumAppend(OrderAmount, Filter(p, orders), Filter(p, [o]));
    assert [o][1..] == [];
  }

  /** Sales are never negative when no single amount is. */
  lemma SalesSinceNonNegative(orders: seq<OrderRow>, since: int)
    requires forall i :: 0 <= i < |orders| ==> OrZero(orders[i].totalAmount) >= 0
    ensures SalesSince(orders, since) >= 0
  {
    var kept := Filter(SoldSince(since), orders);
    forall x | x in kept ensures OrderAmount(x) >= 0 {
      var i :| 0 <= i < |kept| && kept[i] == x;
      assert x in orders;
    }
    SumNonNegative(OrderAmount, kept);
  }

  /** `.eq('status', 'active').maybeSingle()`: the active row when there is exactly one;
      none when there is none, and none (the query errors) when there are several. */
  function ActiveShiftOf(store: seq<ShiftRecord>): (r: Option<ShiftRecord>)
    ensures r.Some? <==> |Filter(IsActive, store)| == 1
    ensures r.Some? ==> r.value == Filter(IsActive, store)[0]
    ensures r.Some? ==> r.value in store && r.value.status == Active
    ensures r.Some? ==> forall i :: 0 <= i < |store| && store[i].status == Active ==> store[i] == r.value
  {
    var active := Filter(IsActive, store);
    if |active| == 1 then Some(active[0]) else None
  }

  predicate IsActive(r: ShiftRecord)
  {
    r.status == Active
  }

  /** Opening a shift while none is active makes the new row the one the page finds. */
  lemma StartedShiftIsFound(store: seq<ShiftRecord>, row: ShiftRecord)
    requires forall i :: 0 <= i < |store| ==> store[i].status != Active
    requires row.status == Active
    ensures ActiveShiftOf(store + [row]) == Some(row)
  {
    forall x | x in store ensures !IsActive(x) {
      var i :| 0 <= i < |store| && store[i] == x;
    }
    FilterDropsAll(IsActive, store);
    FilterAppend(IsActive, store, [row]);
    FilterSingle(IsActive, row);
  }

  // ---------------------------------------------------------------- closing a shift

  /** The note written on close: "BALANCE" for an exact drawer, otherwise the signed
      difference after "SELISIH: ". */
  function CloseNotes(variance: int): (r: string)
    ensures r == "BALANCE" <==> variance == 0
    ensures variance != 0 ==> |r| > 9 && r[..9] == "SELISIH: " && ParseInt(r[9..]) == Some(variance)
  {
    if variance == 0 then "BALANCE"
    else
      var r := "SELISIH: " + IntToString(variance);
      assert r[9..] == IntToString(variance);
      IntRoundTrip(variance);
      r
  }

  /** Reads a closing note back to the variance it records. */
  function NotesVariance(notes: string): Option<int>
  {
    if notes == "BALANCE" then Some(0)
    else if |notes| >= 9 && notes[..9] == "SELISIH: " then ParseInt(notes[9..])
    else None
  }

  /** The note is a faithful record: the variance can be read back from it. */
  lemma NotesRoundTrip(variance: int)
    ensures NotesVariance(CloseNotes(variance)) == Some(variance)
  {
  }

  /** The fields the close `update` writes onto a row. */
  function ApplyClose(row: ShiftRecord, actual: int, sales: int, now: int, notes: string): ShiftRecord
  {
    row.(actualCash := Some(actual), expectedRevenue := Some(sales), endTime := Some(now),
         status := Closed, notes := Some(notes))
  }

  /** The `update(...).eq('id', id)` of `handleEndShift`: every row with that id gets the
      close fields, every other row stays as it was. */
  function CloseRows(store: seq<ShiftRecord>, id: string, actual: int, sales: int, now: int,
                     notes: string): (r: seq<ShiftRecord>)
    ensures |r| == |store|
    ensures forall i :: 0 <= i < |store| ==>
              r[i] == if store[i].id == id then ApplyClose(store[i], actual, sales, now, notes)
                      else store[i]
  {
    Map(CloseIfId(id, actual, sales, now, notes), store)
  }

  /** The owner's rows after `shift` is closed with the counted cash `actual` and the
      sales `sales`: the row gets the variance note computed from them. */
  function ClosedStore(store: seq<ShiftRecord>, shift: ShiftRecord, actual: int, sales: int, now: int)
    : seq<ShiftRecord>
  {
    CloseRows(store, shift.id, actual, sales, now, CloseNotes(actual - (shift.startingCash + sales)))
  }

  /** Closing the shift the page found leaves no active row: the next fetch finds none. */
  lemma ClosedShiftIsGone(store: seq<ShiftRecord>, shift: ShiftRecord, actual: int, sales: int, now: int)
    requires ActiveShiftOf(store) == Some(shift)
    ensures ActiveShiftOf(ClosedStore(store, shift, actual, sales, now)) == None
  {
    var r := ClosedStore(store, shift, actual, sales, now);
    forall x | x in r ensures !IsActive(x) {
      var i :| 0 <= i < |r| && r[i] == x;
    }
    FilterDropsAll(IsActive, r);
  }

  /** The closed rows the history query returns. */
  function ClosedHistory(store: seq<ShiftRecord>): (r: seq<ShiftRecord>)
    ensures forall i :: 0 <= i < |r| ==> r[i].status == Closed && r[i] in store
    ensures forall i :: 0 <= i < |store| && store[i].status == Closed ==> store[i] in r
  {
    Filter(IsClosed, store)
  }

  predicate IsClosed(r: ShiftRecord)
  {
    r.status == Closed
  }

  /** The history keeps the table's order: it works piecewise on a concatenation. */
  lemma ClosedHistoryOrder(a: seq<ShiftRecord>, b: seq<ShiftRecord>)
    ensures ClosedHistory(a + b) == ClosedHistory(a) + ClosedHistory(b)
  {
    FilterAppend(IsClosed, a, b);
  }

  /** A shift closed from the page shows up in the history, with the note and the
      figures written on close. */
  lemma ClosedShiftInHistory(store: seq<ShiftRecord>, shift: ShiftRecord, actual: int, sales: int, now: int)
    requires shift in store
    ensures ApplyClose(shift, actual, sales, now, CloseNotes(actual - (shift.startingCash + sales)))
              in ClosedHistory(ClosedStore(store, shift, actual, sales, now))
  {
    ClosedRowInHistory(store, shift, actual, sales, now, CloseNotes(actual - (shift.startingCash + sales)));
  }

  lemma ClosedRowInHistory(store: seq<ShiftRecord>, shift: ShiftRecord, actual: int, sales: int, now: int,
                           notes: string)
    requires shift in store
    ensures ApplyClose(shift, actual, sales, now, notes)
              in ClosedHistory(CloseRows(store, shift.id, actual, sales, now, notes))
  {
    var i :| 0 <= i < |store| && store[i] == shift;
    var r := CloseRows(store, shift.id, actual, sales, now, notes);
    assert r[i].status == Closed;
  }

  function CloseIfId(id: string, actual: int, sales: int, now: int, notes: string)
    : ShiftRecord -> ShiftRecord
  {
    (row: ShiftRecord) => if row.id == id then ApplyClose(row, actual, sales, now, notes) else row
  }

  // ---------------------------------------------------------------- history rows

  /** A history row's variance: `Number(actual_cash) - (Number(starting_cash) +
      Number(expected_revenue))`, where `Number(null)` is 0. */
  function HistoryVariance(row: ShiftRecord): int
  {
    OrZero(row.actualCash) - (row.startingCash + OrZero(row.expectedRevenue))
  }

  /** The variance line of a history row: "STABIL", or "SELISIH: " and the amount. */
  datatype VarianceBadge = Stabil | Selisih(amount: int)

  function HistoryBadge(row: ShiftRecord): (b: VarianceBadge)
    ensures b == Stabil <==> HistoryVariance(row) == 0
    ensures b.Selisih? ==> b.amount == HistoryVariance(row)
  {
    var v := HistoryVariance(row);
    if v == 0 then Stabil else Selisih(v)
  }

  /** A history row is shown in red exactly when the drawer was short. */
  predicate ShownAsShortage(row: ShiftRecord)
  {
    HistoryVariance(row) < 0
  }

  /** The balance law: the row written on close shows, in the history list, exactly the
      variance computed at close (actual cash minus the opening float plus the sales), it
      is "STABIL" exactly when its note is "BALANCE", and the note reads back to it. */
  lemma BalanceLaw(shift: ShiftRecord, actual: int, sales: int, now: int)
    ensures var row := ApplyClose(shift, actual, sales, now,
                                  CloseNotes(actual - (shift.startingCash + sales)));
            && row.status == Closed
            && HistoryVariance(row) == actual - (shift.startingCash + sales)
            && (HistoryBadge(row) == Stabil <==> row.notes == Some("BALANCE"))
            && NotesVariance(row.notes.value) == Some(HistoryVariance(row))
  {
    NotesRoundTrip(actual - (shift.startingCash + sales));
  }

  /** Deleting from the history keeps the rows whose id differs. */
  function KeepsOtherId(id: string): ShiftRecord -> bool
  {
    (row: ShiftRecord) => row.id != id
  }

  /** `history.filter(item => item.id !== id)`. */
  function WithoutId(rows: seq<ShiftRecord>, id: string): (r: seq<ShiftRecord>)
    ensures forall i :: 0 <= i < |r| ==> r[i].id != id && r[i] in rows
    ensures forall i :: 0 <= i < |rows| && rows[i].id != id ==> rows[i] in r
  {
    Filter(KeepsOtherId(id), rows)
  }

  /** Deleting keeps the other rows in their order: it works piecewise on a
      concatenation, leaves a row with another id in place and drops a row with the id. */
  lemma WithoutIdOrder(a: seq<ShiftRecord>, b: seq<ShiftRecord>, id: string)
    ensures WithoutId(a + b, id) == WithoutId(a, id) + WithoutId(b, id)
  {
    FilterAppend(KeepsOtherId(id), a, b);
  }

  lemma WithoutIdSingle(row: ShiftRecord, id: string)
    ensures WithoutId([row], id) == if row.id == id then [] else [row]
  {
    assert [row][1..] == [];
  }

  /** Deleting an id that no row has changes nothing. */
  lemma WithoutAbsentId(rows: seq<ShiftRecord>, id: string)
    requires forall i :: 0 <= i < |rows| ==> rows[i].id != id
    ensures WithoutId(rows, id) == rows
  {
    forall x | x in rows ensures KeepsOtherId(id)(x) {
      var i :| 0 <= i < |rows| && rows[i] == x;
    }
    FilterKeepsAll(KeepsOtherId(id), rows);
  }

  // ---------------------------------------------------------------- the page

  class ShiftPage {
    var currentShift: Option<ShiftRecord>
    var history: seq<ShiftRecord>
    /** The counted-cash input: None is the empty field. */
    var actualCash: Option<int>
    /** The staff picker: "" is "Pilih Staff...". */
    var selectedStaff: string
    /** The opening-float input: None is the empty field. */
    var openingCash: Option<int>
    var realtimeSales: int
    /** The owner's rows of the `shifts` table. */
    var store: seq<ShiftRecord>

    constructor (rows: seq<ShiftRecord>)
      ensures currentShift == None && history == [] && actualCash == None
      ensures selectedStaff == "" && openingCash == None && realtimeSales == 0
      ensures store == rows
    {
      currentShift := None;
      history := [];
      actualCash := None;
      selectedStaff := "";
      openingCash := None;
      realtimeSales := 0;
      store := rows;
    }

    /** "Saldo Sistem": the cash the drawer should hold now. */
    function SystemBalance(): int
      reads this
      requires currentShift.Some?
    {
      currentShift.value.startingCash + realtimeSales
    }

    method SelectStaff(name: string)
      modifies this`selectedStaff
      ensures selectedStaff == name
    {
      selectedStaff := name;
    }

    method SetOpeningCash(value: Option<int>)
      modifies this`openingCash
      ensures openingCash == value
    {
      openingCash := value;
    }

    method SetActualCash(value: Option<int>)
      modifies this`actualCash
      ensures actualCash == value
    {
      actualCash := value;
    }

    /** `fetchActiveShift`: loads the active row and, when there is one, the sales booked
        since it started. `orders` are the owner's order rows (an order query that fails
        reads as no rows). */
    method FetchActiveShift(reply: Reply, orders: seq<OrderRow>)
      modifies this`currentShift, this`realtimeSales
      ensures reply == NoUser ==> currentShift == old(currentShift) && realtimeSales == old(realtimeSales)
      ensures reply == Failed ==> currentShift == None && realtimeSales == old(realtimeSales)
      ensures reply == Ok ==> currentShift == ActiveShiftOf(store)
      ensures reply == Ok && currentShift.Some? ==>
                realtimeSales == SalesSince(orders, currentShift.value.startTime)
      ensures reply == Ok && currentShift.None? ==> realtimeSales == old(realtimeSales)
    {
      if reply == NoUser {
        return;
      }
      var shift := if reply == Ok then ActiveShiftOf(store) else None;
      if shift.Some? {
        realtimeSales := SalesSince(orders, shift.value.startTime);
        currentShift := shift;
      } else {
        currentShift := None;
      }
    }

    /** `handleStartShift`: needs a staff name and an opening float; on success a new
        active row is inserted and becomes the current shift with no sales yet. */
    method StartShift(hour: int, now: int, newId: string, reply: Reply) returns (toast: Toast)
      modifies this`store, this`currentShift, this`realtimeSales
      ensures selectedStaff == "" || openingCash.None? ==>
                toast == ErrorToast("Pilih staff & isi modal!") &&
                store == old(store) && currentShift == old(currentShift) &&
                realtimeSales == old(realtimeSales)
      ensures selectedStaff != "" && openingCash.Some? && reply != Ok ==>
                toast == (if reply == NoUser then NoToast else ErrorToast("Gagal memulai shift")) &&
                store == old(store) && currentShift == old(currentShift) &&
                realtimeSales == old(realtimeSales)
      ensures selectedStaff != "" && openingCash.Some? && reply == Ok ==>
                var row := ShiftRecord(newId, selectedStaff, openingCash.value, ShiftName(hour),
                                       Active, now, None, None, None, None);
                && toast == SuccessToast("Shift dimulai")
                && store == old(store) + [row]
                && currentShift == Some(row)
                && realtimeSales == 0
    {
      if selectedStaff == "" || openingCash.None? {
        return ErrorToast("Pilih staff & isi modal!");
      }
      if reply == NoUser {
        return NoToast;
      }
      if reply == Failed {
        return ErrorToast("Gagal memulai shift");
      }
      var row := ShiftRecord(newId, selectedStaff, openingCash.value, ShiftName(hour),
                             Active, now, None, None, None, None);
      store := store + [row];
      currentShift := Some(row);
      realtimeSales := 0;
      toast := SuccessToast("Shift dimulai");
    }

    /** `handleEndShift`: needs the counted cash; on success the current row is written
        as closed with the counted cash, the sales and the note, and the page forgets the
        shift and clears the input. The history reload the handler then starts, without
        waiting for it, is a separate `FetchShiftHistory`. */
    method EndShift(now: int, reply: Reply) returns (toast: Toast)
      modifies this`store, this`currentShift, this`actualCash
      ensures old(actualCash) == None ==>
                toast == ErrorToast("Masukkan uang fisik!") && store == old(store) &&
                currentShift == old(currentShift) && actualCash == old(actualCash)
      ensures old(actualCash).Some? && (reply != Ok || old(currentShift) == None) ==>
                toast == (if reply == NoUser then NoToast else ErrorToast("Gagal menutup shift")) &&
                store == old(store) && currentShift == old(currentShift) &&
                actualCash == old(actualCash)
      ensures old(actualCash).Some? && reply == Ok && old(currentShift).Some? ==>
                && toast == SuccessToast("Shift berhasil ditutup")
                && store == ClosedStore(old(store), old(currentShift).value, old(actualCash).value,
                                        realtimeSales, now)
                && currentShift == None
                && actualCash == None
    {
      if actualCash.None? {
        return ErrorToast("Masukkan uang fisik!");
      }
      if reply == NoUser {
        return NoToast;
      }
      if currentShift.None? || reply == Failed {
        return ErrorToast("Gagal menutup shift");
      }
      store := ClosedStore(store, currentShift.value, actualCash.value, realtimeSales, now);
      currentShift := None;
      actualCash := None;
      toast := SuccessToast("Shift berhasil ditutup");
    }

    /** `fetchShiftHistory`: the list shows the owner's closed rows; without a user, or
        when the query returns no data, the list stays as it was. */
    method FetchShiftHistory(reply: Reply)
      modifies this`history
      ensures reply == Ok ==> history == ClosedHistory(store)
      ensures reply != Ok ==> history == old(history)
    {
      if reply == Ok {
        history := ClosedHistory(store);
      }
    }

    /** `handleRefreshHistory`: reloads the list and always reports "Histori diperbarui". */
    method RefreshHistory(reply: Reply) returns (toast: Toast)
      modifies this`history
      ensures reply == Ok ==> history == ClosedHistory(store)
      ensures reply != Ok ==> history == old(history)
      ensures toast == SuccessToast("Histori diperbarui")
    {
      FetchShiftHistory(reply);
      toast := SuccessToast("Histori diperbarui");
    }

    /** `handleDeleteHistory`: after confirmation, deletes the rows with that id from the
        table and from the list on screen. */
    method DeleteHistory(id: string, confirmed: bool, reply: Reply) returns (toast: Toast)
      modifies this`store, this`history
      ensures !confirmed || reply != Ok ==>
                store == old(store) && history == old(history) &&
                toast == (if confirmed && reply == Failed then ErrorToast("Gagal menghapus histori")
                          else NoToast)
      ensures confirmed && reply == Ok ==>
                store == WithoutId(old(store), id) && history == WithoutId(old(history), id) &&
                toast == SuccessToast("Histori berhasil dihapus")
    {
      if !confirmed || reply == NoUser {
        return NoToast;
      }
      if reply == Failed {
        return ErrorToast("Gagal menghapus histori");
      }
      store := WithoutId(store, id);
      history := WithoutId(history, id);
      toast := SuccessToast("Histori berhasil dihapus");
    }
  }
}

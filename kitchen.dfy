/** The kitchen display of app/kitchen/page.tsx: a board of orders whose status the
    cooks advance with per-status buttons, the three status counters and the zone
    filter. */
module Kitchen {
  import opened Basics

  datatype OrderStatus = Pending | Preparing | Ready | Served

  datatype Priority = Normal | High

  datatype KitchenItem = KitchenItem(name: string, quantity: int, notes: Option<string>)

  datatype KitchenOrder = KitchenOrder(
    id: string,
    tableNumber: int,
    items: seq<KitchenItem>,
    status: OrderStatus,
    orderTime: string,
    waitTime: string,
    priority: Priority,
    zone: string)

  // ---------------------------------------------------------------- updateOrderStatus

  function SetStatus(id: string, s: OrderStatus): KitchenOrder -> KitchenOrder
  {
    (o: KitchenOrder) => if o.id == id then o.(status := s) else o
  }

  /** The updater `updateOrderStatus(id, s)` hands to `setOrders`. */
  function WithStatus(prev: seq<KitchenOrder>, id: string, s: OrderStatus): seq<KitchenOrder>
  {
    Map(SetStatus(id, s), prev)
  }

  /** The board keeps its length and order; the orders with that id get status `s` and
      keep every other field; every other order is unchanged. */
  lemma WithStatusEffect(prev: seq<KitchenOrder>, id: string, s: OrderStatus)
    ensures var r := WithStatus(prev, id, s);
            && |r| == |prev|
            && (forall i :: 0 <= i < |prev| && prev[i].id == id ==> r[i] == prev[i].(status := s))
            && (forall i :: 0 <= i < |prev| && prev[i].id != id ==> r[i] == prev[i])
  {
  }

  /** An id that is on no order leaves the board as it was. */
  lemma WithStatusAbsent(prev: seq<KitchenOrder>, id: string, s: OrderStatus)
    requires forall i :: 0 <= i < |prev| ==> prev[i].id != id
    ensures WithStatus(prev, id, s) == prev
  {
  }

  predicate UniqueIds(orders: seq<KitchenOrder>)
  {
    forall i, j :: 0 <= i < j < |orders| ==> orders[i].id != orders[j].id
  }

  lemma WithStatusKeepsIds(prev: seq<KitchenOrder>, id: string, s: OrderStatus)
    requires UniqueIds(prev)
    ensures UniqueIds(WithStatus(prev, id, s))
  {
    var r := WithStatus(prev, id, s);
    assert forall i :: 0 <= i < |r| ==> r[i].id == prev[i].id;
  }

  // ---------------------------------------------------------------- the action buttons

  /** The statuses the buttons of an order in status `s` move it to, in button order:
      "Mulai Masak" and the cross on a pending order, "Selesai" on one being prepared,
      "Sudah Diantar" on a ready one, nothing on a served one. */
  function OfferedActions(s: OrderStatus): seq<OrderStatus>
  {
    match s
    case Pending => [Preparing, Served]
    case Preparing => [Ready]
    case Ready => [Served]
    case Served => []
  }

  /** The kitchen's order of statuses. */
  function Rank(s: OrderStatus): nat
  {
    match s
    case Pending => 0
    case Preparing => 1
    case Ready => 2
    case Served => 3
  }

  /** The offered transitions are exactly these four. */
  lemma OfferedTransitions(s: OrderStatus, t: OrderStatus)
    ensures t in OfferedActions(s) <==>
      || (s == Pending && t == Preparing)
      || (s == Pending && t == Served)
      || (s == Preparing && t == Ready)
      || (s == Ready && t == Served)
  {
  }

  /** Every offered transition moves strictly forward, and a served order is offered
      none. */
  lemma OfferedMovesForward(s: OrderStatus, t: OrderStatus)
    requires t in OfferedActions(s)
    ensures Rank(s) < Rank(t)
    ensures s != Served
  {
  }

  /** Pressing a button on the board never moves any order backwards (with one order per
      id, the only order touched is the one whose button it is). */
  lemma ButtonNeverMovesBack(prev: seq<KitchenOrder>, k: nat, t: OrderStatus)
    requires UniqueIds(prev) && k < |prev|
    requires t in OfferedActions(prev[k].status)
    ensures var r := WithStatus(prev, prev[k].id, t);
            forall i :: 0 <= i < |prev| ==> Rank(prev[i].status) <= Rank(r[i].status)
  {
    OfferedMovesForward(prev[k].status, t);
  }

  // ---------------------------------------------------------------- stats

  function HasStatus(s: OrderStatus): KitchenOrder -> bool
  {
    (o: KitchenOrder) => o.status == s
  }

  /** `orders.filter((o) => o.status === s).length`. */
  function StatusCount(orders: seq<KitchenOrder>, s: OrderStatus): nat
  {
    Count(HasStatus(s), orders)
  }

  datatype Stats = Stats(pending: nat, preparing: nat, ready: nat)

  function StatsOf(orders: seq<KitchenOrder>): Stats
  {
    Stats(StatusCount(orders, Pending), StatusCount(orders, Preparing), StatusCount(orders, Ready))
  }

  /** The three counters and the served count share out the whole board. */
  lemma {:induction false} StatsPartition(orders: seq<KitchenOrder>)
    ensures var st := StatsOf(orders);
            st.pending + st.preparing + st.ready + StatusCount(orders, Served) == |orders|
  {
    if orders != [] {
      StatsPartition(orders[1..]);
    }
  }

  /** With one order per id, moving order `k` to status `t` adds one to the count of `t`
      and removes one from the count of its old status (when the two differ). */
  lemma {:induction false} StatusCountAfterUpdate(prev: seq<KitchenOrder>, k: nat, t: OrderStatus, s: OrderStatus)
    requires UniqueIds(prev) && k < |prev|
    ensures var r := WithStatus(prev, prev[k].id, t);
            StatusCount(r, s) ==
              StatusCount(prev, s)
              + (if t == s then 1 else 0)
              - (if prev[k].status == s then 1 else 0)
    decreases |prev|
  {
    var id := prev[k].id;
    var r := WithStatus(prev, id, t);
    assert r[0] == SetStatus(id, t)(prev[0]);
    assert r[1..] == WithStatus(prev[1..], id, t);
    if k == 0 {
      WithStatusAbsent(prev[1..], id, t);
    } else {
      assert prev[1..][k - 1] == prev[k];
      StatusCountAfterUpdate(prev[1..], k - 1, t, s);
    }
  }

  // ---------------------------------------------------------------- labels and zones

  /** `getStatusText`. */
  function StatusText(s: OrderStatus): string
  {
    match s
    case Pending => "Menunggu"
    case Preparing => "Diproses"
    case Ready => "Siap"
    case Served => "Terkirim"
  }

  /** No two statuses share a label. */
  lemma StatusTextDistinct(s: OrderStatus, t: OrderStatus)
    requires StatusText(s) == StatusText(t)
    ensures s == t
  {
  }

  /** The zone buttons. */
  function Zones(): seq<string>
  {
    ["Semua", "Hot Kitchen", "Cold Kitchen", "Grill", "Bar"]
  }

  function InZone(zone: string): KitchenOrder -> bool
  {
    (o: KitchenOrder) => o.zone == zone
  }

  /** `filteredOrders`: the whole board for "Semua", otherwise the orders of that
      zone. */
  function FilteredOrders(orders: seq<KitchenOrder>, zone: string): (r: seq<KitchenOrder>)
    ensures zone == "Semua" ==> r == orders
    ensures zone != "Semua" ==>
      && (forall i :: 0 <= i < |r| ==> r[i] in orders && r[i].zone == zone)
      && (forall i :: 0 <= i < |orders| && orders[i].zone == zone ==> orders[i] in r)
  {
    if zone == "Semua" then orders else Filter(InZone(zone), orders)
  }

  /** The filter keeps the board's order: the orders of one part of the board come before
      those of the part after it. */
  lemma FilteredOrdersKeepOrder(a: seq<KitchenOrder>, b: seq<KitchenOrder>, zone: string)
    ensures FilteredOrders(a + b, zone) == FilteredOrders(a, zone) + FilteredOrders(b, zone)
  {
    if zone != "Semua" {
      FilterAppend(InZone(zone), a, b);
    }
  }

  /** The board the page starts with. */
  function InitialOrders(): seq<KitchenOrder>
  {
    [ KitchenOrder("001", 5,
        [KitchenItem("Nasi Goreng Special", 2, Some("Pedas level 3")), KitchenItem("Ayam Bakar", 1, None)],
        Pending, "14:35", "2 min", High, "Hot Kitchen"),
      KitchenOrder("002", 8,
        [KitchenItem("Es Teh Manis", 3, None), KitchenItem("Jus Alpukat", 2, None)],
        Preparing, "14:32", "5 min", Normal, "Bar"),
      KitchenOrder("003", 2,
        [KitchenItem("Soto Ayam", 2, None), KitchenItem("Nasi Putih", 2, None)],
        Preparing, "14:28", "9 min", Normal, "Hot Kitchen"),
      KitchenOrder("004", 11,
        [KitchenItem("Steak Daging", 1, Some("Medium rare"))],
        Preparing, "14:25", "12 min", High, "Grill"),
      KitchenOrder("005", 4,
        [KitchenItem("Salad Caesar", 2, None)],
        Ready, "14:20", "17 min", Normal, "Cold Kitchen") ]
  }

  lemma InitialBoard()
    ensures UniqueIds(InitialOrders())
  {
  }

  // ---------------------------------------------------------------- the page

  class KitchenBoard {
    var orders: seq<KitchenOrder>
    var selectedZone: string

    ghost predicate Valid()
      reads this
    {
      UniqueIds(orders)
    }

    constructor ()
      ensures Valid()
      ensures orders == InitialOrders() && selectedZone == "Semua"
    {
      orders := InitialOrders();
      selectedZone := "Semua";
      InitialBoard();
    }

    /** `updateOrderStatus`: validates nothing, so any status may be written. */
    method UpdateOrderStatus(id: string, s: OrderStatus)
      requires Valid()
      modifies this`orders
      ensures Valid()
      ensures orders == WithStatus(old(orders), id, s)
    {
      WithStatusKeepsIds(orders, id, s);
      orders := WithStatus(orders, id, s);
    }

    method SelectZone(zone: string)
      modifies this`selectedZone
      ensures selectedZone == zone
    {
      selectedZone := zone;
    }

    function Shown(): seq<KitchenOrder>
      reads this
    {
      FilteredOrders(orders, selectedZone)
    }

    function Counters(): Stats
      reads this
    {
      StatsOf(orders)
    }
  }
}

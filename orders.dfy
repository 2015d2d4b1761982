/** Order entry of app/orders/page.tsx: the menu with its search box, the cart that
    `addToCart` grows, the table picker and the guard on the submit button. */
module Orders {
  import opened Basics

  datatype TableStatus = Available | Occupied

  datatype Table = Table(id: string, number: int, status: TableStatus)

  datatype MenuItem = MenuItem(id: string, name: string, price: int, category: string, image: string)

  /** A cart line: the menu item spread into the line, plus its quantity. */
  datatype CartLine = CartLine(item: MenuItem, quantity: int)

  // ---------------------------------------------------------------- the cart

  /** `prev.find(i => i.id === id)`: the first line for that item id. */
  function FindLine(cart: seq<CartLine>, id: string): (r: Option<CartLine>)
    ensures r.Some? <==> exists i :: 0 <= i < |cart| && cart[i].item.id == id
    ensures r.Some? ==> r.value in cart && r.value.item.id == id
  {
    if cart == [] then None
    else if cart[0].item.id == id then Some(cart[0])
    else
      var r := FindLine(cart[1..], id);
      assert forall i :: 1 <= i < |cart| ==> cart[i] == cart[1..][i - 1];
      r
  }

  /** `i.id === id ? { ...i, quantity: i.quantity + 1 } : i`. */
  function Increment(id: string): CartLine -> CartLine
  {
    (l: CartLine) => if l.item.id == id then l.(quantity := l.quantity + 1) else l
  }

  /** The updater `addToCart` hands to `setCart`: bump the line of an item already in
      the cart, otherwise append a new line with quantity 1. */
  function CartUpdate(prev: seq<CartLine>, item: MenuItem): seq<CartLine>
  {
    if FindLine(prev, item.id).Some? then Map(Increment(item.id), prev)
    else prev + [CartLine(item, 1)]
  }

  /** The cart invariant: one line per item id, and every quantity at least 1. */
  predicate CartWellFormed(cart: seq<CartLine>)
  {
    && (forall i, j :: 0 <= i < j < |cart| ==> cart[i].item.id != cart[j].item.id)
    && (forall i :: 0 <= i < |cart| ==> cart[i].quantity >= 1)
  }

  /** Adding an item already in the cart adds exactly one to its line and leaves every
      other line, and the order of lines, as it was. */
  lemma AddExistingItem(prev: seq<CartLine>, item: MenuItem, k: nat)
    requires k < |prev| && prev[k].item.id == item.id
    requires CartWellFormed(prev)
    ensures var r := CartUpdate(prev, item);
            && |r| == |prev|
            && r[k] == prev[k].(quantity := prev[k].quantity + 1)
            && forall i :: 0 <= i < |prev| && i != k ==> r[i] == prev[i]
  {
  }

  /** Adding an item that is not in the cart appends one line with quantity 1. */
  lemma AddNewItem(prev: seq<CartLine>, item: MenuItem)
    requires forall i :: 0 <= i < |prev| ==> prev[i].item.id != item.id
    ensures CartUpdate(prev, item) == prev + [CartLine(item, 1)]
  {
  }

  /** `addToCart` keeps the cart invariant. */
  lemma CartUpdateWellFormed(prev: seq<CartLine>, item: MenuItem)
    requires CartWellFormed(prev)
    ensures CartWellFormed(CartUpdate(prev, item))
  {
    var r := CartUpdate(prev, item);
    if FindLine(prev, item.id).Some? {
      assert forall i :: 0 <= i < |r| ==> r[i].item == prev[i].item;
    } else {
      assert forall i :: 0 <= i < |prev| ==> r[i] == prev[i];
    }
  }

  function LineTotal(l: CartLine): int
  {
    l.item.price * l.quantity
  }

  /** `cart.reduce((sum, item) => sum + item.price * item.quantity, 0)`. */
  function Total(cart: seq<CartLine>): int
  {
    SumOf(LineTotal, cart)
  }

  /** Incrementing the lines with an id that no line has changes nothing. */
  lemma IncrementAbsent(cart: seq<CartLine>, id: string)
    requires forall i :: 0 <= i < |cart| ==> cart[i].item.id != id
    ensures Map(Increment(id), cart) == cart
  {
  }

  /** With one line per id, incrementing the line of `id` raises the total by that line's
      price. */
  lemma {:induction false} TotalAfterIncrement(cart: seq<CartLine>, id: string, k: nat)
    requires k < |cart| && cart[k].item.id == id
    requires forall i, j :: 0 <= i < j < |cart| ==> cart[i].item.id != cart[j].item.id
    ensures Total(Map(Increment(id), cart)) == Total(cart) + cart[k].item.price
    decreases |cart|
  {
    var m := Map(Increment(id), cart);
    assert m[0] == Increment(id)(cart[0]);
    assert m[1..] == Map(Increment(id), cart[1..]);
    if k == 0 {
      IncrementAbsent(cart[1..], id);
    } else {
      TotalAfterIncrement(cart[1..], id, k - 1);
    }
  }

  /** Each `addToCart(item)` raises the total by exactly the item's price, provided the
      cart's lines for that id carry that same menu item (as they do when every line came
      from the menu). */
  lemma AddToCartTotal(prev: seq<CartLine>, item: MenuItem)
    requires CartWellFormed(prev)
    requires forall i :: 0 <= i < |prev| && prev[i].item.id == item.id ==> prev[i].item == item
    ensures Total(CartUpdate(prev, item)) == Total(prev) + item.price
  {
    if FindLine(prev, item.id).Some? {
      var k :| 0 <= k < |prev| && prev[k].item.id == item.id;
      TotalAfterIncrement(prev, item.id, k);
    } else {
      SumAppend(LineTotal, prev, [CartLine(item, 1)]);
    }
  }

  /** The menu's items have distinct ids, as the nine items with ids "1" to "9" do. */
  predicate MenuIdsUnique(menu: seq<MenuItem>)
  {
    forall i, j :: 0 <= i < j < |menu| ==> menu[i].id != menu[j].id
  }

  /** Every cart line is a copy of a menu item. */
  predicate CartFromMenu(cart: seq<CartLine>, menu: seq<MenuItem>)
  {
    forall i :: 0 <= i < |cart| ==> cart[i].item in menu
  }

  /** Clicking a menu item keeps every cart line a copy of a menu item. */
  lemma CartUpdateFromMenu(prev: seq<CartLine>, item: MenuItem, menu: seq<MenuItem>)
    requires CartFromMenu(prev, menu) && item in menu
    ensures CartFromMenu(CartUpdate(prev, item), menu)
  {
    var r := CartUpdate(prev, item);
    if FindLine(prev, item.id).Some? {
      assert forall i :: 0 <= i < |r| ==> r[i].item == prev[i].item;
    } else {
      assert forall i :: 0 <= i < |prev| ==> r[i] == prev[i];
    }
  }

  /** With distinct menu ids, a cart built from the menu carries, on every line with a
      menu item's id, that very item; so each click adds exactly the item's price. */
  lemma MenuClickTotal(prev: seq<CartLine>, item: MenuItem, menu: seq<MenuItem>)
    requires CartWellFormed(prev) && MenuIdsUnique(menu) && CartFromMenu(prev, menu) && item in menu
    ensures Total(CartUpdate(prev, item)) == Total(prev) + item.price
  {
    forall i | 0 <= i < |prev| && prev[i].item.id == item.id ensures prev[i].item == item {
      var a :| 0 <= a < |menu| && menu[a] == prev[i].item;
      var b :| 0 <= b < |menu| && menu[b] == item;
      assert a == b;
    }
    AddToCartTotal(prev, item);
  }

  // ---------------------------------------------------------------- the menu search

  /** `toLowerCase` on the letters A to Z. */
  function LowerChar(c: char): char
  {
    if 'A' <= c <= 'Z' then (c as int - 'A' as int + 'a' as int) as char else c
  }

  /** The lower-cased text: no capital A to Z is left, each capital becomes its small
      letter, and every other character stays. */
  function Lower(s: string): (r: string)
    ensures |r| == |s|
    ensures forall i :: 0 <= i < |r| ==> !('A' <= r[i] <= 'Z')
    ensures forall i :: 0 <= i < |s| && 'A' <= s[i] <= 'Z' ==> r[i] as int == s[i] as int + 32
    ensures forall i :: 0 <= i < |s| && !('A' <= s[i] <= 'Z') ==> r[i] == s[i]
  {
    Map(LowerChar, s)
  }

  /** Lower-casing twice is lower-casing once. */
  lemma LowerIdempotent(s: string)
    ensures Lower(Lower(s)) == Lower(s)
  {
    var l := Lower(s);
    assert forall i :: 0 <= i < |l| ==> Lower(l)[i] == l[i];
  }

  predicate OccursAt(s: string, sub: string, k: int)
  {
    0 <= k && k + |sub| <= |s| && s[k..k + |sub|] == sub
  }

  /** `s.includes(sub)`. */
  predicate Includes(s: string, sub: string)
  {
    exists k :: 0 <= k <= |s| - |sub| && OccursAt(s, sub, k)
  }

  function MatchesQuery(query: string): MenuItem -> bool
  {
    (m: MenuItem) => Includes(Lower(m.name), Lower(query))
  }

  /** The menu grid: the items whose lower-cased name contains the lower-cased query, in
      menu order. */
  function VisibleMenu(menu: seq<MenuItem>, query: string): (r: seq<MenuItem>)
    ensures forall i :: 0 <= i < |r| ==> r[i] in menu && Includes(Lower(r[i].name), Lower(query))
    ensures forall i :: 0 <= i < |menu| && Includes(Lower(menu[i].name), Lower(query)) ==> menu[i] in r
  {
    Filter(MatchesQuery(query), menu)
  }

  /** The search keeps the menu's order: it works piecewise on a concatenation, and a
      single item is shown exactly when its name matches. */
  lemma VisibleMenuKeepsOrder(a: seq<MenuItem>, b: seq<MenuItem>, query: string)
    ensures VisibleMenu(a + b, query) == VisibleMenu(a, query) + VisibleMenu(b, query)
  {
    FilterAppend(MatchesQuery(query), a, b);
  }

  lemma VisibleMenuSingle(m: MenuItem, query: string)
    ensures VisibleMenu([m], query) == if Includes(Lower(m.name), Lower(query)) then [m] else []
  {
    FilterSingle(MatchesQuery(query), m);
  }

  /** The search ignores the case of the query. */
  lemma SearchIgnoresQueryCase(menu: seq<MenuItem>, query: string)
    ensures VisibleMenu(menu, Lower(query)) == VisibleMenu(menu, query)
  {
    LowerIdempotent(query);
    assert MatchesQuery(Lower(query)) == MatchesQuery(query);
  }

  /** An empty search box shows the whole menu. */
  lemma EmptyQueryShowsAll(menu: seq<MenuItem>)
    ensures VisibleMenu(menu, "") == menu
  {
    forall m | m in menu ensures MatchesQuery("")(m) {
      assert OccursAt(Lower(m.name), Lower(""), 0);
    }
    FilterKeepsAll(MatchesQuery(""), menu);
  }

  // ---------------------------------------------------------------- tables and submit

  /** `tables.find(t => t.id === id)`. */
  function FindTable(tables: seq<Table>, id: string): (r: Option<Table>)
    ensures r.Some? ==> r.value in tables && r.value.id == id
    ensures r.None? ==> forall i :: 0 <= i < |tables| ==> tables[i].id != id
  {
    if tables == [] then None
    else if tables[0].id == id then Some(tables[0])
    else
      var r := FindTable(tables[1..], id);
      assert forall i :: 1 <= i < |tables| ==> tables[i] == tables[1..][i - 1];
      r
  }

  /** A table button: disabled for an occupied table, otherwise it selects the table. */
  function ClickTable(selected: string, t: Table): (r: string)
    ensures t.status == Occupied ==> r == selected
    ensures t.status != Occupied ==> r == t.id
  {
    if t.status == Occupied then selected else t.id
  }

  predicate ActiveTableOccupied(tables: seq<Table>, selected: string)
  {
    var t := FindTable(tables, selected);
    t.Some? && t.value.status == Occupied
  }

  /** The submit button: disabled when the cart is empty or the selected table is
      occupied. */
  function SubmitEnabled(cart: seq<CartLine>, tables: seq<Table>, selected: string): (r: bool)
  {
    !(|cart| == 0 || ActiveTableOccupied(tables, selected))
  }

  predicate UniqueTableIds(tables: seq<Table>)
  {
    forall i, j :: 0 <= i < j < |tables| ==> tables[i].id != tables[j].id
  }

  /** Clicking only ever moves the selection to a table that is not occupied, so the
      selected table never becomes an occupied one. */
  lemma ClickKeepsSelectionFree(tables: seq<Table>, selected: string, t: Table)
    requires UniqueTableIds(tables) && t in tables
    requires !ActiveTableOccupied(tables, selected)
    ensures !ActiveTableOccupied(tables, ClickTable(selected, t))
  {
    if t.status != Occupied {
      var f := FindTable(tables, t.id);
      assert f.Some? by {
        var k :| 0 <= k < |tables| && tables[k] == t;
      }
      var k :| 0 <= k < |tables| && tables[k] == f.value;
      var m :| 0 <= m < |tables| && tables[m] == t;
      assert k == m;
    }
  }

  /** While the selection is free, submit is enabled exactly when the cart is not
      empty. */
  lemma SubmitEnabledIffCart(cart: seq<CartLine>, tables: seq<Table>, selected: string)
    requires !ActiveTableOccupied(tables, selected)
    ensures SubmitEnabled(cart, tables, selected) <==> |cart| > 0
  {
  }

  /** The page's eight tables. */
  function InitialTables(): seq<Table>
  {
    [Table("1", 1, Available), Table("2", 2, Occupied), Table("3", 3, Available),
     Table("4", 4, Available), Table("5", 5, Available), Table("6", 6, Occupied),
     Table("7", 7, Available), Table("8", 8, Available)]
  }

  /** The initial selection, table "1", is free, and the tables' ids are distinct. */
  lemma InitialSelectionFree()
    ensures UniqueTableIds(InitialTables())
    ensures !ActiveTableOccupied(InitialTables(), "1")
  {
  }

  // ---------------------------------------------------------------- the page

  class OrderEntry {
    const tables: seq<Table>
    const menu: seq<MenuItem>
    var cart: seq<CartLine>
    var searchQuery: string
    var selectedTableId: string

    ghost predicate Valid()
      reads this
    {
      && CartWellFormed(cart) && MenuIdsUnique(menu) && CartFromMenu(cart, menu)
      && UniqueTableIds(tables) && !ActiveTableOccupied(tables, selectedTableId)
    }

    constructor (items: seq<MenuItem>)
      requires MenuIdsUnique(items)
      ensures Valid()
      ensures tables == InitialTables() && menu == items
      ensures cart == [] && searchQuery == "" && selectedTableId == "1"
    {
      tables := InitialTables();
      menu := items;
      cart := [];
      searchQuery := "";
      selectedTableId := "1";
      InitialSelectionFree();
    }

    /** `addToCart`, called from the card of a menu item. */
    method AddToCart(item: MenuItem)
      requires Valid() && item in menu
      modifies this`cart
      ensures Valid()
      ensures cart == CartUpdate(old(cart), item)
      ensures CartTotal() == old(CartTotal()) + item.price
    {
      CartUpdateWellFormed(cart, item);
      CartUpdateFromMenu(cart, item, menu);
      MenuClickTotal(cart, item, menu);
      cart := CartUpdate(cart, item);
    }

    method SetSearchQuery(query: string)
      modifies this`searchQuery
      ensures searchQuery == query
    {
      searchQuery := query;
    }

    /** A click on the button of table `t`. */
    method SelectTable(t: Table)
      requires Valid() && t in tables
      modifies this`selectedTableId
      ensures Valid()
      ensures selectedTableId == ClickTable(old(selectedTableId), t)
    {
      ClickKeepsSelectionFree(tables, selectedTableId, t);
      selectedTableId := ClickTable(selectedTableId, t);
    }

    function CartTotal(): int
      reads this
    {
      Total(cart)
    }

    function Shown(): seq<MenuItem>
      reads this
    {
      VisibleMenu(menu, searchQuery)
    }

    function CanSubmit(): bool
      reads this
    {
      SubmitEnabled(cart, tables, selectedTableId)
    }
  }
}

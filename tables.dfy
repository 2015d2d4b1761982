/** The table overview of app/tables/page.tsx: a fixed list of tables, the four counters
    above it, and what each table's card shows for its status. Nothing on the page
    changes the list, so the model is pure. */
module Tables {
  import opened Basics
  import opened Decimal

  datatype TableStatus = Available | Occupied | Reserved

  datatype Table = Table(
    id: string,
    number: int,
    capacity: int,
    status: TableStatus,
    currentBill: Option<int>,
    duration: Option<string>,
    guests: Option<int>)

  function HasStatus(s: TableStatus): Table -> bool
  {
    (t: Table) => t.status == s
  }

  datatype TableStats = TableStats(total: nat, occupied: nat, available: nat, reserved: nat)

  /** `stats`: the table count and the count of tables in each status. */
  function StatsOf(tables: seq<Table>): TableStats
  {
    TableStats(|tables|, Count(HasStatus(Occupied), tables), Count(HasStatus(Available), tables),
               Count(HasStatus(Reserved), tables))
  }

  /** A table has one of three statuses, so the three status counters add up to the
      total. */
  lemma {:induction false} StatsPartition(tables: seq<Table>)
    ensures var st := StatsOf(tables);
            st.occupied + st.available + st.reserved == st.total
  {
    if tables != [] {
      StatsPartition(tables[1..]);
    }
  }

  /** `getStatusBadge`. */
  function Badge(s: TableStatus): string
  {
    match s
    case Available => "Tersedia"
    case Occupied => "Terisi"
    case Reserved => "Reserved"
  }

  lemma BadgeDistinct(s: TableStatus, t: TableStatus)
    requires Badge(s) == Badge(t)
    ensures s == t
  {
  }

  /** The guest, duration and bill lines of an occupied table; a missing field renders
      as nothing. */
  datatype Details = Details(guests: string, duration: string, bill: string)

  datatype CardView = CardView(title: string, badge: string, capacity: string, details: Option<Details>, actions: seq<string>)

  function OptionalNumber(x: Option<int>): string
  {
    if x.Some? then IntToString(x.value) else ""
  }

  /** One card of the grid. */
  function Card(t: Table): CardView
  {
    CardView(
      "Meja " + IntToString(t.number),
      Badge(t.status),
      "Kapasitas: " + IntToString(t.capacity) + " orang",
      if t.status == Occupied then
        Some(Details(OptionalNumber(t.guests) + " tamu",
                     if t.duration.Some? then t.duration.value else "",
                     "Rp " + (if t.currentBill.Some? then LocaleIdInt(t.currentBill.value) else "")))
      else None,
      if t.status == Occupied then ["Tambah Order", "Bayar"]
      else if t.status == Available then ["Buka Meja"]
      else [])
  }

  /** Only an occupied table shows guests, duration and bill and the "Tambah Order" and
      "Bayar" actions; only an available one shows "Buka Meja"; a reserved one shows
      neither details nor actions. */
  lemma CardShape(t: Table)
    ensures Card(t).details.Some? <==> t.status == Occupied
    ensures "Tambah Order" in Card(t).actions <==> t.status == Occupied
    ensures "Bayar" in Card(t).actions <==> t.status == Occupied
    ensures "Buka Meja" in Card(t).actions <==> t.status == Available
    ensures Card(t).actions == [] <==> t.status == Reserved
    ensures Card(t).badge == Badge(t.status)
  {
  }

  /** The page's twelve tables. */
  function InitialTables(): seq<Table>
  {
    [ Table("1", 1, 2, Available, None, None, None),
      Table("2", 2, 4, Occupied, Some(150000), Some("45 min"), Some(3)),
      Table("3", 3, 4, Available, None, None, None),
      Table("4", 4, 6, Occupied, Some(280000), Some("1h 20m"), Some(5)),
      Table("5", 5, 4, Occupied, Some(95000), Some("25 min"), Some(2)),
      Table("6", 6, 2, Reserved, None, None, None),
      Table("7", 7, 8, Available, None, None, None),
      Table("8", 8, 4, Occupied, Some(320000), Some("55 min"), Some(4)),
      Table("9", 9, 4, Available, None, None, None),
      Table("10", 10, 6, Reserved, None, None, None),
      Table("11", 11, 2, Occupied, Some(75000), Some("15 min"), Some(2)),
      Table("12", 12, 4, Available, None, None, None) ]
  }

  /** The counters the page shows for its own tables. */
  lemma InitialStats()
    ensures StatsOf(InitialTables()) == TableStats(12, 5, 5, 2)
  {
  }
}

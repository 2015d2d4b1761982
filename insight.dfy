/** The analytics page of app/insight/page.tsx. `processData` walks the revenue records
    once, summing each record's amount into a per-weekday dictionary and each sold
    item's quantity into a per-product dictionary, then charts the first and ranks the
    second. A JavaScript object used as a dictionary is modelled as a list of entries in
    insertion order, which is the order `Object.entries` reports for keys that do not
    look like array indices. */
module Insight {
  import opened Basics

  /** An element of a record's `items` column; `name`, `title` and `quantity` may be
      missing. */
  datatype SoldItem = SoldItem(name: Option<string>, title: Option<string>, quantity: Option<int>)

  /** A revenue record; `items` is `None` when the column does not hold an array. */
  datatype InsightRecord = InsightRecord(createdAt: int, totalAmount: Option<int>, items: Option<seq<SoldItem>>)

  datatype Entry = Entry(key: string, value: int)

  datatype ChartPoint = ChartPoint(name: string, total: int)

  // ---------------------------------------------------------------- dictionaries

  /** `d[k]`, `None` when the key is not there. */
  function Get(d: seq<Entry>, k: string): Option<int>
  {
    if d == [] then None else if d[0].key == k then Some(d[0].value) else Get(d[1..], k)
  }

  /** `Object.keys(d)`, in insertion order. */
  function Keys(d: seq<Entry>): (ks: seq<string>)
    ensures |ks| == |d| && forall i :: 0 <= i < |d| ==> ks[i] == d[i].key
  {
    if d == [] then [] else [d[0].key] + Keys(d[1..])
  }

  predicate UniqueKeys(d: seq<Entry>)
  {
    forall i, j :: 0 <= i < j < |d| ==> d[i].key != d[j].key
  }

  /** `d[k] = (d[k] || 0) + delta`: an existing key keeps its place and gains `delta`; a
      new key goes at the end. */
  function Upsert(d: seq<Entry>, k: string, delta: int): (r: seq<Entry>)
  {
    if d == [] then [Entry(k, delta)]
    else if d[0].key == k then [d[0].(value := d[0].value + delta)] + d[1..]
    else [d[0]] + Upsert(d[1..], k, delta)
  }

  /** After the update, `k` reads as its old value (0 when absent) plus `delta`, and every
      other key reads as before. */
  lemma {:induction false} UpsertGet(d: seq<Entry>, k: string, delta: int, n: string)
    ensures Get(Upsert(d, k, delta), n) == if n == k then Some(OrZero(Get(d, k)) + delta) else Get(d, n)
  {
    if d != [] && d[0].key != k {
      UpsertGet(d[1..], k, delta, n);
    }
  }

  /** The keys keep their order; a key that was not there is appended. */
  lemma {:induction false} UpsertKeys(d: seq<Entry>, k: string, delta: int)
    ensures Keys(Upsert(d, k, delta)) == if Get(d, k).Some? then Keys(d) else Keys(d) + [k]
  {
    if d != [] && d[0].key != k {
      UpsertKeys(d[1..], k, delta);
      var r := Upsert(d, k, delta);
      assert r == [d[0]] + Upsert(d[1..], k, delta);
      assert r[1..] == Upsert(d[1..], k, delta);
    } else if d != [] {
      var r := Upsert(d, k, delta);
      assert r[1..] == d[1..];
    }
  }

  lemma {:induction false} GetSomeIffKey(d: seq<Entry>, k: string)
    ensures Get(d, k).Some? <==> exists i :: 0 <= i < |d| && d[i].key == k
  {
    if d != [] {
      GetSomeIffKey(d[1..], k);
      assert forall i :: 1 <= i < |d| ==> d[i] == d[1..][i - 1];
    }
  }

  lemma {:induction false} UpsertUnique(d: seq<Entry>, k: string, delta: int)
    requires UniqueKeys(d)
    ensures UniqueKeys(Upsert(d, k, delta))
  {
    UpsertKeys(d, k, delta);
    GetSomeIffKey(d, k);
    var r := Upsert(d, k, delta);
    if Get(d, k).Some? {
      SameKeysUnique(d, r);
    } else {
      var rs, kd := Keys(r), Keys(d);
      assert |r| == |d| + 1 by {
        assert |rs| == |kd + [k]|;
      }
      forall i | 0 <= i < |d| ensures r[i].key == d[i].key {
        assert rs[i] == (kd + [k])[i] == kd[i];
      }
      assert r[|d|].key == k by {
        assert rs[|d|] == (kd + [k])[|d|];
      }
      NewKeyUnique(d, r, k);
    }
  }

  lemma SameKeysUnique(d: seq<Entry>, r: seq<Entry>)
    requires UniqueKeys(d) && Keys(r) == Keys(d)
    ensures UniqueKeys(r)
  {
    var ks := Keys(d);
    assert forall i :: 0 <= i < |r| ==> r[i].key == ks[i];
  }

  lemma NewKeyUnique(d: seq<Entry>, r: seq<Entry>, k: string)
    requires UniqueKeys(d) && |r| == |d| + 1 && r[|d|].key == k
    requires forall i :: 0 <= i < |d| ==> r[i].key == d[i].key && d[i].key != k
    ensures UniqueKeys(r)
  {
  }

  function EntryValue(e: Entry): int
  {
    e.value
  }

  /** The sum of a dictionary's values. */
  function ValuesSum(d: seq<Entry>): int
  {
    SumOf(EntryValue, d)
  }

  lemma {:induction false} UpsertSum(d: seq<Entry>, k: string, delta: int)
    ensures ValuesSum(Upsert(d, k, delta)) == ValuesSum(d) + delta
  {
    if d != [] && d[0].key != k {
      UpsertSum(d[1..], k, delta);
    }
    if d == [] {
      assert [Entry(k, delta)][1..] == [];
    } else if d[0].key == k {
      assert ([d[0].(value := d[0].value + delta)] + d[1..])[1..] == d[1..];
    }
  }

  // ---------------------------------------------------------------- the two tallies

  /** `item.name || item.title`: an empty or missing name falls back to the title. */
  function ItemName(item: SoldItem): Option<string>
  {
    if item.name.Some? && item.name.value != "" then item.name
    else if item.title.Some? && item.title.value != "" then item.title
    else None
  }

  /** `item.quantity || 1`: a missing or zero quantity counts as 1. */
  function Quantity(item: SoldItem): int
  {
    if item.quantity.Some? && item.quantity.value != 0 then item.quantity.value else 1
  }

  /** `Array.isArray(record.items) ? record.items : []`. */
  function ItemsOf(r: InsightRecord): seq<SoldItem>
  {
    if r.items.Some? then r.items.value else []
  }

  function AddItem(counts: seq<Entry>, item: SoldItem): seq<Entry>
  {
    var name := ItemName(item);
    if name.Some? then Upsert(counts, name.value, Quantity(item)) else counts
  }

  /** The inner `forEach` over one record's items. */
  function TallyItems(counts: seq<Entry>, items: seq<SoldItem>): seq<Entry>
  {
    if items == [] then counts else AddItem(TallyItems(counts, items[..|items| - 1]), items[|items| - 1])
  }

  /** `counts` after the records `rs`. */
  function ProductCounts(rs: seq<InsightRecord>): seq<Entry>
  {
    if rs == [] then [] else TallyItems(ProductCounts(rs[..|rs| - 1]), ItemsOf(rs[|rs| - 1]))
  }

  /** `dailyData` after the records `rs`; `dayKey` is the short id-ID weekday name of a
      timestamp. */
  function DailyTotals(rs: seq<InsightRecord>, dayKey: int -> string): seq<Entry>
  {
    if rs == [] then []
    else
      var last := rs[|rs| - 1];
      Upsert(DailyTotals(rs[..|rs| - 1], dayKey), dayKey(last.createdAt), OrZero(last.totalAmount))
  }

  // ---------------------------------------------------------------- what the tallies hold

  function QuantityFor(n: string): SoldItem -> int
  {
    (item: SoldItem) => if ItemName(item) == Some(n) then Quantity(item) else 0
  }

  /** The reference count of a name: the quantities of every item of every record whose
      name (or title) is `n`. */
  function NameTotal(rs: seq<InsightRecord>, n: string): int
  {
    SumOf((r: InsightRecord) => SumOf(QuantityFor(n), ItemsOf(r)), rs)
  }

  /** One item raises its own name's count by its quantity and no other count; an item
      without name or title changes nothing. */
  lemma AddItemGet(counts: seq<Entry>, item: SoldItem, n: string)
    ensures Get(AddItem(counts, item), n) ==
      if ItemName(item) == Some(n) then Some(OrZero(Get(counts, n)) + Quantity(item)) else Get(counts, n)
  {
    if ItemName(item).Some? {
      UpsertGet(counts, ItemName(item).value, Quantity(item), n);
    }
  }

  lemma {:induction false} TallyItemsGet(counts: seq<Entry>, items: seq<SoldItem>, n: string)
    ensures OrZero(Get(TallyItems(counts, items), n)) == OrZero(Get(counts, n)) + SumOf(QuantityFor(n), items)
    decreases |items|
  {
    if items != [] {
      var init, last := items[..|items| - 1], items[|items| - 1];
      TallyItemsGet(counts, init, n);
      AddItemGet(TallyItems(counts, init), last, n);
      assert items == init + [last];
      SumAppend(QuantityFor(n), init, [last]);
    }
  }

  /** `counts[n]` (0 when absent) is the reference count of `n`. */
  lemma {:induction false} ProductCountsGet(rs: seq<InsightRecord>, n: string)
    ensures OrZero(Get(ProductCounts(rs), n)) == NameTotal(rs, n)
    decreases |rs|
  {
    if rs != [] {
      var init, last := rs[..|rs| - 1], rs[|rs| - 1];
      ProductCountsGet(init, n);
      TallyItemsGet(ProductCounts(init), ItemsOf(last), n);
      assert rs == init + [last];
      SumAppend((r: InsightRecord) => SumOf(QuantityFor(n), ItemsOf(r)), init, [last]);
    }
  }

  predicate Names(item: SoldItem, n: string)
  {
    ItemName(item) == Some(n)
  }

  lemma {:induction false} TallyItemsHasKey(counts: seq<Entry>, items: seq<SoldItem>, n: string)
    ensures Get(TallyItems(counts, items), n).Some? <==>
      Get(counts, n).Some? || exists j :: 0 <= j < |items| && Names(items[j], n)
    decreases |items|
  {
    if items != [] {
      var init, last := items[..|items| - 1], items[|items| - 1];
      TallyItemsHasKey(counts, init, n);
      AddItemGet(TallyItems(counts, init), last, n);
      assert forall j :: 0 <= j < |init| ==> init[j] == items[j];
    }
  }

  /** A name is a key of `counts` exactly when some item of an array-valued `items`
      column carries that name (or, without a name, that title). */
  lemma {:induction false} ProductCountsHasKey(rs: seq<InsightRecord>, n: string)
    ensures Get(ProductCounts(rs), n).Some? <==>
      exists i, j :: 0 <= i < |rs| && 0 <= j < |ItemsOf(rs[i])| && Names(ItemsOf(rs[i])[j], n)
    decreases |rs|
  {
    if rs != [] {
      var init, last := rs[..|rs| - 1], rs[|rs| - 1];
      ProductCountsHasKey(init, n);
      TallyItemsHasKey(ProductCounts(init), ItemsOf(last), n);
      assert forall i :: 0 <= i < |init| ==> init[i] == rs[i];
    }
  }

  /** A record whose `items` is not an array adds no product. */
  lemma NonArrayRecordIgnored(rs: seq<InsightRecord>, r: InsightRecord)
    requires r.items.None?
    ensures ProductCounts(rs + [r]) == ProductCounts(rs)
  {
    assert (rs + [r])[..|rs|] == rs;
  }

  lemma {:induction false} TallyItemsUnique(counts: seq<Entry>, items: seq<SoldItem>)
    requires UniqueKeys(counts)
    ensures UniqueKeys(TallyItems(counts, items))
    decreases |items|
  {
    if items != [] {
      var init, last := items[..|items| - 1], items[|items| - 1];
      TallyItemsUnique(counts, init);
      if ItemName(last).Some? {
        UpsertUnique(TallyItems(counts, init), ItemName(last).value, Quantity(last));
      }
    }
  }

  /** `counts` holds each name once. */
  lemma {:induction false} ProductCountsUnique(rs: seq<InsightRecord>)
    ensures UniqueKeys(ProductCounts(rs))
    decreases |rs|
  {
    if rs != [] {
      ProductCountsUnique(rs[..|rs| - 1]);
      TallyItemsUnique(ProductCounts(rs[..|rs| - 1]), ItemsOf(rs[|rs| - 1]));
    }
  }

  function Amount(r: InsightRecord): int
  {
    OrZero(r.totalAmount)
  }

  function OnDay(dayKey: int -> string, k: string): InsightRecord -> bool
  {
    (r: InsightRecord) => dayKey(r.createdAt) == k
  }

  /** `dailyData[k]` (0 when absent) is the sum of the amounts of the records of weekday
      `k`, a missing amount counting as 0. */
  lemma {:induction false} DailyTotalsGet(rs: seq<InsightRecord>, dayKey: int -> string, k: string)
    ensures OrZero(Get(DailyTotals(rs, dayKey), k)) == SumOf(Amount, Filter(OnDay(dayKey, k), rs))
    decreases |rs|
  {
    if rs != [] {
      var init, last := rs[..|rs| - 1], rs[|rs| - 1];
      DailyTotalsGet(init, dayKey, k);
      UpsertGet(DailyTotals(init, dayKey), dayKey(last.createdAt), Amount(last), k);
      assert rs == init + [last];
      FilterAppend(OnDay(dayKey, k), init, [last]);
      SumAppend(Amount, Filter(OnDay(dayKey, k), init), Filter(OnDay(dayKey, k), [last]));
    }
  }

  /** The weekday totals add up to the grand total. */
  lemma {:induction false} DailyTotalsSum(rs: seq<InsightRecord>, dayKey: int -> string)
    ensures ValuesSum(DailyTotals(rs, dayKey)) == SumOf(Amount, rs)
    decreases |rs|
  {
    if rs != [] {
      var init, last := rs[..|rs| - 1], rs[|rs| - 1];
      DailyTotalsSum(init, dayKey);
      UpsertSum(DailyTotals(init, dayKey), dayKey(last.createdAt), Amount(last));
      assert rs == init + [last];
      SumAppend(Amount, init, [last]);
    }
  }

  // ---------------------------------------------------------------- the ranking

  predicate SortedDesc(s: seq<Entry>)
  {
    forall i, j :: 0 <= i < j < |s| ==> s[i].value >= s[j].value
  }

  /** Puts `e` before the first entry whose count is not above its own. */
  function InsertDesc(e: Entry, s: seq<Entry>): (r: seq<Entry>)
    ensures multiset(r) == multiset(s) + multiset{e}
    ensures |r| == |s| + 1
  {
    if s == [] then [e]
    else if e.value >= s[0].value then [e] + s
    else
      assert s == [s[0]] + s[1..];
      [s[0]] + InsertDesc(e, s[1..])
  }

  lemma {:induction false} InsertDescSorted(e: Entry, s: seq<Entry>)
    requires SortedDesc(s)
    ensures SortedDesc(InsertDesc(e, s))
    decreases |s|
  {
    if s != [] && e.value < s[0].value {
      var rest := InsertDesc(e, s[1..]);
      InsertDescSorted(e, s[1..]);
      forall x | x in rest ensures x.value <= s[0].value {
        assert x in multiset(rest);
        if x != e {
          assert x in multiset(s[1..]);
          var j :| 0 <= j < |s[1..]| && s[1..][j] == x;
          assert s[j + 1] == x;
        }
      }
    }
  }

  /** `.sort(([, a], [, b]) => b - a)`: by count, largest first. */
  function SortDesc(s: seq<Entry>): (r: seq<Entry>)
    ensures multiset(r) == multiset(s)
    ensures |r| == |s|
  {
    if s == [] then []
    else
      assert s == [s[0]] + s[1..];
      InsertDesc(s[0], SortDesc(s[1..]))
  }

  lemma {:induction false} SortDescSorted(s: seq<Entry>)
    ensures SortedDesc(SortDesc(s))
  {
    if s != [] {
      SortDescSorted(s[1..]);
      InsertDescSorted(s[0], SortDesc(s[1..]));
    }
  }

  function Min(a: int, b: int): int
  {
    if a <= b then a else b
  }

  /** `.slice(0, 5)` of the sorted entries. */
  function TopProducts(counts: seq<Entry>): seq<Entry>
  {
    var sorted := SortDesc(counts);
    sorted[..Min(5, |sorted|)]
  }

  /** A prefix of a sorted list is sorted, and nothing after it is larger than anything
      in it. */
  lemma SortedPrefix(s: seq<Entry>, n: nat)
    requires SortedDesc(s) && n <= |s|
    ensures SortedDesc(s[..n])
    ensures forall i, j :: 0 <= i < n <= j < |s| ==> s[j].value <= s[..n][i].value
  {
    assert forall i :: 0 <= i < n ==> s[..n][i] == s[i];
  }

  /** The top list has five entries, or all of them when there are fewer names, and it
      takes them from `counts` without repeating any. */
  lemma TopProductsSize(counts: seq<Entry>)
    ensures var top := TopProducts(counts);
            && |top| == Min(5, |counts|)
            && multiset(top) <= multiset(counts)
  {
    var sorted := SortDesc(counts);
    assert sorted == TopProducts(counts) + sorted[Min(5, |sorted|)..];
  }

  /** Largest count first; each entry an entry of `counts`; and any entry left out
      counts no more than every entry kept. */
  lemma TopProductsFacts(counts: seq<Entry>)
    ensures var top := TopProducts(counts);
            && SortedDesc(top)
            && (forall i :: 0 <= i < |top| ==> top[i] in multiset(counts))
            && (forall e :: e in counts && e !in top ==> forall i :: 0 <= i < |top| ==> e.value <= top[i].value)
  {
    var sorted := SortDesc(counts);
    var top := TopProducts(counts);
    SortDescSorted(counts);
    SortedPrefix(sorted, |top|);
    forall i | 0 <= i < |top| ensures top[i] in multiset(counts) {
      assert top[i] == sorted[i];
      assert sorted[i] in multiset(sorted);
    }
    forall e | e in counts && e !in top ensures forall i :: 0 <= i < |top| ==> e.value <= top[i].value {
      assert e in multiset(counts);
      assert e in multiset(sorted);
      var j :| 0 <= j < |sorted| && sorted[j] == e;
    }
  }

  function ToPoint(e: Entry): ChartPoint
  {
    ChartPoint(e.key, e.value)
  }

  // ---------------------------------------------------------------- the page

  /** How the fetch of the revenue records ended; `data` may be null. */
  datatype InsightReply = FetchFailed | Fetched(data: Option<seq<InsightRecord>>)

  class InsightPage {
    var topProducts: seq<Entry>
    var chartData: seq<ChartPoint>

    constructor ()
      ensures topProducts == [] && chartData == []
    {
      topProducts := [];
      chartData := [];
    }

    /** `processData`: one pass over the records, an inner pass over each record's
        items. */
    method ProcessData(data: seq<InsightRecord>, dayKey: int -> string)
      modifies this
      ensures chartData == Map(ToPoint, DailyTotals(data, dayKey))
      ensures topProducts == TopProducts(ProductCounts(data))
    {
      var counts: seq<Entry> := [];
      var daily: seq<Entry> := [];
      var i := 0;
      while i < |data|
        invariant 0 <= i <= |data|
        invariant daily == DailyTotals(data[..i], dayKey)
        invariant counts == ProductCounts(data[..i])
      {
        var record := data[i];
        daily := Upsert(daily, dayKey(record.createdAt), OrZero(record.totalAmount));
        var items := ItemsOf(record);
        var j := 0;
        while j < |items|
          invariant 0 <= j <= |items|
          invariant counts == TallyItems(ProductCounts(data[..i]), items[..j])
        {
          var name := ItemName(items[j]);
          if name.Some? {
            counts := Upsert(counts, name.value, Quantity(items[j]));
          }
          assert items[..j + 1][..j] == items[..j];
          j := j + 1;
        }
        assert items[..j] == items;
        assert data[..i + 1][..i] == data[..i];
        i := i + 1;
      }
      assert data[..i] == data;
      chartData := Map(ToPoint, daily);
      topProducts := TopProducts(counts);
    }

    /** `fetchData`: records are processed only when the fetch succeeded with data; an
        error is only logged. */
    method FetchData(reply: InsightReply, dayKey: int -> string)
      modifies this
      ensures reply.Fetched? && reply.data.Some? ==>
        && chartData == Map(ToPoint, DailyTotals(reply.data.value, dayKey))
        && topProducts == TopProducts(ProductCounts(reply.data.value))
      ensures !(reply.Fetched? && reply.data.Some?) ==>
        chartData == old(chartData) && topProducts == old(topProducts)
    {
      if reply.Fetched? && reply.data.Some? {
        ProcessData(reply.data.value, dayKey);
      }
    }
  }
}

/** The owner dashboard of app/dashboard/page.tsx: today's revenue, transaction count and
    average bill, seven hourly sales buckets at the even hours 08 to 20 with bar
    percentages, and the restaurant name from the signed-in user's metadata. One sync
    computes everything from the fetched rows and writes it once. */
module Dashboard {
  import opened Basics
  import opened Decimal

  /** A row of today's `revenue` query. */
  datatype DashRow = DashRow(totalAmount: Option<int>, createdAt: int)

  datatype HourlyPoint = HourlyPoint(hour: string, total: int, percentage: real)

  datatype Stats = Stats(restaurantName: string, revenue: int, transactions: nat, avgBill: real, lastSync: string)

  datatype View = View(hourly: seq<HourlyPoint>, stats: Stats)

  /** What the page shows before the first sync. */
  function InitialView(): View
  {
    View([], Stats("Memuat...", 0, 0, 0.0, "--:--"))
  }

  /** `fetchUserMetadata`: the metadata name when it is present and not empty. */
  function RestaurantName(metadataName: Option<string>): (name: string)
    ensures metadataName.Some? && metadataName.value != "" ==> name == metadataName.value
    ensures !(metadataName.Some? && metadataName.value != "") ==> name == "Warung Berkah"
  {
    if metadataName.Some? && metadataName.value != "" then metadataName.value else "Warung Berkah"
  }

  function Amount(r: DashRow): int
  {
    OrZero(r.totalAmount)
  }

  /** `totalRev`. */
  function Revenue(rows: seq<DashRow>): int
  {
    SumOf(Amount, rows)
  }

  /** The bucket labels. */
  function Hours(): seq<string>
  {
    ["08", "10", "12", "14", "16", "18", "20"]
  }

  /** `getHours().toString().padStart(2, '0')` of a row; `hourOf` is the local hour of a
      timestamp. */
  function HourLabel(hourOf: int -> nat, r: DashRow): string
  {
    TwoDigits(hourOf(r.createdAt))
  }

  function InHour(hourOf: int -> nat, h: string): DashRow -> bool
  {
    (r: DashRow) => HourLabel(hourOf, r) == h
  }

  /** One bucket's total: the amounts of the rows whose padded hour is the label (`null`
      adds as 0 under `+`). */
  function BucketTotal(rows: seq<DashRow>, hourOf: int -> nat, h: string): int
  {
    SumOf(Amount, Filter(InHour(hourOf, h), rows))
  }

  function Grouped(rows: seq<DashRow>, hourOf: int -> nat): (g: seq<int>)
    ensures |g| == |Hours()|
    ensures forall i :: 0 <= i < |g| ==> g[i] == BucketTotal(rows, hourOf, Hours()[i])
  {
    Map((h: string) => BucketTotal(rows, hourOf, h), Hours())
  }

  /** The labels are the hours 8, 10, ..., 20 padded to two digits. */
  lemma HoursAreEvenHours()
    ensures forall i :: 0 <= i < |Hours()| ==> Hours()[i] == TwoDigits(8 + 2 * i)
  {
    assert TwoDigits(8) == "08";
    assert TwoDigits(10) == "10";
    assert TwoDigits(12) == "12";
    assert TwoDigits(14) == "14";
    assert TwoDigits(16) == "16";
    assert TwoDigits(18) == "18";
    assert TwoDigits(20) == "20";
  }

  /** A row falls in bucket `i` exactly when its hour is 8 + 2i; rows at any other hour
      of the day fall in no bucket. */
  lemma BucketMembership(hourOf: int -> nat, r: DashRow, i: nat)
    requires i < |Hours()| && hourOf(r.createdAt) < 24
    ensures InHour(hourOf, Hours()[i])(r) <==> hourOf(r.createdAt) == 8 + 2 * i
  {
    HoursAreEvenHours();
    if InHour(hourOf, Hours()[i])(r) {
      TwoDigitsInjective(hourOf(r.createdAt), 8 + 2 * i);
    }
  }

  function InAnyHour(hourOf: int -> nat, hs: seq<string>): DashRow -> bool
  {
    (r: DashRow) => HourLabel(hourOf, r) in hs
  }

  function BucketsSum(rows: seq<DashRow>, hourOf: int -> nat, hs: seq<string>): int
  {
    if hs == [] then 0 else BucketTotal(rows, hourOf, hs[0]) + BucketsSum(rows, hourOf, hs[1..])
  }

  predicate Distinct(hs: seq<string>)
  {
    forall i, j :: 0 <= i < j < |hs| ==> hs[i] != hs[j]
  }

  /** With distinct labels, the buckets together sum the rows whose label is one of
      them, each row once. */
  lemma {:induction false} BucketsSumIsFilter(rows: seq<DashRow>, hourOf: int -> nat, hs: seq<string>)
    requires Distinct(hs)
    ensures BucketsSum(rows, hourOf, hs) == SumOf(Amount, Filter(InAnyHour(hourOf, hs), rows))
    decreases |hs|
  {
    if hs != [] {
      BucketsSumIsFilter(rows, hourOf, hs[1..]);
      assert forall x :: x in hs[1..] ==> x != hs[0];
      SumFilterDisjoint(Amount, InAnyHour(hourOf, hs), InHour(hourOf, hs[0]), InAnyHour(hourOf, hs[1..]), rows);
    }
  }

  lemma {:induction false} BucketsSumOfGrouped(rows: seq<DashRow>, hourOf: int -> nat, hs: seq<string>, g: seq<int>)
    requires |g| == |hs| && forall i :: 0 <= i < |hs| ==> g[i] == BucketTotal(rows, hourOf, hs[i])
    ensures SumOf((x: int) => x, g) == BucketsSum(rows, hourOf, hs)
    decreases |hs|
  {
    if hs != [] {
      BucketsSumOfGrouped(rows, hourOf, hs[1..], g[1..]);
    }
  }

  /** The seven labels are pairwise different. */
  lemma HoursDistinct()
    ensures Distinct(Hours())
  {
    HoursAreEvenHours();
    forall i, j | 0 <= i < j < |Hours()| ensures Hours()[i] != Hours()[j] {
      if Hours()[i] == Hours()[j] {
        TwoDigitsInjective(8 + 2 * i, 8 + 2 * j);
      }
    }
  }

  /** With no negative amounts the seven buckets never hold more than the day's
      revenue. */
  lemma BucketsAtMostRevenue(rows: seq<DashRow>, hourOf: int -> nat)
    requires forall i :: 0 <= i < |rows| ==> Amount(rows[i]) >= 0
    ensures SumOf((x: int) => x, Grouped(rows, hourOf)) <= Revenue(rows)
  {
    var hs, g := Hours(), Grouped(rows, hourOf);
    BucketsSumOfGrouped(rows, hourOf, hs, g);
    HoursDistinct();
    BucketsSumIsFilter(rows, hourOf, hs);
    forall x | x in rows ensures Amount(x) >= 0 {
      var i :| 0 <= i < |rows| && rows[i] == x;
    }
    SumFilterAtMost(Amount, InAnyHour(hourOf, hs), rows);
  }

  /** `Math.max(...totals, floor)`. */
  function MaxWith(totals: seq<int>, floor: int): (m: int)
    ensures m >= floor
    ensures forall i :: 0 <= i < |totals| ==> totals[i] <= m
    ensures m == floor || exists i :: 0 <= i < |totals| && totals[i] == m
  {
    if totals == [] then floor
    else
      var rest := MaxWith(totals[1..], floor);
      assert forall i :: 1 <= i < |totals| ==> totals[i] == totals[1..][i - 1];
      if totals[0] > rest then totals[0] else rest
  }

  function Percentage(total: int, maxTotal: int): real
    requires maxTotal >= 1
  {
    (total as real / maxTotal as real) * 100.0
  }

  /** `formattedHourly`: each bucket labelled "HH:00", with its share of the largest
      bucket (at least 1). */
  function Hourly(grouped: seq<int>): (r: seq<HourlyPoint>)
    requires |grouped| == |Hours()|
    ensures |r| == |Hours()|
    ensures forall i :: 0 <= i < |r| ==> r[i].hour == Hours()[i] + ":00" && r[i].total == grouped[i]
  {
    var maxTotal := MaxWith(grouped, 1);
    seq(|grouped|, i requires 0 <= i < |grouped| =>
      HourlyPoint(Hours()[i] + ":00", grouped[i], Percentage(grouped[i], maxTotal)))
  }

  lemma PercentageBounds(total: int, maxTotal: int)
    requires 0 <= total <= maxTotal && maxTotal >= 1
    ensures 0.0 <= Percentage(total, maxTotal) <= 100.0
    ensures total == maxTotal ==> Percentage(total, maxTotal) == 100.0
  {
    var t, m := total as real, maxTotal as real;
    var q := t / m;
    assert q * m == t;
  }

  /** For non-negative totals every bar lies between 0 and 100 percent, and the largest
      bucket, when it is above 1, gets the full bar. */
  lemma PercentagesInRange(grouped: seq<int>)
    requires |grouped| == |Hours()|
    requires forall i :: 0 <= i < |grouped| ==> grouped[i] >= 0
    ensures forall i :: 0 <= i < |grouped| ==> 0.0 <= Hourly(grouped)[i].percentage <= 100.0
    ensures forall i :: 0 <= i < |grouped| && grouped[i] == MaxWith(grouped, 1) ==>
      Hourly(grouped)[i].percentage == 100.0
  {
    var m := MaxWith(grouped, 1);
    var h := Hourly(grouped);
    forall i | 0 <= i < |grouped|
      ensures 0.0 <= h[i].percentage <= 100.0
      ensures grouped[i] == m ==> h[i].percentage == 100.0
    {
      assert h[i].percentage == Percentage(grouped[i], m);
      PercentageBounds(grouped[i], m);
    }
  }

  function AvgBill(revenue: int, transactions: nat): (avg: real)
    ensures transactions > 0 ==> avg * transactions as real == revenue as real
    ensures transactions == 0 ==> avg == 0.0
  {
    if transactions > 0 then revenue as real / transactions as real else 0.0
  }

  /** How today's query ended; `data` may be null, which reads as no rows. */
  datatype DashReply = QueryFailed | Queried(data: Option<seq<DashRow>>)

  /** `fetchStats`: on success everything is recomputed from the rows; on an error the
      dashboard stays as it was. `now` is the sync time as "HH.MM". */
  function Sync(prev: View, metadataName: Option<string>, reply: DashReply, hourOf: int -> nat, now: string): (v: View)
    ensures reply.QueryFailed? ==> v == prev
    ensures reply.Queried? ==>
      var rows := if reply.data.Some? then reply.data.value else [];
      && v.stats == Stats(RestaurantName(metadataName), Revenue(rows), |rows|, AvgBill(Revenue(rows), |rows|), now)
      && |v.hourly| == 7
      && (forall i :: 0 <= i < 7 ==> v.hourly[i].total == BucketTotal(rows, hourOf, Hours()[i]))
      && v.hourly == Hourly(Grouped(rows, hourOf))
  {
    match reply
    case QueryFailed => prev
    case Queried(data) =>
      var rows := if data.Some? then data.value else [];
      var revenue := Revenue(rows);
      View(Hourly(Grouped(rows, hourOf)),
           Stats(RestaurantName(metadataName), revenue, |rows|, AvgBill(revenue, |rows|), now))
  }

  /** After a sync with no negative amounts, every bar of the chart lies between 0 and
      100 percent, and the bucket equal to the largest total (at least 1) is full. */
  lemma SyncedBarsInRange(prev: View, metadataName: Option<string>, reply: DashReply, hourOf: int -> nat,
                          now: string)
    requires reply.Queried? && reply.data.Some?
    requires forall i :: 0 <= i < |reply.data.value| ==> Amount(reply.data.value[i]) >= 0
    ensures var v := Sync(prev, metadataName, reply, hourOf, now);
            var g := Grouped(reply.data.value, hourOf);
            && (forall i :: 0 <= i < |v.hourly| ==> 0.0 <= v.hourly[i].percentage <= 100.0)
            && (forall i :: 0 <= i < |v.hourly| && g[i] == MaxWith(g, 1) ==> v.hourly[i].percentage == 100.0)
  {
    var rows := reply.data.value;
    var g := Grouped(rows, hourOf);
    forall i | 0 <= i < |g| ensures g[i] >= 0 {
      var kept := Filter(InHour(hourOf, Hours()[i]), rows);
      forall x | x in kept ensures Amount(x) >= 0 {
        var j :| 0 <= j < |kept| && kept[j] == x;
        var k :| 0 <= k < |rows| && rows[k] == x;
      }
      SumNonNegative(Amount, kept);
    }
    PercentagesInRange(g);
  }
}

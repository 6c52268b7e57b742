/**
 * `HomeController`'s two dashboard endpoints: the current counters (`getDashboardStats`)
 * and the per-day history built from the recent snapshots (`getDashboardHistory`).
 */
module Dashboard {
  import opened Common
  import opened Seqs
  import opened Inventory
  import opened SnapshotTracking

  // ---------------------------------------------------------------------------
  // getDashboardStats

  /** The JSON object `getDashboardStats` returns. */
  datatype DashboardStats = DashboardStats(
    itemsBorrowed: nat,
    itemsReturned: nat,
    inventoryRemaining: int,
    itemsIssued: nat,
    itemsByType: map<string, nat>,
    lowStockCount: nat,
    totalItems: nat,
    totalLoans: nat)

  /** The group an item is counted under: its type's name, or "Unknown" when it has no type. */
  function TypeKey(item: Item): string {
    if item.itemType.Some? then item.itemType.value.typeName else "Unknown"
  }

  /** The number of items grouped under `key`. */
  function TypeCount(items: seq<Item>, key: string): nat
    decreases |items|
  {
    if items == [] then 0
    else TypeCount(items[..|items| - 1], key) + (if TypeKey(items[|items| - 1]) == key then 1 else 0)
  }

  /** `groupingBy(TypeKey, counting())`, accumulated item by item. */
  function GroupByType(items: seq<Item>): (m: map<string, nat>)
    decreases |items|
  {
    if items == [] then map[]
    else
      var m := GroupByType(items[..|items| - 1]);
      var key := TypeKey(items[|items| - 1]);
      m[key := (if key in m then m[key] else 0) + 1]
  }

  function GetDashboardStats(items: seq<Item>, loans: seq<Loan>): (s: DashboardStats)
    ensures s.itemsBorrowed + s.itemsReturned == s.itemsIssued == s.totalLoans == |loans|
    ensures s.totalItems == |items|
  {
    OutstandingReturnedPartition(loans);
    DashboardStats(
      OutstandingCount(loans), ReturnedCount(loans), InventoryRemaining(items), |loans|,
      GroupByType(items), LowStockCount(items), |items|, |loans|)
  }

  /**
   * The groups are exactly the keys some item has, and each group's count is the number
   * of its items.
   */
  lemma {:induction false} GroupByTypeCounts(items: seq<Item>, key: string)
    ensures key in GroupByType(items) <==> TypeCount(items, key) > 0
    ensures key in GroupByType(items) ==> GroupByType(items)[key] == TypeCount(items, key)
    decreases |items|
  {
    if items != [] {
      GroupByTypeCounts(items[..|items| - 1], key);
    }
  }

  /** Items without a type are grouped under "Unknown". */
  lemma UntypedItemsAreUnknown(items: seq<Item>, i: nat)
    requires i < |items| && items[i].itemType.None?
    ensures "Unknown" in GetDashboardStats(items, []).itemsByType
  {
    TypeCountPositive(items, i);
    GroupByTypeCounts(items, "Unknown");
  }

  lemma {:induction false} TypeCountPositive(items: seq<Item>, i: nat)
    requires i < |items|
    ensures TypeCount(items, TypeKey(items[i])) > 0
    decreases |items|
  {
    if i < |items| - 1 {
      TypeCountPositive(items[..|items| - 1], i);
    }
  }

  /** The sum of a map's values, taken key by key. */
  ghost function MapTotal(m: map<string, nat>): nat
    decreases |m|
  {
    if m == map[] then 0
    else
      var k :| k in m;
      m[k] + MapTotal(m - {k})
  }

  /** The sum does not depend on the key taken first. */
  lemma {:induction false} MapTotalRemove(m: map<string, nat>, k: string)
    requires k in m
    ensures MapTotal(m) == m[k] + MapTotal(m - {k})
    decreases |m|
  {
    var j :| j in m && MapTotal(m) == m[j] + MapTotal(m - {j});
    if j != k {
      MapTotalRemove(m - {j}, k);
      MapTotalRemove(m - {k}, j);
      assert m - {j} - {k} == m - {k} - {j};
    }
  }

  /** Adding one to a group, new or old, adds one to the total. */
  lemma MapTotalBump(m: map<string, nat>, k: string)
    ensures MapTotal(m[k := (if k in m then m[k] else 0) + 1]) == MapTotal(m) + 1
  {
    var m' := m[k := (if k in m then m[k] else 0) + 1];
    MapTotalRemove(m', k);
    if k in m {
      MapTotalRemove(m, k);
      assert m' - {k} == m - {k};
    } else {
      assert m' - {k} == m;
    }
  }

  /** The group counts of `itemsByType` add up to `totalItems`. */
  lemma {:induction false} GroupTotalIsItemCount(items: seq<Item>)
    ensures MapTotal(GetDashboardStats(items, []).itemsByType) == |items|
    ensures MapTotal(GroupByType(items)) == |items|
    decreases |items|
  {
    if items != [] {
      GroupTotalIsItemCount(items[..|items| - 1]);
      MapTotalBump(GroupByType(items[..|items| - 1]), TypeKey(items[|items| - 1]));
    }
  }

  /**
   * The loan counters partition the loans, the inventory is the 32-bit sum of the
   * quantities, and the low-stock counter counts exactly the items below 10.
   */
  lemma StatsCounters(items: seq<Item>, loans: seq<Loan>)
    ensures var s := GetDashboardStats(items, loans);
            && s.itemsBorrowed == |Filter(IsOutstanding, loans)|
            && s.itemsReturned == |Filter(IsReturned, loans)|
            && s.inventoryRemaining == Int32(Sum(QuantityOf, items))
            && s.lowStockCount == |Filter(IsLowStock, items)|
  {
    CountIsFilterLength(IsOutstanding, loans);
    CountIsFilterLength(IsReturned, loans);
    CountIsFilterLength(IsLowStock, items);
  }

  /** A snapshot taken from the same items and loans carries the same counters as the stats. */
  lemma SnapshotAgreesWithStats(eventType: string, items: seq<Item>, loans: seq<Loan>, now: Timestamp)
    ensures var s := Snapshot(eventType, items, loans, now);
            var t := GetDashboardStats(items, loans);
            && s.itemsBorrowed == t.itemsBorrowed
            && s.itemsReturned == t.itemsReturned
            && s.inventoryRemaining == t.inventoryRemaining
            && s.itemsIssued == t.itemsIssued
  {
  }

  // ---------------------------------------------------------------------------
  // getDashboardHistory

  /** One point of the history, keyed by its formatted day. */
  datatype HistoryPoint = HistoryPoint(
    date: string,
    timestamp: Timestamp,
    itemsBorrowed: nat,
    itemsReturned: nat,
    inventoryRemaining: int,
    itemsIssued: nat,
    eventType: string)

  /** The day formatter ("MMM d"), kept abstract. */
  type DayFormat = Timestamp -> string

  function Key(s: DashboardSnapshot, day: DayFormat): string {
    day(s.timestamp)
  }

  /** The day keys of `s`, each once, in order of first appearance (the LinkedHashMap's key order). */
  function DayKeys(s: seq<DashboardSnapshot>, day: DayFormat): (keys: seq<string>)
    ensures |keys| <= |s|
    decreases |s|
  {
    if s == [] then []
    else
      var keys := DayKeys(s[..|s| - 1], day);
      var k := Key(s[|s| - 1], day);
      if k in keys then keys else keys + [k]
  }

  /** For each day key, the last snapshot of `s` with that key. */
  function LatestByDay(s: seq<DashboardSnapshot>, day: DayFormat): map<string, DashboardSnapshot>
    decreases |s|
  {
    if s == [] then map[]
    else LatestByDay(s[..|s| - 1], day)[Key(s[|s| - 1], day) := s[|s| - 1]]
  }

  function Point(key: string, s: DashboardSnapshot): HistoryPoint {
    HistoryPoint(key, s.timestamp, s.itemsBorrowed, s.itemsReturned, s.inventoryRemaining, s.itemsIssued, s.eventType)
  }

  /** The points for `keys`, each with the latest snapshot of its day. */
  function Points(keys: seq<string>, latest: map<string, DashboardSnapshot>): seq<HistoryPoint>
    requires forall k :: k in keys ==> k in latest
    decreases |keys|
  {
    if keys == [] then []
    else Points(keys[..|keys| - 1], latest) + [Point(keys[|keys| - 1], latest[keys[|keys| - 1]])]
  }

  /** The history of `recent` (newest first): chronological, one point per day. */
  function History(recent: seq<DashboardSnapshot>, day: DayFormat): seq<HistoryPoint> {
    var chronological := Reverse(recent);
    DayKeysAreLatestKeys(chronological, day);
    Points(DayKeys(chronological, day), LatestByDay(chronological, day))
  }

  lemma {:induction false} DayKeysAreLatestKeys(s: seq<DashboardSnapshot>, day: DayFormat)
    ensures forall k :: k in DayKeys(s, day) <==> k in LatestByDay(s, day)
    decreases |s|
  {
    if s != [] {
      DayKeysAreLatestKeys(s[..|s| - 1], day);
    }
  }

  /** A day key is listed exactly when some snapshot falls on that day. */
  lemma {:induction false} DayKeysCover(s: seq<DashboardSnapshot>, day: DayFormat, k: string)
    ensures k in DayKeys(s, day) <==> exists i :: 0 <= i < |s| && Key(s[i], day) == k
    decreases |s|
  {
    if s != [] {
      var init := s[..|s| - 1];
      DayKeysCover(init, day, k);
      if exists i :: 0 <= i < |init| && Key(init[i], day) == k {
        var i :| 0 <= i < |init| && Key(init[i], day) == k;
        assert s[i] == init[i];
      }
      if exists i :: 0 <= i < |s| && Key(s[i], day) == k {
        var i :| 0 <= i < |s| && Key(s[i], day) == k;
        if i < |init| {
          assert init[i] == s[i];
        }
      }
    }
  }

  /** No day appears twice in the history. */
  lemma {:induction false} DayKeysDistinct(s: seq<DashboardSnapshot>, day: DayFormat)
    ensures Distinct(DayKeys(s, day))
    decreases |s|
  {
    if s != [] {
      var keys := DayKeys(s[..|s| - 1], day);
      DayKeysDistinct(s[..|s| - 1], day);
      var k := Key(s[|s| - 1], day);
      var full := DayKeys(s, day);
      if k !in keys {
        assert full == keys + [k];
        forall a, b | 0 <= a < b < |full|
          ensures full[a] != full[b]
        {
          assert full[a] == keys[a];
          if b < |keys| {
            assert full[b] == keys[b];
          }
        }
      }
    }
  }

  /** Each day's entry is the last snapshot of that day: no later snapshot falls on it. */
  lemma {:induction false} LatestIsLastOfDay(s: seq<DashboardSnapshot>, day: DayFormat, k: string)
    requires k in LatestByDay(s, day)
    ensures exists i :: 0 <= i < |s| && s[i] == LatestByDay(s, day)[k] && Key(s[i], day) == k
                        && forall j :: i < j < |s| ==> Key(s[j], day) != k
    decreases |s|
  {
    var n := |s| - 1;
    if Key(s[n], day) != k {
      var init := s[..n];
      LatestIsLastOfDay(init, day, k);
      var i :| 0 <= i < |init| && init[i] == LatestByDay(init, day)[k] && Key(init[i], day) == k
               && forall j :: i < j < |init| ==> Key(init[j], day) != k;
      assert s[i] == init[i];
      assert forall j :: i < j < |s| ==> Key(s[j], day) != k by {
        forall j | i < j < |s| ensures Key(s[j], day) != k {
          if j < n {
            assert s[j] == init[j];
          }
        }
      }
    }
  }

  /**
   * Days are listed in order of first appearance: every snapshot of a later-listed day
   * comes after some snapshot of each earlier-listed day.
   */
  lemma {:induction false} DayKeysFirstSeenOrder(s: seq<DashboardSnapshot>, day: DayFormat, a: nat, b: nat, j: nat)
    requires var keys := DayKeys(s, day); a < b < |keys|
    requires j < |s| && Key(s[j], day) == DayKeys(s, day)[b]
    ensures exists i :: 0 <= i < j && Key(s[i], day) == DayKeys(s, day)[a]
    decreases |s|
  {
    var n := |s| - 1;
    var init := s[..n];
    var keys := DayKeys(init, day);
    var kx := Key(s[n], day);
    DayKeysDistinct(s, day);
    if j < n {
      assert Key(init[j], day) == DayKeys(s, day)[b];
      DayKeysCover(init, day, DayKeys(s, day)[b]);
      assert DayKeys(s, day)[b] in keys;
      if kx !in keys {
        assert DayKeys(s, day)[b] != kx;
      }
      DayKeysFirstSeenOrder(init, day, a, b, j);
      var i :| 0 <= i < j && Key(init[i], day) == keys[a];
      assert s[i] == init[i];
    } else if kx in keys {
      DayKeysCover(init, day, kx);
      var j0 :| 0 <= j0 < |init| && Key(init[j0], day) == kx;
      DayKeysFirstSeenOrder(init, day, a, b, j0);
      var i :| 0 <= i < j0 && Key(init[i], day) == keys[a];
      assert s[i] == init[i];
    } else {
      DayKeysCover(init, day, keys[a]);
      var i :| 0 <= i < |init| && Key(init[i], day) == keys[a];
      assert s[i] == init[i];
    }
  }

  lemma {:induction false} PointsShape(keys: seq<string>, latest: map<string, DashboardSnapshot>)
    requires forall k :: k in keys ==> k in latest
    ensures |Points(keys, latest)| == |keys|
    ensures forall i :: 0 <= i < |keys| ==> Points(keys, latest)[i] == Point(keys[i], latest[keys[i]])
    decreases |keys|
  {
    if keys != [] {
      PointsShape(keys[..|keys| - 1], latest);
    }
  }

  /**
   * The history has one point per distinct day of the snapshots, in chronological order
   * of first appearance, each carrying that day's latest snapshot; so it has no more
   * points than there were snapshots.
   */
  lemma HistoryShape(recent: seq<DashboardSnapshot>, day: DayFormat)
    ensures forall k :: k in DayKeys(Reverse(recent), day) ==> k in LatestByDay(Reverse(recent), day)
    ensures var c := Reverse(recent);
            var h := History(recent, day);
            && h == Points(DayKeys(c, day), LatestByDay(c, day))
            && |h| == |DayKeys(c, day)| <= |recent|
            && forall i :: 0 <= i < |h| ==> h[i] == Point(DayKeys(c, day)[i], LatestByDay(c, day)[DayKeys(c, day)[i]])
  {
    var c := Reverse(recent);
    DayKeysAreLatestKeys(c, day);
    PointsShape(DayKeys(c, day), LatestByDay(c, day));
  }

  /** `Collections.reverse`: reverses the array in place. */
  method ReverseInPlace(a: array<DashboardSnapshot>)
    modifies a
    ensures a[..] == Reverse(old(a[..]))
  {
    ghost var orig := a[..];
    var i := 0;
    while i < a.Length / 2
      invariant 0 <= i <= a.Length / 2
      invariant forall k :: 0 <= k < i ==> a[k] == orig[a.Length - 1 - k] && a[a.Length - 1 - k] == orig[k]
      invariant forall k :: i <= k < a.Length - i ==> a[k] == orig[k]
    {
      a[i], a[a.Length - 1 - i] := a[a.Length - 1 - i], a[i];
      i := i + 1;
    }
  }

  /** The first loop: each snapshot, in order, becomes the latest of its day. */
  method GroupByDay(snapshots: array<DashboardSnapshot>, day: DayFormat)
      returns (keys: seq<string>, daily: map<string, DashboardSnapshot>)
    ensures keys == DayKeys(snapshots[..], day)
    ensures daily == LatestByDay(snapshots[..], day)
  {
    keys := [];
    daily := map[];
    for i := 0 to snapshots.Length
      invariant keys == DayKeys(snapshots[..i], day)
      invariant daily == LatestByDay(snapshots[..i], day)
    {
      assert snapshots[..i + 1][..i] == snapshots[..i];
      DayKeysAreLatestKeys(snapshots[..i], day);
      var dateKey := day(snapshots[i].timestamp);
      if dateKey !in daily {
        keys := keys + [dateKey];
      }
      daily := daily[dateKey := snapshots[i]];
    }
    assert snapshots[..snapshots.Length] == snapshots[..];
  }

  /** The second loop: one point per key, in key order. */
  method ListDays(keys: seq<string>, daily: map<string, DashboardSnapshot>) returns (history: seq<HistoryPoint>)
    requires forall k :: k in keys ==> k in daily
    ensures history == Points(keys, daily)
  {
    history := [];
    for j := 0 to |keys|
      invariant history == Points(keys[..j], daily)
    {
      assert keys[..j + 1][..j] == keys[..j];
      history := history + [Point(keys[j], daily[keys[j]])];
    }
    assert keys[..|keys|] == keys;
  }

  /** `getDashboardHistory`, given the recent snapshots (newest first) and the day formatter. */
  method GetDashboardHistory(recent: seq<DashboardSnapshot>, day: DayFormat) returns (history: seq<HistoryPoint>)
    ensures history == History(recent, day)
  {
    var snapshots := new DashboardSnapshot[|recent|](i requires 0 <= i < |recent| => recent[i]);
    assert snapshots[..] == recent;
    ReverseInPlace(snapshots);
    var keys, daily := GroupByDay(snapshots, day);
    DayKeysAreLatestKeys(snapshots[..], day);
    history := ListDays(keys, daily);
  }
}

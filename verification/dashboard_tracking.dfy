/**
 * `DashboardTrackingService`: after each inventory event it records a snapshot of the
 * loan and stock counters, and it serves the most recent snapshots for the dashboard's
 * history chart. The snapshot table is a field of the service; the clock is a parameter.
 */
module SnapshotTracking {
  import opened Common
  import opened Seqs
  import opened Inventory

  /**
   * A `LocalDateTime`, as an instant on a totally ordered time line (for instance
   * seconds since some epoch); only its order and its calendar day are used.
   */
  type Timestamp = int

  /** One row of the `dashboard_snapshot` table. */
  datatype DashboardSnapshot = DashboardSnapshot(
    timestamp: Timestamp,
    itemsBorrowed: nat,
    itemsReturned: nat,
    inventoryRemaining: int,
    itemsIssued: nat,
    eventType: string)

  /** The number of snapshots `findTop20ByOrderByTimestampDesc` returns at most. */
  const RecentLimit: nat := 20

  /** The snapshot `captureSnapshot` builds from the current items and loans at time `now`. */
  function Snapshot(eventType: string, items: seq<Item>, loans: seq<Loan>, now: Timestamp): (s: DashboardSnapshot)
    ensures s.itemsBorrowed + s.itemsReturned == s.itemsIssued == |loans|
    ensures s.itemsBorrowed == |Filter(IsOutstanding, loans)|
    ensures s.itemsReturned == |Filter(IsReturned, loans)|
    ensures -0x8000_0000 <= Sum(QuantityOf, items) < 0x8000_0000 ==> s.inventoryRemaining == Sum(QuantityOf, items)
    ensures s.timestamp == now && s.eventType == eventType
  {
    OutstandingReturnedPartition(loans);
    CountIsFilterLength(IsOutstanding, loans);
    CountIsFilterLength(IsReturned, loans);
    DashboardSnapshot(now, OutstandingCount(loans), ReturnedCount(loans), InventoryRemaining(items), |loans|, eventType)
  }

  /** Snapshots in chronological order: no later row is older than an earlier one. */
  predicate Chronological(s: seq<DashboardSnapshot>) {
    forall i, j :: 0 <= i < j < |s| ==> s[i].timestamp <= s[j].timestamp
  }

  class DashboardTrackingService {
    /** The snapshot table, in insertion order. */
    var snapshots: seq<DashboardSnapshot>

    /** Snapshots are taken from a clock that does not run backwards. */
    ghost predicate Valid()
      reads this
    {
      Chronological(snapshots)
    }

    constructor ()
      ensures Valid()
      ensures snapshots == []
    {
      snapshots := [];
    }

    /**
     * `captureSnapshot`: reads the items and loans and saves exactly one new snapshot,
     * carrying the event type; the table is the only thing written.
     */
    method CaptureSnapshot(eventType: string, items: seq<Item>, loans: seq<Loan>, now: Timestamp)
      requires Valid()
      requires |snapshots| > 0 ==> snapshots[|snapshots| - 1].timestamp <= now
      modifies this
      ensures Valid()
      ensures snapshots == old(snapshots) + [Snapshot(eventType, items, loans, now)]
    {
      var itemsBorrowed := OutstandingCount(loans);
      var itemsReturned := ReturnedCount(loans);
      var inventoryRemaining := InventoryRemaining(items);
      var itemsIssued := |loans|;
      var snapshot := DashboardSnapshot(now, itemsBorrowed, itemsReturned, inventoryRemaining, itemsIssued, eventType);
      snapshots := snapshots + [snapshot];
    }

    /**
     * `getRecentSnapshots`: the last min(20, n) snapshots of the table, newest first;
     * every snapshot left out is no newer than the oldest one returned.
     */
    function GetRecentSnapshots(): (r: seq<DashboardSnapshot>)
      reads this
      ensures |r| == Min(RecentLimit, |snapshots|)
      ensures forall i :: 0 <= i < |r| ==> r[i] == snapshots[|snapshots| - 1 - i]
      ensures forall x :: x in r ==> x in snapshots
      ensures Valid() ==> forall i, j :: 0 <= i < j < |r| ==> r[j].timestamp <= r[i].timestamp
      ensures Valid() && |r| > 0 ==>
                forall k :: 0 <= k < |snapshots| - |r| ==> snapshots[k].timestamp <= r[|r| - 1].timestamp
    {
      var n := Min(RecentLimit, |snapshots|);
      var newest := Reverse(snapshots[|snapshots| - n..]);
      assert forall i :: 0 <= i < n ==> newest[i] == snapshots[|snapshots| - 1 - i];
      newest
    }
  }

  /** A capture adds one snapshot at the head of the recent list. */
  lemma CaptureShowsFirst(service: DashboardTrackingService, before: seq<DashboardSnapshot>, s: DashboardSnapshot)
    requires service.snapshots == before + [s]
    ensures service.GetRecentSnapshots()[0] == s
  {
  }
}

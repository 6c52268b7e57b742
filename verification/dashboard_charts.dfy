/**
 * The dashboard page's charts (dashboard-charts.js): four line charts (borrowed,
 * returned, inventory, issued) built from the day-by-day history, then kept current by
 * polling: a new snapshot either overwrites the point of its day or appends a point,
 * keeping at most 20.
 *
 * Only the data behind the charts is modelled: each chart's labels, values and title,
 * the page's chart table and the last timestamp seen. Drawing, fetching and timers are
 * left to the caller, which passes in what the server answered.
 */
module DashboardCharts {
  import opened Common
  import opened Text
  import opened Seqs
  import opened SnapshotTracking
  import opened Dashboard

  /** The four charts, under the keys the script stores them by. */
  datatype ChartKey = Borrowed | Returned | Inventory | Issued

  /** The number of points a chart keeps while being updated. */
  const MaxPoints: nat := 20

  /** A chart's title: the value it last showed. */
  function Title(value: int): string {
    "Current: " + IntToString(value)
  }

  /** The value a new chart shows in its title: its last point, or 0 without points. */
  function CurrentValue(data: seq<int>): int {
    if |data| > 0 then data[|data| - 1] else 0
  }

  /** `push`, then `shift` when `dropFirst`: the update the script applies to a chart's arrays. */
  function PushCapped<T>(s: seq<T>, x: T, dropFirst: bool): seq<T> {
    if dropFirst then (s + [x])[1..] else s + [x]
  }

  /** Whether pushing onto labels of length `n` overflows the window. */
  predicate Overflows(n: nat) {
    n + 1 > MaxPoints
  }

  /** `indexOf`: the first position of `x` in `s`, or -1. */
  function IndexOf<T(==)>(s: seq<T>, x: T): (r: int)
    ensures -1 <= r < |s|
    ensures r == -1 <==> x !in s
    ensures r >= 0 ==> s[r] == x && forall j :: 0 <= j < r ==> s[j] != x
    decreases |s|
  {
    if s == [] then -1
    else if s[0] == x then 0
    else
      var r := IndexOf(s[1..], x);
      assert forall j :: 0 <= j < |s| - 1 ==> s[1..][j] == s[j + 1];
      if r == -1 then -1 else r + 1
  }

  /** The series a chart plots, taken from a history point. */
  function Value(key: ChartKey, p: HistoryPoint): int {
    match key
    case Borrowed => p.itemsBorrowed
    case Returned => p.itemsReturned
    case Inventory => p.inventoryRemaining
    case Issued => p.itemsIssued
  }

  /** The same series, taken from the current stats. */
  function StatValue(key: ChartKey, s: DashboardStats): int {
    match key
    case Borrowed => s.itemsBorrowed
    case Returned => s.itemsReturned
    case Inventory => s.inventoryRemaining
    case Issued => s.itemsIssued
  }

  /** An initial newLabel: the point's date, or 'Today' when it is empty. */
  function InitialLabel(p: HistoryPoint): string {
    if p.date != "" then p.date else "Today"
  }

  function Labels(history: seq<HistoryPoint>): (r: seq<string>)
    ensures |r| == |history|
  {
    Map(InitialLabel, history)
  }

  function Series(key: ChartKey, history: seq<HistoryPoint>): (r: seq<int>)
    ensures |r| == |history|
  {
    Map((p: HistoryPoint) => Value(key, p), history)
  }

  /** The label of a live update: the point's date, or its timestamp formatted as a day. */
  function UpdateLabel(p: HistoryPoint, day: DayFormat): string {
    if p.date != "" then p.date else day(p.timestamp)
  }

  /** The order in which a poll updates the charts. */
  const UpdateOrder: seq<ChartKey> := [Borrowed, Returned, Inventory, Issued]

  /** A chart's place in `UpdateOrder`. */
  function Position(key: ChartKey): (r: nat)
    ensures r < |UpdateOrder| && UpdateOrder[r] == key
  {
    match key
    case Borrowed => 0
    case Returned => 1
    case Inventory => 2
    case Issued => 3
  }

  /** An entry of a chart's value array; `None` is a hole, which JavaScript reads as `undefined`. */
  type Point = Option<int>

  /** A value array without holes. */
  function Defined(values: seq<int>): (r: seq<Point>)
    ensures |r| == |values|
    ensures forall i :: 0 <= i < |r| ==> r[i] == Some(values[i])
  {
    seq(|values|, i requires 0 <= i < |values| => Some(values[i]))
  }

  /**
   * JavaScript's `a[index] = value`: inside the array the entry is replaced; past its end
   * the array grows to `index + 1`, with holes between the old end and the new entry.
   */
  function SetAt(a: seq<Point>, index: nat, value: int): (r: seq<Point>)
    ensures |r| == if index < |a| then |a| else index + 1
    ensures r[index] == Some(value)
    ensures forall i :: 0 <= i < |a| && i != index ==> r[i] == a[i]
    ensures forall i :: |a| <= i < index ==> r[i] == None
  {
    if index < |a| then a[index := Some(value)]
    else a + seq(index - |a|, _ => None) + [Some(value)]
  }

  /** `items` after `count` pushes of `newLabel`, each followed by the window check of `updateChart`. */
  function PushedTimes(items: seq<string>, newLabel: string, count: nat): seq<string>
    decreases count
  {
    if count == 0 then items
    else
      var before := PushedTimes(items, newLabel, count - 1);
      PushCapped(before, newLabel, Overflows(|before|))
  }

  /** While the window has room, `count` pushes append `count` copies of the label. */
  lemma {:induction false} PushedTimesUnderCap(items: seq<string>, newLabel: string, count: nat)
    requires |items| + count <= MaxPoints
    ensures PushedTimes(items, newLabel, count) == items + seq(count, _ => newLabel)
  {
    if count > 0 {
      PushedTimesUnderCap(items, newLabel, count - 1);
      assert items + seq(count - 1, _ => newLabel) + [newLabel] == items + seq(count, _ => newLabel);
    }
  }

  /** A JavaScript array of labels. A chart made from it keeps a reference, not a copy. */
  class LabelArray {
    var items: seq<string>

    constructor (items: seq<string>)
      ensures this.items == items
    {
      this.items := items;
    }
  }

  /** The data behind one Chart.js line chart: the labels it was given, its values and its title. */
  class Chart {
    const labels: LabelArray
    var data: seq<Point>
    var title: string

    /** `createChart`'s data: the caller's labels array itself, the values, the last value as title. */
    constructor (labels: LabelArray, data: seq<int>)
      ensures this.labels == labels && this.data == Defined(data)
      ensures title == Title(CurrentValue(data))
    {
      this.labels := labels;
      this.data := Defined(data);
      this.title := Title(CurrentValue(data));
    }
  }

  /** How many of the first `j` charts in update order appear in `holding` and hold the labels array `a`. */
  function HoldersIn(holding: map<ChartKey, Chart>, j: nat, a: LabelArray): (n: nat)
    requires j <= |UpdateOrder|
    ensures n <= j
  {
    if j == 0 then 0
    else HoldersIn(holding, j - 1, a) + (if UpdateOrder[j - 1] in holding && holding[UpdateOrder[j - 1]].labels == a then 1 else 0)
  }

  /** The labels in every array after `updateChart` on `key` pushes `newLabel` onto the array `key` holds. */
  function PushLabelFor(holding: map<ChartKey, Chart>, items: map<LabelArray, seq<string>>, key: ChartKey, newLabel: string)
    : (r: map<LabelArray, seq<string>>)
    ensures r.Keys == items.Keys
  {
    if key in holding && holding[key].labels in items
    then items[holding[key].labels := PushCapped(items[holding[key].labels], newLabel, Overflows(|items[holding[key].labels]|))]
    else items
  }

  /** The values after `updateChart` on `key` pushes `value`, dropping the first when `key`'s labels overflow. */
  function PushValueFor(holding: map<ChartKey, Chart>, items: map<LabelArray, seq<string>>, data: map<ChartKey, seq<Point>>,
                        key: ChartKey, value: int): (r: map<ChartKey, seq<Point>>)
    ensures r.Keys == data.Keys
  {
    if key in data && key in holding && holding[key].labels in items
    then data[key := PushCapped(data[key], Some(value), Overflows(|items[holding[key].labels]|))]
    else data
  }

  /** The titles after `updateChart` on `key` shows `value`. */
  function RetitleFor(titles: map<ChartKey, string>, key: ChartKey, value: int): (r: map<ChartKey, string>)
    ensures r.Keys == titles.Keys
  {
    if key !in titles then titles else titles[key := Title(value)]
  }

  /** The labels in every array after the first `j` `updateChart` calls of an append. */
  function ItemsAt(holding: map<ChartKey, Chart>, items0: map<LabelArray, seq<string>>, newLabel: string, j: nat)
    : (r: map<LabelArray, seq<string>>)
    requires j <= |UpdateOrder|
    ensures r.Keys == items0.Keys
  {
    if j == 0 then items0 else PushLabelFor(holding, ItemsAt(holding, items0, newLabel, j - 1), UpdateOrder[j - 1], newLabel)
  }

  /** Every chart's values after the first `j` `updateChart` calls of an append. */
  function DataAt(holding: map<ChartKey, Chart>, items0: map<LabelArray, seq<string>>, data0: map<ChartKey, seq<Point>>,
                  newLabel: string, latest: HistoryPoint, j: nat): (r: map<ChartKey, seq<Point>>)
    requires j <= |UpdateOrder|
    ensures r.Keys == data0.Keys
  {
    if j == 0 then data0
    else PushValueFor(holding, ItemsAt(holding, items0, newLabel, j - 1), DataAt(holding, items0, data0, newLabel, latest, j - 1),
                      UpdateOrder[j - 1], Value(UpdateOrder[j - 1], latest))
  }

  /** Every chart's title after the first `j` `updateChart` calls of an append. */
  function TitlesAt(titles0: map<ChartKey, string>, latest: HistoryPoint, j: nat): (r: map<ChartKey, string>)
    requires j <= |UpdateOrder|
    ensures r.Keys == titles0.Keys
  {
    if j == 0 then titles0 else RetitleFor(TitlesAt(titles0, latest, j - 1), UpdateOrder[j - 1], Value(UpdateOrder[j - 1], latest))
  }

  /** After the first `j` calls of an append, the array `a` has received `newLabel` once per holder among those charts. */
  lemma {:induction false} ItemsAtCounts(holding: map<ChartKey, Chart>, items0: map<LabelArray, seq<string>>,
                                         newLabel: string, j: nat, a: LabelArray)
    requires j <= |UpdateOrder| && a in items0
    ensures ItemsAt(holding, items0, newLabel, j)[a] == PushedTimes(items0[a], newLabel, HoldersIn(holding, j, a))
  {
    if j > 0 {
      ItemsAtCounts(holding, items0, newLabel, j - 1, a);
    }
  }

  /**
   * After the first `j` calls of an append, chart `k` has pushed its value exactly when
   * it is among them, dropping the first value when the pushes made onto its labels
   * array before its own had filled the window.
   */
  lemma {:induction false} DataAtCounts(holding: map<ChartKey, Chart>, items0: map<LabelArray, seq<string>>,
                                        data0: map<ChartKey, seq<Point>>, newLabel: string, latest: HistoryPoint, j: nat, k: ChartKey)
    requires j <= |UpdateOrder| && k in data0 && k in holding && holding[k].labels in items0
    ensures DataAt(holding, items0, data0, newLabel, latest, j)[k] ==
              if Position(k) < j
              then PushCapped(data0[k], Some(Value(k, latest)),
                              Overflows(|PushedTimes(items0[holding[k].labels], newLabel, HoldersIn(holding, Position(k), holding[k].labels))|))
              else data0[k]
  {
    if j > 0 {
      DataAtStep(holding, items0, data0, newLabel, latest, j, k);
      DataAtCounts(holding, items0, data0, newLabel, latest, j - 1, k);
      if k == UpdateOrder[j - 1] {
        assert Position(k) == j - 1;
        ItemsAtCounts(holding, items0, newLabel, j - 1, holding[k].labels);
      } else {
        assert Position(k) != j - 1;
      }
    }
  }

  /** The `j`-th call of an append changes the values of the chart it is made on, and no other chart's. */
  lemma DataAtStep(holding: map<ChartKey, Chart>, items0: map<LabelArray, seq<string>>, data0: map<ChartKey, seq<Point>>,
                   newLabel: string, latest: HistoryPoint, j: nat, k: ChartKey)
    requires 0 < j <= |UpdateOrder| && k in data0 && k in holding && holding[k].labels in items0
    ensures DataAt(holding, items0, data0, newLabel, latest, j)[k] ==
              if k == UpdateOrder[j - 1]
              then PushCapped(DataAt(holding, items0, data0, newLabel, latest, j - 1)[k], Some(Value(k, latest)),
                              Overflows(|ItemsAt(holding, items0, newLabel, j - 1)[holding[k].labels]|))
              else DataAt(holding, items0, data0, newLabel, latest, j - 1)[k]
  {
  }

  /** The four stages of an append, one `updateChart` call each, in update order. */
  lemma StagesUnfold(holding: map<ChartKey, Chart>, items0: map<LabelArray, seq<string>>, data0: map<ChartKey, seq<Point>>,
                     titles0: map<ChartKey, string>, newLabel: string, latest: HistoryPoint)
    ensures var items1 := PushLabelFor(holding, items0, Borrowed, newLabel);
            var items2 := PushLabelFor(holding, items1, Returned, newLabel);
            var items3 := PushLabelFor(holding, items2, Inventory, newLabel);
            var data1 := PushValueFor(holding, items0, data0, Borrowed, latest.itemsBorrowed);
            var data2 := PushValueFor(holding, items1, data1, Returned, latest.itemsReturned);
            var data3 := PushValueFor(holding, items2, data2, Inventory, latest.inventoryRemaining);
            var titles3 := RetitleFor(RetitleFor(RetitleFor(titles0, Borrowed, latest.itemsBorrowed), Returned, latest.itemsReturned),
                                      Inventory, latest.inventoryRemaining);
            && ItemsAt(holding, items0, newLabel, |UpdateOrder|) == PushLabelFor(holding, items3, Issued, newLabel)
            && DataAt(holding, items0, data0, newLabel, latest, |UpdateOrder|) == PushValueFor(holding, items3, data3, Issued, latest.itemsIssued)
            && TitlesAt(titles0, latest, |UpdateOrder|) == RetitleFor(titles3, Issued, latest.itemsIssued)
  {
    assert ItemsAt(holding, items0, newLabel, 1) == PushLabelFor(holding, items0, Borrowed, newLabel);
    assert ItemsAt(holding, items0, newLabel, 2) == PushLabelFor(holding, ItemsAt(holding, items0, newLabel, 1), Returned, newLabel);
    assert ItemsAt(holding, items0, newLabel, 3) == PushLabelFor(holding, ItemsAt(holding, items0, newLabel, 2), Inventory, newLabel);
    assert DataAt(holding, items0, data0, newLabel, latest, 1) == PushValueFor(holding, items0, data0, Borrowed, latest.itemsBorrowed);
    assert DataAt(holding, items0, data0, newLabel, latest, 2)
        == PushValueFor(holding, ItemsAt(holding, items0, newLabel, 1), DataAt(holding, items0, data0, newLabel, latest, 1),
                        Returned, latest.itemsReturned);
    assert DataAt(holding, items0, data0, newLabel, latest, 3)
        == PushValueFor(holding, ItemsAt(holding, items0, newLabel, 2), DataAt(holding, items0, data0, newLabel, latest, 2),
                        Inventory, latest.inventoryRemaining);
    assert TitlesAt(titles0, latest, 1) == RetitleFor(titles0, Borrowed, latest.itemsBorrowed);
    assert TitlesAt(titles0, latest, 2) == RetitleFor(TitlesAt(titles0, latest, 1), Returned, latest.itemsReturned);
    assert TitlesAt(titles0, latest, 3) == RetitleFor(TitlesAt(titles0, latest, 2), Inventory, latest.inventoryRemaining);
  }

  /** After all four calls of an append, every chart shows the value it was given. */
  lemma {:induction false} TitlesShowValues(titles0: map<ChartKey, string>, latest: HistoryPoint, j: nat)
    requires j <= |UpdateOrder|
    ensures forall k :: k in titles0 && Position(k) < j ==> TitlesAt(titles0, latest, j)[k] == Title(Value(k, latest))
  {
    if j > 0 {
      TitlesShowValues(titles0, latest, j - 1);
      var key := UpdateOrder[j - 1];
      var before := TitlesAt(titles0, latest, j - 1);
      forall k | k in titles0 && Position(k) < j
        ensures TitlesAt(titles0, latest, j)[k] == Title(Value(k, latest))
      {
        assert TitlesAt(titles0, latest, j) == RetitleFor(before, key, Value(key, latest));
        if k != key {
          assert Position(k) != j - 1;
        }
      }
    }
  }

  /**
   * `updateExistingPoint`: writes the value at `index`, growing the value array when
   * `index` lies past its end, and retitles; the labels stay. A missing chart is left alone.
   */
  method UpdateExistingPoint(chart: Chart?, index: nat, value: int)
    modifies chart
    ensures chart != null ==> chart.labels.items == old(chart.labels.items)
    ensures chart != null ==> chart.data == SetAt(old(chart.data), index, value)
    ensures chart != null ==> chart.title == Title(value)
  {
    if chart == null {
      return;
    }
    if index < |chart.data| {
      chart.data := chart.data[index := Some(value)];
    } else {
      chart.data := chart.data + seq(index - |chart.data|, _ => None) + [Some(value)];
    }
    chart.title := Title(value);
  }

  /**
   * `updateChart`: pushes the label onto the chart's labels array and the value onto its
   * values; when the labels array then holds more than 20 entries, drops the first label
   * and the first value; retitles. A missing chart is left alone. The labels array may be
   * shared with other charts, which then see the push too.
   */
  method UpdateChart(chart: Chart?, newLabel: string, value: int)
    modifies chart, if chart != null then {chart.labels} else {}
    ensures chart != null ==> chart.labels.items == PushCapped(old(chart.labels.items), newLabel, Overflows(|old(chart.labels.items)|))
    ensures chart != null ==> chart.data == PushCapped(old(chart.data), Some(value), Overflows(|old(chart.labels.items)|))
    ensures chart != null ==> chart.title == Title(value)
  {
    if chart == null {
      return;
    }
    chart.labels.items := chart.labels.items + [newLabel];
    chart.data := chart.data + [Some(value)];
    if |chart.labels.items| > MaxPoints {
      chart.labels.items := chart.labels.items[1..];
      chart.data := chart.data[1..];
    }
    chart.title := Title(value);
  }

  /**
   * The window: pushing onto at most 20 points keeps the last min(n + 1, 20) points of
   * the extended series, ending with the new one.
   */
  lemma SlidingWindow<T>(s: seq<T>, x: T)
    requires |s| <= MaxPoints
    ensures var t := PushCapped(s, x, Overflows(|s|));
            && |t| == Min(|s| + 1, MaxPoints)
            && t[|t| - 1] == x
            && t == (s + [x])[|s| + 1 - |t|..]
  {
  }

  /** When every chart holds the array `a`, each of the first `j` charts in update order is a holder of it. */
  lemma {:induction false} HoldersInShared(holding: map<ChartKey, Chart>, j: nat, a: LabelArray)
    requires j <= |UpdateOrder|
    requires forall k :: k in holding && holding[k].labels == a
    ensures HoldersIn(holding, j, a) == j
  {
    if j > 0 {
      HoldersInShared(holding, j - 1, a);
      assert UpdateOrder[j - 1] in holding;
    }
  }

  /**
   * The append a set of charts sharing one labels array needs: the label is pushed once,
   * each chart's value once, and the window check, made once, drops the oldest label
   * together with every chart's oldest value.
   */
  function AppendPaired(items: seq<string>, data: map<ChartKey, seq<Point>>, newLabel: string, latest: HistoryPoint)
    : (r: (seq<string>, map<ChartKey, seq<Point>>))
    ensures r.1.Keys == data.Keys
  {
    var dropFirst := Overflows(|items|);
    (PushCapped(items, newLabel, dropFirst), map k | k in data :: PushCapped(data[k], Some(Value(k, latest)), dropFirst))
  }

  /** A push with the window check moves every older entry down by the number of entries dropped. */
  lemma PushCappedShifts<T>(s: seq<T>, x: T, dropFirst: bool)
    requires dropFirst ==> |s| > 0
    ensures var t := PushCapped(s, x, dropFirst);
            var shift := if dropFirst then 1 else 0;
            && |t| == |s| + 1 - shift
            && t[|t| - 1] == x
            && forall i :: 0 <= i < |t| - 1 ==> t[i] == s[i + shift]
  {
  }

  /**
   * With `AppendPaired`, charts whose values line up with the shared labels still do
   * afterwards: the window stays within 20 points, the new label sits over each chart's
   * new value, and every older point keeps its label.
   */
  lemma {:induction false} AppendPairedKeepsPairing(items: seq<string>, data: map<ChartKey, seq<Point>>, newLabel: string,
                                                    latest: HistoryPoint)
    requires |items| <= MaxPoints
    requires forall k :: k in data ==> |data[k]| == |items|
    ensures var r := AppendPaired(items, data, newLabel, latest);
            var shift := if Overflows(|items|) then 1 else 0;
            && |r.0| == Min(|items| + 1, MaxPoints)
            && r.0[|r.0| - 1] == newLabel
            && (forall i :: 0 <= i < |r.0| - 1 ==> r.0[i] == items[i + shift])
            && forall k :: k in r.1 ==>
                 && |r.1[k]| == |r.0|
                 && r.1[k][|r.0| - 1] == Some(Value(k, latest))
                 && forall i :: 0 <= i < |r.0| - 1 ==> r.1[k][i] == data[k][i + shift]
  {
    var r := AppendPaired(items, data, newLabel, latest);
    PushCappedShifts(items, newLabel, Overflows(|items|));
    forall k | k in r.1
      ensures |r.1[k]| == |r.0| && r.1[k][|r.0| - 1] == Some(Value(k, latest))
      ensures forall i :: 0 <= i < |r.0| - 1 ==> r.1[k][i] == data[k][i + if Overflows(|items|) then 1 else 0]
    {
      PushCappedShifts(data[k], Some(Value(k, latest)), Overflows(|items|));
    }
  }

  /** The four charts `createChart` would make, one per key, each a distinct new object. */
  method NewCharts(labelsOf: ChartKey -> LabelArray, series: ChartKey -> seq<int>) returns (created: map<ChartKey, Chart>)
    ensures forall k :: k in created
    ensures forall k :: fresh(created[k])
    ensures forall k1, k2 :: k1 != k2 ==> created[k1] != created[k2]
    ensures forall k :: created[k].labels == labelsOf(k) && created[k].data == Defined(series(k))
                        && created[k].title == Title(CurrentValue(series(k)))
  {
    var borrowed := new Chart(labelsOf(Borrowed), series(Borrowed));
    var returned := new Chart(labelsOf(Returned), series(Returned));
    var inventory := new Chart(labelsOf(Inventory), series(Inventory));
    var issued := new Chart(labelsOf(Issued), series(Issued));
    created := map[Borrowed := borrowed, Returned := returned, Inventory := inventory, Issued := issued];
    forall k
      ensures k in created && fresh(created[k])
      ensures created[k].labels == labelsOf(k) && created[k].data == Defined(series(k))
      ensures created[k].title == Title(CurrentValue(series(k)))
    {
      match k
      case Borrowed =>
      case Returned =>
      case Inventory =>
      case Issued =>
    }
  }

  /**
   * The page's globals: the chart table (`charts`) and the last timestamp seen
   * (`lastUpdateTime`). `canvases` is the set of charts whose canvas exists on the page.
   */
  class ChartBoard {
    var charts: map<ChartKey, Chart>
    var lastUpdateTime: Option<Timestamp>
    const canvases: set<ChartKey>

    function Objects(): set<Chart>
      reads this
    {
      set k | k in charts :: charts[k]
    }

    /** The labels arrays the charts hold; charts may share one. */
    function LabelArrays(): set<LabelArray>
      reads this
    {
      set k | k in charts :: charts[k].labels
    }

    /** Charts exist only for canvases and are distinct objects. */
    ghost predicate Valid()
      reads this
    {
      && charts.Keys <= canvases
      && (forall k1, k2 :: k1 in charts && k2 in charts && k1 != k2 ==> charts[k1] != charts[k2])
    }

    /** Every chart holds the same labels array. */
    predicate SharesLabels()
      reads this
    {
      forall k1, k2 :: k1 in charts && k2 in charts ==> charts[k1].labels == charts[k2].labels
    }

    /** No two charts hold the same labels array. */
    predicate OwnLabels()
      reads this
    {
      forall k1, k2 :: k1 in charts && k2 in charts && k1 != k2 ==> charts[k1].labels != charts[k2].labels
    }

    /** How many of the first `j` charts in update order exist and hold the labels array `a`. */
    function Holders(j: nat, a: LabelArray): (n: nat)
      requires j <= |UpdateOrder|
      reads this
      ensures n <= j
    {
      HoldersIn(charts, j, a)
    }

    /** The script's top-level declarations: no charts, no timestamp yet. */
    constructor (canvases: set<ChartKey>)
      ensures Valid()
      ensures this.canvases == canvases
      ensures charts == map[] && lastUpdateTime == None
    {
      this.canvases := canvases;
      charts := map[];
      lastUpdateTime := None;
    }

    /** The chart stored under `key`, or null (`undefined`) when there is none. */
    function ChartAt(key: ChartKey): (c: Chart?)
      reads this
      ensures c != null <==> key in charts
      ensures c != null ==> c == charts[key]
    {
      if key in charts then charts[key] else null
    }

    /**
     * The four `createChart` calls: each chart whose canvas exists is replaced by a new
     * one holding the labels array passed for it and its series, titled with the series'
     * last value; a chart without a canvas is not created.
     */
    method CreateCharts(labelsOf: ChartKey -> LabelArray, series: ChartKey -> seq<int>)
      requires Valid()
      modifies this
      ensures Valid()
      ensures lastUpdateTime == old(lastUpdateTime)
      ensures charts.Keys == canvases
      ensures forall k :: k in charts ==> fresh(charts[k])
      ensures forall k :: k in charts ==> charts[k].labels == labelsOf(k) && charts[k].data == Defined(series(k))
                                          && charts[k].title == Title(CurrentValue(series(k)))
    {
      var created := NewCharts(labelsOf, series);
      // every existing chart has a canvas, so every one of them is replaced
      charts := map k | k in canvases :: created[k];
    }

    /**
     * `initializeCharts`, once the history (and, for an empty history, the current stats
     * or null) has arrived. A non-empty history builds one labels array, each point's
     * date or 'Today', which all four charts share, and remembers the last point's
     * timestamp. An empty one shows a single point for today from the stats, each chart
     * with a labels array of its own, and leaves the timestamp unset.
     */
    method InitializeCharts(history: seq<HistoryPoint>, stats: Option<DashboardStats>, today: string)
      requires Valid()
      modifies this
      ensures Valid()
      ensures |history| > 0 ==>
                && lastUpdateTime == Some(history[|history| - 1].timestamp)
                && charts.Keys == canvases
                && SharesLabels()
                && forall k :: k in charts ==> fresh(charts[k].labels) && charts[k].labels.items == Labels(history)
                                               && charts[k].data == Defined(Series(k, history))
                                               && charts[k].title == Title(Value(k, history[|history| - 1]))
      ensures |history| == 0 && stats.Some? ==>
                && lastUpdateTime == old(lastUpdateTime)
                && charts.Keys == canvases
                && OwnLabels()
                && forall k :: k in charts ==> fresh(charts[k].labels) && charts[k].labels.items == [today]
                                               && charts[k].data == [Some(StatValue(k, stats.value))]
                                               && charts[k].title == Title(StatValue(k, stats.value))
      ensures |history| == 0 && stats.None? ==> lastUpdateTime == old(lastUpdateTime) && charts == old(charts)
    {
      if |history| == 0 {
        if stats.Some? {
          var borrowed := new LabelArray([today]);
          var returned := new LabelArray([today]);
          var inventory := new LabelArray([today]);
          var issued := new LabelArray([today]);
          var own := (k: ChartKey) => match k
            case Borrowed => borrowed
            case Returned => returned
            case Inventory => inventory
            case Issued => issued;
          CreateCharts(own, k => [StatValue(k, stats.value)]);
        }
        return;
      }
      var labels := new LabelArray(Labels(history));
      lastUpdateTime := Some(history[|history| - 1].timestamp);
      CreateCharts(k => labels, k => Series(k, history));
    }

    /** A poll brings news: there is history, a timestamp was seen, and the latest differs from it. */
    predicate IsNewUpdate(history: seq<HistoryPoint>, last: Option<Timestamp>) {
      |history| > 0 && last.Some? && history[|history| - 1].timestamp != last.value
    }

    /** Until a timestamp has been remembered, no poll finds news, whatever the history holds. */
    lemma NoUpdatesWithoutTimestamp(history: seq<HistoryPoint>)
      ensures !IsNewUpdate(history, None)
    {
    }

    /**
     * `checkForUpdates`, once the history has arrived. Without news nothing changes.
     * With news the timestamp is remembered; then, if the borrowed chart exists, the
     * latest point's label is looked up among its labels. At the first match every
     * chart's value there is written. Otherwise each chart in turn pushes the label onto
     * its labels array and the value onto its values, so a labels array held by several
     * charts receives the label once per holder, and a chart drops its first value when
     * its labels array has overflowed by the time its own push is made.
     * Without the borrowed chart the script fails at the lookup and no chart changes.
     */
    method CheckForUpdates(history: seq<HistoryPoint>, day: DayFormat)
      requires Valid()
      modifies this, Objects(), LabelArrays()
      ensures Valid()
      ensures charts == old(charts)
      ensures lastUpdateTime == (if IsNewUpdate(history, old(lastUpdateTime)) then Some(history[|history| - 1].timestamp)
                                 else old(lastUpdateTime))
      ensures !IsNewUpdate(history, old(lastUpdateTime)) || Borrowed !in charts ==>
                forall k :: k in charts ==> charts[k].labels.items == old(charts[k].labels.items)
                                            && charts[k].data == old(charts[k].data)
                                            && charts[k].title == old(charts[k].title)
      ensures IsNewUpdate(history, old(lastUpdateTime)) && Borrowed in charts ==>
                var latest := history[|history| - 1];
                var newLabel := UpdateLabel(latest, day);
                var index := IndexOf(old(charts[Borrowed].labels.items), newLabel);
                forall k :: k in charts ==>
                  && charts[k].title == Title(Value(k, latest))
                  && (index >= 0 ==> charts[k].labels.items == old(charts[k].labels.items)
                                     && charts[k].data == SetAt(old(charts[k].data), index, Value(k, latest)))
                  && (index < 0 ==> Appended(k, old(charts[k].labels.items), old(charts[k].data), newLabel, latest))
    {
      if |history| == 0 {
        return;
      }
      var latestTimestamp := history[|history| - 1].timestamp;
      if lastUpdateTime.Some? && latestTimestamp != lastUpdateTime.value {
        lastUpdateTime := Some(latestTimestamp);
        var latest := history[|history| - 1];
        var newLabel := UpdateLabel(latest, day);
        if Borrowed !in charts {
          return;
        }
        var existingIndex := IndexOf(charts[Borrowed].labels.items, newLabel);
        if existingIndex >= 0 {
          UpdatePointEverywhere(existingIndex, latest);
        } else {
          AppendEverywhere(newLabel, latest);
        }
      }
    }

    /** The four `updateExistingPoint` calls of a poll, at the index found among the borrowed labels. */
    method UpdatePointEverywhere(index: nat, latest: HistoryPoint)
      requires Valid()
      modifies Objects()
      ensures forall k :: k in charts ==>
                && charts[k].title == Title(Value(k, latest))
                && charts[k].labels.items == old(charts[k].labels.items)
                && charts[k].data == SetAt(old(charts[k].data), index, Value(k, latest))
    {
      UpdateExistingPoint(ChartAt(Borrowed), index, latest.itemsBorrowed);
      UpdateExistingPoint(ChartAt(Returned), index, latest.itemsReturned);
      UpdateExistingPoint(ChartAt(Inventory), index, latest.inventoryRemaining);
      UpdateExistingPoint(ChartAt(Issued), index, latest.itemsIssued);
    }

    /**
     * The effect of a poll's four `updateChart` calls on chart `key`, from its labels
     * `items` and values `data` before them: its labels array receives the label once
     * for every chart holding it, and its own push drops the first value exactly when
     * the pushes made before it, by the charts updated earlier, overflowed the window.
     */
    ghost predicate Appended(key: ChartKey, items: seq<string>, data: seq<Point>, newLabel: string, latest: HistoryPoint)
      requires key in charts
      reads this, charts[key], charts[key].labels
    {
      var labels := charts[key].labels;
      var before := PushedTimes(items, newLabel, Holders(Position(key), labels));
      && labels.items == PushedTimes(items, newLabel, Holders(|UpdateOrder|, labels))
      && charts[key].data == PushCapped(data, Some(Value(key, latest)), Overflows(|before|))
    }

    /** The chart under `k` and its labels array, if there is one. */
    function ChartFrame(k: ChartKey): set<object>
      reads this
    {
      if k in charts then {charts[k], charts[k].labels} else {}
    }

    /** The labels arrays hold `items`, and the charts show the values `data` and the titles `titles`. */
    ghost predicate Shows(items: map<LabelArray, seq<string>>, data: map<ChartKey, seq<Point>>, titles: map<ChartKey, string>)
      reads this, ChartFrame(Borrowed), ChartFrame(Returned), ChartFrame(Inventory), ChartFrame(Issued)
    {
      && data.Keys == titles.Keys == charts.Keys
      && ShowsChart(Borrowed, items, data, titles) && ShowsChart(Returned, items, data, titles)
      && ShowsChart(Inventory, items, data, titles) && ShowsChart(Issued, items, data, titles)
    }

    /** The chart under `k`, if any, shows its part of `items`, `data` and `titles`. */
    ghost predicate ShowsChart(k: ChartKey, items: map<LabelArray, seq<string>>, data: map<ChartKey, seq<Point>>, titles: map<ChartKey, string>)
      reads this, ChartFrame(k)
    {
      k in charts && k in data && k in titles && charts[k].labels in items ==>
        (charts[k].labels.items, charts[k].data, charts[k].title) == (items[charts[k].labels], data[k], titles[k])
    }

    /** The four `updateChart` calls of a poll, for a label the borrowed chart does not have. */
    method AppendEverywhere(newLabel: string, latest: HistoryPoint)
      requires Valid()
      modifies Objects(), LabelArrays()
      ensures charts == old(charts)
      ensures forall k :: k in charts ==>
                && charts[k].title == Title(Value(k, latest))
                && Appended(k, old(charts[k].labels.items), old(charts[k].data), newLabel, latest)
    {
      ghost var holding := charts;
      ghost var items0 := map a | a in LabelArrays() :: a.items;
      ghost var data0 := map k | k in charts :: charts[k].data;
      ghost var titles0 := map k | k in charts :: charts[k].title;
      forall k | k in charts
        ensures charts[k].labels in items0 && charts[k].labels.items == items0[charts[k].labels]
      {
        assert charts[k].labels in LabelArrays();
      }
      UpdateInOrder(newLabel, latest, holding, items0, data0, titles0);
    }

    /** The four calls of an append, in update order, from the labels, values and titles the charts show. */
    method UpdateInOrder(newLabel: string, latest: HistoryPoint, ghost holding: map<ChartKey, Chart>,
                         ghost items0: map<LabelArray, seq<string>>, ghost data0: map<ChartKey, seq<Point>>,
                         ghost titles0: map<ChartKey, string>)
      requires Valid() && holding == charts
      requires Shows(items0, data0, titles0)
      modifies Objects(), LabelArrays()
      ensures charts == old(charts)
      requires forall k :: k in holding ==> holding[k].labels in items0
      ensures forall k :: k in charts ==>
                && charts[k].title == Title(Value(k, latest))
                && Appended(k, items0[charts[k].labels], data0[k], newLabel, latest)
    {
      ghost var items1 := PushLabelFor(holding, items0, Borrowed, newLabel);
      ghost var data1 := PushValueFor(holding, items0, data0, Borrowed, latest.itemsBorrowed);
      ghost var titles1 := RetitleFor(titles0, Borrowed, latest.itemsBorrowed);
      UpdateChartInTurn(Borrowed, newLabel, latest.itemsBorrowed, holding, items0, data0, titles0);
      ghost var items2 := PushLabelFor(holding, items1, Returned, newLabel);
      ghost var data2 := PushValueFor(holding, items1, data1, Returned, latest.itemsReturned);
      ghost var titles2 := RetitleFor(titles1, Returned, latest.itemsReturned);
      UpdateChartInTurn(Returned, newLabel, latest.itemsReturned, holding, items1, data1, titles1);
      ghost var items3 := PushLabelFor(holding, items2, Inventory, newLabel);
      ghost var data3 := PushValueFor(holding, items2, data2, Inventory, latest.inventoryRemaining);
      ghost var titles3 := RetitleFor(titles2, Inventory, latest.inventoryRemaining);
      UpdateChartInTurn(Inventory, newLabel, latest.inventoryRemaining, holding, items2, data2, titles2);
      ghost var items4 := PushLabelFor(holding, items3, Issued, newLabel);
      ghost var data4 := PushValueFor(holding, items3, data3, Issued, latest.itemsIssued);
      ghost var titles4 := RetitleFor(titles3, Issued, latest.itemsIssued);
      UpdateChartInTurn(Issued, newLabel, latest.itemsIssued, holding, items3, data3, titles3);
      StagesUnfold(holding, items0, data0, titles0, newLabel, latest);
      ShowsAppended(holding, items0, data0, titles0, items4, data4, titles4, newLabel, latest);
    }

    /**
     * Once the charts show what the four calls of an append compute, each chart's title
     * shows its value and its labels and values are as `Appended` describes.
     */
    lemma ShowsAppended(holding: map<ChartKey, Chart>, items0: map<LabelArray, seq<string>>,
                        data0: map<ChartKey, seq<Point>>, titles0: map<ChartKey, string>,
                        items: map<LabelArray, seq<string>>, data: map<ChartKey, seq<Point>>, titles: map<ChartKey, string>,
                        newLabel: string, latest: HistoryPoint)
      requires holding == charts && data0.Keys == titles0.Keys == holding.Keys
      requires forall k :: k in holding ==> holding[k].labels in items0
      requires items == ItemsAt(holding, items0, newLabel, |UpdateOrder|)
      requires data == DataAt(holding, items0, data0, newLabel, latest, |UpdateOrder|)
      requires titles == TitlesAt(titles0, latest, |UpdateOrder|)
      requires Shows(items, data, titles)
      ensures forall k :: k in charts ==>
                && charts[k].title == Title(Value(k, latest))
                && Appended(k, items0[charts[k].labels], data0[k], newLabel, latest)
    {
      TitlesShowValues(titles0, latest, |UpdateOrder|);
      forall k | k in charts
        ensures charts[k].title == Title(Value(k, latest))
        ensures Appended(k, items0[charts[k].labels], data0[k], newLabel, latest)
      {
        assert ShowsChart(k, items, data, titles) by {
          match k
          case Borrowed =>
          case Returned =>
          case Inventory =>
          case Issued =>
        }
        ItemsAtCounts(charts, items0, newLabel, |UpdateOrder|, charts[k].labels);
        DataAtCounts(charts, items0, data0, newLabel, latest, |UpdateOrder|, k);
      }
    }

    /**
     * The append as written, on the single labels array a non-empty history gives all four
     * charts: while the window has room, the shared labels receive the label four times
     * and each chart's values receive one value, so a chart whose labels and values were
     * paired ends with three labels more than values.
     */
    lemma SharedLabelsDrift(k: ChartKey, items: seq<string>, data: seq<Point>, newLabel: string, latest: HistoryPoint)
      requires forall key :: key in charts
      requires SharesLabels()
      requires |items| + |UpdateOrder| <= MaxPoints
      requires Appended(k, items, data, newLabel, latest)
      ensures charts[k].labels.items == items + [newLabel, newLabel, newLabel, newLabel]
      ensures charts[k].data == data + [Some(Value(k, latest))]
      ensures |data| == |items| ==> |charts[k].labels.items| == |charts[k].data| + 3
    {
      var a := charts[k].labels;
      forall key
        ensures key in charts && charts[key].labels == a
      {
        assert key in charts && k in charts;
      }
      HoldersInShared(charts, |UpdateOrder|, a);
      HoldersInShared(charts, Position(k), a);
      PushedTimesUnderCap(items, newLabel, |UpdateOrder|);
      PushedTimesUnderCap(items, newLabel, Position(k));
      assert seq(|UpdateOrder|, _ => newLabel) == [newLabel, newLabel, newLabel, newLabel];
    }

    /**
     * One of an append's `updateChart` calls, on the chart under `key` (if any): the
     * label push reaches every chart holding that chart's labels array; the value push
     * and the new title reach that chart only.
     */
    method UpdateChartInTurn(key: ChartKey, newLabel: string, value: int, ghost holding: map<ChartKey, Chart>,
                             ghost items: map<LabelArray, seq<string>>, ghost data: map<ChartKey, seq<Point>>,
                             ghost titles: map<ChartKey, string>)
      requires Valid() && holding == charts
      requires Shows(items, data, titles)
      modifies Objects(), LabelArrays()
      ensures charts == old(charts)
      ensures Shows(PushLabelFor(holding, items, key, newLabel), PushValueFor(holding, items, data, key, value), RetitleFor(titles, key, value))
    {
      forall k | k in charts
        ensures ShowsChart(k, items, data, titles)
      {
        match k
        case Borrowed =>
        case Returned =>
        case Inventory =>
        case Issued =>
      }
      UpdateChartEach(key, newLabel, value, holding, items, data, titles);
    }

    /** The same call, stated chart by chart. */
    method UpdateChartEach(key: ChartKey, newLabel: string, value: int, ghost holding: map<ChartKey, Chart>,
                      ghost items: map<LabelArray, seq<string>>, ghost data: map<ChartKey, seq<Point>>,
                      ghost titles: map<ChartKey, string>)
      requires Valid() && holding == charts
      requires data.Keys == titles.Keys == charts.Keys
      requires forall k :: k in charts ==> ShowsChart(k, items, data, titles)
      modifies Objects(), LabelArrays()
      ensures charts == old(charts)
      ensures forall k :: k in charts ==>
                ShowsChart(k, PushLabelFor(holding, items, key, newLabel), PushValueFor(holding, items, data, key, value),
                           RetitleFor(titles, key, value))
    {
      UpdateChart(ChartAt(key), newLabel, value);
    }
  }
}

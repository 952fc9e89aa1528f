/** The per-tick aggregation: the header row, one table row per event, the
    severity counters, the warning and critical client lists and the overall
    colour, computed as a left fold over the flat event list. */
module Aggregation {
  import opened Options
  import opened Status
  import opened Events

  /** A table cell: the event's status label as its class, and its text. */
  datatype Cell = Cell(statusClass: StatusLabel, value: string)

  /** A table row: one cell per configured column. */
  datatype Row = Row(cols: seq<Cell>)

  /** A header cell carries only the column name. */
  datatype HeaderCell = HeaderCell(value: string)

  datatype HeaderRow = HeaderRow(cols: seq<HeaderCell>)

  /** An entry of the warning or critical list, sent as `label` (the client
      name) and `value` (the check name). */
  datatype ClientItem = ClientItem(clientName: Option<string>, checkName: Option<string>)

  /** Everything one tick computes. */
  datatype AggregateResult = AggregateResult(
    criticalCount: nat,
    warningCount: nat,
    unknownCount: nat,
    status: Overall,
    clientWarning: seq<ClientItem>,
    clientCritical: seq<ClientItem>,
    header: HeaderRow,
    rows: seq<Row>)

  /** The mutable state of the job's event loop. */
  datatype Tally = Tally(
    critical: nat,
    warning: nat,
    unknown: nat,
    warn: seq<Event>,
    crit: seq<Event>,
    rows: seq<Row>)

  const EmptyTally := Tally(0, 0, 0, [], [], [])

  // ---------------------------------------------------------------------
  // Reference definitions over the event list

  /** The events whose status is exactly `k`, in order. */
  function WithStatus(events: seq<Event>, k: int): (r: seq<Event>)
    ensures |r| <= |events|
  {
    if events == [] then []
    else (if events[0].check.status == k then [events[0]] else []) + WithStatus(events[1..], k)
  }

  /** The number of events whose status is above `k`. */
  function CountAbove(events: seq<Event>, k: int): (n: nat)
    ensures n <= |events|
  {
    if events == [] then 0
    else (if events[0].check.status > k then 1 else 0) + CountAbove(events[1..], k)
  }

  /** The number of events whose status is below `k`. */
  function CountBelow(events: seq<Event>, k: int): (n: nat)
    ensures n <= |events|
  {
    if events == [] then 0
    else (if events[0].check.status < k then 1 else 0) + CountBelow(events[1..], k)
  }

  // ---------------------------------------------------------------------
  // Building blocks

  /** The header row: one cell per configured column, valued with its name. */
  function Header(columns: seq<string>): (h: HeaderRow)
    ensures |h.cols| == |columns|
    ensures forall i :: 0 <= i < |columns| ==> h.cols[i].value == columns[i]
  {
    if columns == [] then HeaderRow([])
    else
      var prefix := Header(columns[..|columns| - 1]);
      HeaderRow(prefix.cols + [HeaderCell(columns[|columns| - 1])])
  }

  /** The cells of one event for the given columns, each classed with `cls`. */
  function Cells(cls: StatusLabel, columns: seq<string>, e: Event): (cells: seq<Cell>)
    ensures |cells| == |columns|
    ensures forall j :: 0 <= j < |columns| ==> cells[j] == Cell(cls, CellValue(columns[j], e))
  {
    if columns == [] then []
    else [Cell(cls, CellValue(columns[0], e))] + Cells(cls, columns[1..], e)
  }

  /** The table row of one event. */
  function RowFor(columns: seq<string>, e: Event): (r: Row)
    ensures |r.cols| == |columns|
    ensures forall j :: 0 <= j < |columns| ==>
              r.cols[j].statusClass == GetStatus(e.check.status) &&
              r.cols[j].value == CellValue(columns[j], e)
  {
    Row(Cells(GetStatus(e.check.status), columns, e))
  }

  /** The list entry of an event: its client name and its check name. */
  function ItemFor(e: Event): (item: ClientItem)
  {
    ClientItem(e.client.name, e.check.name)
  }

  /** The client list built from the collected events, in their order. */
  function ClientItems(events: seq<Event>): (items: seq<ClientItem>)
    ensures |items| == |events|
    ensures forall i :: 0 <= i < |events| ==>
              items[i].clientName == events[i].client.name && items[i].checkName == events[i].check.name
  {
    if events == [] then []
    else [ItemFor(events[0])] + ClientItems(events[1..])
  }

  // ---------------------------------------------------------------------
  // The fold

  /** One iteration of the event loop: append the row, then count the event
      as a warning (status 1), a critical (status 2) or an unknown (above 2).
      Status 0 and negative statuses are counted nowhere. */
  function Step(columns: seq<string>, t: Tally, e: Event): (t': Tally)
  {
    var status := e.check.status;
    var withRow := t.(rows := t.rows + [RowFor(columns, e)]);
    if status == 1 then withRow.(warn := t.warn + [e], warning := t.warning + 1)
    else if status == 2 then withRow.(crit := t.crit + [e], critical := t.critical + 1)
    else if status > 2 then withRow.(unknown := t.unknown + 1)
    else withRow
  }

  /** Runs the event loop over `events` starting from `t`. */
  function Fold(columns: seq<string>, t: Tally, events: seq<Event>): (r: Tally)
    ensures |r.rows| == |t.rows| + |events|
    decreases |events|
  {
    if events == [] then t
    else Fold(columns, Step(columns, t, events[0]), events[1..])
  }

  /** The loop collects exactly the status-1 and status-2 events, in order,
      counts them, and counts the events above status 2. */
  lemma {:induction false} FoldCounts(columns: seq<string>, t: Tally, events: seq<Event>)
    ensures var r := Fold(columns, t, events);
      && r.warn == t.warn + WithStatus(events, 1)
      && r.crit == t.crit + WithStatus(events, 2)
      && r.warning == t.warning + |WithStatus(events, 1)|
      && r.critical == t.critical + |WithStatus(events, 2)|
      && r.unknown == t.unknown + CountAbove(events, 2)
    decreases |events|
  {
    if events != [] {
      var s := Step(columns, t, events[0]);
      FoldCounts(columns, s, events[1..]);
      assert s.warn + WithStatus(events[1..], 1) == t.warn + WithStatus(events, 1);
      assert s.crit + WithStatus(events[1..], 2) == t.crit + WithStatus(events, 2);
    }
  }

  /** The loop appends one row per event, in event order, after the rows it started with. */
  lemma {:induction false} FoldRows(columns: seq<string>, t: Tally, events: seq<Event>)
    ensures var r := Fold(columns, t, events);
      && r.rows[..|t.rows|] == t.rows
      && forall i :: 0 <= i < |events| ==> r.rows[|t.rows| + i] == RowFor(columns, events[i])
    decreases |events|
  {
    if events != [] {
      var s := Step(columns, t, events[0]);
      FoldRows(columns, s, events[1..]);
      var r := Fold(columns, t, events);
      assert r == Fold(columns, s, events[1..]);
      assert s.rows[..|t.rows|] == t.rows;
      forall i | 0 <= i < |events|
        ensures r.rows[|t.rows| + i] == RowFor(columns, events[i])
      {
        if i == 0 {
          assert r.rows[..|s.rows|][|t.rows|] == s.rows[|t.rows|];
        } else {
          assert events[i] == events[1..][i - 1];
          assert |t.rows| + i == |s.rows| + (i - 1);
        }
      }
    }
  }

  /** The whole aggregation of one tick over the flat event list. */
  function Aggregate(columns: seq<string>, events: seq<Event>): (a: AggregateResult)
    ensures a.header == Header(columns)
    ensures |a.rows| == |events|
    ensures a.status == OverallStatus(a.criticalCount, a.warningCount)
  {
    var t := Fold(columns, EmptyTally, events);
    AggregateResult(
      t.critical, t.warning, t.unknown,
      OverallStatus(t.critical, t.warning),
      ClientItems(t.warn), ClientItems(t.crit),
      Header(columns), t.rows)
  }

  /** The counters count the status-1, status-2 and above-2 events; the client
      lists hold the status-1 and status-2 events in order, one entry each. */
  lemma AggregateCounts(columns: seq<string>, events: seq<Event>)
    ensures var a := Aggregate(columns, events);
      && a.warningCount == |WithStatus(events, 1)| == |a.clientWarning|
      && a.criticalCount == |WithStatus(events, 2)| == |a.clientCritical|
      && a.unknownCount == CountAbove(events, 2)
      && a.clientWarning == ClientItems(WithStatus(events, 1))
      && a.clientCritical == ClientItems(WithStatus(events, 2))
  {
    FoldCounts(columns, EmptyTally, events);
    var t := Fold(columns, EmptyTally, events);
    assert t.warn == WithStatus(events, 1) && t.crit == WithStatus(events, 2);
  }

  /** Row i of the table is the row of event i. */
  lemma AggregateRows(columns: seq<string>, events: seq<Event>)
    ensures forall i :: 0 <= i < |events| ==> Aggregate(columns, events).rows[i] == RowFor(columns, events[i])
  {
    FoldRows(columns, EmptyTally, events);
    var t := Fold(columns, EmptyTally, events);
    assert forall i :: 0 <= i < |events| ==> t.rows[i] == t.rows[|EmptyTally.rows| + i];
  }

  // ---------------------------------------------------------------------
  // Properties of the reference definitions

  /** An event is among `WithStatus(events, k)` exactly when it is in the list with status `k`. */
  lemma {:induction false} WithStatusMembers(events: seq<Event>, k: int)
    ensures forall e :: e in WithStatus(events, k) <==> e in events && e.check.status == k
  {
    if events != [] {
      WithStatusMembers(events[1..], k);
      assert events == [events[0]] + events[1..];
    }
  }

  /** Every event has exactly one status class: below 0, 0, 1, 2 or above 2. */
  lemma {:induction false} StatusPartition(events: seq<Event>)
    ensures CountBelow(events, 0) + |WithStatus(events, 0)| + |WithStatus(events, 1)|
            + |WithStatus(events, 2)| + CountAbove(events, 2) == |events|
  {
    if events != [] {
      StatusPartition(events[1..]);
    }
  }

  /** No event with status `k` means an empty selection, and conversely. */
  lemma {:induction false} WithStatusEmpty(events: seq<Event>, k: int)
    ensures WithStatus(events, k) == [] <==> forall i :: 0 <= i < |events| ==> events[i].check.status != k
  {
    WithStatusMembers(events, k);
    if WithStatus(events, k) != [] {
      var e := WithStatus(events, k)[0];
      assert e in WithStatus(events, k);
      var i :| 0 <= i < |events| && events[i] == e;
    }
  }

  // ---------------------------------------------------------------------
  // Properties of the aggregate

  /** Every cell of row `i` is classed with the label of event `i`'s status and
      holds the projection of its column. */
  lemma CellsFollowEvents(columns: seq<string>, events: seq<Event>, i: nat, j: nat)
    requires i < |events| && j < |columns|
    ensures |Aggregate(columns, events).rows[i].cols| == |columns|
    ensures Aggregate(columns, events).rows[i].cols[j]
              == Cell(GetStatus(events[i].check.status), CellValue(columns[j], events[i]))
  {
    AggregateRows(columns, events);
    assert Aggregate(columns, events).rows[i] == RowFor(columns, events[i]);
  }

  /** The warning and critical counters and the unknown counter together never
      exceed the number of events; equality fails exactly by the events with
      status 0 or a negative status. */
  lemma CountsBound(columns: seq<string>, events: seq<Event>)
    ensures var a := Aggregate(columns, events);
      a.warningCount + a.criticalCount + a.unknownCount
        == |events| - |WithStatus(events, 0)| - CountBelow(events, 0)
    ensures var a := Aggregate(columns, events);
      a.warningCount + a.criticalCount + a.unknownCount <= |events|
  {
    StatusPartition(events);
    AggregateCounts(columns, events);
  }

  /** The colour is red exactly when some event is critical, yellow exactly
      when none is critical and some warns, green otherwise. */
  lemma OverallReflectsEvents(columns: seq<string>, events: seq<Event>)
    ensures Aggregate(columns, events).status == Red <==>
              exists i :: 0 <= i < |events| && events[i].check.status == 2
    ensures Aggregate(columns, events).status == Yellow <==>
              (forall i :: 0 <= i < |events| ==> events[i].check.status != 2) &&
              (exists i :: 0 <= i < |events| && events[i].check.status == 1)
    ensures Aggregate(columns, events).status == Green <==>
              forall i :: 0 <= i < |events| ==> events[i].check.status != 1 && events[i].check.status != 2
  {
    AggregateCounts(columns, events);
    WithStatusEmpty(events, 1);
    WithStatusEmpty(events, 2);
  }

  /** The client lists hold, in event order, exactly the events of status 1
      and 2, each labelled with its client name and valued with its check name. */
  lemma ClientListsFollowEvents(columns: seq<string>, events: seq<Event>)
    ensures forall item :: item in Aggregate(columns, events).clientWarning <==>
              exists e :: e in events && e.check.status == 1 && item == ItemFor(e)
    ensures forall item :: item in Aggregate(columns, events).clientCritical <==>
              exists e :: e in events && e.check.status == 2 && item == ItemFor(e)
  {
    AggregateCounts(columns, events);
    WithStatusMembers(events, 1);
    WithStatusMembers(events, 2);
    ItemsMembers(WithStatus(events, 1));
    ItemsMembers(WithStatus(events, 2));
  }

  lemma ItemsMembers(events: seq<Event>)
    ensures forall item :: item in ClientItems(events) <==> exists e :: e in events && item == ItemFor(e)
  {
  }

  /** Without events the tick is all green and empty, with the header intact. */
  lemma NoEvents(columns: seq<string>)
    ensures var a := Aggregate(columns, []);
      a.rows == [] && a.clientWarning == [] && a.clientCritical == [] &&
      a.warningCount == 0 && a.criticalCount == 0 && a.unknownCount == 0 &&
      a.status == Green && a.header == Header(columns)
  {
  }
}

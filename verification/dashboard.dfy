/** The four named payloads a tick sends to the dashboard. The transport is
    not modelled; only what each `send_event` call carries. */
module Dashboard {
  import opened Options
  import opened Status
  import opened Aggregation

  datatype Payload =
    | StatusPayload(criticals: nat, warnings: nat, unknowns: nat, status: Overall)
    | ListPayload(items: seq<ClientItem>)
    | TablePayload(hrows: seq<HeaderRow>, rows: seq<Row>)

  /** One `send_event` call: the widget id and its payload. */
  datatype Emission = Emission(id: string, payload: Payload)

  const StatusId: string := "sensu-status"
  const WarnListId: string := "sensu-warn-list"
  const CritListId: string := "sensu-crit-list"
  const TableId: string := "sensu-table"

  /** The emissions of a completed tick, in the order they are sent. */
  function Emissions(a: AggregateResult): (es: seq<Emission>)
    ensures |es| == 4
    ensures es[0].id == StatusId && es[1].id == WarnListId && es[2].id == CritListId && es[3].id == TableId
  {
    [ Emission(StatusId, StatusPayload(a.criticalCount, a.warningCount, a.unknownCount, a.status)),
      Emission(WarnListId, ListPayload(a.clientWarning)),
      Emission(CritListId, ListPayload(a.clientCritical)),
      Emission(TableId, TablePayload([a.header], a.rows)) ]
  }

  /** Reads a tick's result back from what the dashboard received, when the
      emissions have the shape a tick sends. */
  function Received(es: seq<Emission>): (a: Option<AggregateResult>)
  {
    if |es| == 4 && es[0].id == StatusId && es[1].id == WarnListId
       && es[2].id == CritListId && es[3].id == TableId
       && es[0].payload.StatusPayload? && es[1].payload.ListPayload?
       && es[2].payload.ListPayload? && es[3].payload.TablePayload?
       && |es[3].payload.hrows| == 1
    then
      var s := es[0].payload;
      Some(AggregateResult(s.criticals, s.warnings, s.unknowns, s.status,
        es[1].payload.items, es[2].payload.items,
        es[3].payload.hrows[0], es[3].payload.rows))
    else None
  }

  /** Nothing a tick computes is lost on the way to the dashboard. */
  lemma EmissionsLossless(a: AggregateResult)
    ensures Received(Emissions(a)) == Some(a)
  {
  }

  /** The widget ids are pairwise distinct, so no payload overwrites another. */
  lemma EmissionIdsDistinct(a: AggregateResult)
    ensures forall i, j :: 0 <= i < j < 4 ==> Emissions(a)[i].id != Emissions(a)[j].id
  {
  }
}

/** One scheduler tick end to end: fetch every configured environment, fan
    the results in, aggregate. */
module Tick {
  import opened Options
  import opened Status
  import opened Events
  import opened Sources
  import opened Aggregation

  /** The result of one tick, given how each request would be answered. */
  function RunTick(envs: seq<Environment>, columns: seq<string>, fetch: Request -> Option<seq<Event>>): (a: AggregateResult)
    ensures |a.rows| == TotalEvents(FetchAll(envs, fetch))
    ensures a.header == Header(columns)
    ensures |a.header.cols| == |columns|
  {
    var results := FetchAll(envs, fetch);
    FanInLength(results);
    Aggregate(columns, FanIn(results))
  }

  /** An environment whose fetch fails adds no rows: the tick shows exactly
      the events of the other environments. */
  lemma {:induction false} FailedEnvironmentIsSkipped(
    before: seq<Environment>, failed: Environment, after: seq<Environment>,
    columns: seq<string>, fetch: Request -> Option<seq<Event>>)
    requires fetch(RequestFor(failed)) == None
    ensures RunTick(before + [failed] + after, columns, fetch) == RunTick(before + after, columns, fetch)
  {
    var a := FetchAll(before, fetch);
    var b := FetchAll(after, fetch);
    var x := before + [failed];
    FetchAllAppend(x, after, fetch);
    FetchAllAppend(before, [failed], fetch);
    FetchAllAppend(before, after, fetch);
    assert FetchAll([failed], fetch) == [None];
    var withFailed := FetchAll(x + after, fetch);
    assert withFailed == a + [None] + b;
    FanInAround(a, None, b);
    FanInAppend(a, b);
    assert FanIn(withFailed) == FanIn(FetchAll(before + after, fetch));
  }

  lemma FetchAllAppend(a: seq<Environment>, b: seq<Environment>, fetch: Request -> Option<seq<Event>>)
    ensures FetchAll(a + b, fetch) == FetchAll(a, fetch) + FetchAll(b, fetch)
  {
  }

  /** Two environments, the first returning one critical event, the second
      unreachable: one row, one critical, red. */
  lemma ScenarioOneCriticalOneUnreachable(
    env1: Environment, env2: Environment, columns: seq<string>,
    fetch: Request -> Option<seq<Event>>, e: Event)
    requires fetch(RequestFor(env1)) == Some([e])
    requires fetch(RequestFor(env2)) == None
    requires e.check.status == 2
    ensures var a := RunTick([env1, env2], columns, fetch);
      a.criticalCount == 1 && a.warningCount == 0 && a.status == Red && |a.rows| == 1
  {
    var results := FetchAll([env1, env2], fetch);
    assert results == [Some([e]), None];
    AggregateCounts(columns, [e]);
    assert FanIn(results) == [e] by {
      assert FanIn(results) == [e] + FanIn([None]);
      assert FanIn([None]) == [] + FanIn([]);
    }
  }

  /** One environment returning statuses 0, 1, 1, 2 and 5: two warnings, one
      critical, one unknown, red. */
  lemma ScenarioMixedStatuses(env: Environment, columns: seq<string>,
    fetch: Request -> Option<seq<Event>>, events: seq<Event>)
    requires fetch(RequestFor(env)) == Some(events)
    requires |events| == 5
    requires events[0].check.status == 0 && events[1].check.status == 1 && events[2].check.status == 1
    requires events[3].check.status == 2 && events[4].check.status == 5
    ensures var a := RunTick([env], columns, fetch);
      && a.warningCount == 2 && a.criticalCount == 1 && a.unknownCount == 1
      && |a.clientWarning| == 2 && |a.clientCritical| == 1 && a.status == Red
  {
    var results := FetchAll([env], fetch);
    assert results == [Some(events)];
    assert FanIn(results) == events by {
      assert FanIn(results) == events + FanIn([]);
    }
    AggregateCounts(columns, events);
    assert WithStatus(events[4..], 1) == [] && WithStatus(events[4..], 2) == [];
    assert CountAbove(events[4..], 2) == 1;
    assert WithStatus(events[3..], 1) == [] && |WithStatus(events[3..], 2)| == 1;
    assert CountAbove(events[3..], 2) == 1;
    assert |WithStatus(events[2..], 1)| == 1 && |WithStatus(events[2..], 2)| == 1;
    assert CountAbove(events[2..], 2) == 1;
    assert |WithStatus(events[1..], 1)| == 2 && |WithStatus(events[1..], 2)| == 1;
    assert CountAbove(events[1..], 2) == 1;
  }

  /** No environment configured: no rows, nothing counted, green, header intact. */
  lemma ScenarioNoEnvironments(columns: seq<string>, fetch: Request -> Option<seq<Event>>)
    ensures var a := RunTick([], columns, fetch);
      && a.rows == [] && a.warningCount == 0 && a.criticalCount == 0 && a.unknownCount == 0
      && a.status == Green && |a.header.cols| == |columns|
      && forall i :: 0 <= i < |columns| ==> a.header.cols[i].value == columns[i]
  {
  }
}

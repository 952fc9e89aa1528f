# fleximon Sensu job — Dafny model

A model of the per-tick aggregation of the fleximon dashboard job
`jobs/sensu.rb`. On every tick the job polls every configured Sensu
environment for its events. It concatenates them in configuration order and
classifies each event's status. It projects the configured columns into table
rows and counts warnings, criticals and unknowns. It lists the warning and
critical clients, picks a red/yellow/green overall colour, and sends four
payloads to the dashboard.

The model is pure. Events, cells, rows and the aggregate result are immutable
datatypes. The event loop is a left fold (`Aggregation.Fold`) over the flat
event list, and its accumulator `Tally` holds the loop's mutable locals. The
HTTP fetch with its JSON parse is an abstract function
`Request -> Option<seq<Event>>`. `None` stands for the nil that `get_data`
returns when the connection or the parse fails.

Modules, leaves first:

- `Options`: the optional value that stands for Ruby's nil.
- `Status`: `get_status` and the overall colour.
- `Text`: Ruby `String#chomp` with the default separator, on `seq<char>`.
- `Events`: the event record, `get_assoc` and the nil/chomp cell cleanup.
- `Sources`: the environment record, URL and basic-auth construction, the fan-in of fetch results.
- `Aggregation`: header, rows, counters, client lists, overall colour.
- `Dashboard`: the four `send_event` payloads.
- `Tick`: one tick end to end, with three worked scenarios.

Points where the source's behaviour is narrower than it may look:

- The comment at jobs/sensu.rb:120 says "remove tailing whitespace", but `chomp` removes exactly one trailing line terminator (`"\n"`, `"\r\n"` or `"\r"`). Other trailing whitespace is kept, and of `"x\n\n"` one `"\n"` stays. The model follows `chomp`.
- A negative status is labelled unknown but increments no counter, because the code only counts `status > 2`. So the three counters can sum to less than the number of events (`Aggregation.CountsBound`).
- The job makes four `send_event` calls (jobs/sensu.rb:166-177): status, warning list, critical list, table. The table's header is wrapped in a one-element `hrows` list.

## Model

| member | source | states |
|---|---|---|
| Status.GetStatus | jobs/sensu.rb:28-39 | ok exactly for 0, warning exactly for 1, critical exactly for 2, unknown exactly for every other integer, negatives included |
| Status.LabelNamesDistinct | jobs/sensu.rb:28-39 | the four label strings sent as cell classes are pairwise distinct |
| Status.OverallStatus | jobs/sensu.rb:157-163 | red iff the critical count is positive; yellow iff no critical and some warning; green iff both counts are zero |
| Text.Chomp | jobs/sensu.rb:120 | the result is a prefix of the input; it is the input unchanged iff the input does not end in CR or LF; otherwise the removed suffix is one of "\n", "\r", "\r\n" |
| Text.ChompRemovesAppendedTerminator | jobs/sensu.rb:120 | chomp undoes appending one terminator, except that an appended "\n" after a trailing "\r" takes the "\r" with it |
| Text.ChompStripsOnlyOne | jobs/sensu.rb:120 | of two trailing line feeds only one is removed |
| Events.GetAssoc | jobs/sensu.rb:78-87 | hostname, check, output, team and category select client.name, check.name, check.output, check.team and check.category; any other name gives nil |
| Events.CellValue | jobs/sensu.rb:119-120 | a nil field or unknown column gives ""; otherwise a prefix of the field, equal to it when it has no trailing terminator, strictly shorter when it has one, and then missing exactly one terminator |
| Events.CellValueStripsTerminator | jobs/sensu.rb:119-120 | a field `v` followed by one terminator shows as `v`, except that a "\n" after a trailing "\r" takes that "\r" along |
| Events.OutputCellExample | jobs/sensu.rb:119-120 | an output of "disk ok\n" shows as "disk ok" |
| Sources.ApiBase | jobs/sensu.rb:93-98 | the base reads back as "http://", the host, ":", the port and the path, where a nil path is "" |
| Sources.UsesBasicAuth | jobs/sensu.rb:55 | basic auth is used iff both user and password are non-empty |
| Sources.RequestFor | jobs/sensu.rb:51-56 | the URL is the API base followed by "/events"; credentials are attached iff user and password are both non-empty, and then they are exactly that user and password |
| Sources.FanIn | jobs/sensu.rb:89-101 | an event is in the flat list iff some successful fetch returned it; failed fetches contribute nothing |
| Sources.FetchAll | jobs/sensu.rb:92-99 | one fetch per configured environment, in configuration order, each with that environment's request |
| Sources.FanInAppend | jobs/sensu.rb:92-101 | fan-in of a split configuration is the concatenation of the fan-ins of its parts |
| Sources.FanInAround | jobs/sensu.rb:92-101 | a nil fetch result adds nothing at its position; a successful one adds exactly its events, in order, between the others |
| Sources.FanInLength | jobs/sensu.rb:92-101 | the flat list's length is the total number of events the successful fetches returned |
| Sources.FanInAllFailed | jobs/sensu.rb:92-101 | when every fetch fails there are no events |
| Aggregation.Header | jobs/sensu.rb:107-109 | one header cell per configured column, valued with the column name, in column order |
| Aggregation.Cells | jobs/sensu.rb:118-125 | one cell per column in column order, each with the given class and that column's cell text |
| Aggregation.RowFor | jobs/sensu.rb:112-127 | a row has one cell per column; every cell's class is the label of the event's status and its value the column's cell text |
| Aggregation.ClientItems | jobs/sensu.rb:142-155 | one list entry per collected event in order, labelled with the client name and valued with the check name |
| Aggregation.Fold | jobs/sensu.rb:112-139 | the event loop, one `Step` per event (append the row, then collect and count status 1 or 2, or count status above 2), appends one row per event |
| Aggregation.FoldCounts | jobs/sensu.rb:129-138 | the loop collects exactly the status-1 and status-2 events in order, counts them, and counts the events above status 2 |
| Aggregation.FoldRows | jobs/sensu.rb:112-127 | the loop keeps earlier rows and appends row i for event i, in event order |
| Aggregation.Aggregate | jobs/sensu.rb:103-163 | the header follows the configured columns; there is one row per event; the colour is derived from the critical and warning counters |
| Aggregation.AggregateCounts | jobs/sensu.rb:129-155 | the warning and critical counters equal the number of status-1 and status-2 events and the lengths of their client lists, which hold those events in order; the unknown counter is the number of events above 2 |
| Aggregation.AggregateRows | jobs/sensu.rb:112-127 | table row i is the row of event i, so rows follow event order |
| Aggregation.WithStatusMembers | jobs/sensu.rb:130-135 | an event is selected for status k iff it is in the list with status k |
| Aggregation.WithStatusEmpty | jobs/sensu.rb:130-135 | nothing is selected for status k iff no event has status k |
| Aggregation.StatusPartition | jobs/sensu.rb:129-138 | every event has exactly one of: negative status, 0, 1, 2, above 2 |
| Aggregation.CountsBound | jobs/sensu.rb:129-138 | the three counters sum to the event count minus the events with status 0 or negative, so at most the event count |
| Aggregation.CellsFollowEvents | jobs/sensu.rb:112-127 | cell j of row i has event i's status label as class and column j's projection of event i as value |
| Aggregation.OverallReflectsEvents | jobs/sensu.rb:157-163 | red iff some event has status 2; yellow iff none has 2 and some has 1; green iff none has 1 or 2 |
| Aggregation.ClientListsFollowEvents | jobs/sensu.rb:142-155 | an entry is in the warning (critical) list iff some event of status 1 (2) has that client and check name |
| Aggregation.ItemsMembers | jobs/sensu.rb:142-155 | the list entries are exactly the entries of the collected events |
| Aggregation.NoEvents | jobs/sensu.rb:42-48 | with no events: no rows, empty lists, zero counts, green, and the header still follows the columns |
| Dashboard.Emissions | jobs/sensu.rb:166-177 | four emissions with ids sensu-status, sensu-warn-list, sensu-crit-list, sensu-table, in that order |
| Dashboard.EmissionsLossless | jobs/sensu.rb:166-177 | the tick's whole result can be read back from what the dashboard receives |
| Dashboard.EmissionIdsDistinct | jobs/sensu.rb:166-177 | the four widget ids are pairwise distinct |
| Tick.RunTick | jobs/sensu.rb:89-109 | a tick has as many rows as the successful fetches returned events, and a header of one cell per column |
| Tick.FetchAllAppend | jobs/sensu.rb:92-101 | fetching a split configuration is fetching its parts in order |
| Tick.FailedEnvironmentIsSkipped | jobs/sensu.rb:62-66 | an environment whose fetch returns nil leaves the tick's result exactly as if it were not configured |
| Tick.ScenarioOneCriticalOneUnreachable | jobs/sensu.rb:92-163 | one critical event and one unreachable environment give one row, one critical, no warning, red |
| Tick.ScenarioMixedStatuses | jobs/sensu.rb:112-163 | statuses 0, 1, 1, 2, 5 give two warnings, one critical, one unknown, list lengths 2 and 1, red |
| Tick.ScenarioNoEnvironments | jobs/sensu.rb:89-163 | no environments give no rows, zero counts, green and the configured header |

## Left out

- The HTTP request, its connection errors and the JSON parse of the response (jobs/sensu.rb:57-74) are network I/O and a foreign library. They are the abstract `fetch` parameter, whose nil result is `None`.
- A response body that parses to something other than an event array is not modelled. Every successful fetch yields a sequence of events.
- Reading and parsing `environments.json` and `columns.json`, and the process exit when that fails (jobs/sensu.rb:13-26), are file I/O and process control. The model takes the parsed environments and column list as inputs.
- The logger and its calls are a side-effecting sink with nothing to state.
- The 60-second schedule and possible overlap of ticks (jobs/sensu.rb:41) are timing and concurrency. Each tick is one pure function call.
- The transport behind `send_event` is outside the model. Only the payloads are modelled.
- Events.GetAssoc: a missing `client` or `check` object, which makes the Ruby code raise, is not modelled. Both objects are always present and only their fields may be nil.
- Aggregation.Fold: a nil status is not modelled. Ruby would label it unknown and then raise on `nil > 2`. Statuses are integers.
- Sources.RequestFor: every environment yields a well-formed request. At jobs/sensu.rb:53 Ruby's `URI()` runs outside the `rescue` and raises on strings it cannot parse, such as a host with a space, a port like "4567x", or a path without a leading "/". That exception ends the whole tick, so nothing is sent. The model has no such abort path. `Tick.FailedEnvironmentIsSkipped` covers only fetches that return nil.
- Sources.ApiBase: host, port, user and password are strings. A nil or numeric value, which makes the Ruby string concatenation or `empty?` raise, is not modelled.
- Fields of a non-string type reaching `chomp` are Ruby dynamic-typing failures the code does not handle. Fields are optional strings.

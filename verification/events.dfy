/** The event records the monitoring API returns, and the projection of a
    configured column name onto one of them. */
module Events {
  import opened Options
  import opened Text

  /** The `client` object of an event. */
  datatype Client = Client(name: Option<string>)

  /** The `check` object of an event; every textual field may be absent. */
  datatype Check = Check(
    name: Option<string>,
    output: Option<string>,
    team: Option<string>,
    category: Option<string>,
    status: int)

  /** One alert as parsed from the API's JSON array. */
  datatype Event = Event(client: Client, check: Check)

  /** The column names the projector knows. */
  predicate IsKnownColumn(column: string)
  {
    column in {"hostname", "check", "output", "team", "category"}
  }

  /** The raw field a column name selects, or nil for a column name the
      projector does not know (a Hash lookup of a missing key). */
  function GetAssoc(column: string, e: Event): (v: Option<string>)
    ensures !IsKnownColumn(column) ==> v == None
    ensures column == "hostname" ==> v == e.client.name
    ensures column == "check" ==> v == e.check.name
    ensures column == "output" ==> v == e.check.output
    ensures column == "team" ==> v == e.check.team
    ensures column == "category" ==> v == e.check.category
  {
    var assoc := map[
      "hostname" := e.client.name,
      "check" := e.check.name,
      "output" := e.check.output,
      "team" := e.check.team,
      "category" := e.check.category];
    if column in assoc then assoc[column] else None
  }

  /** The text of a table cell: nil becomes the empty string, anything else
      loses one trailing line terminator. */
  function CellValue(column: string, e: Event): (s: string)
    ensures GetAssoc(column, e) == None ==> s == ""
    ensures GetAssoc(column, e).Some? ==> s <= GetAssoc(column, e).value
    ensures GetAssoc(column, e).Some? && !EndsWithTerminator(GetAssoc(column, e).value) ==>
              s == GetAssoc(column, e).value
    ensures GetAssoc(column, e).Some? && s != GetAssoc(column, e).value ==>
              IsTerminator(GetAssoc(column, e).value[|s|..])
    ensures GetAssoc(column, e).Some? && EndsWithTerminator(GetAssoc(column, e).value) ==>
              |s| < |GetAssoc(column, e).value|
  {
    match GetAssoc(column, e)
    case None => ""
    case Some(data) => Chomp(data)
  }

  /** A field that ends in one line terminator shows as the field without it;
      only a "\n" after a text ending in "\r" takes that "\r" along. */
  lemma CellValueStripsTerminator(column: string, e: Event, v: string, t: string)
    requires GetAssoc(column, e) == Some(v + t)
    requires IsTerminator(t)
    ensures !(t == "\n" && |v| > 0 && v[|v| - 1] == '\r') ==> CellValue(column, e) == v
    ensures t == "\n" && |v| > 0 && v[|v| - 1] == '\r' ==> CellValue(column, e) == v[..|v| - 1]
  {
  }

  /** An output of "disk ok\n" is shown as "disk ok". */
  lemma OutputCellExample(e: Event)
    requires e.check.output == Some("disk ok\n")
    ensures CellValue("output", e) == "disk ok"
  {
  }
}

/** Severity classification of a single check result and the roll-up colour
    of a whole tick. */
module Status {

  /** The label a check's numeric status is shown with (the CSS class of its cells). */
  datatype StatusLabel = Ok | Warning | Critical | Unknown {

    /** The label as the dashboard receives it. */
    function Name(): string
    {
      match this
      case Ok => "ok"
      case Warning => "warning"
      case Critical => "critical"
      case Unknown => "unknown"
    }
  }

  /** The overall colour of the status widget. */
  datatype Overall = Red | Yellow | Green {

    function Name(): string
    {
      match this
      case Red => "red"
      case Yellow => "yellow"
      case Green => "green"
    }
  }

  /** Classifies a status code: 0, 1 and 2 are ok, warning and critical;
      every other integer, negative ones included, is unknown. */
  function GetStatus(status: int): (l: StatusLabel)
    ensures l == Ok <==> status == 0
    ensures l == Warning <==> status == 1
    ensures l == Critical <==> status == 2
    ensures l == Unknown <==> (status < 0 || status > 2)
  {
    if status == 0 then Ok
    else if status == 1 then Warning
    else if status == 2 then Critical
    else Unknown
  }

  /** The colour of the tick: red when anything is critical, otherwise yellow
      when anything warns, otherwise green. Unknown events play no part. */
  function OverallStatus(criticalCount: nat, warningCount: nat): (o: Overall)
    ensures o == Red <==> criticalCount > 0
    ensures o == Yellow <==> criticalCount == 0 && warningCount > 0
    ensures o == Green <==> criticalCount == 0 && warningCount == 0
  {
    if criticalCount > 0 then Red
    else if warningCount > 0 then Yellow
    else Green
  }

  /** Distinct labels reach the dashboard as distinct class names. */
  lemma LabelNamesDistinct(a: StatusLabel, b: StatusLabel)
    ensures a.Name() == b.Name() <==> a == b
  {
  }
}

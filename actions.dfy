/**
 * The server action that asks the anomaly analyser about one employee's
 * history.  The analyser is a function parameter: it either answers or
 * fails with a message.
 */
module Actions {
  import opened AttendanceTypes

  datatype AttendanceRecord = AttendanceRecord(timestamp: string, status: AttendanceStatus)

  datatype AnalyserReply =
    | Analysed(anomalyDetected: bool, anomalyDescription: string)
    | Threw(message: string)

  datatype AnomalyResult =
    | Verdict(anomalyDetected: bool, anomalyDescription: string)
    | ErrorResult(error: string)

  const MinHistory := 5
  const NoEmployee := "Please select an employee."
  const NotEnoughData := "Not enough data for analysis (requires at least 5 work logs)."
  const UnexpectedError := "An unexpected error occurred: "

  /** The analyser's input: each log's date and status, in order. */
  function Records(history: seq<WorkLog>): (r: seq<AttendanceRecord>)
    ensures |r| == |history|
    ensures forall k :: 0 <= k < |history| ==> r[k] == AttendanceRecord(history[k].date, history[k].status)
  {
    if history == [] then []
    else Records(history[..|history| - 1]) + [AttendanceRecord(history[|history| - 1].date, history[|history| - 1].status)]
  }

  function RunAnomalyDetection(employeeId: string, history: seq<WorkLog>,
                               analyse: (string, seq<AttendanceRecord>) -> AnalyserReply): (r: AnomalyResult)
    ensures employeeId == "" ==> r == ErrorResult(NoEmployee)
    ensures employeeId != "" && |history| < MinHistory ==> r == Verdict(false, NotEnoughData)
  {
    if employeeId == "" then ErrorResult(NoEmployee)
    else if |history| < MinHistory then Verdict(false, NotEnoughData)
    else
      match analyse(employeeId, Records(history))
      case Analysed(detected, description) => Verdict(detected, description)
      case Threw(message) => ErrorResult(UnexpectedError + message)
  }

  /** With too little history the analyser is never consulted: any analyser gives the same result. */
  lemma ShortHistoryNotAnalysed(employeeId: string, history: seq<WorkLog>,
                                f: (string, seq<AttendanceRecord>) -> AnalyserReply,
                                g: (string, seq<AttendanceRecord>) -> AnalyserReply)
    requires |history| < MinHistory
    ensures RunAnomalyDetection(employeeId, history, f) == RunAnomalyDetection(employeeId, history, g)
  {
  }

  /** Only the dates and statuses reach the analyser: histories that agree on them get the same result. */
  lemma OnlyDatesAndStatusesMatter(employeeId: string, h1: seq<WorkLog>, h2: seq<WorkLog>,
                                   analyse: (string, seq<AttendanceRecord>) -> AnalyserReply)
    requires |h1| == |h2|
    requires forall k :: 0 <= k < |h1| ==> h1[k].date == h2[k].date && h1[k].status == h2[k].status
    ensures RunAnomalyDetection(employeeId, h1, analyse) == RunAnomalyDetection(employeeId, h2, analyse)
  {
    assert Records(h1) == Records(h2);
  }

  /** An analyser failure becomes an error result carrying its message; an answer is passed through. */
  lemma AnalyserReplyPassedOn(employeeId: string, history: seq<WorkLog>,
                              analyse: (string, seq<AttendanceRecord>) -> AnalyserReply)
    requires employeeId != "" && |history| >= MinHistory
    ensures var reply := analyse(employeeId, Records(history));
      RunAnomalyDetection(employeeId, history, analyse) ==
        if reply.Threw? then ErrorResult(UnexpectedError + reply.message)
        else Verdict(reply.anomalyDetected, reply.anomalyDescription)
  {
  }
}

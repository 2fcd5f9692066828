/**
 * The anomaly panel: the history handed to the analyser for the selected
 * employee and the title shown for the result.
 */
module AnomalyDetection {
  import opened Wrappers
  import opened AttendanceTypes
  import opened DateOrder
  import opened Dashboard
  import opened Actions

  const HistoryLimit := 30

  /** The logs of one employee, in their order. */
  function LogsOf(s: seq<WorkLog>, employeeId: string): (r: seq<WorkLog>)
    ensures |r| <= |s|
    ensures forall k :: 0 <= k < |r| ==> r[k].employeeId == employeeId
  {
    if s == [] then []
    else LogsOf(s[..|s| - 1], employeeId) + (if s[|s| - 1].employeeId == employeeId then [s[|s| - 1]] else [])
  }

  lemma {:induction false} LogsOfCounts(s: seq<WorkLog>, employeeId: string, l: WorkLog)
    ensures multiset(LogsOf(s, employeeId))[l] == if l.employeeId == employeeId then multiset(s)[l] else 0
    decreases |s|
  {
    if s != [] {
      assert s == s[..|s| - 1] + [s[|s| - 1]];
      LogsOfCounts(s[..|s| - 1], employeeId, l);
    }
  }

  /** The employee's thirty newest logs, newest first; nothing without a selection. */
  function EmployeeWorkLogs(selected: string, all: seq<WorkLog>): (r: seq<WorkLog>)
    ensures selected == "" ==> r == []
    ensures |r| <= HistoryLimit
  {
    if selected == "" then []
    else Take(SortByDateDesc(LogsOf(all, selected)), HistoryLimit)
  }

  /** The selection is the first thirty (or all) of the employee's logs in newest-first order. */
  lemma EmployeeWorkLogsSize(selected: string, all: seq<WorkLog>)
    requires selected != ""
    ensures var mine := LogsOf(all, selected);
      var r := EmployeeWorkLogs(selected, all);
      && |r| == (if |mine| < HistoryLimit then |mine| else HistoryLimit)
      && r == SortByDateDesc(mine)[..|r|]
  {
    SortByDateDescPermutes(LogsOf(all, selected));
  }

  /** The selection is newest first, and no log of the employee left out is newer than one kept. */
  lemma EmployeeWorkLogsNewest(selected: string, all: seq<WorkLog>)
    requires selected != ""
    ensures var r := EmployeeWorkLogs(selected, all);
      var sorted := SortByDateDesc(LogsOf(all, selected));
      && SortedDesc(r)
      && (forall i, j :: 0 <= i < |r| <= j < |sorted| ==> DateLe(sorted[j].date, r[i].date))
  {
    var sorted := SortByDateDesc(LogsOf(all, selected));
    EmployeeWorkLogsSize(selected, all);
    SortByDateDescSorted(LogsOf(all, selected));
    PrefixOfSorted(sorted, |EmployeeWorkLogs(selected, all)|);
  }

  /** The selection holds only the employee's logs, each at most as often as in the input. */
  lemma EmployeeWorkLogsFromInput(selected: string, all: seq<WorkLog>)
    requires selected != ""
    ensures var r := EmployeeWorkLogs(selected, all);
      && multiset(r) <= multiset(all)
      && (forall k :: 0 <= k < |r| ==> r[k].employeeId == selected)
  {
    var mine := LogsOf(all, selected);
    var sorted := SortByDateDesc(mine);
    var r := EmployeeWorkLogs(selected, all);
    EmployeeWorkLogsSize(selected, all);
    SortByDateDescPermutes(mine);
    assert sorted == r + sorted[|r|..];
    assert multiset(r) <= multiset(mine);
    forall l ensures multiset(mine)[l] <= multiset(all)[l] {
      LogsOfCounts(all, selected, l);
    }
    forall k | 0 <= k < |r| ensures r[k].employeeId == selected {
      assert r[k] in multiset(r);
      assert r[k] in mine;
    }
  }

  /** The alert title for a result. */
  function ResultTitle(r: AnomalyResult): (title: string)
    ensures title == "Error" <==> r.ErrorResult?
    ensures title == "Anomaly Detected!" <==> r.Verdict? && r.anomalyDetected
    ensures title == "No Anomaly Detected" <==> r.Verdict? && !r.anomalyDetected
  {
    if r.ErrorResult? then "Error"
    else if r.anomalyDetected then "Anomaly Detected!"
    else "No Anomaly Detected"
  }

  /** The alert is drawn as destructive for an error or a detected anomaly. */
  predicate Destructive(r: AnomalyResult) {
    r.ErrorResult? || r.anomalyDetected
  }

  /** `handleDetection`: nothing without a selection, else the action's result for the selection. */
  function Detection(selected: string, all: seq<WorkLog>,
                     analyse: (string, seq<AttendanceRecord>) -> AnalyserReply): Option<AnomalyResult>
  {
    if selected == "" then None
    else Some(RunAnomalyDetection(selected, EmployeeWorkLogs(selected, all), analyse))
  }

  /** An employee with fewer than five logs overall gets the not-enough-data answer. */
  lemma FewLogsNotAnalysed(selected: string, all: seq<WorkLog>,
                           analyse: (string, seq<AttendanceRecord>) -> AnalyserReply)
    requires selected != "" && |LogsOf(all, selected)| < MinHistory
    ensures Detection(selected, all, analyse) == Some(Verdict(false, NotEnoughData))
  {
    EmployeeWorkLogsSize(selected, all);
  }
}

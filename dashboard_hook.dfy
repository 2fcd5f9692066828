/**
 * The dashboard's data hook: the two live collections it listens to, the
 * seven-day window it hands to the aggregation, and the object it returns.
 */
module DashboardHook {
  import opened Wrappers
  import opened AttendanceTypes
  import opened DateOrder
  import opened Dashboard
  import opened WorkLogStore

  /**
   * The window as src/hooks/use-dashboard-data.ts:85-86 writes it: a log is
   * kept when the instant its date string parses to (`dayStart`, midnight
   * UTC) is not before `cutoff`, the current instant less six days.
   */
  function WindowAsWritten(logs: seq<WorkLog>, dayStart: string -> int, cutoff: int): (r: seq<WorkLog>)
    ensures |r| <= |logs|
    ensures forall k :: 0 <= k < |r| ==> dayStart(r[k].date) >= cutoff
  {
    if logs == [] then []
    else
      var last := logs[|logs| - 1];
      WindowAsWritten(logs[..|logs| - 1], dayStart, cutoff) + (if dayStart(last.date) >= cutoff then [last] else [])
  }

  /** `processedData` with the window as written. */
  function ProcessedDataAsWritten(loading: bool, employees: seq<Employee>, workLogs: seq<WorkLog>,
                                  dayStart: string -> int, cutoff: int, today: string, week: seq<DayKey>): (r: Option<DashboardData>)
    ensures r.None? <==> loading || |employees| == 0
  {
    if loading || |employees| == 0 then None
    else Some(DashboardOf(employees, WindowAsWritten(workLogs, dayStart, cutoff), today, week))
  }

  lemma {:induction false} NoLogsOn(s: seq<WorkLog>, day: string)
    requires forall k :: 0 <= k < |s| ==> s[k].date != day
    ensures LogsOn(s, day) == []
    decreases |s|
  {
    if s != [] {
      NoLogsOn(s[..|s| - 1], day);
    }
  }

  /**
   * Whenever the cutoff instant falls after the midnight that the oldest
   * chart day parses to (all day long in UTC, from 07:00 on in UTC+7), the
   * window as written drops that day's logs, so the first chart row shows
   * nobody present and the whole roster absent, whatever was recorded.
   */
  lemma OldestChartDayDropped(employees: seq<Employee>, workLogs: seq<WorkLog>, dayStart: string -> int, cutoff: int,
                              today: string, week: seq<DayKey>)
    requires |employees| > 0 && IsTrailingWeek(week, today)
    requires dayStart(week[0].date) < cutoff
    ensures ProcessedDataAsWritten(false, employees, workLogs, dayStart, cutoff, today, week).value.weeklyChartData[0] ==
      ChartDataPoint(week[0].weekday, 0, 0, |employees|, 0)
  {
    var window := WindowAsWritten(workLogs, dayStart, cutoff);
    NoLogsOn(window, week[0].date);
  }

  /** The logs dated on or after the cutoff day, in their order. */
  function RecentWindow(logs: seq<WorkLog>, cutoff: string): (r: seq<WorkLog>)
    ensures |r| <= |logs|
    ensures forall k :: 0 <= k < |r| ==> DateLe(cutoff, r[k].date)
  {
    if logs == [] then []
    else
      var last := logs[|logs| - 1];
      RecentWindow(logs[..|logs| - 1], cutoff) + (if DateLe(cutoff, last.date) then [last] else [])
  }

  /** The window keeps every log of a day on or after the cutoff, so today's logs all reach the summary. */
  lemma {:induction false} WindowKeepsDay(logs: seq<WorkLog>, cutoff: string, day: string)
    requires DateLe(cutoff, day)
    ensures LogsOn(RecentWindow(logs, cutoff), day) == LogsOn(logs, day)
    decreases |logs|
  {
    if logs != [] {
      var init, last := logs[..|logs| - 1], logs[|logs| - 1];
      WindowKeepsDay(init, cutoff, day);
      assert logs == init + [last];
      LogsOnAppend(init, [last], day);
      var kept := if DateLe(cutoff, last.date) then [last] else [];
      LogsOnAppend(RecentWindow(init, cutoff), kept, day);
      assert [last][..0] == [];
      if !DateLe(cutoff, last.date) {
        assert last.date != day;
        assert RecentWindow(init, cutoff) + kept == RecentWindow(init, cutoff);
      }
    }
  }

  /** `processedData`: nothing while loading or without employees, else the aggregation of the window. */
  function ProcessedData(loading: bool, employees: seq<Employee>, workLogs: seq<WorkLog>, cutoff: string,
                         today: string, week: seq<DayKey>): (r: Option<DashboardData>)
    ensures r.None? <==> loading || |employees| == 0
  {
    if loading || |employees| == 0 then None
    else Some(DashboardOf(employees, RecentWindow(workLogs, cutoff), today, week))
  }

  datatype HookData = HookData(processed: DashboardData, employees: seq<Employee>, allWorkLogs: seq<WorkLog>)

  /** What the hook returns as `data`. */
  function DashboardDataOf(loading: bool, employees: seq<Employee>, workLogs: seq<WorkLog>, cutoff: string,
                           today: string, week: seq<DayKey>): (r: Option<HookData>)
    ensures r.None? <==> ProcessedData(loading, employees, workLogs, cutoff, today, week).None?
    ensures r.Some? ==> r.value.allWorkLogs == workLogs && r.value.employees == employees
  {
    var p := ProcessedData(loading, employees, workLogs, cutoff, today, week);
    if p.None? then None else Some(HookData(p.value, employees, workLogs))
  }

  /**
   * With the window cut at the oldest chart day, as intended, every row of
   * the chart counts all the logs of its day.
   */
  lemma WeeklyChartSeesAllLogs(employees: seq<Employee>, workLogs: seq<WorkLog>, today: string, week: seq<DayKey>)
    requires |employees| > 0 && IsTrailingWeek(week, today)
    ensures ProcessedData(false, employees, workLogs, week[0].date, today, week).value.weeklyChartData ==
      WeeklyOf(|employees|, workLogs, week)
  {
    var window := RecentWindow(workLogs, week[0].date);
    var a, b := WeeklyOf(|employees|, window, week), WeeklyOf(|employees|, workLogs, week);
    forall i | 0 <= i < 7 ensures a[i] == b[i] {
      if i == 0 {
        DateLeReflexive(week[0].date);
      } else {
        DateLeTotal(week[0].date, week[i].date);
      }
      WindowKeepsDay(workLogs, week[0].date, week[i].date);
    }
  }

  /** The window does not change today's summary when today is inside it. */
  lemma SummaryUsesAllOfToday(employees: seq<Employee>, workLogs: seq<WorkLog>, cutoff: string,
                              today: string, week: seq<DayKey>)
    requires |employees| > 0 && DateLe(cutoff, today)
    ensures ProcessedData(false, employees, workLogs, cutoff, today, week).value.summary ==
      SummaryOf(|employees|, LogsOn(workLogs, today))
  {
    WindowKeepsDay(workLogs, cutoff, today);
  }

  /** A log dated before the cutoff changes nothing the aggregation computes, only allWorkLogs. */
  lemma OlderLogIgnored(loading: bool, employees: seq<Employee>, workLogs: seq<WorkLog>, l: WorkLog,
                        cutoff: string, today: string, week: seq<DayKey>)
    requires !DateLe(cutoff, l.date)
    ensures ProcessedData(loading, employees, workLogs + [l], cutoff, today, week) ==
      ProcessedData(loading, employees, workLogs, cutoff, today, week)
  {
    WindowDropsOlder(workLogs, l, cutoff);
  }

  lemma WindowDropsOlder(workLogs: seq<WorkLog>, l: WorkLog, cutoff: string)
    requires !DateLe(cutoff, l.date)
    ensures RecentWindow(workLogs + [l], cutoff) == RecentWindow(workLogs, cutoff)
  {
    assert (workLogs + [l])[..|workLogs|] == workLogs;
  }

  // ---------------------------------------------------------------------
  // The live collections

  datatype EmployeeDoc = EmployeeDoc(docId: string, data: Employee)
  datatype LogDoc = LogDoc(docId: string, data: WorkLog)

  /** Snapshot documents as records: each takes its document id. */
  function EmployeesFrom(docs: seq<EmployeeDoc>): (r: seq<Employee>)
    ensures |r| == |docs|
    ensures forall k :: 0 <= k < |docs| ==> r[k] == docs[k].data.(id := docs[k].docId)
  {
    if docs == [] then [] else EmployeesFrom(docs[..|docs| - 1]) + [docs[|docs| - 1].data.(id := docs[|docs| - 1].docId)]
  }

  function LogsFrom(docs: seq<LogDoc>): (r: seq<WorkLog>)
    ensures |r| == |docs|
    ensures forall k :: 0 <= k < |docs| ==> r[k] == docs[k].data.(id := docs[k].docId)
  {
    if docs == [] then [] else LogsFrom(docs[..|docs| - 1]) + [docs[|docs| - 1].data.(id := docs[|docs| - 1].docId)]
  }

  /** Reading the store's documents gives back exactly the stored records. */
  lemma SnapshotOfStore(docs: seq<LogDoc>, m: map<string, WorkLog>)
    requires IdsMatch(m)
    requires forall k :: 0 <= k < |docs| ==> docs[k].docId in m && docs[k].data == m[docs[k].docId]
    ensures forall k :: 0 <= k < |docs| ==> LogsFrom(docs)[k] == m[docs[k].docId]
  {
  }

  /** The hook's state, updated by the two listeners. */
  class DashboardFeed {
    var employees: seq<Employee>
    var workLogs: seq<WorkLog>
    var loading: bool
    var error: Option<string>

    constructor ()
      ensures employees == [] && workLogs == [] && loading && error.None?
    {
      employees := [];
      workLogs := [];
      loading := true;
      error := None;
    }

    /** A snapshot of the employees collection. */
    method OnEmployees(docs: seq<EmployeeDoc>)
      modifies this`employees
      ensures employees == EmployeesFrom(docs)
    {
      employees := EmployeesFrom(docs);
    }

    /** A snapshot of the work logs: loading ends once logs arrive. */
    method OnWorkLogs(docs: seq<LogDoc>)
      modifies this`workLogs, this`loading
      ensures workLogs == LogsFrom(docs) && !loading
    {
      workLogs := LogsFrom(docs);
      loading := false;
    }

    /** Either listener failing records the error and ends loading. */
    method OnError(message: string)
      modifies this`error, this`loading
      ensures error == Some(message) && !loading
    {
      error := Some(message);
      loading := false;
    }

    function Data(cutoff: string, today: string, week: seq<DayKey>): Option<HookData>
      reads this
    {
      DashboardDataOf(loading, employees, workLogs, cutoff, today, week)
    }
  }

  /** Until the first log snapshot arrives the hook returns no data. */
  lemma NoDataWhileLoading(employees: seq<Employee>, workLogs: seq<WorkLog>, cutoff: string, today: string, week: seq<DayKey>)
    ensures DashboardDataOf(true, employees, workLogs, cutoff, today, week).None?
    ensures DashboardDataOf(false, [], workLogs, cutoff, today, week).None?
  {
  }
}

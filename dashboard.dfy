/**
 * The dashboard aggregation of src/lib/data.ts: processDashboardData turns
 * the employee roster and the work logs into a daily summary, a seven-day
 * chart series, the five most recent logs and the pending leave requests.
 *
 * "Today" and the seven calendar days of the series are inputs (the
 * source derives them from the clock with date-fns). Hours are integer
 * hundredths, so the `toFixed(2)` of the two hour totals is exact.
 */
module Dashboard {
  import opened Wrappers
  import opened AttendanceTypes
  import opened DateOrder

  /** Eight hours, in hundredths of an hour: the overtime threshold. */
  const FullDay: int := 800

  /** The number of logs that the recent list keeps. */
  const RecentCount: nat := 5

  /** One calendar day of the chart: its YYYY-MM-DD key and its weekday abbreviation. */
  datatype DayKey = DayKey(date: string, weekday: string)

  datatype DashboardData = DashboardData(
    summary: DashboardSummary,
    recentLogs: seq<WorkLog>,
    pendingLeaveRequests: seq<WorkLog>,
    weeklyChartData: seq<ChartDataPoint>,
    employeeMap: map<string, Employee>)

  /** A leave or sick record that the approval made count as excused presence. */
  predicate IsApprovedLeave(l: WorkLog) {
    IsLeaveStatus(l.status) && l.leaveApprovalStatus == Approved
  }

  /** A log that makes its employee present on its day. */
  predicate IsPresence(l: WorkLog) {
    l.status == OnTime || l.status == Late || IsApprovedLeave(l)
  }

  // ---------------------------------------------------------------------
  // Counting functions: the specification of the counting loops
  // ---------------------------------------------------------------------

  function CountStatus(s: seq<WorkLog>, st: AttendanceStatus): nat {
    if s == [] then 0
    else CountStatus(s[..|s| - 1], st) + (if s[|s| - 1].status == st then 1 else 0)
  }

  function CountApprovedLeave(s: seq<WorkLog>): nat {
    if s == [] then 0
    else CountApprovedLeave(s[..|s| - 1]) + (if IsApprovedLeave(s[|s| - 1]) then 1 else 0)
  }

  function CountPresence(s: seq<WorkLog>): nat {
    if s == [] then 0
    else CountPresence(s[..|s| - 1]) + (if IsPresence(s[|s| - 1]) then 1 else 0)
  }

  /** The distinct employees that some presence log of s names. */
  function PresentIds(s: seq<WorkLog>): set<string> {
    if s == [] then {}
    else PresentIds(s[..|s| - 1]) + (if IsPresence(s[|s| - 1]) then {s[|s| - 1].employeeId} else {})
  }

  /** The sum of the positive durations. */
  function WorkHours(s: seq<WorkLog>): int {
    if s == [] then 0
    else
      var d := s[|s| - 1].durationHours;
      WorkHours(s[..|s| - 1]) + (if d > 0 then d else 0)
  }

  /** The sum of the hours beyond eight of every longer log. */
  function OvertimeHours(s: seq<WorkLog>): int {
    if s == [] then 0
    else
      var d := s[|s| - 1].durationHours;
      OvertimeHours(s[..|s| - 1]) + (if d > FullDay then d - FullDay else 0)
  }

  /**
   * `Math.round(value / total * 100)`, or 0 for a zero total: the integer
   * nearest to the exact percentage, halves rounded up.
   */
  function Percentage(value: nat, total: nat): (r: int)
    ensures total == 0 ==> r == 0
    ensures total > 0 ==> 2 * r * total <= 200 * value + total < 2 * r * total + 2 * total
    ensures value <= total ==> 0 <= r <= 100
  {
    if total == 0 then 0
    else
      RoundedQuotient(value, total);
      (200 * value + total) / (2 * total)
  }

  lemma RoundedQuotient(value: nat, total: nat)
    requires total > 0
    ensures var q := (200 * value + total) / (2 * total);
      && 2 * q * total <= 200 * value + total < 2 * q * total + 2 * total
      && (value <= total ==> 0 <= q <= 100)
  {
    var q := (200 * value + total) / (2 * total);
    assert 2 * total * q <= 200 * value + total < 2 * total * q + 2 * total;
    if value <= total {
      assert 2 * total * q < 2 * total * 101;
      FactorBound(q, 101, 2 * total);
    }
  }

  lemma FactorBound(q: int, bound: int, t: int)
    requires t > 0 && t * q < t * bound
    ensures q < bound
  {
  }

  function Max0(x: int): nat {
    if x < 0 then 0 else x
  }

  /** The daily summary over the logs of today, for a roster of `total` employees. */
  function SummaryOf(total: nat, todays: seq<WorkLog>): DashboardSummary {
    var onTime := CountStatus(todays, OnTime);
    var late := CountStatus(todays, Late);
    var absent := Max0(total - |PresentIds(todays)|);
    DashboardSummary(
      totalEmployees := total,
      onTime := onTime,
      late := late,
      onLeave := CountApprovedLeave(todays),
      absent := absent,
      onTimePercentage := Percentage(onTime, onTime + late),
      latePercentage := Percentage(late, onTime + late),
      absentPercentage := Percentage(absent, total),
      totalWorkHoursToday := WorkHours(todays),
      totalOvertimeHoursToday := OvertimeHours(todays))
  }

  /** One row of the chart: the same classification on one day, absence not clamped. */
  function DayPointOf(total: nat, logs: seq<WorkLog>, key: DayKey): ChartDataPoint {
    var day := LogsOn(logs, key.date);
    ChartDataPoint(
      day := key.weekday,
      onTime := CountStatus(day, OnTime),
      late := CountStatus(day, Late),
      absent := total - |PresentIds(day)|,
      onLeave := CountApprovedLeave(day))
  }

  function WeeklyOf(total: nat, logs: seq<WorkLog>, week: seq<DayKey>): (r: seq<ChartDataPoint>)
    ensures |r| == |week|
    ensures forall i :: 0 <= i < |week| ==> r[i] == DayPointOf(total, logs, week[i])
  {
    if week == [] then []
    else WeeklyOf(total, logs, week[..|week| - 1]) + [DayPointOf(total, logs, week[|week| - 1])]
  }

  /** The logs awaiting a leave decision, in their order. */
  function PendingOf(s: seq<WorkLog>): seq<WorkLog> {
    if s == [] then []
    else PendingOf(s[..|s| - 1]) + (if s[|s| - 1].leaveApprovalStatus == Pending then [s[|s| - 1]] else [])
  }

  function Take(s: seq<WorkLog>, n: nat): (r: seq<WorkLog>)
    ensures |r| <= n && |r| <= |s|
    ensures r == s[..|r|]
    ensures |r| == n || r == s
  {
    if |s| <= n then s else s[..n]
  }

  /** `new Map(employees.map(e => [e.id, e]))`: a later employee with the same id wins. */
  function EmployeeMapOf(employees: seq<Employee>): (m: map<string, Employee>)
    ensures forall k :: 0 <= k < |employees| ==> employees[k].id in m
    ensures forall id :: id in m ==> m[id].id == id && m[id] in employees
  {
    if employees == [] then map[]
    else
      var last := employees[|employees| - 1];
      EmployeeMapOf(employees[..|employees| - 1])[last.id := last]
  }

  function EmptyDashboard(): DashboardData {
    DashboardData(
      DashboardSummary(0, 0, 0, 0, 0, 0, 0, 0, 0, 0),
      [], [], [], map[])
  }

  /** What processDashboardData returns, as a function of its inputs. */
  function DashboardOf(employees: seq<Employee>, logs: seq<WorkLog>, today: string, week: seq<DayKey>): DashboardData {
    if |employees| == 0 then EmptyDashboard()
    else
      var sorted := SortByDateDesc(logs);
      DashboardData(
        SummaryOf(|employees|, LogsOn(logs, today)),
        Take(sorted, RecentCount),
        PendingOf(sorted),
        WeeklyOf(|employees|, logs, week),
        EmployeeMapOf(employees))
  }

  // ---------------------------------------------------------------------
  // The imperative computation
  // ---------------------------------------------------------------------

  /** The forEach over today's logs (src/lib/data.ts:29-66). */
  method ComputeSummary(total: nat, logs: seq<WorkLog>, today: string) returns (summary: DashboardSummary)
    ensures summary == SummaryOf(total, LogsOn(logs, today))
  {
    var todaysLogs := LogsOn(logs, today);
    var onTime, late, onLeave, totalWorkHoursToday, totalOvertimeHoursToday := 0, 0, 0, 0, 0;
    var presentEmployeeIds: set<string> := {};
    var i := 0;
    while i < |todaysLogs|
      invariant 0 <= i <= |todaysLogs|
      invariant onTime == CountStatus(todaysLogs[..i], OnTime)
      invariant late == CountStatus(todaysLogs[..i], Late)
      invariant onLeave == CountApprovedLeave(todaysLogs[..i])
      invariant presentEmployeeIds == PresentIds(todaysLogs[..i])
      invariant totalWorkHoursToday == WorkHours(todaysLogs[..i])
      invariant totalOvertimeHoursToday == OvertimeHours(todaysLogs[..i])
    {
      var log := todaysLogs[i];
      assert todaysLogs[..i + 1][..i] == todaysLogs[..i];
      if log.status == OnTime {
        onTime := onTime + 1;
        presentEmployeeIds := presentEmployeeIds + {log.employeeId};
      }
      if log.status == Late {
        late := late + 1;
        presentEmployeeIds := presentEmployeeIds + {log.employeeId};
      }
      if IsLeaveStatus(log.status) && log.leaveApprovalStatus == Approved {
        onLeave := onLeave + 1;
        presentEmployeeIds := presentEmployeeIds + {log.employeeId};
      }
      if log.durationHours > 0 {
        totalWorkHoursToday := totalWorkHoursToday + log.durationHours;
        if log.durationHours > FullDay {
          totalOvertimeHoursToday := totalOvertimeHoursToday + (log.durationHours - FullDay);
        }
      }
      i := i + 1;
    }
    assert todaysLogs[..i] == todaysLogs;
    var absent := total - |presentEmployeeIds|;
    var presentToday := onTime + late;
    var clamped := if absent < 0 then 0 else absent;
    summary := DashboardSummary(
      totalEmployees := total,
      onTime := onTime,
      late := late,
      onLeave := onLeave,
      absent := clamped,
      onTimePercentage := Percentage(onTime, presentToday),
      latePercentage := Percentage(late, presentToday),
      absentPercentage := Percentage(clamped, total),
      totalWorkHoursToday := totalWorkHoursToday,
      totalOvertimeHoursToday := totalOvertimeHoursToday);
  }

  /** The forEach over one day's logs of the chart (src/lib/data.ts:70-93). */
  method ComputeDayStats(total: nat, logs: seq<WorkLog>, key: DayKey) returns (dayStats: ChartDataPoint)
    ensures dayStats == DayPointOf(total, logs, key)
  {
    var logsForDay := LogsOn(logs, key.date);
    dayStats := ChartDataPoint(key.weekday, 0, 0, 0, 0);
    var presentEmployeesOnDay: set<string> := {};
    var i := 0;
    while i < |logsForDay|
      invariant 0 <= i <= |logsForDay|
      invariant dayStats.day == key.weekday && dayStats.absent == 0
      invariant dayStats.onTime == CountStatus(logsForDay[..i], OnTime)
      invariant dayStats.late == CountStatus(logsForDay[..i], Late)
      invariant dayStats.onLeave == CountApprovedLeave(logsForDay[..i])
      invariant presentEmployeesOnDay == PresentIds(logsForDay[..i])
    {
      var log := logsForDay[i];
      assert logsForDay[..i + 1][..i] == logsForDay[..i];
      if log.status == OnTime {
        dayStats := dayStats.(onTime := dayStats.onTime + 1);
        presentEmployeesOnDay := presentEmployeesOnDay + {log.employeeId};
      } else if log.status == Late {
        dayStats := dayStats.(late := dayStats.late + 1);
        presentEmployeesOnDay := presentEmployeesOnDay + {log.employeeId};
      } else if IsLeaveStatus(log.status) && log.leaveApprovalStatus == Approved {
        dayStats := dayStats.(onLeave := dayStats.onLeave + 1);
        presentEmployeesOnDay := presentEmployeesOnDay + {log.employeeId};
      }
      i := i + 1;
    }
    assert logsForDay[..i] == logsForDay;
    dayStats := dayStats.(absent := total - |presentEmployeesOnDay|);
  }

  /** The map over the seven days of the interval (src/lib/data.ts:68-94). */
  method ComputeWeekly(total: nat, logs: seq<WorkLog>, week: seq<DayKey>) returns (weekly: seq<ChartDataPoint>)
    ensures weekly == WeeklyOf(total, logs, week)
  {
    weekly := [];
    var i := 0;
    while i < |week|
      invariant 0 <= i <= |week|
      invariant weekly == WeeklyOf(total, logs, week[..i])
    {
      var point := ComputeDayStats(total, logs, week[i]);
      assert week[..i + 1][..i] == week[..i];
      weekly := weekly + [point];
      i := i + 1;
    }
    assert week[..i] == week;
  }

  /**
   * processDashboardData (src/lib/data.ts:8-103). The sort at line 97 is
   * in place, so workLogs is left newest first; with an empty roster the
   * function returns before touching it.
   */
  method ProcessDashboardData(employees: seq<Employee>, workLogs: array<WorkLog>, today: string, week: seq<DayKey>)
    returns (d: DashboardData)
    modifies workLogs
    ensures d == DashboardOf(employees, old(workLogs[..]), today, week)
    ensures workLogs[..] == if |employees| == 0 then old(workLogs[..]) else SortByDateDesc(old(workLogs[..]))
  {
    if |employees| == 0 {
      return EmptyDashboard();
    }
    var totalEmployees := |employees|;
    var employeeMap := EmployeeMapOf(employees);
    var summary := ComputeSummary(totalEmployees, workLogs[..], today);
    var weeklyChartData := ComputeWeekly(totalEmployees, workLogs[..], week);
    SortInPlace(workLogs);
    var recentLogs := Take(workLogs[..], RecentCount);
    var pendingLeaveRequests := PendingOf(workLogs[..]);
    d := DashboardData(summary, recentLogs, pendingLeaveRequests, weeklyChartData, employeeMap);
  }

  // ---------------------------------------------------------------------
  // Properties of the aggregation
  // ---------------------------------------------------------------------

  /** An empty roster short-circuits to the all-zero result (src/lib/data.ts:9-22). */
  lemma EmptyRosterDashboard(logs: seq<WorkLog>, today: string, week: seq<DayKey>)
    ensures var d := DashboardOf([], logs, today, week);
      && d.summary.totalEmployees == 0 && d.summary.onTime == 0 && d.summary.late == 0
      && d.summary.onLeave == 0 && d.summary.absent == 0
      && d.summary.onTimePercentage == 0 && d.summary.latePercentage == 0
      && d.summary.absentPercentage == 0
      && d.summary.totalWorkHoursToday == 0 && d.summary.totalOvertimeHoursToday == 0
      && d.recentLogs == [] && d.pendingLeaveRequests == [] && d.weeklyChartData == []
      && d.employeeMap == map[]
  {
  }

  /** An employee is present exactly when one of the logs is a presence log naming them. */
  lemma {:induction false} PresentIdsMeaning(s: seq<WorkLog>, id: string)
    ensures id in PresentIds(s) <==> exists k :: 0 <= k < |s| && IsPresence(s[k]) && s[k].employeeId == id
    decreases |s|
  {
    if s != [] {
      var init := s[..|s| - 1];
      PresentIdsMeaning(init, id);
      if exists k :: 0 <= k < |init| && IsPresence(init[k]) && init[k].employeeId == id {
        var k :| 0 <= k < |init| && IsPresence(init[k]) && init[k].employeeId == id;
        assert s[k] == init[k];
      }
      if exists k :: 0 <= k < |s| && IsPresence(s[k]) && s[k].employeeId == id {
        var k :| 0 <= k < |s| && IsPresence(s[k]) && s[k].employeeId == id;
        if k < |init| { assert init[k] == s[k]; }
      }
    }
  }

  /** The overtime total never exceeds the work-hours total, and neither is negative. */
  lemma {:induction false} OvertimeWithinWorkHours(s: seq<WorkLog>)
    ensures 0 <= OvertimeHours(s) <= WorkHours(s)
    decreases |s|
  {
    if s != [] { OvertimeWithinWorkHours(s[..|s| - 1]); }
  }

  /**
   * The on-time and late percentages share the total onTime + late, so
   * with at least one attendance they add up to 100, or 101 when both
   * halves round up.
   */
  lemma AttendancePercentagesComplement(total: nat, todays: seq<WorkLog>)
    requires CountStatus(todays, OnTime) + CountStatus(todays, Late) > 0
    ensures var s := SummaryOf(total, todays);
      100 <= s.onTimePercentage + s.latePercentage <= 101
  {
    var a, b := CountStatus(todays, OnTime), CountStatus(todays, Late);
    RoundedHalvesSum(a, b, Percentage(a, a + b), Percentage(b, a + b));
  }

  lemma RoundedHalvesSum(a: nat, b: nat, r1: int, r2: int)
    requires a + b > 0
    requires 2 * r1 * (a + b) <= 200 * a + (a + b) < 2 * r1 * (a + b) + 2 * (a + b)
    requires 2 * r2 * (a + b) <= 200 * b + (a + b) < 2 * r2 * (a + b) + 2 * (a + b)
    ensures 100 <= r1 + r2 <= 101
  {
    var t := a + b;
    var p1, p2 := r1 * t, r2 * t;
    assert p1 + p2 == (r1 + r2) * t;
    assert (r1 + r2) * t < 102 * t;
    assert 99 * t < (r1 + r2) * t;
    FactorBound(r1 + r2, 102, t);
    FactorBound(99, r1 + r2, t);
  }

  /** The ids of a roster. */
  function RosterIds(employees: seq<Employee>): set<string> {
    if employees == [] then {}
    else RosterIds(employees[..|employees| - 1]) + {employees[|employees| - 1].id}
  }

  predicate DistinctIds(employees: seq<Employee>) {
    forall i, j :: 0 <= i < j < |employees| ==> employees[i].id != employees[j].id
  }

  /** No employee has two of these logs. */
  predicate OneLogEach(s: seq<WorkLog>) {
    forall i, j :: 0 <= i < j < |s| ==> s[i].employeeId != s[j].employeeId
  }

  lemma {:induction false} RosterIdsMeaning(employees: seq<Employee>, id: string)
    ensures id in RosterIds(employees) <==> exists k :: 0 <= k < |employees| && employees[k].id == id
    decreases |employees|
  {
    if employees != [] {
      var init := employees[..|employees| - 1];
      RosterIdsMeaning(init, id);
      if exists k :: 0 <= k < |init| && init[k].id == id {
        var k :| 0 <= k < |init| && init[k].id == id;
        assert employees[k] == init[k];
      }
      if exists k :: 0 <= k < |employees| && employees[k].id == id {
        var k :| 0 <= k < |employees| && employees[k].id == id;
        if k < |init| { assert init[k] == employees[k]; }
      }
    }
  }

  lemma {:induction false} RosterSize(employees: seq<Employee>)
    requires DistinctIds(employees)
    ensures |RosterIds(employees)| == |employees|
    decreases |employees|
  {
    if employees != [] {
      var init := employees[..|employees| - 1];
      var last := employees[|employees| - 1];
      RosterSize(init);
      forall k | 0 <= k < |init| ensures init[k].id != last.id {
        assert employees[k] == init[k];
      }
      RosterIdsMeaning(init, last.id);
    }
  }

  lemma {:induction false} CountsSplitPresence(s: seq<WorkLog>)
    ensures CountStatus(s, OnTime) + CountStatus(s, Late) + CountApprovedLeave(s) == CountPresence(s)
    decreases |s|
  {
    if s != [] { CountsSplitPresence(s[..|s| - 1]); }
  }

  lemma {:induction false} DistinctPresence(s: seq<WorkLog>)
    requires OneLogEach(s)
    ensures |PresentIds(s)| == CountPresence(s)
    decreases |s|
  {
    if s != [] {
      var init, last := s[..|s| - 1], s[|s| - 1];
      assert OneLogEach(init) by {
        forall i, j | 0 <= i < j < |init| ensures init[i].employeeId != init[j].employeeId {
          assert init[i] == s[i] && init[j] == s[j];
        }
      }
      DistinctPresence(init);
      if IsPresence(last) {
        forall k | 0 <= k < |init| ensures init[k].employeeId != last.employeeId {
          assert s[k] == init[k];
        }
        PresentIdsMeaning(init, last.employeeId);
      }
    }
  }

  lemma PresentOnRoster(s: seq<WorkLog>, employees: seq<Employee>)
    requires forall k :: 0 <= k < |s| ==> s[k].employeeId in RosterIds(employees)
    ensures PresentIds(s) <= RosterIds(employees)
  {
    forall id | id in PresentIds(s) ensures id in RosterIds(employees) {
      PresentIdsMeaning(s, id);
    }
  }

  /**
   * When every roster employee has a distinct id, no employee has two logs
   * today and every log of today names a roster employee, the four daily
   * categories partition the roster.
   */
  lemma SummaryBalance(employees: seq<Employee>, logs: seq<WorkLog>, today: string, week: seq<DayKey>)
    requires DistinctIds(employees)
    requires OneLogEach(LogsOn(logs, today))
    requires forall k :: 0 <= k < |LogsOn(logs, today)| ==> LogsOn(logs, today)[k].employeeId in RosterIds(employees)
    ensures var s := DashboardOf(employees, logs, today, week).summary;
      s.onTime + s.late + s.onLeave + s.absent == s.totalEmployees
  {
    if |employees| > 0 {
      var todays := LogsOn(logs, today);
      CountsSplitPresence(todays);
      DistinctPresence(todays);
      PresentOnRoster(todays, employees);
      RosterSize(employees);
      assert |PresentIds(todays)| <= |RosterIds(employees)| by {
        SubsetSize(PresentIds(todays), RosterIds(employees));
      }
    }
  }

  lemma SubsetSize(a: set<string>, b: set<string>)
    requires a <= b
    ensures |a| <= |b|
  {
    assert b == a + (b - a);
  }

  /** Appending a log of another day leaves the daily summary as it was. */
  lemma SummaryIgnoresOtherDays(employees: seq<Employee>, logs: seq<WorkLog>, l: WorkLog, today: string, week: seq<DayKey>)
    requires l.date != today
    ensures DashboardOf(employees, logs + [l], today, week).summary == DashboardOf(employees, logs, today, week).summary
  {
    LogsOnAppend(logs, [l], today);
    assert LogsOn([l], today) == LogsOn([], today) + [];
    assert LogsOn(logs, today) + [] == LogsOn(logs, today);
  }

  /** The seven days of the chart, oldest first, ending today. */
  predicate IsTrailingWeek(week: seq<DayKey>, today: string) {
    && |week| == 7
    && week[6].date == today
    && forall i, j :: 0 <= i < j < 7 ==> DateLt(week[i].date, week[j].date)
  }

  /**
   * The weekly series has one row per day, labelled and ordered as the
   * interval, and its last row repeats today's counts, its absence being
   * the unclamped form of the summary's.
   */
  lemma WeeklySeriesShape(employees: seq<Employee>, logs: seq<WorkLog>, today: string, week: seq<DayKey>)
    requires |employees| > 0
    requires IsTrailingWeek(week, today)
    ensures var d := DashboardOf(employees, logs, today, week);
      && |d.weeklyChartData| == 7
      && (forall i :: 0 <= i < 7 ==> d.weeklyChartData[i].day == week[i].weekday)
      && d.weeklyChartData[6].onTime == d.summary.onTime
      && d.weeklyChartData[6].late == d.summary.late
      && d.weeklyChartData[6].onLeave == d.summary.onLeave
      && d.summary.absent == Max0(d.weeklyChartData[6].absent)
      && d.weeklyChartData[6].absent <= d.summary.totalEmployees
  {
  }

  lemma {:induction false} PendingOfCounts(s: seq<WorkLog>, l: WorkLog)
    ensures multiset(PendingOf(s))[l] == if l.leaveApprovalStatus == Pending then multiset(s)[l] else 0
    decreases |s|
  {
    if s != [] {
      assert s == s[..|s| - 1] + [s[|s| - 1]];
      PendingOfCounts(s[..|s| - 1], l);
    }
  }

  lemma {:induction false} PendingOfSorted(s: seq<WorkLog>)
    requires SortedDesc(s)
    ensures SortedDesc(PendingOf(s))
    decreases |s|
  {
    if s != [] {
      var init, last := s[..|s| - 1], s[|s| - 1];
      assert SortedDesc(init) by {
        forall i, j | 0 <= i < j < |init| ensures DateLe(init[j].date, init[i].date) {
          assert init[i] == s[i] && init[j] == s[j];
        }
      }
      PendingOfSorted(init);
      if last.leaveApprovalStatus == Pending {
        var p := PendingOf(init);
        forall k | 0 <= k < |p| ensures DateLe(last.date, p[k].date) {
          PendingOfCounts(init, p[k]);
          assert p[k] in multiset(p);
          assert p[k] in init;
          var m :| 0 <= m < |init| && init[m] == p[k];
          assert s[m] == init[m];
        }
      }
    }
  }

  lemma PrefixOfSorted(sorted: seq<WorkLog>, n: nat)
    requires n <= |sorted| && SortedDesc(sorted)
    ensures SortedDesc(sorted[..n])
    ensures multiset(sorted[..n]) <= multiset(sorted)
    ensures forall i, j :: 0 <= i < n <= j < |sorted| ==> DateLe(sorted[j].date, sorted[..n][i].date)
  {
    assert sorted == sorted[..n] + sorted[n..];
    assert multiset(sorted) == multiset(sorted[..n]) + multiset(sorted[n..]);
  }

  /**
   * recentLogs are the first five of the newest-first order: at most five,
   * newest first, and no log left out is newer than any log kept.
   */
  lemma RecentLogsProperties(employees: seq<Employee>, logs: seq<WorkLog>, today: string, week: seq<DayKey>)
    requires |employees| > 0
    ensures var d := DashboardOf(employees, logs, today, week);
      var sorted := SortByDateDesc(logs);
      && |d.recentLogs| == (if |logs| < RecentCount then |logs| else RecentCount)
      && SortedDesc(d.recentLogs)
      && multiset(d.recentLogs) <= multiset(logs)
      && (forall i, j :: 0 <= i < |d.recentLogs| <= j < |sorted| ==> DateLe(sorted[j].date, d.recentLogs[i].date))
  {
    var sorted := SortByDateDesc(logs);
    SortByDateDescSorted(logs);
    SortByDateDescPermutes(logs);
    PrefixOfSorted(sorted, if |logs| < RecentCount then |logs| else RecentCount);
  }

  /**
   * pendingLeaveRequests holds exactly the pending logs, each as often as
   * in the input. It is filtered after the in-place sort, so it is newest
   * first rather than in input order.
   */
  lemma PendingLeaveProperties(employees: seq<Employee>, logs: seq<WorkLog>, today: string, week: seq<DayKey>)
    requires |employees| > 0
    ensures var p := DashboardOf(employees, logs, today, week).pendingLeaveRequests;
      && multiset(p) == multiset(PendingOf(logs))
      && (forall l :: l in p <==> l in logs && l.leaveApprovalStatus == Pending)
      && SortedDesc(p)
  {
    var sorted := SortByDateDesc(logs);
    var p := PendingOf(sorted);
    SortByDateDescPermutes(logs);
    SortByDateDescSorted(logs);
    PendingOfSorted(sorted);
    forall l ensures multiset(p)[l] == multiset(PendingOf(logs))[l] {
      PendingOfCounts(sorted, l);
      PendingOfCounts(logs, l);
    }
    assert multiset(p) == multiset(PendingOf(logs));
    forall l ensures l in p <==> l in logs && l.leaveApprovalStatus == Pending {
      PendingOfCounts(logs, l);
      assert l in p <==> l in multiset(p);
      assert l in logs <==> l in multiset(logs);
    }
  }
}

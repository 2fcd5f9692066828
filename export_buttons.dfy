/**
 * The report export: the spreadsheet rows and the daily summary message
 * shared through WhatsApp.
 */
module ExportButtons {
  import opened Wrappers
  import opened AttendanceTypes
  import opened DateOrder
  import opened Dashboard
  import opened Text

  /** The exported employee name: `Unknown` when the id is not on the roster or the name is empty. */
  function EmployeeName(employeeMap: map<string, Employee>, id: string): string {
    if id in employeeMap && employeeMap[id].name != "" then employeeMap[id].name else "Unknown"
  }

  /** One spreadsheet row; `clock` formats an instant as HH:mm:ss. */
  datatype ExportRow = ExportRow(
    date: string, employee: string, status: string, checkIn: string, checkOut: string,
    durationHours: int, late: string, leaveNote: string)

  function TimeOrDash(t: Option<int>, clock: int -> string): string {
    if t.None? then "-" else clock(t.value)
  }

  function FormatRow(log: WorkLog, employeeMap: map<string, Employee>, clock: int -> string): (row: ExportRow)
    ensures row.date == log.date && row.status == StatusName(log.status) && row.durationHours == log.durationHours
    ensures row.late == "Yes" <==> log.status == Late
    ensures row.late == "No" <==> log.status != Late
    ensures (log.employeeId !in employeeMap || employeeMap[log.employeeId].name == "") ==> row.employee == "Unknown"
    ensures log.checkInTime.None? ==> row.checkIn == "-"
    ensures log.checkOutTime.None? ==> row.checkOut == "-"
    ensures row.leaveNote == "-" <==> log.leaveNote.None? || log.leaveNote.value == "" || log.leaveNote.value == "-"
  {
    ExportRow(
      log.date,
      EmployeeName(employeeMap, log.employeeId),
      StatusName(log.status),
      TimeOrDash(log.checkInTime, clock),
      TimeOrDash(log.checkOutTime, clock),
      log.durationHours,
      if log.status == Late then "Yes" else "No",
      if log.leaveNote.Some? && log.leaveNote.value != "" then log.leaveNote.value else "-")
  }

  function FormatRows(logs: seq<WorkLog>, employeeMap: map<string, Employee>, clock: int -> string): (rows: seq<ExportRow>)
    ensures |rows| == |logs|
    ensures forall k :: 0 <= k < |logs| ==> rows[k] == FormatRow(logs[k], employeeMap, clock)
  {
    if logs == [] then []
    else FormatRows(logs[..|logs| - 1], employeeMap, clock) + [FormatRow(logs[|logs| - 1], employeeMap, clock)]
  }

  /** `formatData`: one row per log, in log order, names looked up on the roster. */
  function FormatData(logs: seq<WorkLog>, employees: seq<Employee>, clock: int -> string): (rows: seq<ExportRow>)
    ensures |rows| == |logs|
    ensures forall k :: 0 <= k < |logs| ==> rows[k].date == logs[k].date && (rows[k].late == "Yes" <==> logs[k].status == Late)
  {
    FormatRows(logs, EmployeeMapOf(employees), clock)
  }

  // ---------------------------------------------------------------------
  // The shared summary message

  /** Logs with a check-in time, whatever their status. */
  function CountCheckedIn(s: seq<WorkLog>): nat {
    if s == [] then 0
    else CountCheckedIn(s[..|s| - 1]) + (if s[|s| - 1].checkInTime.Some? then 1 else 0)
  }

  /** On-Leave and Sick logs, whatever their approval state. */
  function CountLeave(s: seq<WorkLog>): nat {
    if s == [] then 0
    else CountLeave(s[..|s| - 1]) + (if IsLeaveStatus(s[|s| - 1].status) then 1 else 0)
  }

  function LateLogs(s: seq<WorkLog>): seq<WorkLog> {
    if s == [] then []
    else LateLogs(s[..|s| - 1]) + (if s[|s| - 1].status == Late then [s[|s| - 1]] else [])
  }

  /** One detail line; `clock` formats an instant as HH:mm. */
  function LateLine(l: WorkLog, employeeMap: map<string, Employee>, clock: int -> string): string {
    "- " + EmployeeName(employeeMap, l.employeeId) + " (" + (if l.checkInTime.Some? then clock(l.checkInTime.value) else "?") + ")\n"
  }

  function LateLines(late: seq<WorkLog>, employeeMap: map<string, Employee>, clock: int -> string): string {
    if late == [] then ""
    else LateLines(late[..|late| - 1], employeeMap, clock) + LateLine(late[|late| - 1], employeeMap, clock)
  }

  function ReportHeader(today: string, present: nat, late: nat, leave: nat): string {
    "*Laporan Absensi " + today + "*\n\n"
      + "Total Hadir: " + NatToString(present) + "\n"
      + "Terlambat: " + NatToString(late) + "\n"
      + "Izin/Sakit: " + NatToString(leave) + "\n\n"
      + "*Detail Terlambat:*\n"
  }

  /** The message for `today`: the counts of today's logs, then one line per late log. */
  function ShareMessage(logs: seq<WorkLog>, employees: seq<Employee>, today: string, clock: int -> string): string {
    var todays := LogsOn(logs, today);
    ReportHeader(today, CountCheckedIn(todays), CountStatus(todays, Late), CountLeave(todays))
      + LateLines(LateLogs(todays), EmployeeMapOf(employees), clock)
  }

  /** `handleWhatsAppShare` up to opening the link: the message is built line by line. */
  method BuildShareMessage(logs: seq<WorkLog>, employees: seq<Employee>, today: string, clock: int -> string)
    returns (message: string)
    ensures message == ShareMessage(logs, employees, today, clock)
  {
    var todays := LogsOn(logs, today);
    message := "*Laporan Absensi " + today + "*\n\n";
    var present := CountCheckedIn(todays);
    var late := CountStatus(todays, Late);
    var leave := CountLeave(todays);
    message := message + "Total Hadir: " + NatToString(present) + "\n";
    message := message + "Terlambat: " + NatToString(late) + "\n";
    message := message + "Izin/Sakit: " + NatToString(leave) + "\n\n";
    message := message + "*Detail Terlambat:*\n";
    assert message == ReportHeader(today, present, late, leave);
    message := AppendLateLines(message, LateLogs(todays), EmployeeMapOf(employees), clock);
  }

  /** The `forEach` over the late logs, appending one line each. */
  method AppendLateLines(header: string, lateLogs: seq<WorkLog>, employeeMap: map<string, Employee>, clock: int -> string)
    returns (message: string)
    ensures message == header + LateLines(lateLogs, employeeMap, clock)
  {
    message := header;
    var i := 0;
    assert lateLogs[..0] == [];
    while i < |lateLogs|
      invariant 0 <= i <= |lateLogs|
      invariant message == header + LateLines(lateLogs[..i], employeeMap, clock)
    {
      LateLinesStep(header, message, lateLogs, i, employeeMap, clock);
      message := message + LateLine(lateLogs[i], employeeMap, clock);
      i := i + 1;
    }
    assert lateLogs[..i] == lateLogs;
  }

  lemma LateLinesStep(header: string, message: string, late: seq<WorkLog>, i: nat,
                      employeeMap: map<string, Employee>, clock: int -> string)
    requires i < |late|
    requires message == header + LateLines(late[..i], employeeMap, clock)
    ensures message + LateLine(late[i], employeeMap, clock) == header + LateLines(late[..i + 1], employeeMap, clock)
  {
    assert late[..i + 1][..i] == late[..i];
    var before := LateLines(late[..i], employeeMap, clock);
    var line := LateLine(late[i], employeeMap, clock);
    assert LateLines(late[..i + 1], employeeMap, clock) == before + line;
    AppendAssociative(header, before, line);
  }

  lemma AppendAssociative(a: string, b: string, c: string)
    ensures (a + b) + c == a + (b + c)
  {
  }

  /** The detail list has one line per late log, in order: exactly the late logs counted. */
  lemma {:induction false} LateLogsMeaning(s: seq<WorkLog>)
    ensures |LateLogs(s)| == CountStatus(s, Late)
    ensures forall k :: 0 <= k < |LateLogs(s)| ==> LateLogs(s)[k].status == Late && LateLogs(s)[k] in s
    decreases |s|
  {
    if s != [] {
      var init := s[..|s| - 1];
      LateLogsMeaning(init);
      assert forall l :: l in init ==> l in s;
    }
  }

  /** When every late log has a check-in time, the late ones are among those present. */
  lemma {:induction false} PresentIncludesLate(s: seq<WorkLog>)
    requires forall k :: 0 <= k < |s| && s[k].status == Late ==> s[k].checkInTime.Some?
    ensures CountStatus(s, Late) <= CountCheckedIn(s)
    decreases |s|
  {
    if s != [] {
      PresentIncludesLate(s[..|s| - 1]);
    }
  }

  /** The message counts leave requests still pending or rejected; the dashboard only approved ones. */
  lemma {:induction false} LeaveIncludesUnapproved(s: seq<WorkLog>)
    ensures CountApprovedLeave(s) <= CountLeave(s)
    decreases |s|
  {
    if s != [] {
      LeaveIncludesUnapproved(s[..|s| - 1]);
    }
  }

  /** Logs of other days do not change the message. */
  lemma OtherDaysIgnored(logs: seq<WorkLog>, l: WorkLog, employees: seq<Employee>, today: string, clock: int -> string)
    requires l.date != today
    ensures ShareMessage(logs + [l], employees, today, clock) == ShareMessage(logs, employees, today, clock)
  {
    LogsOnAppend(logs, [l], today);
    assert LogsOn([l], today) == [] by {
      assert [l][..0] == [];
    }
    assert LogsOn(logs + [l], today) == LogsOn(logs, today);
  }
}

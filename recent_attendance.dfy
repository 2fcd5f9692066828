/**
 * The recent-activity table: avatar initials, status badges, the time and
 * duration columns, and the admin's manual check-out correction.
 */
module RecentAttendance {
  import opened Wrappers
  import opened AttendanceTypes
  import opened Text
  import opened Durations
  import opened WorkLogStore

  function Min(a: nat, b: nat): nat {
    if a <= b then a else b
  }

  // ---------------------------------------------------------------------
  // Initials

  /** The avatar fallback for a name. */
  function Initials(name: string): (r: string)
    ensures name != "" ==> 1 <= |r| <= 2
  {
    if name == "" then "?"
    else
      var parts := Split(name);
      if |parts| > 1 && parts[0] != "" && parts[|parts| - 1] != "" then
        Upper([parts[0][0], parts[|parts| - 1][0]])
      else Upper(name[..Min(2, |name|)])
  }

  /**
   * The initials in terms of the name itself: a name with a space that
   * neither starts nor ends with a space gives its first letter and the first
   * letter after its last space; any other non-empty name gives its first
   * two characters.
   */
  lemma InitialsMeaning(name: string)
    ensures name == "" ==> Initials(name) == "?"
    ensures name != "" && ' ' in name && name[0] != ' ' && name[|name| - 1] != ' ' ==>
      Initials(name) == Upper([name[0], name[LastWordStart(name)]])
    ensures name != "" && !(' ' in name && name[0] != ' ' && name[|name| - 1] != ' ') ==>
      Initials(name) == Upper(name[..Min(2, |name|)])
  {
    if name != "" {
      SplitCount(name);
      SplitFirst(name);
      SplitLast(name);
      var parts := Split(name);
      assert parts[0] != "" <==> name[0] != ' ' by {
        if name[0] == ' ' { assert FirstSpace(name) == 0; }
        else { assert FirstSpace(name) > 0; }
      }
      assert parts[|parts| - 1] != "" <==> name[|name| - 1] != ' ' by {
        if name[|name| - 1] == ' ' { assert LastWordStart(name) == |name|; }
        else { assert LastWordStart(name) < |name|; }
      }
    }
  }

  /** "ada lovelace" becomes "AL". */
  lemma InitialsOfTwoNames()
    ensures Initials("ada lovelace") == "AL"
  {
    var name := "ada lovelace";
    assert name[3] == ' ';
    assert forall k :: 4 <= k < |name| ==> name[k] != ' ';
    assert LastWordStart(name) == 4;
    InitialsMeaning(name);
  }

  /** A single name gives its first two letters, a one-letter name that letter. */
  lemma InitialsOfOneName()
    ensures Initials("budi") == "BU"
    ensures Initials("x") == "X"
  {
    InitialsMeaning("budi");
    InitialsMeaning("x");
  }

  // ---------------------------------------------------------------------
  // Status badge

  /** The badge text for a record's status and approval state. */
  function BadgeLabel(status: AttendanceStatus, approval: LeaveApprovalStatus): (r: string)
    ensures |r| >= 4
  {
    match status
    case OnTime => "On-Time"
    case Late => "Late"
    case Absent => "Absent"
    case _ =>
      if approval == Approved then StatusName(status)
      else if approval == Rejected then StatusName(status) + " (Rejected)"
      else StatusName(status) + " (Pending)"
  }

  /** The badge for a stored status name, which may be none of the five. */
  function BadgeLabelOf(raw: string, approval: LeaveApprovalStatus): (r: string)
    ensures r == "N/A" <==> ParseStatus(raw).None?
  {
    match ParseStatus(raw)
    case None => "N/A"
    case Some(s) => BadgeLabel(s, approval)
  }

  /** Approved, rejected, or still open (pending and n/a look the same). */
  function Decided(a: LeaveApprovalStatus): int {
    if a == Approved then 0 else if a == Rejected then 1 else 2
  }

  /** The badge tells the status apart, and for a leave also whether it was approved, rejected or neither. */
  lemma BadgeUnambiguous(s1: AttendanceStatus, a1: LeaveApprovalStatus, s2: AttendanceStatus, a2: LeaveApprovalStatus)
    requires BadgeLabel(s1, a1) == BadgeLabel(s2, a2)
    ensures s1 == s2
    ensures IsLeaveStatus(s1) ==> Decided(a1) == Decided(a2)
  {
    var b1, b2 := BadgeLabel(s1, a1), BadgeLabel(s2, a2);
    assert b1[0] == b2[0] && b1[1] == b2[1] && |b1| == |b2|;
    if IsLeaveStatus(s1) && IsLeaveStatus(s2) && s1 == s2 && |b1| > 8 {
      assert b1[|b1| - 3] == b2[|b2| - 3];
    }
  }

  // ---------------------------------------------------------------------
  // Table row

  /** A time cell: `--:--` for no time, else the formatted clock time. */
  function TimeCell(t: Option<int>, clock: int -> string): string {
    if t.None? then "--:--" else clock(t.value)
  }

  /** The time column: leave rows show no time, others the check-out, else the check-in. */
  function RowTime(log: WorkLog, clock: int -> string): (r: string)
    ensures IsLeaveStatus(log.status) ==> r == "--:--"
    ensures !IsLeaveStatus(log.status) && log.checkOutTime.Some? ==> r == clock(log.checkOutTime.value)
    ensures !IsLeaveStatus(log.status) && log.checkOutTime.None? ==> r == TimeCell(log.checkInTime, clock)
  {
    if IsLeaveStatus(log.status) then "--:--"
    else TimeCell(if log.checkOutTime.Some? then log.checkOutTime else log.checkInTime, clock)
  }

  /** The duration column: two decimals and "h" when positive, `--` otherwise. */
  function RowDuration(log: WorkLog): (r: string)
    ensures r == "--" <==> log.durationHours <= 0
    ensures log.durationHours > 0 ==> |r| >= 5 && r[|r| - 1] == 'h' && r[|r| - 4] == '.'
  {
    if log.durationHours > 0 then HundredthsToString(log.durationHours) + "h" else "--"
  }

  datatype ActivityRow = ActivityRow(logId: string, avatar: string, name: string, badge: string, time: string, duration: string)

  /** One table row; an employee missing from the map shows `??` and `Unknown`. */
  function ActivityRowOf(log: WorkLog, employeeMap: map<string, Employee>, clock: int -> string): (row: ActivityRow)
    ensures log.employeeId !in employeeMap ==> row.avatar == "??" && row.name == "Unknown"
    ensures log.employeeId in employeeMap ==> row.avatar == Initials(employeeMap[log.employeeId].name)
  {
    var known := log.employeeId in employeeMap;
    ActivityRow(
      log.id,
      if known then Initials(employeeMap[log.employeeId].name) else "??",
      if known && employeeMap[log.employeeId].name != "" then employeeMap[log.employeeId].name else "Unknown",
      BadgeLabel(log.status, log.leaveApprovalStatus),
      RowTime(log, clock),
      RowDuration(log))
  }

  /** The table body: one row per recent log, in order. */
  function ActivityRows(logs: seq<WorkLog>, employeeMap: map<string, Employee>, clock: int -> string): (rows: seq<ActivityRow>)
    ensures |rows| == |logs|
  {
    if logs == [] then []
    else ActivityRows(logs[..|logs| - 1], employeeMap, clock) + [ActivityRowOf(logs[|logs| - 1], employeeMap, clock)]
  }

  /** Row k of the table is the row of log k. */
  lemma {:induction false} ActivityRowsPointwise(logs: seq<WorkLog>, employeeMap: map<string, Employee>, clock: int -> string, k: nat)
    requires k < |logs|
    ensures ActivityRows(logs, employeeMap, clock)[k] == ActivityRowOf(logs[k], employeeMap, clock)
    decreases |logs|
  {
    if k < |logs| - 1 {
      ActivityRowsPointwise(logs[..|logs| - 1], employeeMap, clock, k);
    }
  }

  // ---------------------------------------------------------------------
  // Manual check-out correction

  const MissingFields := "Work Log ID and Check-out time are required."
  const InvalidTime := "Invalid time format provided."
  const NoCheckIn := "Cannot calculate duration without a valid check-in time."
  const DefaultCorrectionNote := "Manual check-out time added by admin."
  const CorrectionFailed := "Failed to correct work log."

  /**
   * The update a correction writes, or the message it shows instead.
   * `instant(date, time)` is the instant at `time` on `date`, or None when
   * the two do not make a valid date and time.
   */
  function CorrectionPatch(log: WorkLog, timeStr: string, note: string,
                           instant: (string, string) -> Option<int>): (r: Result<Patch, string>)
  {
    if log.id == "" || timeStr == "" then Failure(MissingFields)
    else
      var t := instant(log.date, timeStr);
      if t.None? then Failure(InvalidTime)
      else if log.checkInTime.None? then Failure(NoCheckIn)
      else Success(NoChange.(
        checkOutTime := Some(Some(t.value)),
        durationHours := Some(HoursHundredths(t.value - log.checkInTime.value)),
        correctionNote := Some(Some(if note == "" then DefaultCorrectionNote else note)),
        checkOutPhotoUrl := Some(None)))
  }

  /** The three refusals, in the order they are checked, and what a correction then writes. */
  lemma CorrectionOutcome(log: WorkLog, timeStr: string, note: string, instant: (string, string) -> Option<int>)
    ensures CorrectionPatch(log, timeStr, note, instant) == Failure(MissingFields) <==> log.id == "" || timeStr == ""
    ensures CorrectionPatch(log, timeStr, note, instant) == Failure(InvalidTime) <==>
      log.id != "" && timeStr != "" && instant(log.date, timeStr).None?
    ensures CorrectionPatch(log, timeStr, note, instant) == Failure(NoCheckIn) <==>
      log.id != "" && timeStr != "" && instant(log.date, timeStr).Some? && log.checkInTime.None?
    ensures CorrectionPatch(log, timeStr, note, instant).Success? ==>
      var t := instant(log.date, timeStr).value;
      ApplyPatch(log, CorrectionPatch(log, timeStr, note, instant).value) ==
        log.(checkOutTime := Some(t),
             durationHours := HoursHundredths(t - log.checkInTime.value),
             correctionNote := Some(if note == "" then DefaultCorrectionNote else note),
             checkOutPhotoUrl := None)
  {
  }

  /** Nothing stops a correction before the check-in: the stored duration is then negative. */
  lemma CorrectionCanBeNegative(log: WorkLog, timeStr: string, note: string, instant: (string, string) -> Option<int>)
    requires log.id != "" && timeStr != "" && log.checkInTime.Some?
    requires instant(log.date, timeStr).Some? && instant(log.date, timeStr).value < log.checkInTime.value - 18000
    ensures ApplyPatch(log, CorrectionPatch(log, timeStr, note, instant).value).durationHours < 0
  {
  }

  /** The correction form, open on one record. */
  class CorrectionDialog {
    const log: WorkLog
    var open: bool
    var error: Option<string>

    constructor (log: WorkLog)
      ensures this.log == log && open && error.None?
    {
      this.log := log;
      open := true;
      error := None;
    }

    /** Submits the form; a refused or failed correction leaves the dialog open with a message. */
    method Submit(store: Store, timeStr: string, note: string, instant: (string, string) -> Option<int>)
      requires store.Valid()
      modifies this, store
      ensures store.Valid()
      ensures match CorrectionPatch(log, timeStr, note, instant)
        case Failure(m) => store.logs == old(store.logs) && error == Some(m) && open == old(open)
        case Success(p) =>
          (log.id in old(store.logs) ==>
             store.logs == old(store.logs)[log.id := ApplyPatch(old(store.logs)[log.id], p)] && !open && error == old(error)) &&
          (log.id !in old(store.logs) ==>
             store.logs == old(store.logs) && error == Some(CorrectionFailed) && open == old(open))
    {
      var r := CorrectionPatch(log, timeStr, note, instant);
      if r.Failure? {
        error := Some(r.error);
        return;
      }
      var ok := store.Update(log.id, r.value);
      if ok {
        open := false;
      } else {
        error := Some(CorrectionFailed);
      }
    }
  }
}

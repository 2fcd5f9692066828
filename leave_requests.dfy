/**
 * The admin's pending-leave panel: one row per pending request and the
 * approve/reject decision written to the record.
 */
module LeaveRequests {
  import opened Wrappers
  import opened AttendanceTypes
  import opened WorkLogStore
  import opened Dashboard
  import opened CheckIn
  import opened RecentAttendance

  datatype Decision = Approve | Reject

  /** The update for a decision: a rejection also marks the day Absent. */
  function DecisionPatch(d: Decision): Patch {
    match d
    case Approve => NoChange.(leaveApprovalStatus := Some(Approved))
    case Reject => NoChange.(leaveApprovalStatus := Some(Rejected), status := Some(Absent))
  }

  /**
   * A decision writes the approval state (and, for a rejection, the status)
   * and nothing else, whatever state the record was in.
   */
  lemma DecisionWritesOnly(log: WorkLog, d: Decision)
    ensures ApplyPatch(log, DecisionPatch(d)) ==
      if d == Approve then log.(leaveApprovalStatus := Approved)
      else log.(leaveApprovalStatus := Rejected, status := Absent)
  {
  }

  /**
   * On the dashboard an approved leave counts as on leave and present; a
   * rejected one counts as neither, so its employee is counted absent.
   */
  lemma DecisionOnDashboard(log: WorkLog)
    requires IsLeaveStatus(log.status)
    ensures IsApprovedLeave(ApplyPatch(log, DecisionPatch(Approve))) && IsPresence(ApplyPatch(log, DecisionPatch(Approve)))
    ensures !IsApprovedLeave(ApplyPatch(log, DecisionPatch(Reject))) && !IsPresence(ApplyPatch(log, DecisionPatch(Reject)))
  {
  }

  /**
   * Approving a record that was already rejected does not restore its leave
   * status: it stays Absent, now marked approved, and is still not counted.
   */
  lemma ApproveAfterReject(log: WorkLog)
    ensures var twice := ApplyPatch(ApplyPatch(log, DecisionPatch(Reject)), DecisionPatch(Approve));
      twice.status == Absent && twice.leaveApprovalStatus == Approved && !IsPresence(twice)
  {
  }

  /**
   * A rejected leave request sends the employee's portal back to the check-in
   * screen, but a submitted photo then takes the check-out branch, which
   * refuses a record without a check-in time.
   */
  lemma RejectedLeaveInPortal(selected: string, location: LocationState, docId: string, employeeId: string,
                              date: string, t: LeaveType, note: string, p: CheckInPanel, q: CheckOutPanel)
    requires selected != "" && docId != ""
    ensures var rejected := ApplyPatch(NewLeaveLog(employeeId, date, t, note).(id := docId), DecisionPatch(Reject));
      RenderContent(selected, false, location, Some(rejected), p, q) == CheckInScreen(p) &&
      AttendanceBranch(Some(rejected)) == CheckOutBranch && rejected.checkInTime.None?
  {
  }

  /** `handleAction`: writes the decision to the record with that id. */
  method HandleAction(store: Store, logId: string, d: Decision) returns (ok: bool)
    requires store.Valid()
    modifies store
    ensures store.Valid()
    ensures ok <==> logId in old(store.logs)
    ensures store.logs == if ok then old(store.logs)[logId := ApplyPatch(old(store.logs)[logId], DecisionPatch(d))] else old(store.logs)
  {
    ok := store.Update(logId, DecisionPatch(d));
  }

  datatype LeaveRow = LeaveRow(logId: string, avatar: string, name: string, request: string, date: string, note: Option<string>)

  function LeaveRowOf(log: WorkLog, employeeMap: map<string, Employee>): LeaveRow {
    var known := log.employeeId in employeeMap;
    LeaveRow(
      log.id,
      if known then Initials(employeeMap[log.employeeId].name) else "??",
      if known && employeeMap[log.employeeId].name != "" then employeeMap[log.employeeId].name else "Unknown User",
      StatusName(log.status),
      log.date,
      if log.leaveNote.Some? && log.leaveNote.value != "" then log.leaveNote else None)
  }

  function LeaveRowsOf(pending: seq<WorkLog>, employeeMap: map<string, Employee>): (rows: seq<LeaveRow>)
    ensures |rows| == |pending|
    ensures forall k :: 0 <= k < |pending| ==> rows[k] == LeaveRowOf(pending[k], employeeMap)
  {
    if pending == [] then []
    else LeaveRowsOf(pending[..|pending| - 1], employeeMap) + [LeaveRowOf(pending[|pending| - 1], employeeMap)]
  }

  /** The panel: nothing at all for an empty list, else one row per request in order. */
  function LeavePanel(pending: seq<WorkLog>, employeeMap: map<string, Employee>): (r: Option<seq<LeaveRow>>)
    ensures r.None? <==> pending == []
    ensures r.Some? ==> |r.value| == |pending|
    ensures r.Some? ==> forall k :: 0 <= k < |pending| ==> r.value[k].logId == pending[k].id && r.value[k].date == pending[k].date
  {
    if pending == [] then None else Some(LeaveRowsOf(pending, employeeMap))
  }
}

/**
 * The client-side record types of src/lib/data-client.ts.
 *
 * Timestamps are integer milliseconds since the epoch, hours are integer
 * hundredths of an hour, calendar days are their YYYY-MM-DD strings and
 * coordinates, distances and radii are reals.
 */
module AttendanceTypes {
  import opened Wrappers

  /** The five attendance statuses a work log can carry. */
  datatype AttendanceStatus = OnTime | Late | OnLeave | Sick | Absent

  /** The four approval states of a work log. */
  datatype LeaveApprovalStatus = Pending | Approved | Rejected | NotApplicable

  /** The name under which a status is stored and displayed. */
  function StatusName(s: AttendanceStatus): string {
    match s
    case OnTime => "On-Time"
    case Late => "Late"
    case OnLeave => "On-Leave"
    case Sick => "Sick"
    case Absent => "Absent"
  }

  /** Reads a stored status name back; any other string is not a status. */
  function ParseStatus(raw: string): (r: Option<AttendanceStatus>)
    ensures r.Some? ==> StatusName(r.value) == raw
  {
    if raw == "On-Time" then Some(OnTime)
    else if raw == "Late" then Some(Late)
    else if raw == "On-Leave" then Some(OnLeave)
    else if raw == "Sick" then Some(Sick)
    else if raw == "Absent" then Some(Absent)
    else None
  }

  /** Status names are distinct and read back to the status they name. */
  lemma StatusNameRoundTrip(s: AttendanceStatus)
    ensures ParseStatus(StatusName(s)) == Some(s)
  {
  }

  function ApprovalName(a: LeaveApprovalStatus): string {
    match a
    case Pending => "pending"
    case Approved => "approved"
    case Rejected => "rejected"
    case NotApplicable => "n/a"
  }

  /** An On-Leave or Sick record: the two statuses a leave request can create. */
  predicate IsLeaveStatus(s: AttendanceStatus) {
    s == OnLeave || s == Sick
  }

  datatype Avatar = Avatar(imageUrl: string, filePath: string)

  datatype Employee = Employee(
    id: string,
    name: string,
    email: string,
    position: Option<string>,
    avatar: Option<Avatar>)

  /**
   * One attendance record of one employee for one day. The check-in and
   * check-out fields are nullable; durationHours is always present.
   */
  datatype WorkLog = WorkLog(
    id: string,
    employeeId: string,
    date: string,
    status: AttendanceStatus,
    checkInTime: Option<int>,
    checkInPhotoUrl: Option<string>,
    checkInLatitude: Option<real>,
    checkInLongitude: Option<real>,
    checkOutTime: Option<int>,
    checkOutPhotoUrl: Option<string>,
    checkOutLatitude: Option<real>,
    checkOutLongitude: Option<real>,
    durationHours: int,
    leaveNote: Option<string>,
    leaveApprovalStatus: LeaveApprovalStatus,
    correctionNote: Option<string>)

  /** The singleton office configuration; work hours and tolerance are optional. */
  datatype OfficeSettings = OfficeSettings(
    id: string,
    latitude: real,
    longitude: real,
    radius: real,
    workStart: Option<string>,
    workEnd: Option<string>,
    lateTolerance: Option<int>)

  /** One row of the weekly chart; Absent is not clamped and may be negative. */
  datatype ChartDataPoint = ChartDataPoint(
    day: string,
    onTime: nat,
    late: nat,
    absent: int,
    onLeave: nat)

  datatype DashboardSummary = DashboardSummary(
    totalEmployees: nat,
    onTime: nat,
    late: nat,
    onLeave: nat,
    absent: nat,
    onTimePercentage: int,
    latePercentage: int,
    absentPercentage: int,
    totalWorkHoursToday: int,
    totalOvertimeHoursToday: int)
}

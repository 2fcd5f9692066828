/**
 * The employee portal: which screen it shows for today's record, the gates
 * on the check-in and check-out screens, the records and updates that a
 * check-in, a check-out and a leave request write, and the portal's state.
 */
module CheckIn {
  import opened Wrappers
  import opened AttendanceTypes
  import opened WorkLogStore
  import opened Durations

  const MsPerMinute := 60000

  datatype LeaveType = LeaveOnLeave | LeaveSick

  function LeaveStatus(t: LeaveType): (s: AttendanceStatus)
    ensures IsLeaveStatus(s)
  {
    match t
    case LeaveOnLeave => OnLeave
    case LeaveSick => Sick
  }

  datatype Coords = Coords(latitude: real, longitude: real)

  /** The geolocation request as the portal tracks it. */
  datatype LocationState =
    | Idle
    | Locating(message: string)
    | Located(coords: Coords)
    | LocationFailed(message: string)

  predicate HasLocationMessage(l: LocationState) {
    (l.Locating? || l.LocationFailed?) && l.message != ""
  }

  /** Both working-hour bounds are set (and non-empty). */
  predicate WorkHoursValid(s: OfficeSettings) {
    s.workStart.Some? && s.workStart.value != "" && s.workEnd.Some? && s.workEnd.value != ""
  }

  // ---------------------------------------------------------------------
  // Check-in classification

  /** The last instant that still counts as on time. */
  function LateDeadline(workStart: int, tolerance: Option<int>): int {
    workStart + tolerance.GetOr(0) * MsPerMinute
  }

  function CheckInStatus(now: int, workStart: int, tolerance: Option<int>): (r: AttendanceStatus)
    ensures r == OnTime || r == Late
    ensures r == OnTime <==> now <= workStart + tolerance.GetOr(0) * MsPerMinute
  {
    if now <= LateDeadline(workStart, tolerance) then OnTime else Late
  }

  /** The deadline itself is on time; one millisecond later is late. */
  lemma CheckInStatusBoundary(workStart: int, tolerance: int)
    ensures CheckInStatus(workStart + tolerance * MsPerMinute, workStart, Some(tolerance)) == OnTime
    ensures CheckInStatus(workStart + tolerance * MsPerMinute + 1, workStart, Some(tolerance)) == Late
    ensures CheckInStatus(workStart, workStart, None) == OnTime
    ensures CheckInStatus(workStart + 1, workStart, None) == Late
  {
  }

  /** Once late, arriving later is still late; a longer tolerance never makes a check-in late. */
  lemma CheckInStatusMonotone(now1: int, now2: int, workStart: int, tol1: int, tol2: int)
    requires now1 <= now2 && tol1 <= tol2
    ensures CheckInStatus(now1, workStart, Some(tol1)) == Late ==> CheckInStatus(now2, workStart, Some(tol1)) == Late
    ensures CheckInStatus(now1, workStart, Some(tol2)) == Late ==> CheckInStatus(now1, workStart, Some(tol1)) == Late
  {
  }

  // ---------------------------------------------------------------------
  // Records and updates

  /** The record a check-in creates; the store assigns the id. */
  function NewCheckInLog(employeeId: string, date: string, status: AttendanceStatus, serverNow: int,
                         photoUrl: string, at: Coords): WorkLog
  {
    WorkLog("", employeeId, date, status, Some(serverNow), Some(photoUrl), Some(at.latitude), Some(at.longitude),
            None, None, None, None, 0, None, NotApplicable, None)
  }

  /** The record a leave request creates. */
  function NewLeaveLog(employeeId: string, date: string, t: LeaveType, note: string): WorkLog {
    WorkLog("", employeeId, date, LeaveStatus(t), None, None, None, None,
            None, None, None, None, 0, Some(note), Pending, None)
  }

  /** The update a check-out writes, given the record's check-in time. */
  function CheckOutPatch(checkIn: int, now: int, photoUrl: string, at: Coords): Patch {
    NoChange.(checkOutTime := Some(Some(now)),
              checkOutPhotoUrl := Some(Some(photoUrl)),
              checkOutLatitude := Some(Some(at.latitude)),
              checkOutLongitude := Some(Some(at.longitude)),
              durationHours := Some(HoursHundredths(now - checkIn)))
  }

  /** A check-out writes its time, photo, position and the rounded duration, and nothing else. */
  lemma CheckOutWritesOnly(log: WorkLog, checkIn: int, now: int, photoUrl: string, at: Coords)
    ensures ApplyPatch(log, CheckOutPatch(checkIn, now, photoUrl, at)) ==
      log.(checkOutTime := Some(now), checkOutPhotoUrl := Some(photoUrl),
           checkOutLatitude := Some(at.latitude), checkOutLongitude := Some(at.longitude),
           durationHours := HoursHundredths(now - checkIn))
  {
  }

  // ---------------------------------------------------------------------
  // Screens

  /** What the location area of a screen shows. */
  datatype LocationPrompt =
    | AskLocation
    | Waiting(message: string)
    | LocationAlert(message: string)
    | Admission(withinRadius: bool)  // in-range or out-of-range alert; the photo button is enabled iff in range
    | NoPrompt
    | ProceedToPhoto

  datatype CheckInPanel =
    | NotConfigured
    | WindowClosed
    | CheckInForm(prompt: LocationPrompt, leaveSubmitEnabled: bool)

  datatype CheckOutPanel = CheckOutForm(earlyWarning: bool, prompt: LocationPrompt)

  datatype Tone = InfoTone | SuccessTone | DestructiveTone

  datatype Screen =
    | CameraScreen
    | ChooseEmployee
    | Checking
    | LeaveScreen(approval: LeaveApprovalStatus, tone: Tone, note: Option<string>)
    | CompleteScreen(checkIn: int, checkOut: int)
    | CheckOutScreen(checkIn: int, outPanel: CheckOutPanel)
    | CheckInScreen(inPanel: CheckInPanel)

  function LeaveTone(a: LeaveApprovalStatus): Tone {
    if a == Approved then SuccessTone else if a == Rejected then DestructiveTone else InfoTone
  }

  function CheckInPrompt(location: LocationState, distance: Option<real>, radius: real): LocationPrompt {
    match location
    case Idle => AskLocation
    case Locating(m) => Waiting(m)
    case LocationFailed(m) => LocationAlert(m)
    case Located(_) => if distance.Some? then Admission(distance.value <= radius) else NoPrompt
  }

  /** The check-in screen; `at` gives the instant of an HH:mm time today. */
  function CheckInPanelOf(settings: OfficeSettings, now: int, at: string -> int, location: LocationState,
                          distance: Option<real>, processing: bool): CheckInPanel
  {
    if !WorkHoursValid(settings) then NotConfigured
    else if now > at(settings.workEnd.value) then WindowClosed
    else CheckInForm(CheckInPrompt(location, distance, settings.radius), !(processing || location.Locating?))
  }

  /** The check-out screen: an early-leave warning, and no radius comparison. */
  function CheckOutPanelOf(settings: OfficeSettings, now: int, at: string -> int, location: LocationState): CheckOutPanel {
    var early := WorkHoursValid(settings) && now < at(settings.workEnd.value);
    var prompt := match location
      case Idle => AskLocation
      case Locating(m) => Waiting(m)
      case LocationFailed(m) => LocationAlert(m)
      case Located(_) => ProceedToPhoto;
    CheckOutForm(early, prompt)
  }

  /** The portal body for a selection, a busy flag, a location and today's record. */
  function RenderContent(selected: string, processing: bool, location: LocationState, todaysLog: Option<WorkLog>,
                         checkIn: CheckInPanel, checkOut: CheckOutPanel): Screen
  {
    if selected == "" then ChooseEmployee
    else if processing && !HasLocationMessage(location) then Checking
    else if todaysLog.Some? && IsLeaveStatus(todaysLog.value.status) then
      LeaveScreen(todaysLog.value.leaveApprovalStatus, LeaveTone(todaysLog.value.leaveApprovalStatus), todaysLog.value.leaveNote)
    else if todaysLog.Some? && todaysLog.value.checkInTime.Some? && todaysLog.value.checkOutTime.Some? then
      CompleteScreen(todaysLog.value.checkInTime.value, todaysLog.value.checkOutTime.value)
    else if todaysLog.Some? && todaysLog.value.checkInTime.Some? then
      CheckOutScreen(todaysLog.value.checkInTime.value, checkOut)
    else CheckInScreen(checkIn)
  }

  /** The screen offers the button that opens the camera. */
  predicate PhotoOffered(s: Screen) {
    || (s.CheckInScreen? && s.inPanel.CheckInForm? && s.inPanel.prompt == Admission(true))
    || (s.CheckOutScreen? && s.outPanel.prompt == ProceedToPhoto)
  }

  /** Which branch a submitted photo takes. */
  datatype SubmitBranch = CheckOutBranch | CheckInBranch | NoBranch

  function AttendanceBranch(todaysLog: Option<WorkLog>): SubmitBranch {
    if todaysLog.Some? && todaysLog.value.id != "" && todaysLog.value.checkOutTime.None? then CheckOutBranch
    else if todaysLog.None? then CheckInBranch
    else NoBranch
  }

  /** The check-in photo is offered exactly inside the working window and the office radius. */
  lemma CheckInPhotoGate(settings: OfficeSettings, now: int, at: string -> int, location: LocationState,
                         distance: Option<real>, processing: bool)
    ensures PhotoOffered(CheckInScreen(CheckInPanelOf(settings, now, at, location, distance, processing))) <==>
      WorkHoursValid(settings) && now <= at(settings.workEnd.value) &&
      location.Located? && distance.Some? && distance.value <= settings.radius
  {
  }

  /** The check-out photo is offered on any successful location, near the office or not. */
  lemma CheckOutPhotoGate(settings: OfficeSettings, now: int, at: string -> int, location: LocationState, checkIn: int)
    ensures PhotoOffered(CheckOutScreen(checkIn, CheckOutPanelOf(settings, now, at, location))) <==> location.Located?
  {
  }

  /** A stored record that the portal offers to check out is accepted by the check-out branch. */
  lemma CheckOutScreenTakesCheckOutBranch(selected: string, processing: bool, location: LocationState,
                                          todaysLog: Option<WorkLog>, p: CheckInPanel, q: CheckOutPanel)
    requires RenderContent(selected, processing, location, todaysLog, p, q).CheckOutScreen?
    requires todaysLog.Some? ==> todaysLog.value.id != ""
    ensures AttendanceBranch(todaysLog) == CheckOutBranch
    ensures todaysLog.value.checkInTime.Some? && !IsLeaveStatus(todaysLog.value.status)
  {
  }

  /**
   * On the check-in screen a submit creates a record only when there is no
   * record yet; with a stored record (a rejected leave, say) it takes the
   * check-out branch, which refuses a record without a check-in time.
   */
  lemma CheckInScreenNeverDuplicates(selected: string, processing: bool, location: LocationState,
                                     todaysLog: Option<WorkLog>, p: CheckInPanel, q: CheckOutPanel)
    requires RenderContent(selected, processing, location, todaysLog, p, q).CheckInScreen?
    requires todaysLog.Some? ==> todaysLog.value.id != ""
    ensures AttendanceBranch(todaysLog) == CheckInBranch <==> todaysLog.None?
    ensures todaysLog.Some? ==> todaysLog.value.checkInTime.None? && AttendanceBranch(todaysLog) != CheckInBranch
  {
  }

  /** Once the check-in record is stored, the portal shows the check-out screen for it. */
  lemma CheckInLeadsToCheckOut(selected: string, location: LocationState, docId: string, employeeId: string,
                               date: string, status: AttendanceStatus, serverNow: int, photoUrl: string, at: Coords,
                               p: CheckInPanel, q: CheckOutPanel)
    requires selected != "" && docId != "" && (status == OnTime || status == Late)
    ensures var log := NewCheckInLog(employeeId, date, status, serverNow, photoUrl, at).(id := docId);
      RenderContent(selected, false, location, Some(log), p, q) == CheckOutScreen(serverNow, q) &&
      AttendanceBranch(Some(log)) == CheckOutBranch
  {
  }

  /** After a check-out the day is complete and no further submit changes it. */
  lemma CheckOutCompletesDay(selected: string, location: LocationState, log: WorkLog, now: int, photoUrl: string,
                             at: Coords, p: CheckInPanel, q: CheckOutPanel)
    requires selected != "" && log.checkInTime.Some? && !IsLeaveStatus(log.status)
    ensures var done := ApplyPatch(log, CheckOutPatch(log.checkInTime.value, now, photoUrl, at));
      RenderContent(selected, false, location, Some(done), p, q) == CompleteScreen(log.checkInTime.value, now) &&
      AttendanceBranch(Some(done)) == NoBranch
  {
  }

  /** A leave request shows the pending leave screen, which offers no photo. */
  lemma LeaveRequestShowsLeaveScreen(selected: string, location: LocationState, docId: string, employeeId: string,
                                     date: string, t: LeaveType, note: string, p: CheckInPanel, q: CheckOutPanel)
    requires selected != ""
    ensures var log := NewLeaveLog(employeeId, date, t, note).(id := docId);
      RenderContent(selected, false, location, Some(log), p, q) == LeaveScreen(Pending, InfoTone, Some(note)) &&
      !PhotoOffered(RenderContent(selected, false, location, Some(log), p, q))
  {
  }

  // ---------------------------------------------------------------------
  // The portal's state

  /** The toast a submitted photo ends with (or none). */
  datatype SubmitOutcome =
    | Ignored
    | PhotoFailed
    | CheckOutRejected
    | CheckedOut
    | CheckOutFailed
    | CheckInClosed
    | CheckedIn(status: AttendanceStatus)
    | CheckInRefused
    | NothingToDo

  datatype LeaveOutcome = LeaveIgnored | LeaveRequested | LeaveRefused

  const NoGeolocation := "Geolocation is not supported by your browser."

  class Portal {
    const settings: OfficeSettings
    const store: Store
    var selectedEmployeeId: string
    var todaysLog: Option<WorkLog>
    var location: LocationState
    var distance: Option<real>
    var leaveType: LeaveType
    var leaveNote: string
    var showCamera: bool
    var isActionPending: bool

    ghost predicate Valid()
      reads this, store
    {
      store.Valid()
    }

    constructor (settings: OfficeSettings, store: Store)
      requires store.Valid()
      ensures Valid() && this.settings == settings && this.store == store
      ensures selectedEmployeeId == "" && todaysLog.None? && location == Idle && distance.None?
      ensures leaveType == LeaveOnLeave && leaveNote == "" && !showCamera && !isActionPending
    {
      this.settings := settings;
      this.store := store;
      selectedEmployeeId := "";
      todaysLog := None;
      location := Idle;
      distance := None;
      leaveType := LeaveOnLeave;
      leaveNote := "";
      showCamera := false;
      isActionPending := false;
    }

    /** What the portal shows at instant `now`. */
    function View(now: int, at: string -> int): Screen
      reads this
    {
      if showCamera then CameraScreen
      else RenderContent(selectedEmployeeId, isActionPending, location, todaysLog,
                         CheckInPanelOf(settings, now, at, location, distance, isActionPending),
                         CheckOutPanelOf(settings, now, at, location))
    }

    /** Loads the employee's record for the local date. */
    method FetchTodaysLog(employeeId: string, localDate: string)
      requires Valid()
      modifies this`todaysLog, this`isActionPending
      ensures employeeId == "" ==> todaysLog == old(todaysLog) && isActionPending == old(isActionPending)
      ensures employeeId != "" ==> IsDailyLogOf(todaysLog, store.logs, employeeId, localDate) && !isActionPending
    {
      if employeeId == "" {
        return;
      }
      isActionPending := true;
      todaysLog := store.FindDaily(employeeId, localDate);
      isActionPending := false;
    }

    /** Choosing a name resets the screen and loads that employee's record. */
    method SelectEmployee(id: string, localDate: string)
      requires Valid()
      modifies this`selectedEmployeeId, this`location, this`distance, this`showCamera, this`leaveNote,
               this`todaysLog, this`isActionPending
      ensures selectedEmployeeId == id && location == Idle && distance.None? && !showCamera && leaveNote == ""
      ensures id == "" ==> todaysLog.None? && isActionPending == old(isActionPending)
      ensures id != "" ==> IsDailyLogOf(todaysLog, store.logs, id, localDate) && !isActionPending
    {
      selectedEmployeeId := id;
      location := Idle;
      distance := None;
      showCamera := false;
      leaveNote := "";
      todaysLog := None;
      FetchTodaysLog(id, localDate);
    }

    /**
     * Asks the device for a position, first with high accuracy and then once
     * more with low accuracy; `distanceTo` is the distance to the office.
     */
    method GetLocation(supported: bool, first: Result<Coords, string>, second: Result<Coords, string>,
                       distanceTo: Coords -> real)
      modifies this`location, this`distance
      ensures !supported ==> location == LocationFailed(NoGeolocation) && distance == old(distance)
      ensures supported && first.Success? ==> location == Located(first.value) && distance == Some(distanceTo(first.value))
      ensures supported && first.Failure? && second.Success? ==>
        location == Located(second.value) && distance == Some(distanceTo(second.value))
      ensures supported && first.Failure? && second.Failure? ==>
        location == LocationFailed("Gagal mendapatkan lokasi: " + second.error + ". Pastikan GPS aktif dan izin lokasi diberikan.") &&
        distance == old(distance)
    {
      if !supported {
        location := LocationFailed(NoGeolocation);
        return;
      }
      location := Locating("Mendapatkan lokasi Anda...");
      if first.Success? {
        distance := Some(distanceTo(first.value));
        location := Located(first.value);
      } else {
        location := Locating("Mencoba dengan akurasi lebih rendah...");
        if second.Success? {
          distance := Some(distanceTo(second.value));
          location := Located(second.value);
        } else {
          location := LocationFailed("Gagal mendapatkan lokasi: " + second.error + ". Pastikan GPS aktif dan izin lokasi diberikan.");
        }
      }
    }

    /** The leave form's type and note fields. */
    method EditLeaveRequest(t: LeaveType, note: string)
      modifies this`leaveType, this`leaveNote
      ensures leaveType == t && leaveNote == note
    {
      leaveType := t;
      leaveNote := note;
    }

    /** Pressing the photo button, which only the gated screens offer. */
    method OpenCamera(now: int, at: string -> int)
      modifies this`showCamera
      ensures showCamera == (old(showCamera) || PhotoOffered(old(View(now, at))))
    {
      if PhotoOffered(View(now, at)) {
        showCamera := true;
      }
    }

    /** "Back to Portal" on the camera page. */
    method CloseCamera()
      modifies this`showCamera
      ensures !showCamera
    {
      showCamera := false;
    }

    /**
     * A captured photo (`None` when it could not be read) is submitted:
     * it checks out today's open record, or checks in when there is none.
     * `now` is the device clock, `serverNow` the store's timestamp, and the
     * new record is dated by `utcDate` while today's record is looked up by
     * `localDate`.
     */
    method SubmitAttendance(photo: Option<string>, now: int, serverNow: int, utcDate: string, localDate: string,
                            newDocId: string, at: string -> int) returns (outcome: SubmitOutcome)
      requires Valid()
      requires newDocId !in store.logs
      modifies this, store
      ensures Valid()
      ensures outcome == Ignored <==> old(selectedEmployeeId) == "" || !old(location).Located?
      ensures outcome == Ignored ==> unchanged(this) && store.logs == old(store.logs)
      ensures outcome == PhotoFailed <==> old(selectedEmployeeId) != "" && old(location).Located? && photo.None?
      ensures outcome == PhotoFailed ==> store.logs == old(store.logs) && !isActionPending && showCamera == old(showCamera)
      ensures outcome in {CheckOutRejected, CheckedOut, CheckOutFailed} <==>
        old(selectedEmployeeId) != "" && old(location).Located? && photo.Some? && AttendanceBranch(old(todaysLog)) == CheckOutBranch
      ensures outcome == CheckOutRejected <==> outcome in {CheckOutRejected, CheckedOut, CheckOutFailed} && old(todaysLog).value.checkInTime.None?
      ensures outcome == CheckOutRejected ==> store.logs == old(store.logs)
      ensures outcome in {CheckedOut, CheckOutFailed} ==>
        var log := old(todaysLog).value;
        (outcome == CheckedOut <==> log.id in old(store.logs)) &&
        store.logs == if outcome == CheckedOut
          then old(store.logs)[log.id := ApplyPatch(old(store.logs)[log.id],
                 CheckOutPatch(log.checkInTime.value, now, photo.value, old(location).coords))]
          else old(store.logs)
      ensures outcome == CheckedOut ==>
        selectedEmployeeId == "" && todaysLog.None? && location == Idle && distance.None? && leaveNote == ""
      ensures outcome.CheckedIn? || outcome in {CheckInClosed, CheckInRefused} <==>
        old(selectedEmployeeId) != "" && old(location).Located? && photo.Some? && AttendanceBranch(old(todaysLog)) == CheckInBranch
      ensures outcome == CheckInClosed <==> (outcome.CheckedIn? || outcome in {CheckInClosed, CheckInRefused}) && !WorkHoursValid(settings)
      ensures outcome == CheckInClosed ==> store.logs == old(store.logs) && isActionPending && showCamera == old(showCamera)
      ensures outcome.CheckedIn? || outcome == CheckInRefused ==>
        var status := CheckInStatus(now, at(settings.workStart.value), settings.lateTolerance);
        var record := NewCheckInLog(old(selectedEmployeeId), utcDate, status, serverNow, photo.value, old(location).coords);
        (outcome.CheckedIn? <==> !HasDailyLog(old(store.logs), old(selectedEmployeeId), utcDate)) &&
        (outcome.CheckedIn? ==> outcome.status == status && store.logs == old(store.logs)[newDocId := record.(id := newDocId)] &&
                                IsDailyLogOf(todaysLog, store.logs, old(selectedEmployeeId), localDate)) &&
        (outcome == CheckInRefused ==> store.logs == old(store.logs))
      ensures outcome == NothingToDo <==>
        old(selectedEmployeeId) != "" && old(location).Located? && photo.Some? && AttendanceBranch(old(todaysLog)) == NoBranch
      ensures outcome == NothingToDo ==> store.logs == old(store.logs)
      ensures outcome != Ignored && outcome != CheckInClosed ==> !isActionPending
      ensures outcome != Ignored && outcome != CheckInClosed && outcome != PhotoFailed ==> !showCamera
      ensures outcome != CheckedOut ==>
        selectedEmployeeId == old(selectedEmployeeId) && location == old(location) && distance == old(distance) &&
        leaveNote == old(leaveNote)
      ensures !outcome.CheckedIn? && outcome != CheckedOut ==> todaysLog == old(todaysLog)
      ensures leaveType == old(leaveType)
    {
      if selectedEmployeeId == "" || !location.Located? {
        return Ignored;
      }
      isActionPending := true;
      if photo.None? {
        isActionPending := false;
        return PhotoFailed;
      }
      var branch := AttendanceBranch(todaysLog);
      if branch == CheckOutBranch {
        var log := todaysLog.value;
        if log.checkInTime.None? {
          isActionPending := false;
          showCamera := false;
          return CheckOutRejected;
        }
        var ok := store.Update(log.id, CheckOutPatch(log.checkInTime.value, now, photo.value, location.coords));
        if ok {
          outcome := CheckedOut;
          SelectEmployee("", localDate);
        } else {
          outcome := CheckOutFailed;
        }
      } else if branch == CheckInBranch {
        if !WorkHoursValid(settings) {
          return CheckInClosed;
        }
        var status := CheckInStatus(now, at(settings.workStart.value), settings.lateTolerance);
        var ok := store.Create(newDocId, NewCheckInLog(selectedEmployeeId, utcDate, status, serverNow, photo.value, location.coords));
        if ok {
          outcome := CheckedIn(status);
          FetchTodaysLog(selectedEmployeeId, localDate);
        } else {
          outcome := CheckInRefused;
        }
      } else {
        outcome := NothingToDo;
      }
      isActionPending := false;
      showCamera := false;
    }

    /** Submits the leave form; it needs a selected employee and a non-empty note. */
    method RequestLeave(utcDate: string, localDate: string, newDocId: string) returns (outcome: LeaveOutcome)
      requires Valid()
      requires newDocId !in store.logs
      modifies this, store
      ensures Valid()
      ensures outcome == LeaveIgnored <==> old(selectedEmployeeId) == "" || old(leaveNote) == ""
      ensures outcome == LeaveIgnored ==> unchanged(this) && store.logs == old(store.logs)
      ensures outcome != LeaveIgnored ==>
        (outcome == LeaveRequested <==> !HasDailyLog(old(store.logs), selectedEmployeeId, utcDate)) &&
        store.logs == (if outcome == LeaveRequested
          then old(store.logs)[newDocId := NewLeaveLog(selectedEmployeeId, utcDate, leaveType, leaveNote).(id := newDocId)]
          else old(store.logs)) &&
        !isActionPending
      ensures outcome == LeaveRequested ==> IsDailyLogOf(todaysLog, store.logs, selectedEmployeeId, localDate)
      ensures outcome != LeaveRequested ==> todaysLog == old(todaysLog)
      ensures selectedEmployeeId == old(selectedEmployeeId) && location == old(location) && distance == old(distance)
      ensures leaveType == old(leaveType) && leaveNote == old(leaveNote) && showCamera == old(showCamera)
    {
      if selectedEmployeeId == "" || leaveNote == "" {
        return LeaveIgnored;
      }
      isActionPending := true;
      var ok := store.Create(newDocId, NewLeaveLog(selectedEmployeeId, utcDate, leaveType, leaveNote));
      if ok {
        outcome := LeaveRequested;
        FetchTodaysLog(selectedEmployeeId, localDate);
      } else {
        outcome := LeaveRefused;
      }
      isActionPending := false;
    }
  }
}

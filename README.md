# Attendance tracker core, modelled in Dafny

This project models the core of an office attendance tracker: a Firebase/React
web application. Employees check in and out with a photo and a geofenced
location from a portal, or request leave. Administrators approve or reject
leave, correct missing check-outs and read a dashboard built from the work
logs. The model covers:

- the record types (`AttendanceTypes`);
- the work-log store and the partial updates written to it (`WorkLogStore`);
- the portal's screens, gates and actions, as a class over the store (`CheckIn`);
- the dashboard aggregation, both as a specification and as the imperative
  loops and in-place sort of the source (`Dashboard`, `DateOrder`);
- the dashboard data hook and its live collections (`DashboardHook`);
- the recent-activity table and the admin correction (`RecentAttendance`);
- the pending-leave panel and its decisions (`LeaveRequests`);
- the spreadsheet export and the shared daily message (`ExportButtons`);
- the anomaly-analysis selection and server action (`AnomalyDetection`, `Actions`);
- string and number helpers (`Text`, `Durations`, `Wrappers`).

Modelling units:

- Instants are integer milliseconds.
- Hours are integer hundredths of an hour, so `toFixed(2)` is exact rounding,
  half away from zero (`Durations.HoursHundredths`).
- Calendar days are their `YYYY-MM-DD` strings, ordered lexicographically
  (`DateOrder.DateLe`), which is chronological order for well-formed dates.
- Coordinates, distances and radii are reals.

The clock, the store's server timestamp and the generated document id are
parameters of the operations that use them. So are the formatting of clock
times, the parsing of `HH:mm` and date strings, the distance to the office and
the analyser. The portal's "today" takes two parameters, because the source
dates a new record by the UTC date and looks today's record up by the local
date. Asynchronous steps are collapsed: each method ends in the state the
source reaches once its awaited calls have finished.

The source keeps one record per employee and day. Only the store's rules,
which are not part of this model, enforce that. The model makes it the store's
invariant (`WorkLogStore.OneLogPerDay`): `Store.Create` refuses a second
record for the same employee and date, and the portal turns that refusal into
its error toast.

Where the system's specification and the code differ, the model follows the code:

- `pendingLeaveRequests` is filtered after the in-place sort
  (src/lib/data.ts:96-100), so it is newest first, not in input order
  (`Dashboard.PendingLeaveProperties`).
- A leave decision is written whatever the record's approval state
  (src/components/dashboard/leave-requests.tsx:34-42). Approving a rejected
  request leaves it Absent and approved (`LeaveRequests.ApproveAfterReject`).
- Location is requested twice: high accuracy first, then low accuracy
  (src/app/check-in/check-in-client-page.tsx:186-225).
- After a leave is rejected, the portal shows the check-in screen again. A photo
  submitted from it takes the check-out branch, because the record has an id
  and no check-out time. That branch then refuses a record without a check-in
  time, so the employee cannot check in that day
  (`LeaveRequests.RejectedLeaveInPortal`, `CheckIn.CheckInScreenNeverDuplicates`).
- The seven-day pre-filter of the dashboard hook drops the oldest day of the
  chart for most of the day (see Findings).

## Model

| member | source | states |
|---|---|---|
| AttendanceTypes.ParseStatus | src/lib/data-client.ts:4 | a stored string read as a status is the name of that status; any other string is no status |
| AttendanceTypes.StatusNameRoundTrip | src/lib/data-client.ts:4 | the five status names are distinct and each reads back to its own status |
| DateOrder.DateLeTotal | src/lib/data.ts:97 | any two dates are comparable in the day order used for sorting |
| DateOrder.DateLeTransitive | src/lib/data.ts:97 | the day order is transitive |
| DateOrder.DateLeAntisymmetric | src/lib/data.ts:97 | two dates ordered both ways are the same date |
| DateOrder.LogsOn | src/lib/data.ts:29 | the filter by day keeps only logs of that day |
| DateOrder.SortByDateDescPermutes | src/lib/data.ts:96-97 | sorting by date rearranges the logs: same multiset |
| DateOrder.SortByDateDescSorted | src/lib/data.ts:96-97 | the sorted logs are newest first |
| DateOrder.SortByDateDescStable | src/lib/data.ts:96-97 | the sort is stable: the logs of each day keep their relative order |
| DateOrder.InsertStep | src/lib/data.ts:97 | one insertion step leaves the prefix as the insertion of the next log into the sorted prefix, and the rest untouched |
| DateOrder.SortInPlace | src/lib/data.ts:96-97 | the in-place sort leaves the array equal to the stable newest-first sort of its old contents |
| Dashboard.Percentage | src/lib/data.ts:57 | `Math.round(100·value/total)` is the integer nearest to the exact percentage, halves up; 0 for a zero total; within 0..100 when value ≤ total |
| Dashboard.WeeklyOf | src/lib/data.ts:68-94 | one chart row per day of the interval, row i being the classification of day i |
| Dashboard.Take | src/lib/data.ts:98 | `slice(0, n)`: a prefix of at most n logs, all of them when fewer |
| Dashboard.EmployeeMapOf | src/lib/data.ts:27 | every roster id is a key, and each key maps to a roster employee with that id |
| Dashboard.ComputeSummary | src/lib/data.ts:29-66 | the counting loop over today's logs computes the daily summary of today's logs |
| Dashboard.ComputeDayStats | src/lib/data.ts:70-93 | the counting loop over one day's logs computes that day's chart row |
| Dashboard.ComputeWeekly | src/lib/data.ts:68-94 | the map over the interval computes the weekly series |
| Dashboard.ProcessDashboardData | src/lib/data.ts:8-103 | returns the dashboard of its inputs and leaves the array sorted newest first, untouched for an empty roster |
| Dashboard.EmptyRosterDashboard | src/lib/data.ts:9-22 | an empty roster gives an all-zero summary, empty lists, an empty series and an empty map |
| Dashboard.PresentIdsMeaning | src/lib/data.ts:33-47 | an employee is present exactly when some On-Time, Late or approved leave log names them |
| Dashboard.OvertimeWithinWorkHours | src/lib/data.ts:48-51 | overtime is never negative and never more than the work-hours total |
| Dashboard.AttendancePercentagesComplement | src/lib/data.ts:55-62 | with at least one attendance, the on-time and late percentages add up to 100, or 101 when both round up |
| Dashboard.SummaryBalance | src/lib/data.ts:35-60 | with distinct roster ids, one log per employee today and only roster employees, on time + late + on leave + absent = total employees |
| Dashboard.SummaryIgnoresOtherDays | src/lib/data.ts:29 | a log of another day does not change the daily summary |
| Dashboard.WeeklySeriesShape | src/lib/data.ts:68-94 | seven rows labelled as the interval, oldest first; the last row repeats today's counts, with unclamped absence |
| Dashboard.RecentLogsProperties | src/lib/data.ts:96-98 | at most five logs, newest first, drawn from the input, and none left out is newer than one kept |
| Dashboard.PendingLeaveProperties | src/lib/data.ts:96-100 | exactly the pending logs, each as often as in the input, newest first |
| WorkLogStore.ApplyPatch | src/app/check-in/check-in-client-page.tsx:269-278 | a partial update never touches the identity, the check-in fields or the leave note |
| WorkLogStore.ApplyNoChange | src/app/check-in/check-in-client-page.tsx:278 | the empty update leaves a record as it was |
| WorkLogStore.Store.Create | src/app/check-in/check-in-client-page.tsx:307-317 | creates the record under the new id exactly when the employee has no record that day, else changes nothing; keeps one record per day |
| WorkLogStore.Store.Update | src/app/check-in/check-in-client-page.tsx:277-286 | updates the record exactly when the id is stored, else fails and changes nothing |
| WorkLogStore.Store.FindDaily | src/app/check-in/check-in-client-page.tsx:127-145 | the query result is the employee's record for the day, or none when there is none |
| WorkLogStore.DailyLogUnique | src/app/check-in/check-in-client-page.tsx:134-135 | in a valid store, the first match of the query is the only one |
| Durations.HoursHundredths | src/app/check-in/check-in-client-page.tsx:266-267 | the duration in hundredths of an hour is within half a hundredth of the exact value |
| Durations.HoursHundredthsOdd | src/app/check-in/check-in-client-page.tsx:267 | the rounding is symmetric about zero |
| Durations.HoursHundredthsMonotone | src/app/check-in/check-in-client-page.tsx:267 | a longer interval never rounds to a shorter duration |
| Durations.ExampleDurations | src/app/check-in/check-in-client-page.tsx:267 | 8 h 55 min gives 8.92 h, 9 h gives 9.00 h, minus one hour gives −1.00 h |
| Text.Split | src/components/dashboard/recent-attendance.tsx:39 | `split(' ')` always yields at least one piece |
| Text.SplitJoin | src/components/dashboard/recent-attendance.tsx:39 | joining the pieces with spaces gives back the string, and no piece holds a space |
| Text.SplitCount | src/components/dashboard/recent-attendance.tsx:40 | there is more than one piece exactly when the string has a space |
| Text.SplitFirst | src/components/dashboard/recent-attendance.tsx:40-41 | the first piece runs up to the first space |
| Text.SplitLast | src/components/dashboard/recent-attendance.tsx:40-41 | the last piece starts after the last space |
| Text.Upper | src/components/dashboard/recent-attendance.tsx:41 | upper-casing maps each character on its own and keeps the length |
| Text.NatToStringValue | src/components/dashboard/export-buttons.tsx:52-54 | the decimal digits of a count read back to the count |
| Text.HundredthsToString | src/components/dashboard/recent-attendance.tsx:284 | `toFixed(2)` has at least one integer digit and two decimals |
| CheckIn.LeaveStatus | src/app/check-in/check-in-client-page.tsx:331 | a leave request takes one of the two leave statuses |
| CheckIn.CheckInStatus | src/app/check-in/check-in-client-page.tsx:290-294 | a check-in is On-Time exactly up to work start plus the tolerance (0 when unset), and Late after |
| CheckIn.CheckInStatusBoundary | src/app/check-in/check-in-client-page.tsx:292-294 | the deadline itself is on time and one millisecond later is late, with and without a tolerance |
| CheckIn.CheckInStatusMonotone | src/app/check-in/check-in-client-page.tsx:292-294 | arriving later never turns Late into On-Time; a longer tolerance never turns On-Time into Late |
| CheckIn.CheckOutWritesOnly | src/app/check-in/check-in-client-page.tsx:266-275 | a check-out writes its time, photo, position and rounded duration, and nothing else |
| CheckIn.CheckInPhotoGate | src/app/check-in/check-in-client-page.tsx:458-495 | the check-in photo is offered exactly when work hours are set, the window is open, the location is known and within the radius |
| CheckIn.CheckOutPhotoGate | src/app/check-in/check-in-client-page.tsx:447-451 | the check-out photo is offered exactly when the location is known, with no radius comparison |
| CheckIn.CheckOutScreenTakesCheckOutBranch | src/app/check-in/check-in-client-page.tsx:254-263 | a stored record shown on the check-out screen has a check-in time, is not a leave, and a submit takes the check-out branch |
| CheckIn.CheckInScreenNeverDuplicates | src/app/check-in/check-in-client-page.tsx:287 | on the check-in screen a submit creates a record exactly when there is none; a stored record there has no check-in time |
| CheckIn.CheckInLeadsToCheckOut | src/app/check-in/check-in-client-page.tsx:296-311 | the stored check-in record shows the check-out screen and takes the check-out branch |
| CheckIn.CheckOutCompletesDay | src/app/check-in/check-in-client-page.tsx:522-523 | after a check-out the complete screen shows both times and no submit branch is left |
| CheckIn.LeaveRequestShowsLeaveScreen | src/app/check-in/check-in-client-page.tsx:391-409 | a new leave record shows the pending leave screen with its note, which offers no photo |
| CheckIn.Portal.constructor | src/app/check-in/check-in-client-page.tsx:96-101 | the portal starts with no selection, no record, no location, an empty note and the camera closed |
| CheckIn.Portal.FetchTodaysLog | src/app/check-in/check-in-client-page.tsx:123-153 | with an employee, loads exactly that employee's record for the local date and clears the busy flag; without one, does nothing |
| CheckIn.Portal.SelectEmployee | src/app/check-in/check-in-client-page.tsx:367-374 | choosing a name resets location, distance, camera and note, and loads that employee's record |
| CheckIn.Portal.GetLocation | src/app/check-in/check-in-client-page.tsx:174-226 | no geolocation fails at once; otherwise the first position found, high then low accuracy, is kept with its distance, or the second error is shown |
| CheckIn.Portal.EditLeaveRequest | src/app/check-in/check-in-client-page.tsx:501-502 | the leave form's type and note are what was entered |
| CheckIn.Portal.OpenCamera | src/app/check-in/check-in-client-page.tsx:495 | the camera opens only from a screen that offers the photo |
| CheckIn.Portal.CloseCamera | src/app/check-in/check-in-client-page.tsx:382 | "Back to Portal" closes the camera |
| CheckIn.Portal.SubmitAttendance | src/app/check-in/check-in-client-page.tsx:232-322 | casewise: ignored without a selection or a location; an unreadable photo or a check-out without a check-in writes nothing; a check-out writes exactly the check-out update and resets the portal; a check-in is skipped when work hours are unset, else creates the classified record when none exists that day; the busy flag and camera end as the source leaves them |
| CheckIn.Portal.RequestLeave | src/app/check-in/check-in-client-page.tsx:324-353 | needs a selection and a non-empty note; creates the pending leave record exactly when there is none that day, loads it, and changes nothing else |
| RecentAttendance.Initials | src/components/dashboard/recent-attendance.tsx:37-44 | a non-empty name gives one or two characters |
| RecentAttendance.InitialsMeaning | src/components/dashboard/recent-attendance.tsx:37-44 | `?` for an empty name; the first letter and the letter after the last space for a name with an inner space, neither starting nor ending with one; else the first two characters, upper-cased |
| RecentAttendance.InitialsOfTwoNames | src/components/dashboard/recent-attendance.tsx:41 | "ada lovelace" gives "AL" |
| RecentAttendance.InitialsOfOneName | src/components/dashboard/recent-attendance.tsx:43 | "budi" gives "BU" and "x" gives "X" |
| RecentAttendance.BadgeLabelOf | src/components/dashboard/recent-attendance.tsx:225-240 | the badge reads "N/A" exactly for a string that is none of the five statuses |
| RecentAttendance.BadgeUnambiguous | src/components/dashboard/recent-attendance.tsx:225-240 | equal badges mean equal statuses, and for a leave the same outcome: approved, rejected, or still open |
| RecentAttendance.RowTime | src/components/dashboard/recent-attendance.tsx:280 | leave rows show `--:--`; other rows the check-out time, falling back to the check-in time |
| RecentAttendance.RowDuration | src/components/dashboard/recent-attendance.tsx:284 | `--` exactly for a duration that is not positive, else a two-decimal number followed by `h` |
| RecentAttendance.ActivityRowOf | src/components/dashboard/recent-attendance.tsx:261-272 | an employee missing from the map shows `??` and `Unknown`, a known one their initials |
| RecentAttendance.ActivityRows | src/components/dashboard/recent-attendance.tsx:260 | one row per recent log |
| RecentAttendance.ActivityRowsPointwise | src/components/dashboard/recent-attendance.tsx:260-286 | row k of the table is the row of log k |
| RecentAttendance.CorrectionOutcome | src/components/dashboard/recent-attendance.tsx:131-156 | the three refusals, in their order and each exactly when it applies; otherwise the correction writes exactly the check-out time, duration, note (defaulted) and a cleared photo |
| RecentAttendance.CorrectionCanBeNegative | src/components/dashboard/recent-attendance.tsx:147-149 | a corrected check-out before the check-in is accepted and stores a negative duration |
| RecentAttendance.CorrectionDialog.constructor | src/components/dashboard/recent-attendance.tsx:116-120 | the dialog opens on its record with no error |
| RecentAttendance.CorrectionDialog.Submit | src/components/dashboard/recent-attendance.tsx:122-166 | a refusal writes nothing and shows its message; an accepted correction updates the stored record and closes the dialog, or shows the failure message when the record is gone |
| LeaveRequests.DecisionWritesOnly | src/components/dashboard/leave-requests.tsx:39-42 | approval writes only the approval state; rejection writes it and status Absent, whatever the leave type |
| LeaveRequests.DecisionOnDashboard | src/lib/data.ts:44-47 | an approved leave counts as on leave and present; a rejected one counts as neither |
| LeaveRequests.ApproveAfterReject | src/components/dashboard/leave-requests.tsx:34-42 | approving a rejected record leaves it Absent and approved, and still not present |
| LeaveRequests.RejectedLeaveInPortal | src/app/check-in/check-in-client-page.tsx:254-263 | after a rejection the portal shows the check-in screen, but a submit takes the check-out branch for a record with no check-in time |
| LeaveRequests.HandleAction | src/components/dashboard/leave-requests.tsx:34-42 | writes the decision to the record with that id exactly when it is stored |
| LeaveRequests.LeaveRowsOf | src/components/dashboard/leave-requests.tsx:66-80 | one row per pending log, in order |
| LeaveRequests.LeavePanel | src/components/dashboard/leave-requests.tsx:30-32 | nothing is shown exactly for an empty list; otherwise one row per request, with its id and date |
| ExportButtons.FormatRow | src/components/dashboard/export-buttons.tsx:19-28 | date, status and duration copied; Late? is Yes exactly for Late; Unknown for an unknown or unnamed employee; `-` for missing times and for a missing or empty note |
| ExportButtons.FormatRows | src/components/dashboard/export-buttons.tsx:18-30 | row k is the formatted log k |
| ExportButtons.FormatData | src/components/dashboard/export-buttons.tsx:17-31 | one row per log in log order, with its date and its late flag |
| ExportButtons.BuildShareMessage | src/components/dashboard/export-buttons.tsx:41-61 | the message built line by line is the report of today's counts followed by the late lines |
| ExportButtons.AppendLateLines | src/components/dashboard/export-buttons.tsx:57-61 | the loop appends one detail line per late log, in order |
| ExportButtons.LateLogsMeaning | src/components/dashboard/export-buttons.tsx:57-61 | the detail list holds as many lines as late logs counted, each a late log of the day |
| ExportButtons.PresentIncludesLate | src/components/dashboard/export-buttons.tsx:48-49 | when late logs have check-in times, the present count includes them |
| ExportButtons.LeaveIncludesUnapproved | src/components/dashboard/export-buttons.tsx:50 | the leave count is at least the dashboard's approved-leave count |
| ExportButtons.OtherDaysIgnored | src/components/dashboard/export-buttons.tsx:43 | a log of another day does not change the message |
| Actions.Records | src/app/actions.ts:20-23 | one record per log, in order, with the log's date and status |
| Actions.RunAnomalyDetection | src/app/actions.ts:10-31 | no employee gives the selection error; fewer than five logs give the not-enough-data verdict |
| Actions.ShortHistoryNotAnalysed | src/app/actions.ts:13-18 | with fewer than five logs the analyser is never consulted |
| Actions.OnlyDatesAndStatusesMatter | src/app/actions.ts:20-25 | histories that agree on dates and statuses get the same result |
| Actions.AnalyserReplyPassedOn | src/app/actions.ts:25-30 | an answer is passed through; a failure becomes an error with the fixed prefix and its message |
| AnomalyDetection.LogsOf | src/components/dashboard/anomaly-detection.tsx:37 | the filter keeps only the employee's logs |
| AnomalyDetection.LogsOfCounts | src/components/dashboard/anomaly-detection.tsx:37 | the filter keeps each of the employee's logs as often as it occurs, and no other |
| AnomalyDetection.EmployeeWorkLogs | src/components/dashboard/anomaly-detection.tsx:34-40 | nothing without a selection, never more than thirty logs |
| AnomalyDetection.EmployeeWorkLogsSize | src/components/dashboard/anomaly-detection.tsx:36-39 | thirty logs, or all of the employee's when fewer, as the prefix of their newest-first order |
| AnomalyDetection.EmployeeWorkLogsNewest | src/components/dashboard/anomaly-detection.tsx:38-39 | newest first, and none of the employee's logs left out is newer than one kept |
| AnomalyDetection.EmployeeWorkLogsFromInput | src/components/dashboard/anomaly-detection.tsx:36-37 | only the employee's logs, each at most as often as in the input |
| AnomalyDetection.ResultTitle | src/components/dashboard/anomaly-detection.tsx:99-103 | "Error" exactly for an error, "Anomaly Detected!" exactly for a positive verdict, "No Anomaly Detected" exactly for a negative one |
| AnomalyDetection.FewLogsNotAnalysed | src/components/dashboard/anomaly-detection.tsx:42-49 | an employee with fewer than five logs gets the not-enough-data verdict |
| DashboardHook.WindowAsWritten | src/hooks/use-dashboard-data.ts:85-86 | the filter as written keeps logs whose parsed date is not before the cutoff instant |
| DashboardHook.ProcessedDataAsWritten | src/hooks/use-dashboard-data.ts:80-89 | with the window as written: nothing exactly while loading or without employees |
| DashboardHook.OldestChartDayDropped | src/hooks/use-dashboard-data.ts:85-86 | when the cutoff instant is after the oldest chart day's parsed midnight, that chart row shows nobody present and everyone absent |
| DashboardHook.RecentWindow | src/hooks/use-dashboard-data.ts:86 | the day-based window keeps only logs dated on or after the cutoff day |
| DashboardHook.WindowKeepsDay | src/hooks/use-dashboard-data.ts:86 | the day-based window keeps every log of any day on or after the cutoff day |
| DashboardHook.ProcessedData | src/hooks/use-dashboard-data.ts:80-89 | nothing exactly while loading or without employees |
| DashboardHook.DashboardDataOf | src/hooks/use-dashboard-data.ts:91-95 | data is absent exactly when the processed data is, and otherwise carries the roster and all logs unfiltered |
| DashboardHook.WeeklyChartSeesAllLogs | src/hooks/use-dashboard-data.ts:85-88 | with the window cut at the oldest chart day, every chart row counts all the logs of its day |
| DashboardHook.SummaryUsesAllOfToday | src/hooks/use-dashboard-data.ts:85-88 | the window does not change today's summary |
| DashboardHook.OlderLogIgnored | src/hooks/use-dashboard-data.ts:86-88 | a log before the cutoff changes nothing that is computed |
| DashboardHook.EmployeesFrom | src/hooks/use-dashboard-data.ts:42 | each employee takes its document's id |
| DashboardHook.LogsFrom | src/hooks/use-dashboard-data.ts:55-62 | each log takes its document's id |
| DashboardHook.SnapshotOfStore | src/hooks/use-dashboard-data.ts:55-62 | reading the store's documents gives back exactly the stored records |
| DashboardHook.DashboardFeed.constructor | src/hooks/use-dashboard-data.ts:26-29 | the hook starts loading, with no data and no error |
| DashboardHook.DashboardFeed.OnEmployees | src/hooks/use-dashboard-data.ts:40-43 | an employees snapshot replaces the roster |
| DashboardHook.DashboardFeed.OnWorkLogs | src/hooks/use-dashboard-data.ts:53-65 | a logs snapshot replaces the logs and ends loading |
| DashboardHook.DashboardFeed.OnError | src/hooks/use-dashboard-data.ts:44-49 | a listener error is recorded and ends loading |
| DashboardHook.NoDataWhileLoading | src/hooks/use-dashboard-data.ts:82 | no data while loading, and none for an empty roster |

## Left out

- Firestore I/O: queries, snapshots, index ordering. The `orderBy` of both live collections is left out; the logs arrive in any order. The unsubscribe and `active` flag are left out too. The store is a map from document id to record.
- The one-record-per-day rule of the store is an invariant of the model's store, not proved code: the store's rules are not part of this model.
- A failed fetch of today's record is left out: the fetch is modelled as always answering.
- The Firestore error message shown by a failed correction is not modelled: the dialog shows its fallback text.
- Authentication, the install prompt, the camera, image compression and `fileToDataUrl` are left out. A photo that cannot be read is `None`.
- The haversine distance is left out: it is floating-point trigonometry, so the distance to the office is a function parameter.
- Floating-point numbers are left out: durations are integer hundredths and `Math.round` is exact integer rounding. `durationHours || 0` is the identity on integers, so NaN and undefined durations are not modelled.
- date-fns formatting and parsing, `toISOString` and time zones are left out. Dates, the seven chart days, the cutoff and the parsing of `HH:mm` and date strings are inputs. An invalid `HH:mm` (NaN) is not modelled.
- Upper-casing covers ASCII letters only; other characters are kept.
- The missing office-settings guard of the location request is left out, because the settings are always present in the model.
- The intermediate `Locating` states of the location request are collapsed into the final result.
- The AI analyser flow and `revalidatePath` are left out: the analyser is a function parameter that answers or fails.
- The spreadsheet file, the WhatsApp URL, `window.open`, toasts, JSX layout, `ClientOnlyTime` hydration and the record-detail dialog are left out.
- Seeding scripts, placeholder data and the deprecated admin module are left out.
- `isTransitioning` is never started by the portal, so the busy flag is `isActionPending` alone.
- Text.HundredthsToString: states only the shape of the rendered number (two decimals after a point), not the value its digits denote.
- RecentAttendance.Initials: its own contract states only the length; the full meaning is in RecentAttendance.InitialsMeaning.

## Findings

| source | as written | input that shows it | evidently intended | confidence | as-written member | corrected member |
|---|---|---|---|---|---|---|
| src/hooks/use-dashboard-data.ts:85-86 | a log is kept when `new Date(log.date)` is not before `subDays(new Date(), 6)`. That compares midnight UTC of the log's day with the current instant less six days. | On 2024-05-08 at 08:00 in UTC+7, the cutoff is 2024-05-02T01:00Z. A log dated 2024-05-02 parses to 2024-05-02T00:00Z, which is earlier, so it is dropped. The chart's first day, 2024-05-02, then shows every employee absent. | keep every log of the seven chart days, cutting at the oldest chart day (src/lib/data.ts:68) | medium; not executed | DashboardHook.OldestChartDayDropped | DashboardHook.WeeklyChartSeesAllLogs |

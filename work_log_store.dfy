/**
 * The `worklogs` collection: documents keyed by id, written by creating a
 * document (`addDoc`) or by overwriting some of its fields (`updateDoc`).
 * The store rule that refuses a second record for the same employee on the
 * same day is part of the store's contract here.
 */
module WorkLogStore {
  import opened Wrappers
  import opened AttendanceTypes

  /**
   * The partial object handed to `updateDoc`: `Some(v)` writes v, `None`
   * leaves the field as stored.  These are every field any transition writes.
   */
  datatype Patch = Patch(
    status: Option<AttendanceStatus>,
    checkOutTime: Option<Option<int>>,
    checkOutPhotoUrl: Option<Option<string>>,
    checkOutLatitude: Option<Option<real>>,
    checkOutLongitude: Option<Option<real>>,
    durationHours: Option<int>,
    leaveApprovalStatus: Option<LeaveApprovalStatus>,
    correctionNote: Option<Option<string>>)

  /** The patch that writes nothing. */
  const NoChange := Patch(None, None, None, None, None, None, None, None)

  /** The stored record after `updateDoc(ref, p)`. */
  function ApplyPatch(log: WorkLog, p: Patch): (r: WorkLog)
    ensures r.id == log.id && r.employeeId == log.employeeId && r.date == log.date
    ensures r.checkInTime == log.checkInTime && r.checkInPhotoUrl == log.checkInPhotoUrl
    ensures r.checkInLatitude == log.checkInLatitude && r.checkInLongitude == log.checkInLongitude
    ensures r.leaveNote == log.leaveNote
  {
    log.(status := p.status.GetOr(log.status),
         checkOutTime := p.checkOutTime.GetOr(log.checkOutTime),
         checkOutPhotoUrl := p.checkOutPhotoUrl.GetOr(log.checkOutPhotoUrl),
         checkOutLatitude := p.checkOutLatitude.GetOr(log.checkOutLatitude),
         checkOutLongitude := p.checkOutLongitude.GetOr(log.checkOutLongitude),
         durationHours := p.durationHours.GetOr(log.durationHours),
         leaveApprovalStatus := p.leaveApprovalStatus.GetOr(log.leaveApprovalStatus),
         correctionNote := p.correctionNote.GetOr(log.correctionNote))
  }

  /** Writing nothing leaves the record as it was. */
  lemma ApplyNoChange(log: WorkLog)
    ensures ApplyPatch(log, NoChange) == log
  {
  }

  /** Every document carries its own key as its id. */
  ghost predicate IdsMatch(m: map<string, WorkLog>) {
    forall k :: k in m ==> m[k].id == k
  }

  /** At most one record per employee and day. */
  ghost predicate OneLogPerDay(m: map<string, WorkLog>) {
    forall k1, k2 :: k1 in m && k2 in m && m[k1].employeeId == m[k2].employeeId && m[k1].date == m[k2].date ==> k1 == k2
  }

  predicate HasDailyLog(m: map<string, WorkLog>, employeeId: string, date: string) {
    exists k :: k in m && m[k].employeeId == employeeId && m[k].date == date
  }

  /** r is what the daily query returns: the stored record for the employee and day, if any. */
  ghost predicate IsDailyLogOf(r: Option<WorkLog>, m: map<string, WorkLog>, employeeId: string, date: string) {
    (r.None? <==> !HasDailyLog(m, employeeId, date)) &&
    (r.Some? ==> r.value.id in m && m[r.value.id] == r.value && r.value.employeeId == employeeId && r.value.date == date)
  }

  class Store {
    var logs: map<string, WorkLog>

    ghost predicate Valid()
      reads this
    {
      IdsMatch(logs) && OneLogPerDay(logs)
    }

    constructor ()
      ensures Valid() && logs == map[]
    {
      logs := map[];
    }

    /**
     * `addDoc` under a fresh document id: refused when the employee already
     * has a record for that day, otherwise the record is stored under docId.
     */
    method Create(docId: string, fields: WorkLog) returns (ok: bool)
      requires Valid()
      requires docId !in logs
      modifies this
      ensures Valid()
      ensures ok <==> !HasDailyLog(old(logs), fields.employeeId, fields.date)
      ensures logs == if ok then old(logs)[docId := fields.(id := docId)] else old(logs)
    {
      ok := !exists k | k in logs :: logs[k].employeeId == fields.employeeId && logs[k].date == fields.date;
      if ok {
        logs := logs[docId := fields.(id := docId)];
      }
    }

    /** `updateDoc`: fails when no document has that id. */
    method Update(docId: string, p: Patch) returns (ok: bool)
      requires Valid()
      modifies this
      ensures Valid()
      ensures ok <==> docId in old(logs)
      ensures logs == if ok then old(logs)[docId := ApplyPatch(old(logs)[docId], p)] else old(logs)
    {
      ok := docId in logs;
      if ok {
        logs := logs[docId := ApplyPatch(logs[docId], p)];
      }
    }

    /** The query on employeeId and date, keeping the first document found. */
    method FindDaily(employeeId: string, date: string) returns (r: Option<WorkLog>)
      requires Valid()
      ensures IsDailyLogOf(r, logs, employeeId, date)
    {
      if exists k | k in logs :: logs[k].employeeId == employeeId && logs[k].date == date {
        var k :| k in logs && logs[k].employeeId == employeeId && logs[k].date == date;
        r := Some(logs[k]);
      } else {
        r := None;
      }
    }
  }

  /** The record a store holds for an employee and day is the only one. */
  lemma DailyLogUnique(m: map<string, WorkLog>, k: string, log: WorkLog)
    requires IdsMatch(m) && OneLogPerDay(m)
    requires k in m && log.id in m && m[log.id] == log
    requires m[k].employeeId == log.employeeId && m[k].date == log.date
    ensures log == m[k]
  {
  }
}

/**
 * Lesson attendance: the `Attendance` document (models/Attendance.ts) and
 * `POST /api/teacher/attendance` (app/api/teacher/attendance/route.ts).
 *
 * The attendance collection is a map from the unique key
 * `(slotId, studentId, date)` to the rest of the entry. Marking a lesson
 * upserts one entry per submitted record, in order, all under the same
 * date: the start of the current day, which the caller supplies.
 */
module Attendance {
  import opened Common
  import opened SlotModel

  datatype AttendanceStatus = PRESENT | ABSENT | LATE | EXCUSED

  /** The unique index `(studentId, slotId, date)`; the date is an opaque day value. */
  datatype AttendanceKey = AttendanceKey(slotId: Id, studentId: Id, date: nat)

  datatype AttendanceEntry = AttendanceEntry(classId: Id, status: AttendanceStatus, remarks: string, locked: bool)

  /** One element of `records` in the request body. */
  datatype Mark = Mark(studentId: Id, status: AttendanceStatus)

  /**
   * One `updateOne` with `upsert: true`: an existing entry gets the new
   * `classId` and `status` and keeps its remarks and lock; a new entry starts
   * with the schema defaults for those.
   */
  function Upsert(entries: map<AttendanceKey, AttendanceEntry>, key: AttendanceKey, classId: Id, status: AttendanceStatus)
    : (r: map<AttendanceKey, AttendanceEntry>)
    ensures r.Keys == entries.Keys + {key}
    ensures r[key].classId == classId && r[key].status == status
    ensures key in entries ==> r[key].remarks == entries[key].remarks && r[key].locked == entries[key].locked
    ensures key !in entries ==> r[key].remarks == "" && !r[key].locked
    ensures forall k :: k in entries && k != key ==> r[k] == entries[k]
  {
    if key in entries then entries[key := entries[key].(classId := classId, status := status)]
    else entries[key := AttendanceEntry(classId, status, "", false)]
  }

  function KeyOf(slotId: Id, date: nat, m: Mark): AttendanceKey
  {
    AttendanceKey(slotId, m.studentId, date)
  }

  /** The whole bulk write: the records upserted one after another. */
  function UpsertAll(entries: map<AttendanceKey, AttendanceEntry>, slotId: Id, classId: Id, date: nat, marks: seq<Mark>)
    : (r: map<AttendanceKey, AttendanceEntry>)
    ensures entries.Keys <= r.Keys
    ensures forall k :: k in entries && (k.slotId != slotId || k.date != date) ==> r[k] == entries[k]
  {
    if marks == [] then entries
    else
      var last := marks[|marks| - 1];
      Upsert(UpsertAll(entries, slotId, classId, date, marks[..|marks| - 1]), KeyOf(slotId, date, last), classId, last.status)
  }

  /** Afterwards there is an entry for every record's key, and no other new key. */
  lemma {:induction false} UpsertAllKeys(entries: map<AttendanceKey, AttendanceEntry>, slotId: Id, classId: Id, date: nat, marks: seq<Mark>)
    ensures UpsertAll(entries, slotId, classId, date, marks).Keys
         == entries.Keys + set i | 0 <= i < |marks| :: KeyOf(slotId, date, marks[i])
  {
    if marks != [] {
      var init := marks[..|marks| - 1];
      UpsertAllKeys(entries, slotId, classId, date, init);
      var s := set i | 0 <= i < |marks| :: KeyOf(slotId, date, marks[i]);
      var t := set i | 0 <= i < |init| :: KeyOf(slotId, date, init[i]);
      assert s == t + {KeyOf(slotId, date, marks[|marks| - 1])} by {
        forall k | k in s ensures k in t + {KeyOf(slotId, date, marks[|marks| - 1])} {
          var i :| 0 <= i < |marks| && k == KeyOf(slotId, date, marks[i]);
          if i < |init| {
            assert init[i] == marks[i];
          }
        }
        forall k | k in t ensures k in s {
          var i :| 0 <= i < |init| && k == KeyOf(slotId, date, init[i]);
          assert marks[i] == init[i];
        }
      }
    }
  }

  /** An entry whose key no record names is left exactly as it was. */
  lemma {:induction false} UpsertAllLeavesOthers(entries: map<AttendanceKey, AttendanceEntry>, slotId: Id, classId: Id, date: nat,
                                                 marks: seq<Mark>, k: AttendanceKey)
    requires forall i :: 0 <= i < |marks| ==> KeyOf(slotId, date, marks[i]) != k
    ensures k in UpsertAll(entries, slotId, classId, date, marks) <==> k in entries
    ensures k in entries ==> UpsertAll(entries, slotId, classId, date, marks)[k] == entries[k]
  {
    if marks != [] {
      var init := marks[..|marks| - 1];
      assert forall i :: 0 <= i < |init| ==> init[i] == marks[i];
      UpsertAllLeavesOthers(entries, slotId, classId, date, init, k);
      assert KeyOf(slotId, date, marks[|marks| - 1]) != k;
    }
  }

  /**
   * The last record for a student decides: its status is the one stored.
   */
  lemma {:induction false} LastMarkWins(entries: map<AttendanceKey, AttendanceEntry>, slotId: Id, classId: Id, date: nat,
                                        marks: seq<Mark>, i: nat)
    requires i < |marks|
    requires forall j :: i < j < |marks| ==> marks[j].studentId != marks[i].studentId
    ensures KeyOf(slotId, date, marks[i]) in UpsertAll(entries, slotId, classId, date, marks)
    ensures UpsertAll(entries, slotId, classId, date, marks)[KeyOf(slotId, date, marks[i])].status == marks[i].status
  {
    var init := marks[..|marks| - 1];
    if i < |marks| - 1 {
      assert init[i] == marks[i];
      LastMarkWins(entries, slotId, classId, date, init, i);
      assert KeyOf(slotId, date, marks[|marks| - 1]) != KeyOf(slotId, date, marks[i]);
    }
  }

  /** Every record's entry exists afterwards and carries the lesson's class. */
  lemma {:induction false} WrittenEntriesCarryClass(entries: map<AttendanceKey, AttendanceEntry>, slotId: Id, classId: Id, date: nat,
                                                    marks: seq<Mark>, i: nat)
    requires i < |marks|
    ensures KeyOf(slotId, date, marks[i]) in UpsertAll(entries, slotId, classId, date, marks)
    ensures UpsertAll(entries, slotId, classId, date, marks)[KeyOf(slotId, date, marks[i])].classId == classId
  {
    if i < |marks| - 1 {
      var init := marks[..|marks| - 1];
      assert init[i] == marks[i];
      WrittenEntriesCarryClass(entries, slotId, classId, date, init, i);
    }
  }

  datatype MarkOutcome =
    | Unauthorized    // 401
    | LessonNotFound  // 404 "Lesson not found"
    | Marked          // 200 { success: true }
  {
    function Status(): int
    {
      match this
      case Unauthorized => 401
      case LessonNotFound => 404
      case Marked => 200
    }
  }

  /** The attendance collection. */
  class AttendanceBook {
    var entries: map<AttendanceKey, AttendanceEntry>

    constructor ()
      ensures entries == map[]
    {
      entries := map[];
    }

    /**
     * POST: a teacher marks the lesson `slotId` for the day `today`. `slots`
     * is the timetable, keyed by `_id`.
     */
    method MarkLesson(caller: Option<Token>, slotId: Id, records: seq<Mark>, slots: map<Id, Slot>, today: nat)
      returns (r: MarkOutcome)
      modifies this
      ensures !HasRole(caller, TEACHER) ==> r == Unauthorized
      ensures HasRole(caller, TEACHER) && slotId !in slots ==> r == LessonNotFound
      ensures HasRole(caller, TEACHER) && slotId in slots ==> r == Marked
      ensures r.Marked? ==> entries == UpsertAll(old(entries), slotId, slots[slotId].classId, today, records)
      ensures !r.Marked? ==> entries == old(entries)
    {
      if !HasRole(caller, TEACHER) {
        return Unauthorized;
      }
      if slotId !in slots {
        return LessonNotFound;
      }
      var classId := slots[slotId].classId;
      for i := 0 to |records|
        invariant entries == UpsertAll(old(entries), slotId, classId, today, records[..i])
      {
        assert records[..i + 1][..i] == records[..i];
        entries := Upsert(entries, KeyOf(slotId, today, records[i]), classId, records[i].status);
      }
      assert records[..|records|] == records;
      r := Marked;
    }
  }
}

/**
 * The timetable slot document (`models/TimeTableSlot.ts`): its enums and
 * defaults, the validation a new document goes through, the three unique
 * indexes, and the conflict relation that `POST /api/timetable` tests
 * before inserting.
 *
 * Times are the strings the store keeps ("08:00") and are compared as
 * strings, as the store does; `Strings.ClockTimeOrder` shows that for
 * zero-padded "HH:MM" strings this is the order of the clock.
 */
module SlotModel {
  import opened Common
  import Strings

  datatype Weekday = MON | TUE | WED | THU | FRI | SAT
  datatype Term = TERM_1 | TERM_2 | TERM_3
  datatype SlotType = CLASS | EXAM

  function DayCode(d: Weekday): string
  {
    match d
    case MON => "MON"
    case TUE => "TUE"
    case WED => "WED"
    case THU => "THU"
    case FRI => "FRI"
    case SAT => "SAT"
  }

  function TermCode(t: Term): string
  {
    match t
    case TERM_1 => "TERM_1"
    case TERM_2 => "TERM_2"
    case TERM_3 => "TERM_3"
  }

  function TypeCode(t: SlotType): string
  {
    match t
    case CLASS => "CLASS"
    case EXAM => "EXAM"
  }

  /** Enum validation of `dayOfWeek`: exactly the six codes are accepted. */
  function ParseDay(code: string): (r: Option<Weekday>)
    ensures r.Some? ==> DayCode(r.value) == code
    ensures forall d :: DayCode(d) == code ==> r == Some(d)
  {
    if code == "MON" then Some(MON)
    else if code == "TUE" then Some(TUE)
    else if code == "WED" then Some(WED)
    else if code == "THU" then Some(THU)
    else if code == "FRI" then Some(FRI)
    else if code == "SAT" then Some(SAT)
    else None
  }

  /** Enum validation of `term`. */
  function ParseTerm(code: string): (r: Option<Term>)
    ensures r.Some? ==> TermCode(r.value) == code
    ensures forall t :: TermCode(t) == code ==> r == Some(t)
  {
    if code == "TERM_1" then Some(TERM_1)
    else if code == "TERM_2" then Some(TERM_2)
    else if code == "TERM_3" then Some(TERM_3)
    else None
  }

  /** Enum validation of `type`, with its default CLASS when the field is absent. */
  function ParseType(field: Option<string>): (r: Option<SlotType>)
    ensures field.None? ==> r == Some(CLASS)
    ensures field.Some? && r.Some? ==> TypeCode(r.value) == field.value
    ensures field.Some? ==> forall t :: TypeCode(t) == field.value ==> r == Some(t)
  {
    match field
    case None => Some(CLASS)
    case Some(code) =>
      if code == "CLASS" then Some(CLASS)
      else if code == "EXAM" then Some(EXAM)
      else None
  }

  /** A stored slot. `roomId` is optional; `locked` is stored but enforced nowhere. */
  datatype Slot = Slot(
    id: Id,
    classId: Id,
    subjectId: Id,
    teacherId: Id,
    roomId: Option<Id>,
    slotType: SlotType,
    dayOfWeek: Weekday,
    startTime: string,
    endTime: string,
    academicYear: string,
    term: Term,
    locked: bool)

  /** The JSON body of `POST /api/timetable`; every field may be missing. */
  datatype SlotRequest = SlotRequest(
    classId: Option<Id>,
    subjectId: Option<Id>,
    teacherId: Option<Id>,
    roomId: Option<Id>,
    dayOfWeek: Option<string>,
    startTime: Option<string>,
    endTime: Option<string>,
    academicYear: Option<string>,
    term: Option<string>,
    slotType: Option<string>)

  predicate HasRequiredFields(req: SlotRequest)
  {
    && Present(req.classId) && Present(req.subjectId) && Present(req.teacherId)
    && Present(req.dayOfWeek) && Present(req.startTime) && Present(req.endTime)
    && Present(req.academicYear) && Present(req.term)
  }

  /**
   * Schema validation of `TimetableSlot.create`: the eight required fields,
   * the three enums, the `type` default CLASS and the `locked` default false.
   * An empty `roomId` cannot be cast to an ObjectId, so the create fails; an
   * absent one leaves the slot without a room. Nothing checks that
   * `startTime` comes before `endTime`.
   */
  function Validate(req: SlotRequest, id: Id): (r: Option<Slot>)
    ensures r.Some? <==>
      && HasRequiredFields(req)
      && ParseDay(req.dayOfWeek.value).Some?
      && ParseTerm(req.term.value).Some?
      && ParseType(req.slotType).Some?
      && req.roomId != Some("")
    ensures r.Some? ==>
      && r.value.id == id
      && Some(r.value.classId) == req.classId
      && Some(r.value.subjectId) == req.subjectId
      && Some(r.value.teacherId) == req.teacherId
      && r.value.roomId == req.roomId
      && Some(DayCode(r.value.dayOfWeek)) == req.dayOfWeek
      && Some(r.value.startTime) == req.startTime
      && Some(r.value.endTime) == req.endTime
      && Some(r.value.academicYear) == req.academicYear
      && Some(TermCode(r.value.term)) == req.term
      && (req.slotType.None? ==> r.value.slotType == CLASS)
      && (req.slotType.Some? ==> Some(TypeCode(r.value.slotType)) == req.slotType)
      && !r.value.locked
  {
    if !HasRequiredFields(req) || req.roomId == Some("") then None
    else
      match (ParseDay(req.dayOfWeek.value), ParseTerm(req.term.value), ParseType(req.slotType))
      case (Some(day), Some(term), Some(kind)) =>
        Some(Slot(id, req.classId.value, req.subjectId.value, req.teacherId.value,
                  req.roomId,
                  kind, day, req.startTime.value, req.endTime.value,
                  req.academicYear.value, term, false))
      case _ => None
  }

  // ---------------------------------------------------------------- conflicts

  /** Same academic year, term and day: the only slots a conflict can involve. */
  predicate SameScope(a: Slot, b: Slot)
  {
    a.academicYear == b.academicYear && a.term == b.term && a.dayOfWeek == b.dayOfWeek
  }

  /** Half-open overlap of `[startTime, endTime)` ranges, as the conflict query writes it. */
  predicate Overlap(existing: Slot, candidate: Slot)
  {
    Strings.Less(existing.startTime, candidate.endTime) && Strings.Less(candidate.startTime, existing.endTime)
  }

  /** Same class or same teacher, or the same room when the candidate names one. */
  predicate SharesResource(existing: Slot, candidate: Slot)
  {
    || existing.classId == candidate.classId
    || existing.teacherId == candidate.teacherId
    || (candidate.roomId.Some? && existing.roomId == candidate.roomId)
  }

  predicate Conflicts(existing: Slot, candidate: Slot)
  {
    SameScope(existing, candidate) && Overlap(existing, candidate) && SharesResource(existing, candidate)
  }

  /** The conflict relation is symmetric: who was stored first does not matter. */
  lemma ConflictsSymmetric(a: Slot, b: Slot)
    ensures Conflicts(a, b) <==> Conflicts(b, a)
  {
  }

  /** Slots that only touch (one ends when the other starts) never overlap. */
  lemma TouchingSlotsDoNotOverlap(a: Slot, b: Slot)
    requires a.endTime == b.startTime
    ensures !Overlap(a, b) && !Overlap(b, a)
  {
    Strings.LessIrreflexive(b.startTime);
  }

  /** For well-formed clock times, overlap is overlap of the minute intervals. */
  lemma OverlapOnTheClock(a: Slot, b: Slot)
    requires Strings.IsClockTime(a.startTime) && Strings.IsClockTime(a.endTime)
    requires Strings.IsClockTime(b.startTime) && Strings.IsClockTime(b.endTime)
    ensures Overlap(a, b) <==>
      Strings.Minutes(a.startTime) < Strings.Minutes(b.endTime) &&
      Strings.Minutes(b.startTime) < Strings.Minutes(a.endTime)
  {
    Strings.ClockTimeOrder(a.startTime, b.endTime);
    Strings.ClockTimeOrder(b.startTime, a.endTime);
  }

  /** Slots in different (year, term, day) scopes never conflict, whatever else they share. */
  lemma OtherScopeNeverConflicts(a: Slot, b: Slot)
    requires a.academicYear != b.academicYear || a.term != b.term || a.dayOfWeek != b.dayOfWeek
    ensures !Conflicts(a, b) && !Conflicts(b, a)
  {
  }

  /** A room-less slot collides only through its class or its teacher, from either side. */
  lemma RoomlessCollidesOnlyOnClassOrTeacher(a: Slot, b: Slot)
    requires a.roomId.None? || b.roomId.None?
    ensures SharesResource(a, b) <==> a.classId == b.classId || a.teacherId == b.teacherId
    ensures SharesResource(b, a) <==> a.classId == b.classId || a.teacherId == b.teacherId
  {
  }

  /** `type`, `subjectId` and `locked` play no part in the decision. */
  lemma ConflictIgnoresTypeSubjectAndLock(a: Slot, b: Slot, kind: SlotType, subject: Id, locked: bool)
    ensures Conflicts(a, b) <==> Conflicts(a, b.(slotType := kind, subjectId := subject, locked := locked))
    ensures Conflicts(a, b) <==> Conflicts(a.(slotType := kind, subjectId := subject, locked := locked), b)
  {
  }

  /** No two distinct positions of the sequence hold conflicting slots. */
  ghost predicate ConflictFree(slots: seq<Slot>)
  {
    forall i, j :: 0 <= i < |slots| && 0 <= j < |slots| && i != j ==> !Conflicts(slots[i], slots[j])
  }

  /** Appending a slot that conflicts with no stored slot keeps the store conflict free. */
  lemma {:induction false} AppendKeepsConflictFree(slots: seq<Slot>, s: Slot)
    requires ConflictFree(slots)
    requires forall i :: 0 <= i < |slots| ==> !Conflicts(slots[i], s)
    ensures ConflictFree(slots + [s])
  {
    var all := slots + [s];
    forall i, j | 0 <= i < |all| && 0 <= j < |all| && i != j
      ensures !Conflicts(all[i], all[j])
    {
      if i == |slots| {
        ConflictsSymmetric(slots[j], s);
      }
    }
  }

  // ---------------------------------------------------------- unique indexes

  predicate SameKeyTail(a: Slot, b: Slot)
  {
    SameScope(a, b) && a.startTime == b.startTime
  }

  /** Index on (classId, academicYear, term, dayOfWeek, startTime). */
  predicate ClassKeyClash(a: Slot, b: Slot)
  {
    a.classId == b.classId && SameKeyTail(a, b)
  }

  /** Index on (teacherId, academicYear, term, dayOfWeek, startTime). */
  predicate TeacherKeyClash(a: Slot, b: Slot)
  {
    a.teacherId == b.teacherId && SameKeyTail(a, b)
  }

  /**
   * The room index as declared: sparse, but compound. A sparse compound
   * index leaves out only documents that lack every indexed field, so a
   * room-less slot is still indexed, under a null room.
   */
  predicate RoomKeyClashAsDeclared(a: Slot, b: Slot)
  {
    a.roomId == b.roomId && SameKeyTail(a, b)
  }

  /**
   * Two room-less slots of different classes and teachers at the same hour
   * do not conflict, yet clash on the declared room index: the second
   * insert fails with a duplicate key.
   */
  lemma RoomlessSlotsClashAsDeclared()
    ensures exists a: Slot, b: Slot ::
      && a.roomId.None? && b.roomId.None?
      && Strings.Less(a.startTime, a.endTime) && Strings.Less(b.startTime, b.endTime)
      && RoomKeyClashAsDeclared(a, b)
      && !Conflicts(a, b) && !Conflicts(b, a)
  {
    var a := Slot("s1", "C1", "S1", "T1", None, CLASS, MON, "08:00", "09:00", "2025", TERM_1, false);
    var b := Slot("s2", "C2", "S2", "T2", None, CLASS, MON, "08:00", "09:00", "2025", TERM_1, false);
    assert Strings.Less("08:00", "09:00") by { assert Strings.Less("8:00", "9:00"); }
    assert !SharesResource(a, b) && !SharesResource(b, a);
    assert RoomKeyClashAsDeclared(a, b);
  }

  /** The room index as its comment intends ("allow null rooms"): room-less slots are exempt. */
  predicate RoomKeyClash(a: Slot, b: Slot)
  {
    a.roomId.Some? && a.roomId == b.roomId && SameKeyTail(a, b)
  }

  /** The intended room index is the declared one with room-less slots left out. */
  lemma RoomKeyClashRefinesDeclared(a: Slot, b: Slot)
    ensures RoomKeyClash(a, b) <==> RoomKeyClashAsDeclared(a, b) && a.roomId.Some?
  {
  }

  predicate KeyClash(a: Slot, b: Slot)
  {
    ClassKeyClash(a, b) || TeacherKeyClash(a, b) || RoomKeyClash(a, b)
  }

  /** What the store itself enforces: distinct `_id`s and no clash on any of the three indexes. */
  ghost predicate IndexesHold(slots: seq<Slot>)
  {
    forall i, j :: 0 <= i < |slots| && 0 <= j < |slots| && i != j ==>
      slots[i].id != slots[j].id && !KeyClash(slots[i], slots[j])
  }

  /** Every pair the indexes reject is a conflict, provided both ranges are non-empty. */
  lemma KeyClashIsConflict(a: Slot, b: Slot)
    requires KeyClash(a, b)
    requires Strings.Less(a.startTime, a.endTime) && Strings.Less(b.startTime, b.endTime)
    ensures Conflicts(a, b) && Conflicts(b, a)
  {
  }

  /** Two well-formed slots of one class: 08:00-09:00 against 08:30-09:30. */
  function OverlapWitness(start: string, end: string): Slot
  {
    Slot("s", "C1", "S1", "T1", None, CLASS, MON, start, end, "2025", TERM_1, false)
  }

  /** The indexes catch equal start times only: overlapping slots with different starts pass them. */
  lemma IndexesMissShiftedOverlap()
    ensures exists a: Slot, b: Slot :: Conflicts(a, b) && !KeyClash(a, b) && !KeyClash(b, a)
  {
    var a := OverlapWitness("08:00", "09:00");
    var b := OverlapWitness("08:30", "09:30");
    assert Strings.Less("08:00", "09:30") by { assert Strings.Less("8:00", "9:30"); }
    assert Strings.Less("08:30", "09:00") by { assert Strings.Less("8:30", "9:00"); }
    assert a.startTime != b.startTime;
    assert Conflicts(a, b);
  }

  /**
   * Because `startTime < endTime` is never checked, a slot with an inverted
   * range can clash on an index without overlapping anything: the conflict
   * query lets it through and the insert fails on the index instead.
   */
  lemma InvertedRangeClashesWithoutConflict()
    ensures exists a: Slot, b: Slot :: KeyClash(a, b) && !Conflicts(a, b) && !Conflicts(b, a)
  {
    var a := OverlapWitness("09:00", "10:00");
    var b := OverlapWitness("09:00", "08:00");
    assert !Strings.Less("09:00", "08:00") by {
      assert !Strings.Less("9:00", "8:00");
    }
    assert !Overlap(a, b);
    assert !Overlap(b, a);
    assert KeyClash(a, b);
  }
}

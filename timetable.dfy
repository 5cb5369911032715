/**
 * `POST /api/timetable` and `GET /api/timetable` (app/api/timetable/route.ts).
 *
 * The store is a sequence of slots. A create first runs the conflict query
 * on the raw request body (before any schema validation), answers 409 when
 * a stored slot matches, and otherwise inserts; a validation failure or a
 * unique-index violation during the insert surfaces as 500.
 */
module Timetable {
  import opened Common
  import opened SlotModel
  import Strings

  /**
   * The `findOne` filter of the conflict check, evaluated against one stored
   * slot. A field missing from the body matches no stored slot (stored slots
   * always carry the fields the filter names).
   */
  predicate QueryMatches(stored: Slot, req: SlotRequest)
    ensures QueryMatches(stored, req) ==>
      && req.academicYear.Some? && req.term.Some? && req.dayOfWeek.Some?
      && req.startTime.Some? && req.endTime.Some?
      && (req.classId.Some? || req.teacherId.Some? || Present(req.roomId))
  {
    && req.academicYear == Some(stored.academicYear)
    && req.term == Some(TermCode(stored.term))
    && req.dayOfWeek == Some(DayCode(stored.dayOfWeek))
    && (|| req.classId == Some(stored.classId)
        || req.teacherId == Some(stored.teacherId)
        || (Present(req.roomId) && req.roomId == stored.roomId))
    && req.endTime.Some? && Strings.Less(stored.startTime, req.endTime.value)
    && req.startTime.Some? && Strings.Less(req.startTime.value, stored.endTime)
  }

  /** On a body that passes validation, the query is exactly the conflict relation. */
  lemma QueryIsConflict(stored: Slot, req: SlotRequest, id: Id)
    requires Validate(req, id).Some?
    ensures QueryMatches(stored, req) <==> Conflicts(stored, Validate(req, id).value)
  {
    var n := Validate(req, id).value;
    assert req.term == Some(TermCode(n.term));
    assert req.dayOfWeek == Some(DayCode(n.dayOfWeek));
    if req.term == Some(TermCode(stored.term)) {
      assert stored.term == n.term by {
        assert ParseTerm(TermCode(stored.term)) == Some(stored.term);
      }
    }
    if req.dayOfWeek == Some(DayCode(stored.dayOfWeek)) {
      assert stored.dayOfWeek == n.dayOfWeek by {
        assert ParseDay(DayCode(stored.dayOfWeek)) == Some(stored.dayOfWeek);
      }
    }
  }

  /** The first stored slot the conflict query matches, if any. */
  function FindConflict(slots: seq<Slot>, req: SlotRequest): (r: Option<nat>)
    ensures r.Some? ==> r.value < |slots| && QueryMatches(slots[r.value], req)
    ensures r.Some? ==> forall i :: 0 <= i < r.value ==> !QueryMatches(slots[i], req)
    ensures r.None? <==> forall i :: 0 <= i < |slots| ==> !QueryMatches(slots[i], req)
  {
    if slots == [] then None
    else if QueryMatches(slots[0], req) then Some(0)
    else
      match FindConflict(slots[1..], req)
      case None => None
      case Some(k) => Some(k + 1)
  }

  /** The insert violates `_id` uniqueness or one of the three unique indexes. */
  predicate ViolatesIndexes(slots: seq<Slot>, s: Slot)
  {
    exists i :: 0 <= i < |slots| && (slots[i].id == s.id || KeyClash(slots[i], s) || KeyClash(s, slots[i]))
  }

  datatype CreateOutcome =
    | Created(slot: Slot)   // 201 with the stored slot
    | Conflict              // 409 "Timetable conflict detected"
    | ServerError           // 500: schema validation error or duplicate key
  {
    function Status(): int
    {
      match this
      case Created(_) => 201
      case Conflict => 409
      case ServerError => 500
    }
  }

  class SlotStore {
    var slots: seq<Slot>

    /** No two stored slots conflict, and the unique indexes hold. */
    ghost predicate Valid()
      reads this
    {
      ConflictFree(slots) && IndexesHold(slots)
    }

    constructor ()
      ensures Valid() && slots == []
    {
      slots := [];
    }

    /**
     * POST: conflict check, then validation and insert. `newId` is the `_id`
     * the driver assigns to the new document.
     */
    method Create(req: SlotRequest, newId: Id) returns (r: CreateOutcome)
      requires Valid()
      modifies this
      ensures Valid()
      ensures FindConflict(old(slots), req).Some? ==> r == Conflict
      ensures FindConflict(old(slots), req).None? && Validate(req, newId).None? ==> r == ServerError
      ensures FindConflict(old(slots), req).None? && Validate(req, newId).Some? ==>
        if ViolatesIndexes(old(slots), Validate(req, newId).value) then r == ServerError
        else r == Created(Validate(req, newId).value)
      ensures r.Created? ==> slots == old(slots) + [r.slot]
      ensures !r.Created? ==> slots == old(slots)
    {
      if FindConflict(slots, req).Some? {
        return Conflict;
      }
      var validated := Validate(req, newId);
      if validated.None? {
        return ServerError;
      }
      var s := validated.value;
      if ViolatesIndexes(slots, s) {
        return ServerError;
      }
      forall i | 0 <= i < |slots|
        ensures !Conflicts(slots[i], s)
      {
        QueryIsConflict(slots[i], req, newId);
      }
      AppendKeepsConflictFree(slots, s);
      slots := slots + [s];
      r := Created(s);
    }

    /** GET: every stored slot (reference population is not modelled). */
    function List(): (all: seq<Slot>)
      reads this
      requires Valid()
      ensures all == slots
      ensures ConflictFree(all) && IndexesHold(all)
    {
      slots
    }
  }

  /**
   * A stored slot that shares the scope and a class or teacher with a
   * well-formed request and overlaps it makes the query match.
   */
  lemma SharedTeacherOverlapIsFound(slots: seq<Slot>, k: nat, req: SlotRequest, id: Id)
    requires k < |slots|
    requires Validate(req, id).Some?
    requires Conflicts(slots[k], Validate(req, id).value)
    ensures FindConflict(slots, req).Some?
  {
    QueryIsConflict(slots[k], req, id);
  }

  /**
   * A teacher cannot be double-booked across classes: with T1 teaching C1 on
   * Monday 08:00-09:00, a request for C2 with T1 at 08:30-09:15 matches the
   * stored slot, though class, subject and times differ.
   */
  lemma TeacherDoubleBookingRefused()
    ensures var first := SlotRequest(Some("C1"), Some("S1"), Some("T1"), None, Some("MON"),
                                     Some("08:00"), Some("09:00"), Some("2025"), Some("TERM_1"), None);
            var second := SlotRequest(Some("C2"), Some("S2"), Some("T1"), None, Some("MON"),
                                      Some("08:30"), Some("09:15"), Some("2025"), Some("TERM_1"), None);
            && Validate(first, "slot-1").Some?
            && FindConflict([], first).None?
            && FindConflict([Validate(first, "slot-1").value], second) == Some(0)
  {
    assert Strings.Less("08:00", "09:15") by { assert Strings.Less("8:00", "9:15"); }
    assert Strings.Less("08:30", "09:00") by { assert Strings.Less("8:30", "9:00"); }
  }
}

/**
 * `GET /api/teacher/timetable` (app/api/teacher/timetable/route.ts): the
 * calling teacher's slots, sorted by the `dayOfWeek` string and then by
 * `startTime`, formatted for display with day names and populated names.
 */
module TeacherTimetable {
  import opened Common
  import opened SlotModel
  import Strings
  import Collections

  /** `DAY_MAP`. */
  function DayName(d: Weekday): string
  {
    match d
    case MON => "Monday"
    case TUE => "Tuesday"
    case WED => "Wednesday"
    case THU => "Thursday"
    case FRI => "Friday"
    case SAT => "Saturday"
  }

  /** Every code has its own name: the map loses no day. */
  lemma DayNamesDistinct(a: Weekday, b: Weekday)
    ensures DayName(a) == DayName(b) <==> a == b
  {
  }

  /** Position of a day when the codes are sorted as strings: FRI, MON, SAT, THU, TUE, WED. */
  function CodeRank(d: Weekday): nat
  {
    match d
    case FRI => 0
    case MON => 1
    case SAT => 2
    case THU => 3
    case TUE => 4
    case WED => 5
  }

  /** Sorting on the code string is alphabetical order of the codes, not the order of the week. */
  lemma DayCodeOrder(a: Weekday, b: Weekday)
    ensures Strings.Less(DayCode(a), DayCode(b)) <==> CodeRank(a) < CodeRank(b)
  {
    var x, y := DayCode(a), DayCode(b);
    if x[0] == y[0] {
      assert Strings.Less(x, y) == Strings.Less(x[1..], y[1..]);
      assert Strings.Less(x[1..], y[1..]) <==> x[1] < y[1] || (x[1] == y[1] && Strings.Less(x[2..], y[2..])) by {
        assert x[1..][1..] == x[2..] && y[1..][1..] == y[2..];
      }
      assert (a == THU && b == TUE) || (a == TUE && b == THU) || a == b;
      if a == b {
        Strings.LessIrreflexive(x);
      }
    }
  }

  lemma DayCodeInjective(a: Weekday, b: Weekday)
    ensures DayCode(a) == DayCode(b) ==> a == b
  {
  }

  /** `sort({ dayOfWeek: 1, startTime: 1 })`, ties allowed. */
  predicate DayThenStart(a: Slot, b: Slot)
  {
    || Strings.Less(DayCode(a.dayOfWeek), DayCode(b.dayOfWeek))
    || (a.dayOfWeek == b.dayOfWeek && Strings.LessOrEqual(a.startTime, b.startTime))
  }

  lemma DayThenStartIsTotalPreorder()
    ensures Collections.IsTotalPreorder(DayThenStart)
  {
    forall a: Slot, b: Slot
      ensures DayThenStart(a, b) || DayThenStart(b, a)
    {
      Strings.LessTotal(DayCode(a.dayOfWeek), DayCode(b.dayOfWeek));
      Strings.LessTotal(a.startTime, b.startTime);
      DayCodeInjective(a.dayOfWeek, b.dayOfWeek);
    }
    forall a: Slot, b: Slot, c: Slot | DayThenStart(a, b) && DayThenStart(b, c)
      ensures DayThenStart(a, c)
    {
      DayCodeOrder(a.dayOfWeek, b.dayOfWeek);
      DayCodeOrder(b.dayOfWeek, c.dayOfWeek);
      DayCodeOrder(a.dayOfWeek, c.dayOfWeek);
      if a.dayOfWeek == b.dayOfWeek == c.dayOfWeek && a.startTime != b.startTime && b.startTime != c.startTime {
        Strings.LessTransitive(a.startTime, b.startTime, c.startTime);
      }
    }
  }

  /** The caller's slots (`find({ teacherId: token.sub })`), in listing order. */
  function TeacherSlots(teacher: Id, slots: seq<Slot>): (r: seq<Slot>)
    ensures forall s :: multiset(r)[s] == if s.teacherId == teacher then multiset(slots)[s] else 0
    ensures forall s :: s in r <==> s in slots && s.teacherId == teacher
    ensures Collections.SortedBy(r, DayThenStart)
    ensures forall i, j :: 0 <= i < j < |r| ==> CodeRank(r[i].dayOfWeek) <= CodeRank(r[j].dayOfWeek)
  {
    DayThenStartIsTotalPreorder();
    var r := Collections.SortBy(Collections.Filter(slots, (s: Slot) => s.teacherId == teacher), DayThenStart);
    forall i, j | 0 <= i < j < |r|
      ensures CodeRank(r[i].dayOfWeek) <= CodeRank(r[j].dayOfWeek)
    {
      assert DayThenStart(r[i], r[j]);
      DayCodeOrder(r[i].dayOfWeek, r[j].dayOfWeek);
    }
    r
  }

  /** Names of the populated references, keyed by id. */
  datatype Names = Names(classes: map<Id, string>, subjects: map<Id, string>, rooms: map<Id, string>)

  /** One row of the response. */
  datatype Entry = Entry(
    id: Id,
    day: string,
    startTime: string,
    endTime: string,
    subject: string,
    className: string,
    room: Option<string>,
    slotType: string)

  /** The `map` step: a missing subject or class name becomes "—", a missing room stays absent. */
  function Format(s: Slot, names: Names): (e: Entry)
    ensures e.id == s.id && e.day == DayName(s.dayOfWeek)
    ensures e.startTime == s.startTime && e.endTime == s.endTime && e.slotType == TypeCode(s.slotType)
    ensures s.subjectId in names.subjects ==> e.subject == names.subjects[s.subjectId]
    ensures s.subjectId !in names.subjects ==> e.subject == "—"
    ensures s.classId in names.classes ==> e.className == names.classes[s.classId]
    ensures s.classId !in names.classes ==> e.className == "—"
    ensures e.room.Some? <==> s.roomId.Some? && s.roomId.value in names.rooms
    ensures e.room.Some? ==> e.room.value == names.rooms[s.roomId.value]
  {
    Entry(
      s.id,
      DayName(s.dayOfWeek),
      s.startTime,
      s.endTime,
      if s.subjectId in names.subjects then names.subjects[s.subjectId] else "—",
      if s.classId in names.classes then names.classes[s.classId] else "—",
      if s.roomId.Some? && s.roomId.value in names.rooms then Some(names.rooms[s.roomId.value]) else None,
      TypeCode(s.slotType))
  }

  datatype Listing = Unauthorized | Listed(entries: seq<Entry>)

  /** The route: 401 without a teacher token, otherwise one formatted entry per slot of the caller. */
  function WeeklyListing(caller: Option<Token>, slots: seq<Slot>, names: Names): (r: Listing)
    ensures r.Unauthorized? <==> !HasRole(caller, TEACHER)
    ensures r.Listed? ==>
      var mine := TeacherSlots(caller.value.sub, slots);
      && |r.entries| == |mine|
      && forall i :: 0 <= i < |mine| ==> r.entries[i] == Format(mine[i], names)
  {
    if !HasRole(caller, TEACHER) then Unauthorized
    else
      var mine := TeacherSlots(caller.value.sub, slots);
      Listed(seq(|mine|, i requires 0 <= i < |mine| => Format(mine[i], names)))
  }
}

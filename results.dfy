/**
 * Exam results: the `Result` document (models/Result.ts) and
 * `GET`/`POST /api/results` (app/api/results/route.ts).
 *
 * Reads are filtered by the caller's role. A create is open to teachers and
 * admins, derives the stored grade from the score with `getGrade`, and is
 * refused with 409 when the unique `(examId, examSubjectId, studentId)`
 * index (or the `_id`) is already taken.
 */
module Results {
  import opened Common
  import opened Grading
  import Collections

  /** A stored result. `createdAt` is the creation timestamp the store assigns. */
  datatype ResultDoc = ResultDoc(
    id: Id,
    examId: Id,
    examSubjectId: Id,
    studentId: Id,
    score: real,
    remarks: Option<string>,
    enteredBy: Id,
    published: bool,
    grade: Option<Letter>,
    gpa: Option<real>,
    createdAt: nat)

  /** The key of the unique index. */
  function ResultKey(d: ResultDoc): (Id, Id, Id)
  {
    (d.examId, d.examSubjectId, d.studentId)
  }

  /** No two stored results share an `_id` or a key. */
  ghost predicate UniqueResults(docs: seq<ResultDoc>)
  {
    forall i, j :: 0 <= i < j < |docs| ==> docs[i].id != docs[j].id && ResultKey(docs[i]) != ResultKey(docs[j])
  }

  /** Some stored result already has the `_id` or the key: the insert fails with code 11000. */
  predicate Taken(docs: seq<ResultDoc>, id: Id, key: (Id, Id, Id))
  {
    exists i :: 0 <= i < |docs| && (docs[i].id == id || ResultKey(docs[i]) == key)
  }

  function CreatedAt(d: ResultDoc): nat
  {
    d.createdAt
  }

  function IsOwnPublished(student: Id): ResultDoc -> bool
  {
    (d: ResultDoc) => d.studentId == student && d.published
  }

  function IsPublished(d: ResultDoc): bool
  {
    d.published
  }

  datatype Visible = Forbidden | Shown(docs: seq<ResultDoc>)

  /**
   * GET: admins and teachers see every result, newest first; a student sees
   * their own published results; a parent sees every published result, of
   * any student; anyone else is refused with 403.
   */
  function VisibleResults(caller: Option<Token>, docs: seq<ResultDoc>): (r: Visible)
    ensures r.Forbidden? <==> caller.None?
    ensures (HasRole(caller, ADMIN) || HasRole(caller, TEACHER)) ==>
      && multiset(r.docs) == multiset(docs)
      && forall i, j :: 0 <= i < j < |r.docs| ==> r.docs[i].createdAt >= r.docs[j].createdAt
    ensures HasRole(caller, STUDENT) ==>
      forall d :: d in r.docs <==> d in docs && d.studentId == caller.value.sub && d.published
    ensures HasRole(caller, STUDENT) ==>
      forall d :: multiset(r.docs)[d] == if d.studentId == caller.value.sub && d.published then multiset(docs)[d] else 0
    ensures HasRole(caller, PARENT) ==>
      forall d :: d in r.docs <==> d in docs && d.published
    ensures HasRole(caller, PARENT) ==>
      forall d :: multiset(r.docs)[d] == if d.published then multiset(docs)[d] else 0
  {
    if caller.None? then Forbidden
    else
      match caller.value.role
      case ADMIN => Shown(Collections.NewestFirst(docs, CreatedAt))
      case TEACHER => Shown(Collections.NewestFirst(docs, CreatedAt))
      case STUDENT => Shown(Collections.Filter(docs, IsOwnPublished(caller.value.sub)))
      case PARENT => Shown(Collections.Filter(docs, IsPublished))
  }

  /** What a student is shown is part of what a parent is shown. */
  lemma StudentViewWithinParentView(student: Id, parent: Id, docs: seq<ResultDoc>)
    ensures forall d :: d in VisibleResults(Some(Token(student, STUDENT)), docs).docs ==>
                        d in VisibleResults(Some(Token(parent, PARENT)), docs).docs
  {
  }

  /** An unpublished result reaches only admins and teachers. */
  lemma UnpublishedOnlyToStaff(caller: Option<Token>, docs: seq<ResultDoc>, d: ResultDoc)
    requires d in docs && !d.published
    requires VisibleResults(caller, docs).Shown?
    ensures d in VisibleResults(caller, docs).docs <==> HasRole(caller, ADMIN) || HasRole(caller, TEACHER)
  {
    var r := VisibleResults(caller, docs);
    if HasRole(caller, ADMIN) || HasRole(caller, TEACHER) {
      assert d in multiset(r.docs);
    }
  }

  /** The JSON body of a POST. */
  datatype ResultBody = ResultBody(
    examId: Option<string>,
    examSubjectId: Option<string>,
    studentId: Option<string>,
    score: Option<real>,
    remarks: Option<string>)

  datatype PostOutcome =
    | Rejected             // 403 from the admin check
    | MissingFields        // 400 "Missing required fields"
    | AlreadyExists        // 409 "Result already exists for this student"
    | Stored(doc: ResultDoc)  // 201
  {
    function Status(): int
    {
      match this
      case Rejected => 403
      case MissingFields => 400
      case AlreadyExists => 409
      case Stored(_) => 201
    }
  }

  /** `user`: the teacher token if the caller is a teacher, otherwise the admin check's outcome. */
  function Author(caller: Option<Token>): (r: Option<Id>)
    ensures r.Some? <==> HasRole(caller, TEACHER) || HasRole(caller, ADMIN)
    ensures r.Some? ==> r.value == caller.value.sub
  {
    if HasRole(caller, TEACHER) || HasRole(caller, ADMIN) then Some(caller.value.sub) else None
  }

  /**
   * The outcome of a POST against the stored results. `newId` and `now`
   * are the `_id` and timestamp the store assigns.
   */
  function Post(caller: Option<Token>, body: ResultBody, docs: seq<ResultDoc>, newId: Id, now: nat)
    : (r: PostOutcome)
    ensures r.Rejected? <==> !(HasRole(caller, TEACHER) || HasRole(caller, ADMIN))
    ensures !r.Rejected? ==>
      (r.MissingFields? <==> !Present(body.examId) || !Present(body.examSubjectId)
                             || !Present(body.studentId) || body.score.None?)
    ensures r.Stored? ==>
      && r.doc.id == newId
      && r.doc.examId == body.examId.value
      && r.doc.examSubjectId == body.examSubjectId.value
      && r.doc.studentId == body.studentId.value
      && r.doc.score == body.score.value
      && r.doc.remarks == body.remarks
      && r.doc.enteredBy == caller.value.sub
      && !r.doc.published
      && r.doc.grade.Some? && InBand(Standard, r.doc.score, r.doc.grade.value)
      && r.doc.gpa == Some(Points(r.doc.grade.value))
      && r.doc.createdAt == now
    ensures !r.Rejected? && !r.MissingFields? ==>
      (r.AlreadyExists? <==> Taken(docs, newId, (body.examId.value, body.examSubjectId.value, body.studentId.value)))
    ensures r.Stored? ==> UniqueResults(docs) ==> UniqueResults(docs + [r.doc])
  {
    match Author(caller)
    case None => Rejected
    case Some(sub) =>
      if !Present(body.examId) || !Present(body.examSubjectId) || !Present(body.studentId) || body.score.None? then
        MissingFields
      else
        var g := GetGrade(body.score.value);
        var doc := ResultDoc(newId, body.examId.value, body.examSubjectId.value, body.studentId.value,
                             body.score.value, body.remarks, sub, false, Some(g.letter), Some(g.gpa), now);
        if Taken(docs, newId, ResultKey(doc)) then
          AlreadyExists
        else
          Stored(doc)
  }

  /** A score of 0 is a score: with the three ids present it is stored, as an F. */
  lemma ZeroScoreIsStored(teacher: Id, examId: Id, examSubjectId: Id, studentId: Id, newId: Id, now: nat)
    requires examId != "" && examSubjectId != "" && studentId != ""
    ensures var r := Post(Some(Token(teacher, TEACHER)),
                          ResultBody(Some(examId), Some(examSubjectId), Some(studentId), Some(0.0), None),
                          [], newId, now);
            r.Stored? && r.doc.grade == Some(F) && r.doc.gpa == Some(0.0)
  {
  }

  /** A second result for the same exam subject and student is refused, whoever enters it. */
  lemma SecondEntryRefused(caller: Option<Token>, body: ResultBody, docs: seq<ResultDoc>, k: nat, newId: Id, now: nat)
    requires k < |docs|
    requires HasRole(caller, TEACHER) || HasRole(caller, ADMIN)
    requires Present(body.examId) && Present(body.examSubjectId) && Present(body.studentId) && body.score.Some?
    requires ResultKey(docs[k]) == (body.examId.value, body.examSubjectId.value, body.studentId.value)
    ensures Post(caller, body, docs, newId, now) == AlreadyExists
  {
  }

  class ResultStore {
    var docs: seq<ResultDoc>

    ghost predicate Valid()
      reads this
    {
      UniqueResults(docs)
    }

    constructor ()
      ensures Valid() && docs == []
    {
      docs := [];
    }

    /** POST: the outcome of `Post`, and the new document appended when it is stored. */
    method Create(caller: Option<Token>, body: ResultBody, newId: Id, now: nat) returns (r: PostOutcome)
      requires Valid()
      modifies this
      ensures Valid()
      ensures r == Post(caller, body, old(docs), newId, now)
      ensures r.Stored? ==> docs == old(docs) + [r.doc]
      ensures !r.Stored? ==> docs == old(docs)
    {
      r := Post(caller, body, docs, newId, now);
      if r.Stored? {
        docs := docs + [r.doc];
      }
    }
  }
}

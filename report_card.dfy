/**
 * `lib/reportCardData.ts`: the report card of one student for one exam.
 * The student, the exam and the student's results for that exam are
 * fetched by the caller; here they are inputs, with the populated subject
 * name already in each result. The report card grades on its own table
 * (80, 70, 60, 50), not on the one `getGrade` uses when results are stored.
 */
module ReportCard {
  import opened Common
  import opened Grading

  /** The table of `scoreToGrade`. */
  const ReportCardScale := Scale(80.0, 70.0, 60.0, 50.0)

  /** `scoreToGrade`: the letter of the band the score falls in, with its points. */
  function ScoreToGrade(score: real): (g: Grade)
    ensures InBand(ReportCardScale, score, g.letter)
    ensures g.gpa == Points(g.letter)
    ensures 0.0 <= g.gpa <= 4.0
  {
    if score >= 80.0 then Grade(A, 4.0)
    else if score >= 70.0 then Grade(B, 3.0)
    else if score >= 60.0 then Grade(C, 2.0)
    else if score >= 50.0 then Grade(D, 1.0)
    else Grade(F, 0.0)
  }

  lemma ScoreToGradeMonotone(x: real, y: real)
    requires x <= y
    ensures ScoreToGrade(x).gpa <= ScoreToGrade(y).gpa
  {
  }

  /**
   * The two tables disagree: the report card never grades a score higher
   * than the stored grade, and a score of 75 is an A when stored but a B on
   * the report card.
   */
  lemma ReportCardNeverAboveStoredGrade(score: real)
    ensures ScoreToGrade(score).gpa <= GetGrade(score).gpa
    ensures GetGrade(75.0).letter == A && ScoreToGrade(75.0).letter == B
  {
  }

  datatype StudentInfo = StudentInfo(id: Id, name: string, className: string, rollNumber: string)
  datatype ExamInfo = ExamInfo(id: Id, name: string, term: string, year: string)

  /** A stored result of the student for the exam, with its subject's name populated. */
  datatype FetchedResult = FetchedResult(subject: string, score: real, remarks: Option<string>)

  /** One subject line of the card. */
  datatype SubjectLine = SubjectLine(subject: string, score: real, grade: Letter, gpa: real, remarks: string)

  /** `gpa` is absent when there are no results: the mean of nothing is NaN. */
  datatype Card = Card(student: StudentInfo, exam: ExamInfo, results: seq<SubjectLine>, gpa: Option<real>)

  datatype BuildOutcome = Built(card: Card) | Thrown(message: string)

  /** The `map` step: one line per result, in order, graded on the report-card table. */
  function MapResults(results: seq<FetchedResult>): (lines: seq<SubjectLine>)
    ensures |lines| == |results|
    ensures forall i :: 0 <= i < |results| ==>
      && lines[i].subject == results[i].subject
      && lines[i].score == results[i].score
      && InBand(ReportCardScale, results[i].score, lines[i].grade)
      && lines[i].gpa == Points(lines[i].grade)
      && lines[i].remarks == (if results[i].remarks.Some? then results[i].remarks.value else "")
  {
    if results == [] then []
    else
      var r := results[0];
      var g := ScoreToGrade(r.score);
      [SubjectLine(r.subject, r.score, g.letter, g.gpa, if r.remarks.Some? then r.remarks.value else "")]
        + MapResults(results[1..])
  }

  /** Sum of the lines' grade points, folded from the left. */
  function LineGpaTotal(lines: seq<SubjectLine>): real
  {
    if lines == [] then 0.0 else LineGpaTotal(lines[..|lines| - 1]) + lines[|lines| - 1].gpa
  }

  lemma {:induction false} LineGpaTotalBounds(lines: seq<SubjectLine>)
    requires forall i :: 0 <= i < |lines| ==> 0.0 <= lines[i].gpa <= 4.0
    ensures 0.0 <= LineGpaTotal(lines) <= 4.0 * |lines| as real
  {
    if lines != [] {
      LineGpaTotalBounds(lines[..|lines| - 1]);
    }
  }

  /** `m` is the mean grade points of a non-empty list of lines, on the 0-4 scale. */
  predicate IsMeanGpa(m: real, lines: seq<SubjectLine>)
  {
    m * |lines| as real == LineGpaTotal(lines) && 0.0 <= m <= 4.0
  }

  /** The mean grade points of the lines; absent (NaN in the source) when there are none. */
  function MeanGpa(lines: seq<SubjectLine>): (m: Option<real>)
    requires forall i :: 0 <= i < |lines| ==> 0.0 <= lines[i].gpa <= 4.0
    ensures lines == [] <==> m.None?
    ensures m.Some? ==> IsMeanGpa(m.value, lines)
  {
    if lines == [] then None
    else
      LineGpaTotalBounds(lines);
      var n := |lines| as real;
      var t := LineGpaTotal(lines);
      assert t / n <= 4.0 by {
        assert t <= 4.0 * n;
      }
      Some(t / n)
  }

  /** `buildReportCardData` before the final rounding of the mean. */
  function BuildReportCardData(student: Option<StudentInfo>, exam: Option<ExamInfo>, results: seq<FetchedResult>)
    : (r: BuildOutcome)
    ensures student.None? ==> r == Thrown("Student not found")
    ensures student.Some? && exam.None? ==> r == Thrown("Exam not found")
    ensures student.Some? && exam.Some? ==>
      && r.Built?
      && r.card.student == student.value
      && r.card.exam == exam.value
      && r.card.results == MapResults(results)
      && (results == [] <==> r.card.gpa.None?)
      && (r.card.gpa.Some? ==> IsMeanGpa(r.card.gpa.value, r.card.results))
  {
    if student.None? then Thrown("Student not found")
    else if exam.None? then Thrown("Exam not found")
    else
      var lines := MapResults(results);
      assert forall i :: 0 <= i < |lines| ==> 0.0 <= lines[i].gpa <= 4.0 by {
        forall i | 0 <= i < |lines| ensures 0.0 <= lines[i].gpa <= 4.0 {
          assert lines[i].gpa == Points(lines[i].grade);
        }
      }
      Built(Card(student.value, exam.value, lines, MeanGpa(lines)))
  }
}

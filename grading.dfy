/**
 * `lib/grading.ts`: the letter/GPA table used when a result is entered,
 * the GPA and average-score folds, and the per-letter distribution.
 *
 * Scores are JavaScript numbers and are modelled as `real`; the
 * `toFixed(2)` rounding of the two averages is left out, so they are exact
 * means here.
 */
module Grading {

  datatype Letter = A | B | C | D | F

  datatype Grade = Grade(letter: Letter, gpa: real)

  /** The grade points that go with each letter. */
  function Points(l: Letter): real
  {
    match l
    case A => 4.0
    case B => 3.0
    case C => 2.0
    case D => 1.0
    case F => 0.0
  }

  /** A grading table: the lowest score that earns A, B, C and D; anything lower is F. */
  datatype Scale = Scale(a: real, b: real, c: real, d: real)

  predicate Descending(scale: Scale)
  {
    scale.a > scale.b > scale.c > scale.d
  }

  /** The band of scores that earns a letter on a table. */
  predicate InBand(scale: Scale, score: real, l: Letter)
  {
    match l
    case A => score >= scale.a
    case B => scale.b <= score < scale.a
    case C => scale.c <= score < scale.b
    case D => scale.d <= score < scale.c
    case F => score < scale.d
  }

  /** On a descending table every score falls in exactly one band. */
  lemma BandUnique(scale: Scale, score: real, l1: Letter, l2: Letter)
    requires Descending(scale)
    requires InBand(scale, score, l1) && InBand(scale, score, l2)
    ensures l1 == l2
  {
  }

  /** The table of `getGrade`: 75, 65, 55, 45. */
  const Standard := Scale(75.0, 65.0, 55.0, 45.0)

  /** `getGrade`: the letter of the band the score falls in, with its points. */
  function GetGrade(score: real): (g: Grade)
    ensures InBand(Standard, score, g.letter)
    ensures g.gpa == Points(g.letter)
    ensures 0.0 <= g.gpa <= 4.0
  {
    if score >= 75.0 then Grade(A, 4.0)
    else if score >= 65.0 then Grade(B, 3.0)
    else if score >= 55.0 then Grade(C, 2.0)
    else if score >= 45.0 then Grade(D, 1.0)
    else Grade(F, 0.0)
  }

  /** A higher score never earns fewer grade points. */
  lemma GetGradeMonotone(x: real, y: real)
    requires x <= y
    ensures GetGrade(x).gpa <= GetGrade(y).gpa
  {
  }

  /** Total grade points of the scores, folded from the left as `reduce` does. */
  function GpaTotal(scores: seq<real>): (t: real)
    ensures 0.0 <= t <= 4.0 * |scores| as real
  {
    if scores == [] then 0.0
    else GpaTotal(scores[..|scores| - 1]) + GetGrade(scores[|scores| - 1]).gpa
  }

  /** `calculateGPA` without its final rounding: 0 for no scores, otherwise the mean grade points. */
  function CalculateGpa(scores: seq<real>): (g: real)
    ensures scores == [] ==> g == 0.0
    ensures scores != [] ==> g * |scores| as real == GpaTotal(scores)
    ensures 0.0 <= g <= 4.0
  {
    if scores == [] then 0.0
    else
      var n := |scores| as real;
      var t := GpaTotal(scores);
      assert t / n <= 4.0 by {
        assert t <= 4.0 * n;
      }
      t / n
  }

  /** Sum of the scores, folded from the left. */
  function ScoreTotal(scores: seq<real>): real
  {
    if scores == [] then 0.0 else ScoreTotal(scores[..|scores| - 1]) + scores[|scores| - 1]
  }

  /** `calculateAverageScore` without its final rounding. */
  function CalculateAverageScore(scores: seq<real>): (avg: real)
    ensures scores == [] ==> avg == 0.0
    ensures scores != [] ==> avg * |scores| as real == ScoreTotal(scores)
  {
    if scores == [] then 0.0 else ScoreTotal(scores) / |scores| as real
  }

  lemma {:induction false} ScoreTotalBounds(scores: seq<real>, lo: real, hi: real)
    requires forall i :: 0 <= i < |scores| ==> lo <= scores[i] <= hi
    ensures lo * |scores| as real <= ScoreTotal(scores) <= hi * |scores| as real
  {
    if scores != [] {
      ScoreTotalBounds(scores[..|scores| - 1], lo, hi);
    }
  }

  /** The average lies between the lowest and the highest score. */
  lemma AverageWithinBounds(scores: seq<real>, lo: real, hi: real)
    requires scores != []
    requires forall i :: 0 <= i < |scores| ==> lo <= scores[i] <= hi
    ensures lo <= CalculateAverageScore(scores) <= hi
  {
    ScoreTotalBounds(scores, lo, hi);
    var n := |scores| as real;
    var avg := CalculateAverageScore(scores);
    assert avg * n == ScoreTotal(scores);
  }

  /** How many of the scores earn letter `l`. */
  function CountLetter(scores: seq<real>, l: Letter): nat
  {
    if scores == [] then 0
    else CountLetter(scores[..|scores| - 1], l) + (if GetGrade(scores[|scores| - 1]).letter == l then 1 else 0)
  }

  /** The object `getGradeDistribution` returns: one counter per letter, A to F. */
  datatype Distribution = Distribution(a: nat, b: nat, c: nat, d: nat, f: nat)
  {
    function Count(l: Letter): nat
    {
      match l
      case A => a
      case B => b
      case C => c
      case D => d
      case F => f
    }

    function Total(): nat
    {
      a + b + c + d + f
    }

    function Increment(l: Letter): (r: Distribution)
      ensures r.Count(l) == Count(l) + 1
      ensures forall other :: other != l ==> r.Count(other) == Count(other)
    {
      match l
      case A => this.(a := a + 1)
      case B => this.(b := b + 1)
      case C => this.(c := c + 1)
      case D => this.(d := d + 1)
      case F => this.(f := f + 1)
    }
  }

  /** Every score is counted under exactly one letter. */
  lemma {:induction false} CountsSumToLength(scores: seq<real>)
    ensures CountLetter(scores, A) + CountLetter(scores, B) + CountLetter(scores, C)
          + CountLetter(scores, D) + CountLetter(scores, F) == |scores|
  {
    if scores != [] {
      CountsSumToLength(scores[..|scores| - 1]);
    }
  }

  /** The grade-point total is the points-weighted sum of the per-letter counts. */
  lemma {:induction false} GpaTotalFromCounts(scores: seq<real>)
    ensures GpaTotal(scores) == 4.0 * CountLetter(scores, A) as real + 3.0 * CountLetter(scores, B) as real
                              + 2.0 * CountLetter(scores, C) as real + CountLetter(scores, D) as real
  {
    if scores != [] {
      GpaTotalFromCounts(scores[..|scores| - 1]);
    }
  }

  /** `getGradeDistribution`: counters start at 0 and each score bumps its letter's counter. */
  method GradeDistribution(scores: seq<real>) returns (dist: Distribution)
    ensures forall l :: dist.Count(l) == CountLetter(scores, l)
    ensures dist.Total() == |scores|
  {
    dist := Distribution(0, 0, 0, 0, 0);
    for i := 0 to |scores|
      invariant forall l :: dist.Count(l) == CountLetter(scores[..i], l)
    {
      assert scores[..i + 1][..i] == scores[..i];
      dist := dist.Increment(GetGrade(scores[i]).letter);
    }
    assert scores[..|scores|] == scores;
    CountsSumToLength(scores);
  }
}

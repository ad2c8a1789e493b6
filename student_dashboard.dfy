/**
 * The student's dashboard: the summary card's completion percentage and the
 * colour given to a score.
 *
 * Scores and the completion ratio are JavaScript numbers; here they are
 * exact reals, and `Math.round` is rounding half up.
 */
module StudentDashboard {
  import opened Common

  /** The summary the dashboard service returns. */
  datatype Summary = Summary(totalExams: int, completedExams: int, averageScore: real, totalSubjects: int)

  /** `Math.round`: the nearest integer, halves rounded up. */
  function Round(x: real): (r: int)
    ensures r as real - 1.0 / 2.0 <= x < r as real + 1.0 / 2.0
  {
    (x + 1.0 / 2.0).Floor
  }

  /** `getCompletionPercentage`: 0 without a summary or without exams; otherwise the completed share in percent, rounded. */
  function CompletionPercentage(summary: Option<Summary>): (p: int)
    ensures summary.None? ==> p == 0
    ensures summary.Some? && summary.value.totalExams == 0 ==> p == 0
    ensures summary.Some? && summary.value.totalExams != 0 ==>
      var exact := summary.value.completedExams as real / summary.value.totalExams as real * 100.0;
      p as real - 1.0 / 2.0 <= exact < p as real + 1.0 / 2.0
  {
    match summary
    case None => 0
    case Some(s) =>
      if s.totalExams == 0 then 0
      else Round(s.completedExams as real / s.totalExams as real * 100.0)
  }

  /** With no more completed exams than exams, the percentage lies in 0..100, and is 100 exactly when all are completed. */
  lemma CompletionPercentageBounds(s: Summary)
    requires 0 < s.totalExams && 0 <= s.completedExams <= s.totalExams
    ensures 0 <= CompletionPercentage(Some(s)) <= 100
    ensures s.completedExams == s.totalExams ==> CompletionPercentage(Some(s)) == 100
    ensures s.completedExams == 0 ==> CompletionPercentage(Some(s)) == 0
  {
    var ratio := s.completedExams as real / s.totalExams as real;
    assert 0.0 <= ratio <= 1.0 by {
      assert s.completedExams as real <= s.totalExams as real;
    }
    var p := CompletionPercentage(Some(s));
    assert p as real - 1.0 / 2.0 <= ratio * 100.0 < p as real + 1.0 / 2.0;
    if s.completedExams == s.totalExams {
      assert ratio == 1.0;
    }
  }

  /** The score colours, highest band first. */
  function ScoreColor(score: real): (color: string)
    ensures color == "success" <==> score >= 90.0
    ensures color == "info" <==> 80.0 <= score < 90.0
    ensures color == "warning" <==> 70.0 <= score < 80.0
    ensures color == "danger" <==> score < 70.0
  {
    if score >= 90.0 then "success"
    else if score >= 80.0 then "info"
    else if score >= 70.0 then "warning"
    else "danger"
  }

  /** The colours from worst to best. */
  function ColorRank(color: string): int {
    if color == "success" then 3 else if color == "info" then 2 else if color == "warning" then 1 else 0
  }

  /** A higher score never gets a worse colour. */
  lemma ScoreColorMonotone(a: real, b: real)
    requires a <= b
    ensures ColorRank(ScoreColor(a)) <= ColorRank(ScoreColor(b))
  {
  }

  /** The page: the summary is replaced when the service answers and kept when it fails. */
  class DashboardPage {
    var summary: Option<Summary>

    constructor()
      ensures summary.None?
    {
      summary := None;
    }

    method OnSummaryLoaded(answer: Option<Summary>)
      modifies this
      ensures answer.Some? ==> summary == answer
      ensures answer.None? ==> summary == old(summary)
    {
      if answer.Some? {
        summary := answer;
      }
    }

    function Percentage(): (p: int)
      reads this
      ensures summary.None? ==> p == 0
      ensures summary.Some? && summary.value.totalExams == 0 ==> p == 0
    {
      CompletionPercentage(summary)
    }
  }
}

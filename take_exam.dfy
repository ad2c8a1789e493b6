/**
 * The student's take-exam screen: choosing a subject requests an exam, the
 * exam's questions start with no option selected, and a countdown of the
 * remaining seconds runs once per second and is shown as `mm:ss`.
 *
 * The HTTP request is an output of `OnSubjectSelect` and its answer an input
 * of `OnExamResponse`; the one-second interval is the caller calling `Tick`.
 */
module TakeExam {
  import opened Common
  import opened SubjectService

  datatype ExamOption = ExamOption(id: int, text: string)

  /** A question of a requested exam; `selectedOption` is the student's pick, if any. */
  datatype ExamQuestion = ExamQuestion(questionId: int, text: string, options: seq<ExamOption>, selectedOption: Option<int>)

  /** The exam the backend hands out; `remainingTime` (seconds) and `questions` may be missing from the payload. */
  datatype RequestedExam = RequestedExam(
    id: int,
    subjectName: string,
    remainingTime: Option<int>,
    duration: int,
    questions: Option<seq<ExamQuestion>>)

  /** The answer to the exam request: an HTTP error, or a response whose `data` may be null. */
  datatype ExamResponse = ExamFetchFailed | ExamReceived(data: Option<RequestedExam>)

  const FetchExamError: string := "Failed to fetch exam."

  // ----- Countdown -----

  /** One run of the interval callback on the remaining seconds. */
  function TickValue(t: int): (r: int)
    ensures t > 0 ==> r == t - 1
    ensures t <= 0 ==> r == t
  {
    if t > 0 then t - 1 else t
  }

  /** The remaining seconds after `n` runs of the callback. */
  function TimerAfter(t: int, n: nat): (r: int)
    ensures t >= 0 ==> 0 <= r <= t
  {
    if n == 0 then t else TimerAfter(TickValue(t), n - 1)
  }

  /** From a non-negative start the countdown is `max(t - n, 0)`: it never goes below zero. */
  lemma {:induction false} TimerAfterIsClampedDifference(t: int, n: nat)
    requires t >= 0
    ensures TimerAfter(t, n) == if t - n > 0 then t - n else 0
    ensures TimerAfter(t, n) >= 0
  {
    if n > 0 {
      TimerAfterIsClampedDifference(TickValue(t), n - 1);
    }
  }

  /** A negative remaining time (as the backend may send it) is never changed by the countdown. */
  lemma {:induction false} NegativeTimerStays(t: int, n: nat)
    requires t < 0
    ensures TimerAfter(t, n) == t
  {
    if n > 0 {
      NegativeTimerStays(TickValue(t), n - 1);
    }
  }

  // ----- mm:ss -----

  /** JavaScript's `%`: `a - b * trunc(a / b)`, so the remainder takes the sign of the dividend. */
  function JsRem(a: int, b: int): (r: int)
    requires b > 0
    ensures a >= 0 ==> r == a % b
    ensures a < 0 ==> -b < r <= 0
    ensures a < 0 ==> r == a + b * ((-a) / b)
  {
    if a >= 0 then a % b else -((-a) % b)
  }

  /** The `formattedTimer` getter: floored minutes and the JavaScript remainder, each padded to two characters. */
  function FormattedTimer(timer: int): string {
    PadStart2(IntToString(timer / 60)) + ":" + PadStart2(IntToString(JsRem(timer, 60)))
  }

  /**
   * For a non-negative timer the display reads back as the timer: the part
   * before the last `:` is the minutes, the two digits after it the seconds
   * (below 60), and `60 * minutes + seconds == timer`.
   */
  lemma FormattedTimerReadsBack(timer: int)
    requires timer >= 0
    ensures var r := FormattedTimer(timer);
      |r| >= 5 && r[|r| - 3] == ':' && AllDigits(r[..|r| - 3]) && AllDigits(r[|r| - 2..]) &&
      ParseDecimal(r[|r| - 2..]) < 60 &&
      60 * ParseDecimal(r[..|r| - 3]) + ParseDecimal(r[|r| - 2..]) == timer
  {
    var mm := PadStart2(Decimal(timer / 60));
    var ss := PadStart2(Decimal(timer % 60));
    PadStart2Decimal(timer / 60);
    PadStart2Decimal(timer % 60);
    assert |Decimal(timer % 60)| <= 2 by {
      if timer % 60 >= 10 {
        assert Decimal(timer % 60) == Decimal(timer % 60 / 10) + [DigitChar(timer % 60 % 10)];
      }
    }
    var r := mm + ":" + ss;
    assert FormattedTimer(timer) == r;
    assert r[..|r| - 3] == mm;
    assert r[|r| - 2..] == ss;
  }

  /** Under 100 minutes the display is exactly five characters, `mm:ss`. */
  lemma FormattedTimerWidth(timer: int)
    requires 0 <= timer < 6000
    ensures |FormattedTimer(timer)| == 5
  {
    FormattedTimerReadsBack(timer);
    var m := timer / 60;
    if m >= 10 {
      assert Decimal(m) == Decimal(m / 10) + [DigitChar(m % 10)];
    }
  }

  /** A negative timer shows JavaScript's mixed signs: five seconds overdue is `-1:-5`. */
  lemma OverdueTimerExample()
    ensures FormattedTimer(-5) == "-1:-5"
  {
    assert -5 / 60 == -1;
    assert JsRem(-5, 60) == -5;
    assert DigitChar(1) == '1' && DigitChar(5) == '5';
    var mm := IntToString(-1);
    var ss := IntToString(-5);
    assert mm == "-" + Decimal(1) == ['-', '1'];
    assert ss == "-" + Decimal(5) == ['-', '5'];
    assert PadStart2(mm) == mm && PadStart2(ss) == ss;
    assert FormattedTimer(-5) == mm + ":" + ss;
  }

  // ----- The component -----

  /** `forEach(q => q.selectedOption = null)`: every question loses its selection and keeps everything else. */
  method ClearSelections(questions: seq<ExamQuestion>) returns (r: seq<ExamQuestion>)
    ensures |r| == |questions|
    ensures forall i :: 0 <= i < |r| ==> r[i] == questions[i].(selectedOption := None)
  {
    r := questions;
    var i := 0;
    while i < |r|
      invariant 0 <= i <= |r| == |questions|
      invariant forall k :: 0 <= k < i ==> r[k] == questions[k].(selectedOption := None)
      invariant forall k :: i <= k < |r| ==> r[k] == questions[k]
    {
      r := r[i := r[i].(selectedOption := None)];
      i := i + 1;
    }
  }

  class TakeExamPage {
    var selectedSubject: Option<Subject>
    var loading: bool
    var exam: Option<RequestedExam>
    var error: Option<string>
    /** Seconds remaining. */
    var timer: int
    /** Whether the one-second interval is installed. */
    var timerRunning: bool

    constructor()
      ensures selectedSubject.None? && !loading && exam.None? && error.None?
      ensures timer == 0 && !timerRunning
    {
      selectedSubject := None;
      loading := false;
      exam := None;
      error := None;
      timer := 0;
      timerRunning := false;
    }

    /**
     * `onSubjectSelect`: the exam and the error are always cleared; an exam
     * is requested (the returned subject id) only for a present subject with
     * a non-zero id, and only then does loading start.
     */
    method OnSubjectSelect(subject: Option<Subject>) returns (request: Option<int>)
      modifies this
      ensures selectedSubject == subject && exam.None? && error.None?
      ensures request.Some? <==> subject.Some? && subject.value.id != 0
      ensures request.Some? ==> request.value == subject.value.id && loading
      ensures request.None? ==> loading == old(loading)
      ensures timer == old(timer) && timerRunning == old(timerRunning)
    {
      selectedSubject := subject;
      exam := None;
      error := None;
      request := None;
      if subject.Some? && subject.value.id != 0 {
        loading := true;
        request := Some(subject.value.id);
      }
    }

    /**
     * The answer to `fetchExam`: on success the exam is shown with no option
     * selected, the countdown starts from `remainingTime` (0 when missing or
     * when there is no exam) and loading ends; on error the fixed message is
     * shown and loading ends.
     */
    method OnExamResponse(response: ExamResponse)
      modifies this
      ensures !loading && selectedSubject == old(selectedSubject)
      ensures response.ExamFetchFailed? ==>
        error == Some(FetchExamError) && exam == old(exam) && timer == old(timer) && timerRunning == old(timerRunning)
      ensures response.ExamReceived? ==> error == old(error) && timerRunning
      ensures response.ExamReceived? && response.data.None? ==> exam.None? && timer == 0
      ensures response.ExamReceived? && response.data.Some? ==>
        var sent := response.data.value;
        exam.Some? && exam.value == sent.(questions := exam.value.questions) &&
        timer == sent.remainingTime.GetOr(0) &&
        (sent.questions.None? ==> exam.value.questions.None?) &&
        (sent.questions.Some? ==>
          (exam.value.questions.Some? &&
           |exam.value.questions.value| == |sent.questions.value| &&
           forall i :: 0 <= i < |sent.questions.value| ==>
             exam.value.questions.value[i] == sent.questions.value[i].(selectedOption := None)))
    {
      match response
      case ExamFetchFailed =>
        error := Some(FetchExamError);
        loading := false;
      case ExamReceived(data) =>
        exam := data;
        if data.Some? && data.value.questions.Some? {
          var cleared := ClearSelections(data.value.questions.value);
          exam := Some(data.value.(questions := Some(cleared)));
        }
        timer := if data.Some? then data.value.remainingTime.GetOr(0) else 0;
        timerRunning := true;
        loading := false;
    }

    /** One run of the interval callback: count down while positive, otherwise clear the interval. */
    method Tick()
      modifies this
      ensures timer == TickValue(old(timer)) && timer == TimerAfter(old(timer), 1)
      ensures old(timer) > 0 ==> timerRunning == old(timerRunning)
      ensures old(timer) <= 0 ==> !timerRunning
      ensures old(timer) >= 0 ==> timer >= 0
      ensures selectedSubject == old(selectedSubject) && loading == old(loading)
      ensures exam == old(exam) && error == old(error)
    {
      if timer > 0 {
        timer := timer - 1;
      } else {
        timerRunning := false;
      }
    }
  }
}

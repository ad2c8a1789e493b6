/**
 * The admin's create-question screen: a form with the subject, the question
 * text, four option texts, the letter of the correct option and the
 * difficulty.  Submitting a valid form sends one request whose four options
 * are marked correct exactly where the chosen letter says.
 */
module CreateQuestion {
  import opened Common

  /** The form's controls; `form.reset()` sets every one of them to `null`. */
  datatype QuestionForm = QuestionForm(
    subject: Option<int>,
    question: Option<string>,
    optionA: Option<string>,
    optionB: Option<string>,
    optionC: Option<string>,
    optionD: Option<string>,
    correctAnswer: Option<string>,
    difficulty: Option<string>)

  datatype QuestionOption = QuestionOption(text: string, isCorrect: bool)

  datatype CreateQuestionRequest = CreateQuestionRequest(subjectId: int, text: string, difficulty: string, options: seq<QuestionOption>)

  /** The `errors` member of an error response: a message or a list of messages. */
  datatype Errors = ErrorsText(text: string) | ErrorsList(items: seq<string>)

  /** How the create call ended: the success message, or the error body's `errors`, if any. */
  datatype CreateResult = Created(message: string) | CreateFailed(errors: Option<Errors>)

  const CreateFailedMessage: string := "Failed to create question."

  /** The option letters, in the order the options are built. */
  const Letters: seq<string> := ["A", "B", "C", "D"]

  /** The form after `form.reset()`: every control null. */
  const EmptyForm: QuestionForm := QuestionForm(None, None, None, None, None, None, None, None)

  /** `Validators.required` on a text control: present and non-empty. */
  predicate RequiredText(v: Option<string>) {
    Truthy(v)
  }

  predicate FormValid(form: QuestionForm) {
    form.subject.Some? && RequiredText(form.question) &&
    RequiredText(form.optionA) && RequiredText(form.optionB) && RequiredText(form.optionC) && RequiredText(form.optionD) &&
    RequiredText(form.correctAnswer) && RequiredText(form.difficulty)
  }

  /** JavaScript truthiness of the `errors` member: any list counts, a message only when non-empty. */
  predicate ErrorsTruthy(e: Option<Errors>) {
    e.Some? && (e.value.ErrorsList? || e.value.text != "")
  }

  /** The option texts in A, B, C, D order. */
  function OptionTexts(form: QuestionForm): seq<string>
    requires FormValid(form)
  {
    [form.optionA.value, form.optionB.value, form.optionC.value, form.optionD.value]
  }

  /**
   * The four options: in letter order, with the form's texts, and option
   * `X` correct exactly when the chosen answer is `X`.
   */
  function BuildOptions(form: QuestionForm): (options: seq<QuestionOption>)
    requires FormValid(form)
    ensures |options| == |Letters| == 4
    ensures forall i :: 0 <= i < 4 ==> options[i].text == OptionTexts(form)[i]
    ensures forall i :: 0 <= i < 4 ==> (options[i].isCorrect <==> form.correctAnswer.value == Letters[i])
  {
    var answer := form.correctAnswer.value;
    [QuestionOption(form.optionA.value, answer == "A"),
     QuestionOption(form.optionB.value, answer == "B"),
     QuestionOption(form.optionC.value, answer == "C"),
     QuestionOption(form.optionD.value, answer == "D")]
  }

  /** The indexes of the correct options. */
  function CorrectIndexes(options: seq<QuestionOption>): set<int> {
    set i | 0 <= i < |options| && options[i].isCorrect
  }

  /** A letter among A..D marks exactly one option correct, the one of that letter; any other answer marks none. */
  lemma ExactlyOneCorrect(form: QuestionForm)
    requires FormValid(form)
    ensures form.correctAnswer.value in Letters ==>
      exists k :: 0 <= k < 4 && Letters[k] == form.correctAnswer.value && CorrectIndexes(BuildOptions(form)) == {k}
    ensures form.correctAnswer.value !in Letters ==> CorrectIndexes(BuildOptions(form)) == {}
  {
    var options := BuildOptions(form);
    var answer := form.correctAnswer.value;
    assert forall i, j :: 0 <= i < 4 && 0 <= j < 4 && Letters[i] == Letters[j] ==> i == j;
    if answer in Letters {
      var k :| 0 <= k < 4 && Letters[k] == answer;
      assert CorrectIndexes(options) == {k} by {
        forall i | i in CorrectIndexes(options) ensures i == k {
        }
        assert k in CorrectIndexes(options);
      }
    } else {
      assert forall i :: 0 <= i < 4 ==> !options[i].isCorrect;
    }
  }

  /** The request `onSubmit` sends: subject, question text and difficulty from the form, and the built options. */
  function BuildRequest(form: QuestionForm): (request: CreateQuestionRequest)
    requires FormValid(form)
    ensures Some(request.subjectId) == form.subject && Some(request.text) == form.question
    ensures Some(request.difficulty) == form.difficulty
    ensures request.options == BuildOptions(form)
  {
    CreateQuestionRequest(form.subject.value, form.question.value, form.difficulty.value, BuildOptions(form))
  }

  class QuestionPage {
    var form: QuestionForm
    var successMessage: Option<string>
    var errorMessage: Option<Errors>
    var isLoading: bool

    constructor()
      ensures form == QuestionForm(None, Some(""), Some(""), Some(""), Some(""), Some(""), None, None)
      ensures successMessage.None? && errorMessage.None? && !isLoading
    {
      form := QuestionForm(None, Some(""), Some(""), Some(""), Some(""), Some(""), None, None);
      successMessage := None;
      errorMessage := None;
      isLoading := false;
    }

    /** `onSubmit`: an invalid form sends nothing and changes nothing; a valid one clears both messages and sends the request. */
    method OnSubmit() returns (request: Option<CreateQuestionRequest>)
      modifies this
      ensures form == old(form)
      ensures !FormValid(form) ==>
        request.None? && successMessage == old(successMessage) && errorMessage == old(errorMessage) && isLoading == old(isLoading)
      ensures FormValid(form) ==>
        request == Some(BuildRequest(form)) && successMessage.None? && errorMessage.None? && isLoading
    {
      request := None;
      if FormValid(form) {
        isLoading := true;
        successMessage := None;
        errorMessage := None;
        request := Some(BuildRequest(form));
      }
    }

    /**
     * The answer to the create call: success shows the message and resets
     * the form; failure shows the returned errors when truthy and the fixed
     * message otherwise.  Loading ends either way.
     */
    method OnCreateResult(result: CreateResult)
      modifies this
      ensures !isLoading
      ensures result.Created? ==> successMessage == Some(result.message) && form == EmptyForm && errorMessage == old(errorMessage)
      ensures result.CreateFailed? ==> successMessage == old(successMessage) && form == old(form)
      ensures result.CreateFailed? && ErrorsTruthy(result.errors) ==> errorMessage == result.errors
      ensures result.CreateFailed? && !ErrorsTruthy(result.errors) ==> errorMessage == Some(ErrorsText(CreateFailedMessage))
    {
      match result
      case Created(message) =>
        isLoading := false;
        successMessage := Some(message);
        form := EmptyForm;
      case CreateFailed(errors) =>
        isLoading := false;
        errorMessage := if ErrorsTruthy(errors) then errors else Some(ErrorsText(CreateFailedMessage));
    }
  }

  /** After a successful create the reset form cannot be submitted again as it is. */
  method SubmitAfterCreateSendsNothing(page: QuestionPage, message: string) returns (request: Option<CreateQuestionRequest>)
    modifies page
    ensures request.None? && page.successMessage == Some(message) && !page.isLoading
  {
    page.OnCreateResult(Created(message));
    request := page.OnSubmit();
  }
}

/**
 * The admin's exam-configuration screen: pick a subject, load its
 * configuration into a four-field form, and save it back.  A save is accepted
 * only for a selected subject, a valid form and question counts that add up
 * to exactly ten; it then updates the existing configuration or creates one.
 *
 * The configuration fetch and the save are HTTP calls: `OnSubjectSelect` and
 * `SaveConfig` return the request, `OnConfigLoaded` and `OnSaveResult` take
 * the answer.
 */
module ExamConfigurations {
  import opened Common
  import opened SubjectService

  /** An exam must be made of exactly this many questions. */
  const QuestionsPerExam: int := 10

  /** The form's four number inputs; a cleared input holds `null`. */
  datatype ConfigForm = ConfigForm(numEasy: Option<int>, numMedium: Option<int>, numHard: Option<int>, duration: Option<int>)

  /** A PrimeNG toast message. */
  datatype Toast = Toast(severity: string, summary: string, detail: string)

  /** What a save sends to the backend. */
  datatype SaveCall = NoCall | UpdateConfig(subjectId: int, config: ExamConfig) | CreateConfig(subjectId: int, config: ExamConfig)

  /** How the configuration fetch ended. */
  datatype ConfigFetch = ConfigFetchFailed | ConfigReceived(config: ExamConfig)

  const TotalToast: Toast := Toast("error", "Validation Error", "The total number of questions must be exactly 10.")
  const SavedToast: Toast := Toast("success", "Success", "Exam configuration saved successfully!")

  /** `form.reset({numEasy: 0, numMedium: 0, numHard: 0, duration: 0})`. */
  const ZeroForm: ConfigForm := ConfigForm(Some(0), Some(0), Some(0), Some(0))

  /** `Validators.required` and `Validators.min(0)` on one input. */
  predicate FieldValid(v: Option<int>) {
    v.Some? && v.value >= 0
  }

  predicate FormValid(form: ConfigForm) {
    FieldValid(form.numEasy) && FieldValid(form.numMedium) && FieldValid(form.numHard) && FieldValid(form.duration)
  }

  /** `form.value` of a valid form. */
  function FormValue(form: ConfigForm): (c: ExamConfig)
    requires FormValid(form)
    ensures c.numEasy >= 0 && c.numMedium >= 0 && c.numHard >= 0 && c.duration >= 0
    ensures Some(c.numEasy) == form.numEasy && Some(c.numMedium) == form.numMedium
    ensures Some(c.numHard) == form.numHard && Some(c.duration) == form.duration
  {
    ExamConfig(form.numEasy.value, form.numMedium.value, form.numHard.value, form.duration.value)
  }

  /** The form a fetched configuration is patched into. */
  function FormOf(config: ExamConfig): (form: ConfigForm)
    ensures config.numEasy >= 0 && config.numMedium >= 0 && config.numHard >= 0 && config.duration >= 0 <==> FormValid(form)
    ensures FormValid(form) ==> FormValue(form) == config
  {
    ConfigForm(Some(config.numEasy), Some(config.numMedium), Some(config.numHard), Some(config.duration))
  }

  function QuestionTotal(c: ExamConfig): int {
    c.numEasy + c.numMedium + c.numHard
  }

  /**
   * The request `saveConfig` makes.  A call is made exactly when a subject
   * is selected, the form is valid and the counts add up to ten; the call
   * is an update exactly when the configuration already exists, and it
   * carries the subject's id and the form's values.
   */
  function SaveDecision(selected: Option<Subject>, form: ConfigForm, configExists: bool): (call: SaveCall)
    ensures call != NoCall <==> selected.Some? && FormValid(form) && QuestionTotal(FormValue(form)) == QuestionsPerExam
    ensures call.UpdateConfig? <==> call != NoCall && configExists
    ensures call.CreateConfig? <==> call != NoCall && !configExists
    ensures call != NoCall ==>
      (call.subjectId == selected.value.id && Some(call.config.numEasy) == form.numEasy &&
       Some(call.config.numMedium) == form.numMedium && Some(call.config.numHard) == form.numHard &&
       Some(call.config.duration) == form.duration)
  {
    if selected.None? then NoCall
    else if !FormValid(form) then NoCall
    else if QuestionTotal(FormValue(form)) != QuestionsPerExam then NoCall
    else if configExists then UpdateConfig(selected.value.id, FormValue(form))
    else CreateConfig(selected.value.id, FormValue(form))
  }

  /** Whatever is sent is a well-formed exam: ten questions, no negative count or duration. */
  lemma SavedConfigIsWellFormed(selected: Option<Subject>, form: ConfigForm, configExists: bool)
    requires SaveDecision(selected, form, configExists) != NoCall
    ensures var c := SaveDecision(selected, form, configExists).config;
      c.numEasy + c.numMedium + c.numHard == 10 &&
      c.numEasy >= 0 && c.numMedium >= 0 && c.numHard >= 0 && c.duration >= 0
  {
  }

  /** A fetched configuration that is saved unchanged is sent back as it came, as an update. */
  lemma ReloadedConfigSavesAsUpdate(subject: Subject, config: ExamConfig)
    requires config.numEasy >= 0 && config.numMedium >= 0 && config.numHard >= 0 && config.duration >= 0
    requires QuestionTotal(config) == QuestionsPerExam
    ensures SaveDecision(Some(subject), FormOf(config), true) == UpdateConfig(subject.id, config)
  {
  }

  class ExamConfigPage {
    var selectedSubject: Option<Subject>
    var configExists: bool
    var loading: bool
    var form: ConfigForm
    /** Whether the inputs show their validation errors (`markAllAsTouched`). */
    var touched: bool
    /** The toasts shown so far, oldest first. */
    var toasts: seq<Toast>

    constructor()
      ensures selectedSubject.None? && !configExists && !loading && form == ZeroForm && !touched && toasts == []
    {
      selectedSubject := None;
      configExists := false;
      loading := false;
      form := ZeroForm;
      touched := false;
      toasts := [];
    }

    /**
     * `onSubjectSelect`: no subject resets the form and forgets the
     * configuration; a subject starts loading and requests its configuration.
     */
    method OnSubjectSelect(subject: Option<Subject>) returns (fetch: Option<int>)
      modifies this
      ensures selectedSubject == subject && toasts == old(toasts)
      ensures subject.None? ==> fetch.None? && form == ZeroForm && !touched && !configExists && loading == old(loading)
      ensures subject.Some? ==>
        (fetch == Some(subject.value.id) && loading &&
         form == old(form) && touched == old(touched) && configExists == old(configExists))
    {
      selectedSubject := subject;
      if subject.None? {
        form := ZeroForm;
        touched := false;
        configExists := false;
        fetch := None;
        return;
      }
      loading := true;
      fetch := Some(subject.value.id);
    }

    /** The answer to the configuration fetch: patch the form and remember that it exists, or reset. */
    method OnConfigLoaded(result: ConfigFetch)
      modifies this
      ensures !loading && selectedSubject == old(selectedSubject) && toasts == old(toasts)
      ensures result.ConfigReceived? ==> form == FormOf(result.config) && configExists && touched == old(touched)
      ensures result.ConfigFetchFailed? ==> form == ZeroForm && !touched && !configExists
    {
      match result
      case ConfigReceived(config) =>
        form := FormOf(config);
        configExists := true;
        loading := false;
      case ConfigFetchFailed =>
        form := ZeroForm;
        touched := false;
        configExists := false;
        loading := false;
    }

    /**
     * `saveConfig`: returns the request `SaveDecision` chooses.  Without a
     * subject nothing happens; an invalid form is marked touched; a wrong
     * total adds the validation toast; an accepted save starts loading.
     */
    method SaveConfig() returns (call: SaveCall)
      modifies this
      ensures call == SaveDecision(old(selectedSubject), old(form), old(configExists))
      ensures selectedSubject == old(selectedSubject) && form == old(form) && configExists == old(configExists)
      ensures old(selectedSubject).None? ==> touched == old(touched) && toasts == old(toasts) && loading == old(loading)
      ensures old(selectedSubject).Some? && !FormValid(old(form)) ==>
        touched && toasts == old(toasts) && loading == old(loading)
      ensures old(selectedSubject).Some? && FormValid(old(form)) && QuestionTotal(FormValue(old(form))) != QuestionsPerExam ==>
        touched == old(touched) && toasts == old(toasts) + [TotalToast] && loading == old(loading)
      ensures call != NoCall ==> touched == old(touched) && toasts == old(toasts) && loading
    {
      call := SaveDecision(selectedSubject, form, configExists);
      if selectedSubject.None? {
        return;
      }
      if !FormValid(form) {
        touched := true;
        return;
      }
      if QuestionTotal(FormValue(form)) != QuestionsPerExam {
        toasts := toasts + [TotalToast];
        return;
      }
      loading := true;
    }

    /** The answer to the update or create call: success confirms, deselects and resets; either way loading ends. */
    method OnSaveResult(success: bool)
      modifies this
      ensures !loading && configExists == old(configExists)
      ensures success ==> toasts == old(toasts) + [SavedToast] && selectedSubject.None? && form == ZeroForm && !touched
      ensures !success ==> toasts == old(toasts) && selectedSubject == old(selectedSubject) && form == old(form) && touched == old(touched)
    {
      if success {
        toasts := toasts + [SavedToast];
        selectedSubject := None;
        form := ZeroForm;
        touched := false;
      }
      loading := false;
    }

    /** `cancelConfig`: deselect and reset the form; whether the configuration exists is not touched. */
    method CancelConfig()
      modifies this
      ensures selectedSubject.None? && form == ZeroForm && !touched
      ensures configExists == old(configExists) && loading == old(loading) && toasts == old(toasts)
    {
      selectedSubject := None;
      form := ZeroForm;
      touched := false;
    }
  }

  /** After a cancel, saving sends nothing until a subject is picked again. */
  method CancelThenSaveSendsNothing(page: ExamConfigPage) returns (call: SaveCall)
    modifies page
    ensures call == NoCall && page.form == ZeroForm && page.loading == old(page.loading)
  {
    page.CancelConfig();
    call := page.SaveConfig();
  }
}

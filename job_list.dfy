/**
 The job list component: its seven state variables as fields, and one method per
 handler that assigns them in the order the handler does. Each method's new state
 is the matching event function of PanelEvents applied to the old state, and each
 keeps the feedback invariant.
 */
module JobListPanel {
  import opened JobRecords
  import opened PanelEvents

  class Panel {
    var jobs: Payload
    var showPopup: bool
    var errorMessage: string
    var successMessage: string
    var jobToUpdate: Option<Job>
    var jobData: Draft
    var timeLeft: int

    /** The fields read as one panel state. */
    function State(): PanelState
      reads this
    {
      PanelState(jobs, showPopup, errorMessage, successMessage, jobToUpdate, jobData, timeLeft)
    }

    ghost predicate Valid()
      reads this
    {
      FeedbackOk(State())
    }

    /** Mounting the component; the job list it then asks for arrives through FetchJobs. */
    constructor (now: string)
      ensures Valid() && State() == Initial(now)
    {
      jobs := JobArray([]);
      showPopup := false;
      errorMessage := "";
      successMessage := "";
      jobToUpdate := None;
      jobData := EmptyDraft(now);
      timeLeft := 0;
    }

    /** The change handler of every form input. */
    method HandleInputChange(name: Field, value: string)
      requires Valid()
      modifies this
      ensures Valid() && State() == InputChanged(old(State()), name, value)
    {
      jobData := WithField(jobData, name, Text(value));
    }

    /** The Update button of a row. */
    method HandleUpdateClick(job: Job)
      requires Valid()
      modifies this
      ensures Valid() && State() == UpdateClicked(old(State()), job)
    {
      jobData := DraftOf(job);
      jobToUpdate := Some(job);
      showPopup := true;
    }

    /** The Add Job button, as written. */
    method ClickAddJob()
      requires Valid()
      modifies this
      ensures Valid() && State() == AddJobClicked(old(State()))
    {
      showPopup := true;
    }

    /** The Add Job button, corrected to open a blank create form. */
    method OpenCreateForm(now: string)
      requires Valid()
      modifies this
      ensures Valid() && State() == OpenForCreate(old(State()), now)
    {
      jobData := EmptyDraft(now);
      jobToUpdate := None;
      showPopup := true;
    }

    /** The Cancel button of the popup. */
    method ClickCancel()
      requires Valid()
      modifies this
      ensures Valid() && State() == CancelClicked(old(State()))
    {
      showPopup := false;
    }

    /** The shared catch branch: show the message or the fallback and restart the countdown. */
    method Fail(message: Option<string>, fallback: string)
      requires Valid() && fallback != ""
      modifies this
      ensures Valid() && State() == Failure(old(State()), message, fallback)
    {
      errorMessage := ErrorText(message, fallback);
      timeLeft := ErrorSeconds;
    }

    /** addJob once its request has ended; `now` stamps the blank draft. */
    method AddJob(outcome: Outcome, now: string)
      requires Valid()
      modifies this
      ensures Valid() && State() == AddSettled(old(State()), outcome, now)
    {
      match outcome
      case Succeeded =>
        successMessage := AddedText;
        showPopup := false;
        jobData := EmptyDraft(now);
      case Failed(m) =>
        Fail(m, AddFallback);
    }

    /** updateJob once its request has ended; `now` stamps the blank draft. */
    method UpdateJob(outcome: Outcome, now: string)
      requires Valid()
      modifies this
      ensures Valid() && State() == UpdateSettled(old(State()), outcome, now)
    {
      match outcome
      case Succeeded =>
        successMessage := UpdatedText;
        showPopup := false;
        jobData := EmptyDraft(now);
        jobToUpdate := None;
      case Failed(m) =>
        Fail(m, UpdateFallback);
    }

    /** deleteJob once its request has ended. */
    method DeleteJob(outcome: Outcome)
      requires Valid()
      modifies this
      ensures Valid() && State() == DeleteSettled(old(State()), outcome)
    {
      match outcome
      case Succeeded =>
        successMessage := DeletedText;
      case Failed(m) =>
        Fail(m, DeleteFallback);
    }

    /** fetchJobs once its request has ended: a decoded payload, or None on failure. */
    method FetchJobs(result: Option<Payload>)
      requires Valid()
      modifies this
      ensures Valid() && State() == FetchSettled(old(State()), result)
    {
      match result
      case Some(p) =>
        jobs := p;
      case None =>
    }

    /** The one-second timer of the countdown effect, armed only while time is left. */
    method Tick()
      requires Valid() && timeLeft > 0
      modifies this
      ensures Valid() && State() == PanelEvents.Tick(old(State()))
    {
      timeLeft := timeLeft - 1;
    }

    /** The ten-second timeout armed by a failure. */
    method ClearError()
      requires Valid()
      modifies this
      ensures Valid() && State() == ErrorTimeout(old(State()))
    {
      errorMessage := "";
      timeLeft := 0;
    }
  }

  /**
   A failed add driven through the component: the draft the user typed and the open
   popup survive the failure, the banner shows the server's message with the
   countdown at 10, one tick takes it to 9, and the timeout clears the banner.
   */
  method FailedAddScenario(now: string, typed: string)
  {
    var p := new Panel(now);
    p.ClickAddJob();
    p.HandleInputChange(City, typed);
    var draft := p.jobData;
    p.AddJob(Failed(Some("City required")), now);
    assert p.errorMessage == "City required" && p.timeLeft == 10;
    assert p.showPopup && p.jobData == draft && Get(p.jobData, City) == Text(typed);
    p.Tick();
    assert p.timeLeft == 9 && p.errorMessage == "City required";
    p.ClearError();
    assert p.errorMessage == "" && p.timeLeft == 0 && p.showPopup && p.jobData == draft;
  }
}

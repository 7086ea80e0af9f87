/**
 The state of the job list panel and what each event does to it. The panel keeps
 seven pieces of state; every handler, timer callback and network response is a
 transition on them. Network responses are inputs: an add, update or delete either
 succeeded or failed with an optional message, and a fetch either delivered a
 payload or failed.
 */
module PanelEvents {
  import opened JobRecords

  /** What the server's job listing decoded to: a JSON array of jobs, or anything else. */
  datatype Payload = JobArray(items: seq<Job>) | NotAnArray

  /** The seven state variables of the panel. `jobToUpdate` is None in create mode. */
  datatype PanelState = PanelState(
    jobs: Payload,
    showPopup: bool,
    errorMessage: string,
    successMessage: string,
    jobToUpdate: Option<Job>,
    jobData: Draft,
    timeLeft: int)

  /** How an add, update or delete request ended; a failure may carry the server's message. */
  datatype Outcome = Succeeded | Failed(message: Option<string>)

  const AddedText := "Job added successfully"
  const UpdatedText := "Job updated successfully"
  const DeletedText := "Job deleted successfully"
  const AddFallback := "An error occurred while adding the job."
  const UpdateFallback := "An error occurred while updating the job."
  const DeleteFallback := "An error occurred while deleting the job."

  /** Seconds the error countdown starts from, and after which the error is cleared. */
  const ErrorSeconds := 10

  /** The state on mount: no jobs, popup closed, no messages, create mode, blank draft. */
  function Initial(now: string): (s: PanelState)
    ensures s.jobs == JobArray([]) && !s.showPopup && s.jobToUpdate.None?
    ensures s.errorMessage == "" && s.successMessage == "" && s.timeLeft == 0
    ensures IsBlank(s.jobData)
  {
    PanelState(JobArray([]), false, "", "", None, EmptyDraft(now), 0)
  }

  /**
   The feedback invariant: the countdown stays within 0..10 and is positive only
   while the error text is non-empty (the text is visible only while the popup is).
   */
  predicate FeedbackOk(s: PanelState)
  {
    0 <= s.timeLeft <= ErrorSeconds && (s.timeLeft > 0 ==> s.errorMessage != "")
  }

  /**
   The error text: the failure's message when it has one, otherwise the action's
   fallback text.
   */
  function ErrorText(message: Option<string>, fallback: string): (t: string)
    ensures message.Some? && message.value != "" ==> t == message.value
    ensures message.None? || message.value == "" ==> t == fallback
    ensures fallback != "" ==> t != ""
  {
    match message
    case Some(m) => if m != "" then m else fallback
    case None => fallback
  }

  /** The shared failure branch of add, update and delete: show the error and start the countdown. */
  function Failure(s: PanelState, message: Option<string>, fallback: string): (r: PanelState)
    ensures r.errorMessage == ErrorText(message, fallback) && r.timeLeft == ErrorSeconds
    ensures r == s.(errorMessage := r.errorMessage, timeLeft := r.timeLeft)
  {
    s.(errorMessage := ErrorText(message, fallback), timeLeft := ErrorSeconds)
  }

  /** An input of the form changed: only that draft field takes the input's text. */
  function InputChanged(s: PanelState, name: Field, value: string): (r: PanelState)
    ensures Get(r.jobData, name) == Text(value)
    ensures forall f :: f != name ==> Get(r.jobData, f) == Get(s.jobData, f)
    ensures r == s.(jobData := r.jobData)
  {
    s.(jobData := WithField(s.jobData, name, Text(value)))
  }

  /** The Update button of a row: load the job into the draft, enter edit mode, open the popup. */
  function UpdateClicked(s: PanelState, job: Job): (r: PanelState)
    ensures forall f :: Get(r.jobData, f) == JobField(job, f)
    ensures r.jobToUpdate == Some(job) && r.showPopup
    ensures r == s.(jobData := r.jobData, jobToUpdate := r.jobToUpdate, showPopup := r.showPopup)
  {
    s.(jobData := DraftOf(job), jobToUpdate := Some(job), showPopup := true)
  }

  /** The Add Job button: it opens the popup and touches nothing else. */
  function AddJobClicked(s: PanelState): (r: PanelState)
    ensures r.showPopup && r == s.(showPopup := r.showPopup)
  {
    s.(showPopup := true)
  }

  /** The Cancel button: it closes the popup and touches nothing else. */
  function CancelClicked(s: PanelState): (r: PanelState)
    ensures !r.showPopup && r == s.(showPopup := r.showPopup)
  {
    s.(showPopup := false)
  }

  /**
   What the Add Job button is evidently meant to do (the corrected handler): open
   the popup in create mode on a blank draft, whatever an earlier edit left behind.
   */
  function OpenForCreate(s: PanelState, now: string): (r: PanelState)
    ensures r.showPopup && r.jobToUpdate.None? && IsBlank(r.jobData) && Get(r.jobData, Date) == Text(now)
    ensures r == s.(showPopup := r.showPopup, jobToUpdate := r.jobToUpdate, jobData := r.jobData)
  {
    s.(showPopup := true, jobToUpdate := None, jobData := EmptyDraft(now))
  }

  /**
   The end of an add request. Success reports it, closes the popup and blanks the
   draft (stamped `now`) but keeps edit mode and any error; failure reports the
   error and starts the countdown, keeping the popup, the draft and the mode.
   */
  function AddSettled(s: PanelState, outcome: Outcome, now: string): (r: PanelState)
    ensures outcome.Succeeded? ==>
      r.successMessage == AddedText && !r.showPopup && r.jobData == EmptyDraft(now) &&
      r == s.(successMessage := r.successMessage, showPopup := r.showPopup, jobData := r.jobData)
    ensures outcome.Failed? ==>
      r.errorMessage == ErrorText(outcome.message, AddFallback) && r.timeLeft == ErrorSeconds &&
      r == s.(errorMessage := r.errorMessage, timeLeft := r.timeLeft)
  {
    match outcome
    case Succeeded => s.(successMessage := AddedText, showPopup := false, jobData := EmptyDraft(now))
    case Failed(m) => Failure(s, m, AddFallback)
  }

  /**
   The end of an update request. Success is as for add and also leaves edit mode;
   failure is as for add with the update's fallback text.
   */
  function UpdateSettled(s: PanelState, outcome: Outcome, now: string): (r: PanelState)
    ensures outcome.Succeeded? ==>
      r.successMessage == UpdatedText && !r.showPopup && r.jobData == EmptyDraft(now) &&
      r.jobToUpdate.None? &&
      r == s.(successMessage := r.successMessage, showPopup := r.showPopup, jobData := r.jobData,
              jobToUpdate := r.jobToUpdate)
    ensures outcome.Failed? ==>
      r.errorMessage == ErrorText(outcome.message, UpdateFallback) && r.timeLeft == ErrorSeconds &&
      r == s.(errorMessage := r.errorMessage, timeLeft := r.timeLeft)
  {
    match outcome
    case Succeeded =>
      s.(successMessage := UpdatedText, showPopup := false, jobData := EmptyDraft(now), jobToUpdate := None)
    case Failed(m) => Failure(s, m, UpdateFallback)
  }

  /** The end of a delete request: only the messages and the countdown can change. */
  function DeleteSettled(s: PanelState, outcome: Outcome): (r: PanelState)
    ensures outcome.Succeeded? ==>
      r.successMessage == DeletedText && r == s.(successMessage := r.successMessage)
    ensures outcome.Failed? ==>
      r.errorMessage == ErrorText(outcome.message, DeleteFallback) && r.timeLeft == ErrorSeconds &&
      r == s.(errorMessage := r.errorMessage, timeLeft := r.timeLeft)
  {
    match outcome
    case Succeeded => s.(successMessage := DeletedText)
    case Failed(m) => Failure(s, m, DeleteFallback)
  }

  /**
   The end of a fetch of all jobs. The response status is never read: any JSON body
   is a delivered payload and replaces the list wholesale; only a network error or a
   body that is not JSON (None) leaves the list as it was.
   */
  function FetchSettled(s: PanelState, result: Option<Payload>): (r: PanelState)
    ensures result.Some? ==> r == s.(jobs := result.value)
    ensures result.None? ==> r == s
  {
    match result
    case Some(p) => s.(jobs := p)
    case None => s
  }

  /** One second of the countdown; the timer that delivers it exists only while time is left. */
  function Tick(s: PanelState): (r: PanelState)
    requires s.timeLeft > 0
    ensures 0 <= r.timeLeft < s.timeLeft && r == s.(timeLeft := r.timeLeft)
    ensures s.timeLeft - r.timeLeft == 1
  {
    s.(timeLeft := s.timeLeft - 1)
  }

  /** The ten-second timeout after a failure: the error disappears and the countdown stops. */
  function ErrorTimeout(s: PanelState): (r: PanelState)
    ensures r.errorMessage == "" && r.timeLeft == 0
    ensures r == s.(errorMessage := r.errorMessage, timeLeft := r.timeLeft)
  {
    s.(errorMessage := "", timeLeft := 0)
  }

  /** Everything that can happen to the panel, one event at a time. */
  datatype Event =
    | InputChange(name: Field, value: string)
    | UpdateClick(job: Job)
    | AddJobClick
    | CancelClick
    | AddDone(outcome: Outcome, now: string)
    | UpdateDone(outcome: Outcome, now: string)
    | DeleteDone(outcome: Outcome)
    | FetchDone(result: Option<Payload>)
    | CountdownTick
    | ErrorTimeoutFired

  /**
   The panel after one event. A countdown tick is taken to reach the state only
   while time is left (the effect's guard), so with no time left it changes nothing.
   A stale tick landing after the timeout's reset is not modelled.
   */
  function Step(s: PanelState, e: Event): (r: PanelState)
    ensures FeedbackOk(s) ==> FeedbackOk(r)
  {
    match e
    case InputChange(name, value) => InputChanged(s, name, value)
    case UpdateClick(job) => UpdateClicked(s, job)
    case AddJobClick => AddJobClicked(s)
    case CancelClick => CancelClicked(s)
    case AddDone(outcome, now) => AddSettled(s, outcome, now)
    case UpdateDone(outcome, now) => UpdateSettled(s, outcome, now)
    case DeleteDone(outcome) => DeleteSettled(s, outcome)
    case FetchDone(result) => FetchSettled(s, result)
    case CountdownTick => if s.timeLeft > 0 then Tick(s) else s
    case ErrorTimeoutFired => ErrorTimeout(s)
  }

  /** The panel after a sequence of events, in order. */
  function Run(s: PanelState, events: seq<Event>): (r: PanelState)
    ensures FeedbackOk(s) ==> FeedbackOk(r)
    decreases |events|
  {
    if events == [] then s else Run(Step(s, events[0]), events[1..])
  }

  /** Every state the panel can reach from mount keeps the feedback invariant. */
  lemma {:induction false} ReachableFeedbackOk(now: string, events: seq<Event>)
    ensures FeedbackOk(Run(Initial(now), events))
  {
  }

  /** The panel after `k` countdown ticks. */
  function Ticks(s: PanelState, k: nat): PanelState
    decreases k
  {
    if k == 0 then s else Ticks(Step(s, CountdownTick), k - 1)
  }

  /**
   Each tick takes exactly one second off while time is left and none once it is
   gone: from N the countdown reaches 0 after exactly N ticks, never goes negative,
   and nothing but the countdown changes.
   */
  lemma {:induction false} TicksCountDown(s: PanelState, k: nat)
    requires s.timeLeft >= 0
    ensures Ticks(s, k) == s.(timeLeft := if k <= s.timeLeft then s.timeLeft - k else 0)
    decreases k
  {
    if k > 0 {
      TicksCountDown(Step(s, CountdownTick), k - 1);
    }
  }

  /**
   After a failed add, update or delete, k <= 10 ticks leave 10 - k on the
   countdown with the error text unchanged, and the timeout then clears it. Ticks
   and the timeout are independent events here; with the real timers the timeout
   comes before the tenth tick and cancels it.
   */
  lemma {:induction false} CountdownAfterFailure(s: PanelState, e: Event, k: nat)
    requires e.AddDone? || e.UpdateDone? || e.DeleteDone?
    requires e.outcome.Failed? && k <= ErrorSeconds
    ensures Ticks(Step(s, e), k).timeLeft == ErrorSeconds - k
    ensures Ticks(Step(s, e), k).errorMessage == Step(s, e).errorMessage != ""
    ensures ErrorTimeout(Ticks(Step(s, e), k)) == Step(s, e).(errorMessage := "", timeLeft := 0)
  {
    TicksCountDown(Step(s, e), k);
  }
}

# Job list panel: a Dafny model of its state machine

The job list panel shows the jobs a server holds. A popup form creates a job or
edits one. A success line and an error banner give feedback, and the banner
carries a ten-second countdown. This project models the panel's seven state
variables and what each event does to them:

- the list of jobs;
- whether the popup shows;
- the error text and the success text;
- the job being edited (none in create mode);
- the draft record in the form;
- the seconds left on the countdown.

The events are:

- a change to a form input;
- the Update button of a row;
- the Add Job button and the Cancel button;
- the end of an add, update or delete request (success, or failure with an optional message);
- the end of a fetch of all jobs;
- one tick of the countdown;
- the ten-second timeout that clears the error.

Network results are inputs to these events.

Files:

- `job_records.dfy` (module `JobRecords`): jobs, drafts and form fields. Every field holds a JSON value: null, text or a number. Also the blank template, the copy of a job into a draft, and the one-field merge of an input change.
- `panel_events.dfy` (module `PanelEvents`): the panel state and one pure function per event. `Step` and `Run` apply events in sequence. It also holds the feedback invariant and the countdown lemmas.
- `panel_view.dfy` (module `PanelView`): the table-body guard, the popup's heading and submit label, and where a submission goes (`Submit`). It also holds the lemmas that tie the form's mode to these.
- `job_list.dfy` (module `JobListPanel`): class `Panel` holds the seven state variables as fields, with one method per handler. Each method assigns the fields the way its handler does. Each ensures that its new state is the matching `PanelEvents` function applied to the old state, and that the feedback invariant still holds. `FailedAddScenario` is a fixed-input example, not a modelled operation. It drives a failed add, one tick and the timeout through the class, and checks that the typed draft and the open popup survive.

Behaviour the model keeps exactly as the code has it (a tidier design would differ):

- A successful add, update or delete does not clear a non-empty error text.
- A failure does not clear the success text.
- No action clears old feedback before its request goes out.
- Add Job and Cancel only toggle the popup. The draft and the job being edited stay as they were.
- The error text is cleared by the separate ten-second timeout, not by the countdown reaching 0. With the real timers the timeout, armed at the failure, falls due before the tenth tick. Its reset of the countdown to 0 cancels that pending tick only if React runs the effect's clean-up before the tick's timer fires. Usually it does, and the user sees 10 down to 1 and then the banner clears. The stale-tick case is listed under "## Left out".
- A successful add blanks the draft but keeps any job being edited. Only a successful update leaves edit mode.
- An input change stores the input's text, so a salary typed into the form is held as text.

## Model

| member | source | states |
|---|---|---|
| JobRecords.EmptyDraft | src/JobList.js:9-17 | the template draft has empty role, company and city, salary 0, no seniority or work type, and the given time stamp as its date |
| JobRecords.DraftOf | src/JobList.js:160-168 | the draft for editing a job agrees with that job on all seven fields |
| JobRecords.WithField | src/JobList.js:84-90 | merging one named field sets that field to the value and leaves every other field as it was |
| JobRecords.WithFieldSameValue | src/JobList.js:86-89 | writing back the value a field already holds leaves the draft unchanged |
| JobRecords.WithFieldOverrides | src/JobList.js:86-89 | a later change to a field overrides an earlier change to the same field |
| JobRecords.WithFieldCommutes | src/JobList.js:86-89 | changes to two different fields give the same draft in either order |
| PanelEvents.Initial | src/JobList.js:4-18 | on mount: an empty job array, popup closed, both messages empty, create mode, blank draft, countdown 0 |
| PanelEvents.ErrorText | src/JobList.js:75 | the error text is the failure's message if it has a non-empty one, else the action's fallback, so it is never empty |
| PanelEvents.Failure | src/JobList.js:73-81 | a failure sets the error text and the countdown to 10; every other state variable is unchanged |
| PanelEvents.InputChanged | src/JobList.js:84-90 | an input change sets exactly the named draft field to the input's text; the other draft fields and all other state are unchanged |
| PanelEvents.UpdateClicked | src/JobList.js:159-171 | Update on a row copies the job's seven fields into the draft, makes it the job being edited and opens the popup; nothing else changes |
| PanelEvents.AddJobClicked | src/JobList.js:177 | Add Job opens the popup and changes nothing else |
| PanelEvents.CancelClicked | src/JobList.js:321 | Cancel closes the popup and changes nothing else |
| PanelEvents.OpenForCreate | src/JobList.js:177 | the corrected Add Job handler: popup open, create mode, blank draft; nothing else changes |
| PanelEvents.AddSettled | src/JobList.js:44-82 | a successful add sets "Job added successfully", closes the popup and blanks the draft, keeping the list, the mode, the error and the countdown; a failed add sets the error from the message or the add fallback and the countdown to 10, keeping popup, draft, mode and success text |
| PanelEvents.UpdateSettled | src/JobList.js:118-157 | as for add with "Job updated successfully" and the update fallback; a successful update also leaves edit mode |
| PanelEvents.DeleteSettled | src/JobList.js:92-116 | a successful delete sets only "Job deleted successfully"; popup, draft and mode are unchanged; a failed delete sets the error from the message or the delete fallback and the countdown to 10, and nothing else |
| PanelEvents.FetchSettled | src/JobList.js:34-42 | a decoded JSON body, whatever the response status, replaces the job list wholesale and nothing else; a network error or a body that is not JSON changes nothing |
| PanelEvents.Tick | src/JobList.js:24-32 | a tick fires only with time left, takes exactly one second off, never goes below 0 and changes nothing else |
| PanelEvents.ErrorTimeout | src/JobList.js:77-80 | the timeout empties the error text and sets the countdown to 0, changing nothing else |
| PanelEvents.Step | src/JobList.js:18-32 | every event keeps the feedback invariant: the countdown stays in 0..10 and is positive only while the error text is non-empty |
| PanelEvents.Run | src/JobList.js:24-32 | any sequence of events keeps the feedback invariant |
| PanelEvents.ReachableFeedbackOk | src/JobList.js:4-18 | every state reached from mount satisfies the feedback invariant |
| PanelEvents.TicksCountDown | src/JobList.js:24-32 | k ticks from N leave N - k while k <= N and 0 after that: the countdown reaches 0 after exactly N ticks, never goes negative, and nothing else changes |
| PanelEvents.CountdownAfterFailure | src/JobList.js:73-81 | after a failed add, update or delete, k <= 10 ticks leave 10 - k on the countdown with the non-empty error text unchanged; the timeout then clears the error text and the countdown, leaving popup, draft, mode, list and success text as the failure left them |
| PanelView.RenderedRows | src/JobList.js:196-228 | rows are shown exactly when the job list is an array with at least one job, and then they are those jobs in order |
| PanelView.Submit | src/JobList.js:240 | the form submits an update of the job being edited exactly when there is one, and an add otherwise; the body is the draft |
| PanelView.Heading | src/JobList.js:233 | the heading is "Update Job" exactly when the submission is an update, and "Add Job" exactly when it is an add |
| PanelView.SubmitLabel | src/JobList.js:320 | the submit label is "Update" exactly when the submission is an update, and "Save" exactly when it is an add |
| PanelView.EditSubmitsChangedFields | src/JobList.js:159-171 | Update on a job, then an input change, then submit: this sends an update of that job's identity, with the job's fields and the changed one in place |
| PanelView.AddAfterCancelledEditUpdates | src/JobList.js:177 | Update on a job, then Cancel, then Add Job: the form is headed "Update Job", holds that job's fields, and submits an update of it |
| PanelView.OpenForCreateAdds | src/JobList.js:177 | after the corrected Add Job handler, in any state, the form is headed "Add Job" and submits an add of the blank draft |
| JobListPanel.Panel.constructor | src/JobList.js:4-18 | a new panel holds the mount state and satisfies the feedback invariant |
| JobListPanel.Panel.HandleInputChange | src/JobList.js:84-90 | the new state is InputChanged of the old one |
| JobListPanel.Panel.HandleUpdateClick | src/JobList.js:159-171 | the new state is UpdateClicked of the old one |
| JobListPanel.Panel.ClickAddJob | src/JobList.js:177 | the new state is AddJobClicked of the old one |
| JobListPanel.Panel.OpenCreateForm | src/JobList.js:177 | the new state is OpenForCreate of the old one (the corrected handler) |
| JobListPanel.Panel.ClickCancel | src/JobList.js:321 | the new state is CancelClicked of the old one |
| JobListPanel.Panel.Fail | src/JobList.js:73-81 | the new state is Failure of the old one, and the feedback invariant holds |
| JobListPanel.Panel.AddJob | src/JobList.js:44-82 | the new state is AddSettled of the old one |
| JobListPanel.Panel.UpdateJob | src/JobList.js:118-157 | the new state is UpdateSettled of the old one |
| JobListPanel.Panel.DeleteJob | src/JobList.js:92-116 | the new state is DeleteSettled of the old one |
| JobListPanel.Panel.FetchJobs | src/JobList.js:34-42 | the new state is FetchSettled of the old one |
| JobListPanel.Panel.Tick | src/JobList.js:24-32 | with time left, the new state is one Tick of the old one |
| JobListPanel.Panel.ClearError | src/JobList.js:77-80 | the new state is ErrorTimeout of the old one |

## Left out

- HTTP, JSON and URLs. The end of an add, update or delete request is an input: `Succeeded`, or `Failed` with the thrown error's message (None when the error has none). For these three, all of the following count as failures: a 2xx add or update whose body is not JSON, a network error, and a non-2xx response.
- The listing request never looks at the response status. For fetch, any JSON body of any status is `Some(payload)`: a 4xx or 5xx body such as `{"message": …}` replaces the job list with `NotAnArray`, and the table then shows "No jobs found.". `None` means only a network error or a body that is not JSON.
- The identity in the delete and update URLs. It does not affect panel state. The update's target is `Submit`'s `UpdateRequest.id`.
- Mounting starts a fetch, and each successful add, update or delete starts a fetch without waiting for it. The model treats each fetch's result as a separate `FetchDone` event and does not constrain when it arrives.
- Real timers, asynchronous interleaving and double submission. Ticks and the ten-second timeout are explicit events. The model does not order these events. In that respect it admits more orders than the timers give: a tenth tick before the timeout, and an earlier failure's timeout clearing a newer error early. It does not cover every order, though; see the next line. Clean-up on unmount is not modelled.
- PanelEvents.Tick / PanelEvents.Step: a tick reaches the state only while time is left, which is what the effect's guard intends. The model does not capture a stale tick. A tick timer armed at 1 can fire after the timeout's updates (0) are queued but before React runs the effect's clean-up that would cancel it. Its `prevTime - 1` then leaves the countdown at -1, with the error text already empty. So the lower bound 0 in `FeedbackOk` holds under the model's event rules, not under every timer order the code allows.
- Rendering: markup, CSS, the browser's `required` checks, and date formatting in the table. Only the table-body guard, the heading and the submit label are modelled.
- The clock. The time stamp in the blank draft is the parameter `now`.
- Console logging.
- Numbers that are not whole. Salaries and identities are integers here.

## Findings

| source | as written | input that shows it | evidently intended | confidence | as-written member | corrected member |
|---|---|---|---|---|---|---|
| src/JobList.js:177 | Add Job only sets the popup visible. The job being edited and its draft stay from an earlier edit that was cancelled (Cancel at line 321 does not clear them either). | Update on job J, then Cancel, then Add Job: the popup is headed "Update Job", shows J's fields, and Save sends an update of J instead of creating a job | Add Job opens a blank form in create mode | medium, not executed | PanelView.AddAfterCancelledEditUpdates | PanelEvents.OpenForCreate |

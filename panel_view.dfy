/**
 What the panel shows and where its form submits, as functions of its state: the
 table body guard, the popup's heading and submit label, and the request a
 submission sends.
 */
module PanelView {
  import opened JobRecords
  import opened PanelEvents

  /** The table lists rows only when the stored jobs are an array with at least one job. */
  predicate ShowsRows(jobs: Payload)
  {
    jobs.JobArray? && |jobs.items| > 0
  }

  /** The rows of the table: every stored job in order, or none ("No jobs found."). */
  function RenderedRows(jobs: Payload): (rows: seq<Job>)
    ensures rows != [] <==> ShowsRows(jobs)
    ensures rows != [] ==> rows == jobs.items
  {
    if ShowsRows(jobs) then jobs.items else []
  }

  /** A submission of the form: create the draft, or overwrite the job with this identity. */
  datatype Request = AddRequest(body: Draft) | UpdateRequest(id: int, body: Draft)

  /** Where the form submits: to the update of `jobToUpdate` when there is one, else to add. */
  function Submit(s: PanelState): (r: Request)
    ensures r.UpdateRequest? <==> s.jobToUpdate.Some?
    ensures r.UpdateRequest? ==> r.id == s.jobToUpdate.value.id
    ensures r.body == s.jobData
  {
    match s.jobToUpdate
    case Some(job) => UpdateRequest(job.id, s.jobData)
    case None => AddRequest(s.jobData)
  }

  /** The popup's heading follows the same test as the submission. */
  function Heading(s: PanelState): (h: string)
    ensures h == "Update Job" <==> Submit(s).UpdateRequest?
    ensures h == "Add Job" <==> Submit(s).AddRequest?
  {
    if s.jobToUpdate.Some? then "Update Job" else "Add Job"
  }

  /** The submit button's label follows the same test as the submission. */
  function SubmitLabel(s: PanelState): (l: string)
    ensures l == "Update" <==> Submit(s).UpdateRequest?
    ensures l == "Save" <==> Submit(s).AddRequest?
  {
    if s.jobToUpdate.Some? then "Update" else "Save"
  }

  /**
   Editing a job and submitting it at once sends an update of that job whose body
   holds the job's own fields, with any inputs changed since in place of theirs.
   */
  lemma {:induction false} EditSubmitsChangedFields(s: PanelState, job: Job, name: Field, value: string)
    ensures var r := Submit(InputChanged(UpdateClicked(s, job), name, value));
      r.UpdateRequest? && r.id == job.id &&
      r.body == WithField(DraftOf(job), name, Text(value))
  {
    DraftsEqual(Submit(InputChanged(UpdateClicked(s, job), name, value)).body,
                WithField(DraftOf(job), name, Text(value)));
  }

  /**
   As written, Add Job after cancelling an edit opens the form still in edit mode:
   it is headed "Update Job", holds the cancelled job's fields, and submitting it
   overwrites that job instead of adding one.
   */
  lemma {:induction false} AddAfterCancelledEditUpdates(s: PanelState, job: Job)
    ensures var t := AddJobClicked(CancelClicked(UpdateClicked(s, job)));
      t.showPopup && Heading(t) == "Update Job" && SubmitLabel(t) == "Update" &&
      Submit(t) == UpdateRequest(job.id, DraftOf(job))
  {
  }

  /**
   With the corrected handler the Add Job button always opens a blank create form,
   after any history of events.
   */
  lemma {:induction false} OpenForCreateAdds(s: PanelState, now: string)
    ensures var t := OpenForCreate(s, now);
      t.showPopup && Heading(t) == "Add Job" && SubmitLabel(t) == "Save" &&
      Submit(t) == AddRequest(EmptyDraft(now))
  {
  }
}

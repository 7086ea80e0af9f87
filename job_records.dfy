/**
 Job records as the job list panel receives them from the server, and the draft
 record that its form edits. Fields hold JSON values: the server sends numbers and
 text, the form's inputs hand over text, and the empty template holds nulls.
 */
module JobRecords {

  datatype Option<+T> = None | Some(value: T)

  /** A JSON scalar as the panel stores it (salaries are whole numbers in this model). */
  datatype Value = Null | Text(text: string) | Number(n: int)

  /** A job as listed by the server: an identity plus the seven editable fields. */
  datatype Job = Job(
    id: int,
    role: Value,
    seniority: Value,
    companyName: Value,
    date: Value,
    salary: Value,
    city: Value,
    workType: Value)

  /** The form's draft: the seven editable fields of a job, without its identity. */
  datatype Draft = Draft(
    role: Value,
    seniority: Value,
    companyName: Value,
    date: Value,
    salary: Value,
    city: Value,
    workType: Value)

  /** The `name` attribute of each form input. */
  datatype Field = Role | Seniority | CompanyName | Date | Salary | City | WorkType

  /** The draft's value for one named field. */
  function Get(d: Draft, f: Field): Value
  {
    match f
    case Role => d.role
    case Seniority => d.seniority
    case CompanyName => d.companyName
    case Date => d.date
    case Salary => d.salary
    case City => d.city
    case WorkType => d.workType
  }

  /** A job's value for one named field. */
  function JobField(j: Job, f: Field): Value
  {
    match f
    case Role => j.role
    case Seniority => j.seniority
    case CompanyName => j.companyName
    case Date => j.date
    case Salary => j.salary
    case City => j.city
    case WorkType => j.workType
  }

  /** Two drafts that agree on every field are the same draft. */
  lemma {:induction false} DraftsEqual(a: Draft, b: Draft)
    requires forall f :: Get(a, f) == Get(b, f)
    ensures a == b
  {
    assert Get(a, Role) == Get(b, Role);
    assert Get(a, Seniority) == Get(b, Seniority);
    assert Get(a, CompanyName) == Get(b, CompanyName);
    assert Get(a, Date) == Get(b, Date);
    assert Get(a, Salary) == Get(b, Salary);
    assert Get(a, City) == Get(b, City);
    assert Get(a, WorkType) == Get(b, WorkType);
  }

  /** The blank template: empty texts, a zero salary, no seniority or work type. */
  predicate IsBlank(d: Draft)
  {
    Get(d, Role) == Text("") && Get(d, CompanyName) == Text("") && Get(d, City) == Text("") &&
    Get(d, Salary) == Number(0) && Get(d, Seniority) == Null && Get(d, WorkType) == Null
  }

  /**
   The draft the panel starts with and resets to; `now` is the ISO time stamp the
   clock gives at that moment.
   */
  function EmptyDraft(now: string): (d: Draft)
    ensures IsBlank(d) && Get(d, Date) == Text(now)
  {
    Draft(Text(""), Null, Text(""), Text(now), Number(0), Text(""), Null)
  }

  /** The draft that editing `job` starts from: its seven fields, its identity dropped. */
  function DraftOf(job: Job): (d: Draft)
    ensures forall f :: Get(d, f) == JobField(job, f)
  {
    Draft(job.role, job.seniority, job.companyName, job.date, job.salary, job.city, job.workType)
  }

  /** The draft with one named field replaced, as the input-change updater merges it. */
  function WithField(d: Draft, name: Field, v: Value): (r: Draft)
    ensures forall f :: Get(r, f) == if f == name then v else Get(d, f)
  {
    match name
    case Role => d.(role := v)
    case Seniority => d.(seniority := v)
    case CompanyName => d.(companyName := v)
    case Date => d.(date := v)
    case Salary => d.(salary := v)
    case City => d.(city := v)
    case WorkType => d.(workType := v)
  }

  /** Writing a field back with the value it already holds changes nothing. */
  lemma {:induction false} WithFieldSameValue(d: Draft, name: Field)
    ensures WithField(d, name, Get(d, name)) == d
  {
    DraftsEqual(WithField(d, name, Get(d, name)), d);
  }

  /** A later change to the same field overrides an earlier one. */
  lemma {:induction false} WithFieldOverrides(d: Draft, name: Field, v: Value, w: Value)
    ensures WithField(WithField(d, name, v), name, w) == WithField(d, name, w)
  {
    DraftsEqual(WithField(WithField(d, name, v), name, w), WithField(d, name, w));
  }

  /** Changes to two different fields can be made in either order. */
  lemma {:induction false} WithFieldCommutes(d: Draft, a: Field, v: Value, b: Field, w: Value)
    requires a != b
    ensures WithField(WithField(d, a, v), b, w) == WithField(WithField(d, b, w), a, v)
  {
    DraftsEqual(WithField(WithField(d, a, v), b, w), WithField(WithField(d, b, w), a, v));
  }
}

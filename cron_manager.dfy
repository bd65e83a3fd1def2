/**
 * The scheduled-task settings page: the edit form and its conversion from
 * and to a job, the guard on saving, the two-click delete of a job card,
 * and what saving the form asks of the gateway.
 */
module CronManager {
  import opened Wrappers
  import Text

  datatype ScheduleKind = Cron | At | Every

  datatype Schedule = Schedule(kind: ScheduleKind, expr: string, tz: Option<string>)

  /** A job's payload; `text` and `message` are absent when `None`. */
  datatype Payload = Payload(kind: string, text: Option<string>, message: Option<string>)

  /** A job without its id, as the form produces it. */
  datatype JobData = JobData(name: string, schedule: Schedule, wakeMode: Option<string>, payload: Payload, enabled: bool)

  datatype CronJob = CronJob(jobId: string, data: JobData)

  /** The fields of the edit form. */
  datatype Form = Form(name: string, kind: ScheduleKind, expr: string, tz: string, wakeMode: string,
                       message: string, enabled: bool)

  const DefaultTz := "Asia/Shanghai"
  const DefaultWakeMode := "main"

  /** `emptyForm`: a daily-style cron job in Shanghai time, woken in the main session, enabled, all text empty. */
  function EmptyForm(): (f: Form)
    ensures f.kind == Cron && f.tz == DefaultTz && f.wakeMode == DefaultWakeMode && f.enabled
    ensures f.name == "" && f.expr == "" && f.message == ""
  {
    Form("", Cron, "", DefaultTz, DefaultWakeMode, "", true)
  }

  /** `jobToForm`: the job's fields, with the default zone and wake mode when unset, and its text, else its message, else nothing. */
  function JobToForm(job: CronJob): (f: Form)
    ensures f.name == job.data.name && f.kind == job.data.schedule.kind && f.expr == job.data.schedule.expr
    ensures f.tz == job.data.schedule.tz.GetOr(DefaultTz) && f.wakeMode == job.data.wakeMode.GetOr(DefaultWakeMode)
    ensures job.data.payload.text.Some? ==> f.message == job.data.payload.text.value
    ensures job.data.payload.text.None? ==> f.message == job.data.payload.message.GetOr("")
    ensures f.enabled == job.data.enabled
  {
    var p := job.data.payload;
    Form(job.data.name, job.data.schedule.kind, job.data.schedule.expr, job.data.schedule.tz.GetOr(DefaultTz),
         job.data.wakeMode.GetOr(DefaultWakeMode), if p.text.Some? then p.text.value else p.message.GetOr(""),
         job.data.enabled)
  }

  /** `formToJobData`: the zone is kept only for cron schedules, and the message becomes a text payload. */
  function FormToJobData(f: Form): (d: JobData)
    ensures d.schedule.tz.Some? <==> f.kind == Cron
    ensures f.kind == Cron ==> d.schedule.tz == Some(f.tz)
    ensures d.payload == Payload("text", Some(f.message), None)
    ensures d.name == f.name && d.schedule.kind == f.kind && d.schedule.expr == f.expr
    ensures d.wakeMode == Some(f.wakeMode) && d.enabled == f.enabled
  {
    JobData(f.name, Schedule(f.kind, f.expr, if f.kind == Cron then Some(f.tz) else None),
            Some(f.wakeMode), Payload("text", Some(f.message), None), f.enabled)
  }

  /**
   * Editing a saved job shows the form it was saved from, except that a
   * non-cron job comes back with the default zone.
   */
  lemma FormRoundTrip(f: Form, jobId: string)
    ensures f.kind == Cron ==> JobToForm(CronJob(jobId, FormToJobData(f))) == f
    ensures f.kind != Cron ==> JobToForm(CronJob(jobId, FormToJobData(f))) == f.(tz := DefaultTz)
  {
  }

  /** `handleSave`: the job to save, or nothing when the name or the schedule is blank. */
  function SaveForm(f: Form): (d: Option<JobData>)
    ensures d.None? <==> Text.Trim(f.name) == "" || Text.Trim(f.expr) == ""
    ensures d.Some? ==> d.value == FormToJobData(f)
  {
    if Text.Trim(f.name) == "" || Text.Trim(f.expr) == "" then None else Some(FormToJobData(f))
  }

  /** A new form cannot be saved until a name and a schedule are filled in. */
  lemma EmptyFormNotSaved()
    ensures SaveForm(EmptyForm()).None?
  {
    assert Text.Trim("") == "";
  }

  /** A card's delete button: the first click arms the confirmation, the second deletes and disarms. */
  function ClickDelete(armed: bool): (r: (bool, bool))
    ensures r.0 <==> !armed
    ensures r.1 <==> armed
  {
    if armed then (false, true) else (true, false)
  }

  /** Two clicks from a disarmed card delete the job exactly once and leave the card disarmed. */
  lemma TwoClicksDelete()
    ensures var first := ClickDelete(false); var second := ClickDelete(first.0);
      !first.1 && second.1 && !second.0
  {
  }

  /** A request saving the form sends to the gateway. */
  datatype SaveRequest = UpdateJob(jobId: string, data: JobData) | AddJob(data: JobData)

  /** Whether the form is shown, and the job it edits. */
  datatype Page = Page(showForm: bool, editing: Option<CronJob>)

  function OnAdd(p: Page): (r: Page)
    ensures r.showForm && r.editing.None?
  {
    Page(true, None)
  }

  function OnEdit(p: Page, job: CronJob): (r: Page)
    ensures r.showForm && r.editing == Some(job)
  {
    Page(true, Some(job))
  }

  /** The form's first content: the edited job's fields, or the empty form for a new job. */
  function InitialForm(p: Page): (f: Form)
    ensures p.editing.None? ==> f == EmptyForm()
    ensures p.editing.Some? ==> f == JobToForm(p.editing.value)
  {
    if p.editing.Some? then JobToForm(p.editing.value) else EmptyForm()
  }

  /** The request saving sends: an update of the edited job, else a new job. */
  function SaveRequestFor(p: Page, data: JobData): (q: SaveRequest)
    ensures p.editing.Some? ==> q == UpdateJob(p.editing.value.jobId, data)
    ensures p.editing.None? ==> q == AddJob(data)
  {
    if p.editing.Some? then UpdateJob(p.editing.value.jobId, data) else AddJob(data)
  }

  /** `handleFormSave` after the gateway answered `ok`: the form closes only on success. */
  function AfterSave(p: Page, ok: bool): (r: Page)
    ensures ok ==> !r.showForm && r.editing.None?
    ensures !ok ==> r == p
  {
    if ok then Page(false, None) else p
  }

  /** Adding, saving with a failure, then saving with success: the failed save keeps the form open, the second closes it. */
  lemma RetryAfterFailure(p: Page, data: JobData)
    ensures var shown := OnAdd(p);
      AfterSave(shown, false).showForm && SaveRequestFor(AfterSave(shown, false), data) == AddJob(data) &&
      !AfterSave(AfterSave(shown, false), true).showForm
  {
  }
}

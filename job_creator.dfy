/**
 * The job creation form. Two components implement it
 * (components/ui/modals/JobCreatorModal.tsx and the older
 * components/modals/JobCreatorModal.tsx); they keep the same form state and run
 * the same submit guards, and differ only in how they turn the applied-date
 * input into a `Date`.
 */
module JobCreator {
  import opened Wrappers
  import opened JsText
  import opened Values
  import opened RemoteStore
  import Jobs

  /**
   * `parseLocalDate(dateStr)`: the text split on '-', each piece through `Number`,
   * then `new Date(year, month - 1, day, 12, 0, 0)`. A missing piece is
   * `undefined`, which makes its argument NaN.
   */
  function ParseLocalDate(dateStr: string): (date: Instant)
    ensures date.LocalCalendar? && date.hours == 12 && date.minutes == 0 && date.seconds == 0
  {
    var parts := Split(dateStr, '-');
    LocalCalendar(
      JsNumber(parts[0]),
      if |parts| >= 2 then JsNumber(parts[1]).Pred() else NaN,
      if |parts| >= 3 then JsNumber(parts[2]) else NaN,
      12, 0, 0)
  }

  /** "Y-M-D" with dash-free pieces splits into its three pieces. */
  lemma {:induction false} SplitDateInput(y: string, m: string, d: string)
    requires '-' !in y && '-' !in m && '-' !in d
    ensures Split(y + "-" + m + "-" + d, '-') == [y, m, d]
  {
    SplitNoSeparator(d, '-');
    SplitAfterPrefix(m, d, '-');
    SplitAfterPrefix(y, m + "-" + d, '-');
    assert y + "-" + m + "-" + d == y + ['-'] + (m + ['-'] + d);
  }

  /**
   * A date "Y-M-D" is read as noon of day `Number(D)` of the zero-based month
   * `Number(M) - 1` of year `Number(Y)`; for the digit strings a date input produces,
   * each `Number` is the decimal value (see `JsText.JsNumber`).
   */
  lemma ParseLocalDateOfDateInput(y: string, m: string, d: string)
    requires '-' !in y && '-' !in m && '-' !in d
    ensures ParseLocalDate(y + "-" + m + "-" + d) ==
      LocalCalendar(JsNumber(y), JsNumber(m).Pred(), JsNumber(d), 12, 0, 0)
  {
    SplitDateInput(y, m, d);
  }

  /** A text without '-' yields a NaN month and day: an invalid date. */
  lemma ParseLocalDateWithoutDash(s: string)
    requires '-' !in s
    ensures ParseLocalDate(s).monthIndex == NaN && ParseLocalDate(s).day == NaN
  {
    SplitNoSeparator(s, '-');
  }

  /** How a component reads a non-empty applied date. */
  datatype DateReading =
    | LocalNoon          // parseLocalDate(appliedDate)
    | DateConstructor    // new Date(appliedDate)

  /** `appliedDate ? <read appliedDate> : new Date()`, with `now` the clock's reading. */
  function SubmittedDate(reading: DateReading, appliedDate: string, now: int): (date: Instant)
    ensures appliedDate == "" ==> date == Clock(now)
    ensures appliedDate != "" && reading.LocalNoon? ==> date == ParseLocalDate(appliedDate)
    ensures appliedDate != "" && reading.DateConstructor? ==> date == Parsed(appliedDate)
  {
    if appliedDate == "" then Clock(now)
    else match reading
      case LocalNoon => ParseLocalDate(appliedDate)
      case DateConstructor => Parsed(appliedDate)
  }

  /** The state of the form's inputs. */
  datatype JobForm = JobForm(
    companyName: string,
    jobTitle: string,
    appliedDate: string,
    notes: string,
    contactName: string,
    contactEmail: string,
    contactPhone: string,
    jobPostingUrl: string,
    priority: Jobs.Priority,
    autoFollowUp: bool)

  /** The first render: empty texts, the given day, MEDIUM priority, no automatic follow-up. */
  function InitialForm(today: string): (form: JobForm)
    ensures form.appliedDate == today && form.priority == Jobs.MEDIUM && !form.autoFollowUp
    ensures form.companyName == "" && form.jobTitle == ""
    ensures form.notes == "" && form.contactName == "" && form.contactEmail == ""
    ensures form.contactPhone == "" && form.jobPostingUrl == ""
  {
    JobForm("", "", today, "", "", "", "", "", Jobs.MEDIUM, false)
  }

  const NotSignedInMessage := "You must be logged in to create a job."
  const RequiredFieldsMessage := "Company name and job title are required."
  const CreateFailedMessage := "Error creating job. Please try again."

  /** `!companyName.trim() || !jobTitle.trim()` */
  predicate MissingRequired(form: JobForm) {
    Trim(form.companyName) == "" || Trim(form.jobTitle) == ""
  }

  /** The required-fields check fails exactly when the company name or the title is all whitespace. */
  lemma MissingRequiredIff(form: JobForm)
    ensures MissingRequired(form) <==> AllWhitespace(form.companyName) || AllWhitespace(form.jobTitle)
  {
    TrimBlankIff(form.companyName);
    TrimBlankIff(form.jobTitle);
  }

  /** `text || undefined` for an optional input. */
  function OptionalInput(text: string): (o: Option<string>)
    ensures o == None <==> text == ""
    ensures o.Some? ==> o.value == text
  {
    if text == "" then None else Some(text)
  }

  /** The input behind an optional text property of a job. */
  function FormText(form: JobForm, f: Field): string
    requires Jobs.IsOptionalJobField(f)
  {
    match f
    case Notes => form.notes
    case ContactName => form.contactName
    case ContactEmail => form.contactEmail
    case ContactPhone => form.contactPhone
    case JobPostingUrl => form.jobPostingUrl
  }

  /** The `jobData` object `handleSubmit` hands to `createJob`. */
  function FormJobData(form: JobForm, date: Instant): (data: Jobs.JobData)
    ensures data.companyName == form.companyName && data.jobTitle == form.jobTitle
    ensures data.appliedDate == date
    ensures forall f | Jobs.IsOptionalJobField(f) :: Jobs.OptionalText(data, f) == OptionalInput(FormText(form, f))
    ensures data.priority == Some(form.priority) && data.autoFollowUp == Some(form.autoFollowUp)
  {
    Jobs.JobData(form.companyName, form.jobTitle, date,
      OptionalInput(form.notes), OptionalInput(form.contactName), OptionalInput(form.contactEmail),
      OptionalInput(form.contactPhone), OptionalInput(form.jobPostingUrl),
      Some(form.priority), Some(form.autoFollowUp))
  }

  /**
   * What a submitted form stores: the company name and title as typed (untrimmed),
   * the date, and the chosen priority and follow-up flag.
   */
  lemma SubmittedFormStored(uid: string, form: JobForm, date: Instant)
    ensures Lookup(Jobs.JobPayload(uid, FormJobData(form, date)), CompanyName) == Str(form.companyName)
    ensures Lookup(Jobs.JobPayload(uid, FormJobData(form, date)), JobTitle) == Str(form.jobTitle)
    ensures Lookup(Jobs.JobPayload(uid, FormJobData(form, date)), AppliedDate) == DateTime(date)
    ensures Lookup(Jobs.JobPayload(uid, FormJobData(form, date)), Priority) == Str(form.priority.Name())
    ensures Lookup(Jobs.JobPayload(uid, FormJobData(form, date)), AutoFollowUp) == Bool(form.autoFollowUp)
  {
    var data := FormJobData(form, date);
    Jobs.JobPayloadLookup(uid, data, CompanyName);
    Jobs.JobPayloadLookup(uid, data, JobTitle);
    Jobs.JobPayloadLookup(uid, data, AppliedDate);
    Jobs.JobPayloadLookup(uid, data, Priority);
    Jobs.JobPayloadLookup(uid, data, AutoFollowUp);
  }

  /** An optional text of a submitted form is stored exactly when its input is not empty, as typed. */
  lemma SubmittedFormOptionalTexts(uid: string, form: JobForm, date: Instant)
    ensures forall f | Jobs.IsOptionalJobField(f) ::
      && (f in Jobs.JobPayload(uid, FormJobData(form, date)) <==> FormText(form, f) != "")
      && Lookup(Jobs.JobPayload(uid, FormJobData(form, date)), f) == OrUndefined(FormText(form, f))
  {
    var data := FormJobData(form, date);
    forall f | Jobs.IsOptionalJobField(f)
      ensures && (f in Jobs.JobPayload(uid, data) <==> FormText(form, f) != "")
              && Lookup(Jobs.JobPayload(uid, data), f) == OrUndefined(FormText(form, f))
    {
      Jobs.JobPayloadLookup(uid, data, f);
    }
  }

  class JobCreatorModal {
    /** Which of the two components this is. */
    const reading: DateReading
    var form: JobForm
    var errorMessage: string
    /** Whether `onClose` was called. */
    var closed: bool

    /** The first render, on the day `today` (`new Date().toISOString().slice(0, 10)`). */
    constructor (reading: DateReading, today: string)
      ensures this.reading == reading && form == InitialForm(today)
      ensures errorMessage == "" && !closed
    {
      this.reading := reading;
      form := InitialForm(today);
      errorMessage := "";
      closed := false;
    }

    /** The inputs' `onChange` handlers set the form state and nothing else. */
    method EditForm(newForm: JobForm)
      modifies this
      ensures form == newForm
      ensures errorMessage == old(errorMessage) && closed == old(closed)
    {
      form := newForm;
    }

    /**
     * `handleSubmit`: the sign-in check, then the required-fields check, each setting
     * its message and writing nothing; then `createJob` with the form's data, which
     * closes the modal on success and sets the failure message otherwise. A success
     * leaves an earlier message in place.
     */
    method HandleSubmit(db: Firestore, user: Option<string>, now: int, newId: string, fails: bool)
      requires newId !in db.Collection(Jobs.JobsCollection)
      modifies this, db
      ensures form == old(form)
      ensures user.None? ==>
        errorMessage == NotSignedInMessage && closed == old(closed) && db.collections == old(db.collections)
      ensures user.Some? && MissingRequired(form) ==>
        errorMessage == RequiredFieldsMessage && closed == old(closed) && db.collections == old(db.collections)
      ensures user.Some? && !MissingRequired(form) && fails ==>
        errorMessage == CreateFailedMessage && closed == old(closed) && db.collections == old(db.collections)
      ensures user.Some? && !MissingRequired(form) && !fails ==>
        && closed && errorMessage == old(errorMessage)
        && db.collections == old(db.collections)[Jobs.JobsCollection :=
             old(db.Collection(Jobs.JobsCollection))[newId :=
               Jobs.JobPayload(user.value, FormJobData(form, SubmittedDate(reading, form.appliedDate, now)))]]
    {
      if user.None? {
        errorMessage := NotSignedInMessage;
        return;
      }
      if Trim(form.companyName) == "" || Trim(form.jobTitle) == "" {
        errorMessage := RequiredFieldsMessage;
        return;
      }
      var date := SubmittedDate(reading, form.appliedDate, now);
      var created := Jobs.CreateJob(db, user.value, FormJobData(form, date), newId, fails);
      if created.Ok? {
        closed := true;
      } else {
        errorMessage := CreateFailedMessage;
      }
    }
  }
}

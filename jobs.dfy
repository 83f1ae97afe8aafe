/**
 * Creating a job application record (lib/hooks/useJobs.ts): the payload fixes the
 * owner, the initial outcome and the defaults, drops the undefined entries, and is
 * added to the `jobs` collection.
 */
module Jobs {
  import opened Wrappers
  import opened Values
  import opened RemoteStore

  datatype Priority = LOW | MEDIUM | HIGH {
    function Name(): string {
      match this
      case LOW => "LOW"
      case MEDIUM => "MEDIUM"
      case HIGH => "HIGH"
    }
  }

  /** The caller's job data; an optional property is `None` when it is `undefined`. */
  datatype JobData = JobData(
    companyName: string,
    jobTitle: string,
    appliedDate: Instant,
    notes: Option<string>,
    contactName: Option<string>,
    contactEmail: Option<string>,
    contactPhone: Option<string>,
    jobPostingUrl: Option<string>,
    priority: Option<Priority>,
    autoFollowUp: Option<bool>)

  const JobsCollection := "jobs"

  /** The optional text properties of a job. */
  predicate IsOptionalJobField(f: Field) {
    f.Notes? || f.ContactName? || f.ContactEmail? || f.ContactPhone? || f.JobPostingUrl?
  }

  /** The properties of `JobData`. */
  predicate IsJobDataField(f: Field) {
    f.CompanyName? || f.JobTitle? || f.AppliedDate? || IsOptionalJobField(f) || f.Priority? || f.AutoFollowUp?
  }

  /** The properties `createJob` sets over the caller's data. */
  predicate IsJobOverride(f: Field) {
    f.UserId? || f.Outcome? || f.Priority? || f.AutoFollowUp? || f.CreatedAt?
  }

  function TextValue(o: Option<string>): Value {
    match o
    case Some(s) => Str(s)
    case None => Undefined
  }

  /** The value of an optional text property in the caller's data. */
  function OptionalText(data: JobData, f: Field): Option<string>
    requires IsOptionalJobField(f)
  {
    match f
    case Notes => data.notes
    case ContactName => data.contactName
    case ContactEmail => data.contactEmail
    case ContactPhone => data.contactPhone
    case JobPostingUrl => data.jobPostingUrl
  }

  function JobDataEntry(data: JobData, f: Field): Value
    requires IsJobDataField(f)
  {
    if IsOptionalJobField(f) then TextValue(OptionalText(data, f))
    else match f
      case CompanyName => Str(data.companyName)
      case JobTitle => Str(data.jobTitle)
      case AppliedDate => DateTime(data.appliedDate)
      case Priority => (match data.priority case Some(p) => Str(p.Name()) case None => Undefined)
      case AutoFollowUp => (match data.autoFollowUp case Some(b) => Bool(b) case None => Undefined)
  }

  /** `{ ...jobData }` as an object: every declared property, `undefined` where absent. */
  function JobDataObject(data: JobData): Doc {
    map f | IsJobDataField(f) :: JobDataEntry(data, f)
  }

  /** `userId: uid, outcome: 'Applied', priority: priority || 'MEDIUM', autoFollowUp: autoFollowUp ?? false, createdAt` */
  function JobOverride(uid: string, data: JobData, f: Field): Value
    requires IsJobOverride(f)
  {
    match f
    case UserId => Str(uid)
    case Outcome => Str("Applied")
    case Priority => Str(data.priority.GetOr(MEDIUM).Name())
    case AutoFollowUp => Bool(data.autoFollowUp.GetOr(false))
    case CreatedAt => ServerTimestamp
  }

  function JobOverrides(uid: string, data: JobData): Doc {
    map f | IsJobOverride(f) :: JobOverride(uid, data, f)
  }

  /** The record `createJob` writes for the user `uid`: data, then overrides, then no undefined entries. */
  function JobPayload(uid: string, data: JobData): Doc {
    RemoveUndefinedFields(JobDataObject(data) + JobOverrides(uid, data))
  }

  /** The properties every created job carries. */
  predicate IsRequiredJobField(f: Field) {
    f.CompanyName? || f.JobTitle? || f.AppliedDate? || IsJobOverride(f)
  }

  /** A property of the payload is the override if there is one, else the caller's value, and is present unless undefined. */
  lemma JobPayloadLookup(uid: string, data: JobData, f: Field)
    ensures Lookup(JobPayload(uid, data), f) ==
      if IsJobOverride(f) then JobOverride(uid, data, f)
      else if IsJobDataField(f) then JobDataEntry(data, f)
      else Undefined
    ensures f in JobPayload(uid, data) <==> Lookup(JobPayload(uid, data), f) != Undefined
  {
    RemoveUndefinedFieldsPreservesReads(JobDataObject(data) + JobOverrides(uid, data), f);
    LookupSpread(JobDataObject(data), JobOverrides(uid, data), f);
  }

  /**
   * The payload holds no undefined value, holds every required property, and holds an
   * optional text property exactly when the caller gave it; nothing else.
   */
  lemma JobPayloadShape(uid: string, data: JobData)
    ensures NoUndefined(JobPayload(uid, data))
    ensures forall f :: IsRequiredJobField(f) ==> f in JobPayload(uid, data)
    ensures forall f :: IsOptionalJobField(f) ==> (f in JobPayload(uid, data) <==> OptionalText(data, f).Some?)
    ensures forall f :: f in JobPayload(uid, data) ==> IsRequiredJobField(f) || IsOptionalJobField(f)
  {
    forall f ensures
      && (IsRequiredJobField(f) ==> f in JobPayload(uid, data))
      && (IsOptionalJobField(f) ==> (f in JobPayload(uid, data) <==> OptionalText(data, f).Some?))
      && (f in JobPayload(uid, data) ==> IsRequiredJobField(f) || IsOptionalJobField(f))
    {
      JobPayloadLookup(uid, data, f);
    }
  }

  /** Whatever the caller passes, the owner is the current user, the outcome is Applied and the defaults fill in. */
  lemma JobPayloadDefaults(uid: string, data: JobData)
    ensures Lookup(JobPayload(uid, data), UserId) == Str(uid)
    ensures Lookup(JobPayload(uid, data), Outcome) == Str("Applied")
    ensures Lookup(JobPayload(uid, data), Priority) ==
      Str(if data.priority.Some? then data.priority.value.Name() else "MEDIUM")
    ensures Lookup(JobPayload(uid, data), AutoFollowUp) == Bool(data.autoFollowUp == Some(true))
    ensures Lookup(JobPayload(uid, data), CreatedAt) == ServerTimestamp
  {
    JobPayloadLookup(uid, data, UserId);
    JobPayloadLookup(uid, data, Outcome);
    JobPayloadLookup(uid, data, Priority);
    JobPayloadLookup(uid, data, AutoFollowUp);
    JobPayloadLookup(uid, data, CreatedAt);
  }

  /** The caller's company name, title, applied date and given optional texts are written unchanged. */
  lemma JobPayloadCopiesData(uid: string, data: JobData)
    ensures Lookup(JobPayload(uid, data), CompanyName) == Str(data.companyName)
    ensures Lookup(JobPayload(uid, data), JobTitle) == Str(data.jobTitle)
    ensures Lookup(JobPayload(uid, data), AppliedDate) == DateTime(data.appliedDate)
    ensures forall f :: IsOptionalJobField(f) ==> Lookup(JobPayload(uid, data), f) == TextValue(OptionalText(data, f))
  {
    JobPayloadLookup(uid, data, CompanyName);
    JobPayloadLookup(uid, data, JobTitle);
    JobPayloadLookup(uid, data, AppliedDate);
    forall f | IsOptionalJobField(f) ensures Lookup(JobPayload(uid, data), f) == TextValue(OptionalText(data, f)) {
      JobPayloadLookup(uid, data, f);
    }
  }

  /** `createJob(currentUser, jobData)`: adds the payload under the id the store generates. */
  method CreateJob(db: Firestore, uid: string, data: JobData, newId: string, fails: bool)
    returns (r: Result<DocRef, StoreError>)
    requires newId !in db.Collection(JobsCollection)
    modifies db
    ensures fails ==> r == Err(Unavailable) && db.collections == old(db.collections)
    ensures !fails ==>
      && r == Ok(DocRef(JobsCollection, newId))
      && db.collections == old(db.collections)[JobsCollection :=
           old(db.Collection(JobsCollection))[newId := JobPayload(uid, data)]]
  {
    r := db.AddDoc(JobsCollection, JobPayload(uid, data), newId, fails);
  }

  /** The created job, read back by a list as `{ id, ...data }`, carries the generated id. */
  lemma CreatedJobReadsBackWithItsId(uid: string, data: JobData, newId: string)
    ensures Lookup(WithId(newId, JobPayload(uid, data)), Id) == Str(newId)
    ensures Lookup(WithId(newId, JobPayload(uid, data)), UserId) == Str(uid)
  {
  }
}

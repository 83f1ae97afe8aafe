/**
 * Creating an interview record (lib/hooks/useInterview.ts): the payload fixes the
 * owner and the creation time, drops the undefined entries and is added to the
 * `interviews` collection; then the parent job's outcome is set to Interview.
 */
module Interviews {
  import opened Wrappers
  import opened Values
  import opened RemoteStore
  import Jobs

  /** The caller's interview data; an optional property is `None` when it is `undefined`. */
  datatype InterviewData = InterviewData(
    jobId: string,
    userId: string,
    interviewDateTime: Instant,
    interviewers: Option<string>,
    contactInfo: Option<string>,
    notes: Option<string>)

  const InterviewsCollection := "interviews"

  /** The update written to the parent job. */
  const InterviewOutcome: Doc := map[Outcome := Str("Interview")]

  /** The optional text properties of an interview. */
  predicate IsOptionalInterviewField(f: Field) {
    f.Interviewers? || f.ContactInfo? || f.Notes?
  }

  /** The properties of `InterviewData`. */
  predicate IsInterviewDataField(f: Field) {
    f.JobId? || f.UserId? || f.InterviewDateTime? || IsOptionalInterviewField(f)
  }

  /** The properties `createInterview` sets over the caller's data. */
  predicate IsInterviewOverride(f: Field) {
    f.UserId? || f.CreatedAt?
  }

  /** The value of an optional text property in the caller's data. */
  function OptionalText(data: InterviewData, f: Field): Option<string>
    requires IsOptionalInterviewField(f)
  {
    match f
    case Interviewers => data.interviewers
    case ContactInfo => data.contactInfo
    case Notes => data.notes
  }

  function InterviewDataEntry(data: InterviewData, f: Field): Value
    requires IsInterviewDataField(f)
  {
    if IsOptionalInterviewField(f) then Jobs.TextValue(OptionalText(data, f))
    else match f
      case JobId => Str(data.jobId)
      case UserId => Str(data.userId)
      case InterviewDateTime => DateTime(data.interviewDateTime)
  }

  /** `{ ...data }` as an object: every declared property, `undefined` where absent. */
  function InterviewDataObject(data: InterviewData): Doc {
    map f | IsInterviewDataField(f) :: InterviewDataEntry(data, f)
  }

  function InterviewOverride(uid: string, f: Field): Value
    requires IsInterviewOverride(f)
  {
    match f
    case UserId => Str(uid)
    case CreatedAt => ServerTimestamp
  }

  /** `userId: currentUser.uid, createdAt: serverTimestamp()` */
  function InterviewOverrides(uid: string): Doc {
    map f | IsInterviewOverride(f) :: InterviewOverride(uid, f)
  }

  /** The record `createInterview` writes for the user `uid`. */
  function InterviewPayload(uid: string, data: InterviewData): Doc {
    RemoveUndefinedFields(InterviewDataObject(data) + InterviewOverrides(uid))
  }

  /** A property of the payload is the override if there is one, else the caller's value, and is present unless undefined. */
  lemma InterviewPayloadLookup(uid: string, data: InterviewData, f: Field)
    ensures Lookup(InterviewPayload(uid, data), f) ==
      if IsInterviewOverride(f) then InterviewOverride(uid, f)
      else if IsInterviewDataField(f) then InterviewDataEntry(data, f)
      else Undefined
    ensures f in InterviewPayload(uid, data) <==> Lookup(InterviewPayload(uid, data), f) != Undefined
  {
    RemoveUndefinedFieldsPreservesReads(InterviewDataObject(data) + InterviewOverrides(uid), f);
    LookupSpread(InterviewDataObject(data), InterviewOverrides(uid), f);
  }

  /**
   * The stored interview belongs to the current user whatever `userId` the caller
   * passed, and carries the job id, the date and the given optional texts unchanged.
   */
  lemma InterviewPayloadContents(uid: string, data: InterviewData)
    ensures Lookup(InterviewPayload(uid, data), UserId) == Str(uid)
    ensures Lookup(InterviewPayload(uid, data), CreatedAt) == ServerTimestamp
    ensures Lookup(InterviewPayload(uid, data), JobId) == Str(data.jobId)
    ensures Lookup(InterviewPayload(uid, data), InterviewDateTime) == DateTime(data.interviewDateTime)
    ensures forall f :: IsOptionalInterviewField(f) ==> Lookup(InterviewPayload(uid, data), f) == Jobs.TextValue(OptionalText(data, f))
  {
    InterviewPayloadLookup(uid, data, UserId);
    InterviewPayloadLookup(uid, data, CreatedAt);
    InterviewPayloadLookup(uid, data, JobId);
    InterviewPayloadLookup(uid, data, InterviewDateTime);
    forall f | IsOptionalInterviewField(f) ensures Lookup(InterviewPayload(uid, data), f) == Jobs.TextValue(OptionalText(data, f)) {
      InterviewPayloadLookup(uid, data, f);
    }
  }

  /** The payload holds no undefined value, an optional text exactly when given, and no property outside the interview's. */
  lemma InterviewPayloadShape(uid: string, data: InterviewData)
    ensures NoUndefined(InterviewPayload(uid, data))
    ensures forall f :: IsOptionalInterviewField(f) ==> (f in InterviewPayload(uid, data) <==> OptionalText(data, f).Some?)
    ensures forall f :: f in InterviewPayload(uid, data) <==> (IsInterviewDataField(f) || IsInterviewOverride(f)) && (IsOptionalInterviewField(f) ==> OptionalText(data, f).Some?)
  {
    forall f ensures f in InterviewPayload(uid, data) <==> (IsInterviewDataField(f) || IsInterviewOverride(f)) && (IsOptionalInterviewField(f) ==> OptionalText(data, f).Some?) {
      InterviewPayloadLookup(uid, data, f);
    }
  }

  /**
   * `createInterview(currentUser, data)`: adds the payload under the id the store
   * generates, then sets the outcome of the job `data.jobId` to Interview. The job
   * is written only after the insert succeeded; when that second write fails the
   * inserted interview stays and the call reports the failure.
   */
  method CreateInterview(db: Firestore, uid: string, data: InterviewData, newId: string, insertFails: bool, updateFails: bool)
    returns (r: Result<DocRef, StoreError>)
    requires newId !in db.Collection(InterviewsCollection)
    modifies db
    ensures insertFails ==> r == Err(Unavailable) && db.collections == old(db.collections)
    ensures !insertFails ==>
      db.Collection(InterviewsCollection) == old(db.Collection(InterviewsCollection))[newId := InterviewPayload(uid, data)]
    ensures !insertFails && !updateFails && data.jobId in old(db.Collection(Jobs.JobsCollection)) ==>
      && r == Ok(DocRef(InterviewsCollection, newId))
      && db.Collection(Jobs.JobsCollection) == old(db.Collection(Jobs.JobsCollection))[data.jobId :=
           old(db.Collection(Jobs.JobsCollection))[data.jobId][Outcome := Str("Interview")]]
    ensures !insertFails && updateFails ==> r == Err(Unavailable)
    ensures !insertFails && !updateFails && data.jobId !in old(db.Collection(Jobs.JobsCollection)) ==> r == Err(NotFound)
    ensures r.Err? ==> db.Collection(Jobs.JobsCollection) == old(db.Collection(Jobs.JobsCollection))
    ensures forall c | c != InterviewsCollection && c != Jobs.JobsCollection :: db.Collection(c) == old(db.Collection(c))
  {
    var added := db.AddDoc(InterviewsCollection, InterviewPayload(uid, data), newId, insertFails);
    if added.Err? {
      return Err(added.error);
    }
    ghost var jobs := db.Collection(Jobs.JobsCollection);
    var updated := db.UpdateDoc(DocRef(Jobs.JobsCollection, data.jobId), InterviewOutcome, updateFails);
    if updated.Err? {
      return Err(updated.error);
    }
    assert jobs[data.jobId] + InterviewOutcome == jobs[data.jobId][Outcome := Str("Interview")];
    r := added;
  }
}

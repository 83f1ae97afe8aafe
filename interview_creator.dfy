/**
 * The interview creation form (components/ui/modals/InterviewCreatorModal.tsx):
 * a required date and time and three optional texts, submitted through
 * `createInterview` for the job the form was opened on.
 */
module InterviewCreator {
  import opened Wrappers
  import opened Values
  import opened RemoteStore
  import Jobs
  import Interviews

  /** The state of the form's inputs. */
  datatype InterviewForm = InterviewForm(dateTime: string, interviewers: string, contactInfo: string, notes: string)

  const EmptyForm := InterviewForm("", "", "", "")

  const NotSignedInMessage := "You must be logged in to add an interview."
  const DateTimeRequiredMessage := "Interview date and time are required."
  const CreateFailedMessage := "Failed to create interview. Please try again."

  /**
   * The data handed to `createInterview`: the job the form belongs to, the signed-in
   * user, `new Date(dateTime)`, and the three texts as typed, empty ones included.
   */
  function FormInterviewData(jobId: string, uid: string, form: InterviewForm): (data: Interviews.InterviewData)
    ensures data.jobId == jobId && data.userId == uid
    ensures data.interviewDateTime == Parsed(form.dateTime)
    ensures data.interviewers == Some(form.interviewers)
    ensures data.contactInfo == Some(form.contactInfo)
    ensures data.notes == Some(form.notes)
  {
    Interviews.InterviewData(jobId, uid, Parsed(form.dateTime),
      Some(form.interviewers), Some(form.contactInfo), Some(form.notes))
  }

  /**
   * A submitted interview is stored for the job and the user with its date, and with
   * all three texts as typed: an empty one is stored as an empty text, not dropped.
   */
  lemma SubmittedInterviewStored(jobId: string, uid: string, form: InterviewForm)
    ensures Lookup(Interviews.InterviewPayload(uid, FormInterviewData(jobId, uid, form)), JobId) == Str(jobId)
    ensures Lookup(Interviews.InterviewPayload(uid, FormInterviewData(jobId, uid, form)), UserId) == Str(uid)
    ensures Lookup(Interviews.InterviewPayload(uid, FormInterviewData(jobId, uid, form)), InterviewDateTime) ==
      DateTime(Parsed(form.dateTime))
    ensures Interviewers in Interviews.InterviewPayload(uid, FormInterviewData(jobId, uid, form))
    ensures Lookup(Interviews.InterviewPayload(uid, FormInterviewData(jobId, uid, form)), Interviewers) == Str(form.interviewers)
    ensures ContactInfo in Interviews.InterviewPayload(uid, FormInterviewData(jobId, uid, form))
    ensures Lookup(Interviews.InterviewPayload(uid, FormInterviewData(jobId, uid, form)), ContactInfo) == Str(form.contactInfo)
    ensures Notes in Interviews.InterviewPayload(uid, FormInterviewData(jobId, uid, form))
    ensures Lookup(Interviews.InterviewPayload(uid, FormInterviewData(jobId, uid, form)), Notes) == Str(form.notes)
  {
    var data := FormInterviewData(jobId, uid, form);
    Interviews.InterviewPayloadLookup(uid, data, JobId);
    Interviews.InterviewPayloadLookup(uid, data, UserId);
    Interviews.InterviewPayloadLookup(uid, data, InterviewDateTime);
    Interviews.InterviewPayloadLookup(uid, data, Interviewers);
    Interviews.InterviewPayloadLookup(uid, data, ContactInfo);
    Interviews.InterviewPayloadLookup(uid, data, Notes);
  }

  class InterviewCreatorModal {
    /** The `jobId` prop. */
    const jobId: string
    var form: InterviewForm
    var errorMessage: string
    /** Whether `onClose` was called. */
    var closed: bool

    constructor (jobId: string)
      ensures this.jobId == jobId && form == EmptyForm && errorMessage == "" && !closed
    {
      this.jobId := jobId;
      form := EmptyForm;
      errorMessage := "";
      closed := false;
    }

    /** The inputs' `onChange` handlers set the form state and nothing else. */
    method EditForm(newForm: InterviewForm)
      modifies this
      ensures form == newForm
      ensures errorMessage == old(errorMessage) && closed == old(closed)
    {
      form := newForm;
    }

    /**
     * `handleSubmit`: the sign-in check, then the date check, each setting its
     * message and writing nothing; then `createInterview`. The modal closes only when
     * both of its writes succeed. When the job update fails the interview is already
     * stored, yet the failure message is shown.
     */
    method HandleSubmit(db: Firestore, user: Option<string>, newId: string, insertFails: bool, updateFails: bool)
      requires newId !in db.Collection(Interviews.InterviewsCollection)
      modifies this, db
      ensures form == old(form)
      ensures user.None? ==>
        errorMessage == NotSignedInMessage && closed == old(closed) && db.collections == old(db.collections)
      ensures user.Some? && form.dateTime == "" ==>
        errorMessage == DateTimeRequiredMessage && closed == old(closed) && db.collections == old(db.collections)
      ensures user.Some? && form.dateTime != "" && insertFails ==>
        errorMessage == CreateFailedMessage && closed == old(closed) && db.collections == old(db.collections)
      ensures user.Some? && form.dateTime != "" && !insertFails ==>
        db.Collection(Interviews.InterviewsCollection) == old(db.Collection(Interviews.InterviewsCollection))[newId :=
          Interviews.InterviewPayload(user.value, FormInterviewData(jobId, user.value, form))]
      ensures user.Some? && form.dateTime != "" && !insertFails ==>
        if !updateFails && jobId in old(db.Collection(Jobs.JobsCollection)) then
          && closed && errorMessage == old(errorMessage)
          && db.Collection(Jobs.JobsCollection) == old(db.Collection(Jobs.JobsCollection))[jobId :=
               old(db.Collection(Jobs.JobsCollection))[jobId][Outcome := Str("Interview")]]
        else
          && errorMessage == CreateFailedMessage && closed == old(closed)
          && db.Collection(Jobs.JobsCollection) == old(db.Collection(Jobs.JobsCollection))
    ensures forall c | c != Interviews.InterviewsCollection && c != Jobs.JobsCollection :: db.Collection(c) == old(db.Collection(c))
    {
      if user.None? {
        errorMessage := NotSignedInMessage;
        return;
      }
      if form.dateTime == "" {
        errorMessage := DateTimeRequiredMessage;
        return;
      }
      var data := FormInterviewData(jobId, user.value, form);
      var created := Interviews.CreateInterview(db, user.value, data, newId, insertFails, updateFails);
      if created.Ok? {
        closed := true;
      } else {
        errorMessage := CreateFailedMessage;
      }
    }
  }
}

/**
 * The job details modal (components/ui/modals/JobDetailModal.tsx): projects the
 * stored job onto its editable keys, feeds the edit overlay with it, and persists
 * a save by a guarded `updateDoc` whose errors are logged and swallowed.
 */
module JobDetail {
  import opened Wrappers
  import opened Values
  import opened RemoteStore
  import opened EditOverlay
  import Jobs

  /** `editableJob`: the id and the ten editable properties of the job; the timestamps are dropped. */
  function EditableProjection(job: Doc): (editable: Doc)
    ensures forall f :: f in editable <==> IsEditableField(f)
  {
    map f | IsEditableField(f) :: Lookup(job, f)
  }

  /**
   * Every editable property reads the same through the projection, the applied and
   * creation dates are not part of it, and projecting twice changes nothing.
   */
  lemma EditableProjectionFaithful(job: Doc)
    ensures forall f | IsEditableField(f) :: Lookup(EditableProjection(job), f) == Lookup(job, f)
    ensures AppliedDate !in EditableProjection(job) && CreatedAt !in EditableProjection(job)
    ensures EditableProjection(EditableProjection(job)) == EditableProjection(job)
  {
    var p := EditableProjection(job);
    assert forall f | IsEditableField(f) :: Lookup(EditableProjection(p), f) == Lookup(p, f);
  }

  /**
   * `updateEditableJob(updates)`: nothing without a signed-in user; otherwise
   * `updateDoc(jobs/jobId, updates)`, whose rejection is caught, so the call always
   * resolves.
   */
  method UpdateEditableJob(db: Firestore, user: Option<string>, jobId: string, updates: Doc, fails: bool)
    modifies db
    ensures var jobs := old(db.Collection(Jobs.JobsCollection));
      if user.Some? && !fails && NoUndefined(updates) && jobId in jobs then
        db.collections == old(db.collections)[Jobs.JobsCollection := jobs[jobId := jobs[jobId] + updates]]
      else
        db.collections == old(db.collections)
  {
    if user.None? {
      return;
    }
    var outcome := db.UpdateDoc(DocRef(Jobs.JobsCollection, jobId), updates, fails);
  }

  /**
   * The Save Changes button: `handleSaveChanges` of the overlay with
   * `updateEditableJob` as its callback. The diff is written when it is non-empty,
   * and since the callback never rejects, the overlay is always cleared.
   */
  method SaveChanges(overlay: EditableFieldsHook, db: Firestore, user: Option<string>, jobId: string, fails: bool)
    requires overlay.Valid()
    requires Lookup(overlay.initialJob, Id) == Str(jobId)
    modifies overlay, db
    ensures overlay.Valid()
    ensures !overlay.hasChanges && overlay.editingFields == AllFlagsOff()
    ensures overlay.localJob == old(overlay.localJob) && overlay.initialJob == old(overlay.initialJob)
    ensures var updates := ChangedFields(old(overlay.editingFields).Keys, old(overlay.localJob), old(overlay.initialJob));
      var jobs := old(db.Collection(Jobs.JobsCollection));
      if updates != map[] && user.Some? && !fails && NoUndefined(updates) && jobId in jobs then
        db.collections == old(db.collections)[Jobs.JobsCollection := jobs[jobId := jobs[jobId] + updates]]
      else
        db.collections == old(db.collections)
    ensures var updates := ChangedFields(old(overlay.editingFields).Keys, old(overlay.localJob), old(overlay.initialJob));
      var jobs := old(db.Collection(Jobs.JobsCollection));
      jobId in jobs && old(overlay.initialJob) == EditableProjection(WithId(jobId, jobs[jobId])) &&
      user.Some? && !fails && NoUndefined(updates) ==>
        && jobId in db.Collection(Jobs.JobsCollection)
        && forall f | IsEditableField(f) ::
             Lookup(WithId(jobId, db.Collection(Jobs.JobsCollection)[jobId]), f) == Lookup(old(overlay.localJob), f)
  {
    ghost var jobs := db.Collection(Jobs.JobsCollection);
    ghost var localJob := overlay.localJob;
    ghost var keys := overlay.editingFields.Keys;
    assert keys == AllFlagsOff().Keys;
    var updates := overlay.PendingUpdates();
    if |updates| > 0 {
      UpdateEditableJob(db, user, jobId, updates, fails);
    }
    overlay.FinishSave();
    if jobId in jobs && overlay.initialJob == EditableProjection(WithId(jobId, jobs[jobId])) &&
       user.Some? && !fails && NoUndefined(updates) {
      forall f | IsEditableField(f)
        ensures Lookup(WithId(jobId, db.Collection(Jobs.JobsCollection)[jobId]), f) == Lookup(localJob, f)
      {
        SavedJobReadsBack(jobId, jobs[jobId], localJob, f);
        if updates == map[] {
          ChangedFieldsEmptyIff(keys, localJob, overlay.initialJob);
          EditableProjectionFaithful(WithId(jobId, jobs[jobId]));
        }
      }
    }
  }

  /**
   * Saving a working copy of a job whose stored record is `stored`: after the diff
   * is merged, the stored record reads like the working copy on every editable key
   * and is unchanged elsewhere (the dates in particular).
   */
  lemma SavedJobMatchesWorkingCopy(stored: Doc, localJob: Doc, f: Field)
    ensures var updates := ChangedFields(AllFlagsOff().Keys, localJob, EditableProjection(stored));
      && (IsEditableField(f) ==> Lookup(stored + updates, f) == Lookup(localJob, f))
      && (!IsEditableField(f) ==> Lookup(stored + updates, f) == Lookup(stored, f))
  {
    var updates := ChangedFields(AllFlagsOff().Keys, localJob, EditableProjection(stored));
    EditableProjectionFaithful(stored);
    LookupSpread(stored, updates, f);
  }

  /**
   * The same for a job as the list delivers it, `{ id, ...data }`: once the diff is
   * merged into the stored data, the job read back under its id agrees with the
   * working copy on every editable key.
   */
  lemma SavedJobReadsBack(id: string, data: Doc, localJob: Doc, f: Field)
    requires IsEditableField(f)
    ensures var updates := ChangedFields(AllFlagsOff().Keys, localJob, EditableProjection(WithId(id, data)));
      Lookup(WithId(id, data + updates), f) == Lookup(localJob, f)
  {
    var updates := ChangedFields(AllFlagsOff().Keys, localJob, EditableProjection(WithId(id, data)));
    assert WithId(id, data + updates) == WithId(id, data) + updates;
    SavedJobMatchesWorkingCopy(WithId(id, data), localJob, f);
  }

  /**
   * Saving again once the saved job has become the baseline sends nothing: the diff
   * of the unchanged working copy against the projection of the merged record is empty.
   */
  lemma SecondSaveSendsNothing(stored: Doc, localJob: Doc)
    ensures var updates := ChangedFields(AllFlagsOff().Keys, localJob, EditableProjection(stored));
      ChangedFields(AllFlagsOff().Keys, localJob, EditableProjection(stored + updates)) == map[]
  {
    var updates := ChangedFields(AllFlagsOff().Keys, localJob, EditableProjection(stored));
    var saved := stored + updates;
    forall f | f in AllFlagsOff().Keys
      ensures Lookup(localJob, f) == Lookup(EditableProjection(saved), f)
    {
      SavedJobMatchesWorkingCopy(stored, localJob, f);
      EditableProjectionFaithful(saved);
    }
    ChangedFieldsEmptyIff(AllFlagsOff().Keys, localJob, EditableProjection(saved));
  }

  datatype DetailAction = SaveChangesButton | CloseButton

  /** The buttons of the modal: Save Changes only while there are changes, Close always, last. */
  function Actions(hasChanges: bool): (actions: seq<DetailAction>)
    ensures SaveChangesButton in actions <==> hasChanges
    ensures |actions| > 0 && actions[|actions| - 1] == CloseButton
  {
    (if hasChanges then [SaveChangesButton] else []) + [CloseButton]
  }
}

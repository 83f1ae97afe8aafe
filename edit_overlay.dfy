/**
 * The per-field edit overlay of a job (lib/hooks/useEditableFields.tsx): a working
 * copy of the editable job, one edit-mode flag per editable key and a `hasChanges`
 * bit. Saving sends the keys whose working value differs from the job the hook was
 * last given, and only when there is at least one.
 */
module EditOverlay {
  import opened Wrappers
  import opened Values

  /** The keys of `EditableJob`, which are also the keys of the edit-mode flags. */
  predicate IsEditableField(f: Field) {
    || f.Id? || f.CompanyName? || f.JobTitle? || f.Outcome? || f.Notes? || f.ContactName?
    || f.ContactEmail? || f.ContactPhone? || f.JobPostingUrl? || f.Priority? || f.AutoFollowUp?
  }

  /** The initial flags: one per editable key, all off. */
  function AllFlagsOff(): (flags: map<Field, bool>)
    ensures forall f :: f in flags <==> IsEditableField(f)
    ensures forall f | f in flags :: !flags[f]
  {
    map f | IsEditableField(f) :: false
  }

  /** The flags `resetEditing` builds from the previous ones: the same keys, every value false. */
  function Cleared(flags: map<Field, bool>): (r: map<Field, bool>)
    ensures r.Keys == flags.Keys
    ensures forall f | f in r :: !r[f]
  {
    map f | f in flags :: false
  }

  /** `{ ...prev, [field]: !prev[field] }` */
  function Toggled(flags: map<Field, bool>, f: Field): (r: map<Field, bool>)
    requires f in flags
    ensures r.Keys == flags.Keys
    ensures r[f] == !flags[f]
    ensures forall g | g in flags && g != f :: r[g] == flags[g]
  {
    flags[f := !flags[f]]
  }

  /** Toggling the same flag twice restores every flag. */
  lemma ToggledTwice(flags: map<Field, bool>, f: Field)
    requires f in flags
    ensures Toggled(Toggled(flags, f), f) == flags
  {
    var r := Toggled(Toggled(flags, f), f);
    assert forall g | g in flags :: r[g] == flags[g];
  }

  /** Clearing a full set of flags gives the initial flags. */
  lemma ClearedIsAllOff(flags: map<Field, bool>)
    requires forall f :: f in flags <==> IsEditableField(f)
    ensures Cleared(flags) == AllFlagsOff()
  {
    assert Cleared(flags).Keys == AllFlagsOff().Keys;
  }

  /**
   * The save diff: the keys among `keys` whose working value is not strictly equal
   * to the baseline's, each carrying its working value (possibly `undefined`).
   */
  function ChangedFields(keys: set<Field>, local: Doc, baseline: Doc): (updates: Doc)
    ensures forall f :: f in updates <==> f in keys && Lookup(local, f) != Lookup(baseline, f)
    ensures forall f | f in updates :: updates[f] == Lookup(local, f)
  {
    map f | f in keys && Lookup(local, f) != Lookup(baseline, f) :: Lookup(local, f)
  }

  /** The diff is empty exactly when the working copy agrees with the baseline on every key. */
  lemma ChangedFieldsEmptyIff(keys: set<Field>, local: Doc, baseline: Doc)
    ensures ChangedFields(keys, local, baseline) == map[] <==> forall f | f in keys :: Lookup(local, f) == Lookup(baseline, f)
  {
    if ChangedFields(keys, local, baseline) == map[] {
      forall f | f in keys ensures Lookup(local, f) == Lookup(baseline, f) {
        assert f !in ChangedFields(keys, local, baseline);
      }
    }
  }

  /**
   * Merging the diff into the baseline reproduces the working copy on every key and
   * leaves the baseline's other properties as they were.
   */
  lemma ChangedFieldsApplied(keys: set<Field>, local: Doc, baseline: Doc, f: Field)
    ensures f in keys ==> Lookup(baseline + ChangedFields(keys, local, baseline), f) == Lookup(local, f)
    ensures f !in keys ==> Lookup(baseline + ChangedFields(keys, local, baseline), f) == Lookup(baseline, f)
  {
    LookupSpread(baseline, ChangedFields(keys, local, baseline), f);
  }

  class EditableFieldsHook {
    /** The `initialJob` argument of the latest render: the baseline of the diff. */
    var initialJob: Doc
    var localJob: Doc
    var editingFields: map<Field, bool>
    var hasChanges: bool

    /** The flags always hold exactly the editable keys. */
    predicate Valid()
      reads this
    {
      forall f :: f in editingFields <==> IsEditableField(f)
    }

    /** The first render: the working copy is the job, every flag is off, nothing changed. */
    constructor (initialJob: Doc)
      ensures Valid()
      ensures this.initialJob == initialJob && localJob == initialJob
      ensures editingFields == AllFlagsOff() && !hasChanges
    {
      this.initialJob := initialJob;
      localJob := initialJob;
      editingFields := AllFlagsOff();
      hasChanges := false;
    }

    /**
     * A later render with `job`. The effect keyed on `initialJob.id` resets the
     * overlay only when the id differs; new data under the same id becomes the
     * baseline but leaves the working copy alone.
     */
    method InitialJobChanged(job: Doc)
      requires Valid()
      modifies this
      ensures Valid()
      ensures initialJob == job
      ensures Lookup(job, Id) != Lookup(old(initialJob), Id) ==>
        localJob == job && !hasChanges && editingFields == AllFlagsOff()
      ensures Lookup(job, Id) == Lookup(old(initialJob), Id) ==>
        localJob == old(localJob) && hasChanges == old(hasChanges) && editingFields == old(editingFields)
    {
      var idChanged := Lookup(job, Id) != Lookup(initialJob, Id);
      initialJob := job;
      if idChanged {
        localJob := job;
        hasChanges := false;
        ResetEditing();
        ClearedIsAllOff(old(editingFields));
      }
    }

    /** `handleFieldClick(field)`: flips the edit mode of `field` alone. */
    method HandleFieldClick(field: Field)
      requires Valid() && IsEditableField(field)
      modifies this
      ensures Valid()
      ensures editingFields == Toggled(old(editingFields), field)
      ensures localJob == old(localJob) && hasChanges == old(hasChanges) && initialJob == old(initialJob)
    {
      editingFields := Toggled(editingFields, field);
    }

    /** `handleChange(field, value)`: sets `field` whatever its flag, and marks a change even if the value is the same. */
    method HandleChange(field: Field, value: string)
      requires IsEditableField(field)
      modifies this
      ensures localJob == old(localJob)[field := Str(value)] && hasChanges
      ensures editingFields == old(editingFields) && initialJob == old(initialJob)
    {
      localJob := localJob[field := Str(value)];
      hasChanges := true;
    }

    /** `handleBooleanChange(field, value)` */
    method HandleBooleanChange(field: Field, value: bool)
      requires IsEditableField(field)
      modifies this
      ensures localJob == old(localJob)[field := Bool(value)] && hasChanges
      ensures editingFields == old(editingFields) && initialJob == old(initialJob)
    {
      localJob := localJob[field := Bool(value)];
      hasChanges := true;
    }

    /** `resetEditing()`: every flag of the previous flags set to false, one key at a time. */
    method ResetEditing()
      modifies this
      ensures editingFields == Cleared(old(editingFields))
      ensures localJob == old(localJob) && hasChanges == old(hasChanges) && initialJob == old(initialJob)
    {
      var reset := editingFields;
      var pending := editingFields.Keys;
      while pending != {}
        invariant pending <= editingFields.Keys
        invariant reset.Keys == editingFields.Keys
        invariant forall f | f in reset :: reset[f] == (f in pending && editingFields[f])
        decreases pending
      {
        var f :| f in pending;
        reset := reset[f := false];
        pending := pending - {f};
      }
      editingFields := reset;
    }

    /** The `updates` object `handleSaveChanges` builds, one flag key at a time, before it calls back. */
    method PendingUpdates() returns (updates: Doc)
      ensures updates == ChangedFields(editingFields.Keys, localJob, initialJob)
    {
      updates := map[];
      var pending := editingFields.Keys;
      while pending != {}
        invariant pending <= editingFields.Keys
        invariant forall f :: f in updates <==>
          f in editingFields.Keys && f !in pending && Lookup(localJob, f) != Lookup(initialJob, f)
        invariant forall f | f in updates :: updates[f] == Lookup(localJob, f)
        decreases pending
      {
        var field :| field in pending;
        var newValue := Lookup(localJob, field);
        var oldValue := Lookup(initialJob, field);
        if newValue != oldValue {
          updates := updates[field := newValue];
        }
        pending := pending - {field};
      }
    }

    /** The steps after the callback resolved: `setHasChanges(false)` and `resetEditing()`. */
    method FinishSave()
      requires Valid()
      modifies this
      ensures Valid()
      ensures !hasChanges && editingFields == AllFlagsOff()
      ensures localJob == old(localJob) && initialJob == old(initialJob)
    {
      hasChanges := false;
      ResetEditing();
      ClearedIsAllOff(old(editingFields));
    }

    /**
     * `handleSaveChanges()` with a callback that resolves unless `persistRejects`.
     * The callback receives the diff exactly when it is non-empty (`sent`); the
     * overlay is cleared unless the callback rejected, in which case it is untouched.
     */
    method HandleSaveChanges(persistRejects: bool) returns (sent: Option<Doc>, completed: bool)
      requires Valid()
      modifies this
      ensures Valid()
      ensures var updates := ChangedFields(old(editingFields).Keys, old(localJob), old(initialJob));
        sent == if updates == map[] then None else Some(updates)
      ensures completed <==> sent.None? || !persistRejects
      ensures completed ==> !hasChanges && editingFields == AllFlagsOff()
      ensures !completed ==> hasChanges == old(hasChanges) && editingFields == old(editingFields)
      ensures localJob == old(localJob) && initialJob == old(initialJob)
    {
      var updates := PendingUpdates();
      sent := None;
      if |updates| > 0 {
        sent := Some(updates);
        if persistRejects {
          return sent, false;
        }
      }
      FinishSave();
      completed := true;
    }
  }
}

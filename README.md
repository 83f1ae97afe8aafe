# Job tracker: records, forms and live lists

This project models the core of a personal job-application tracker. The tracker
is a React front end over a document store (collections `jobs`, `interviews`,
and one collection per document kind) and a blob storage. The model covers:

- **Creating records.** `createJob` and `createInterview` build a payload:
  - the caller's data, then owner and defaults laid over it;
  - then every `undefined` entry dropped.

  Creating an interview also moves the parent job's outcome to *Interview*.
  The documents hook uploads a file under a time-stamped path, then registers a
  record that points at it. It can also resolve a record id to the file's
  download URL.
- **The per-field edit overlay** of the job details modal:
  - a working copy of the job and one edit flag per editable key;
  - a `hasChanges` bit;
  - a save that sends only the keys whose working value differs from the job the
    overlay was last given;
  - the modal's projection of a stored job onto its editable keys, and its
    guarded, error-swallowing write.
- **Live lists.** Two job tables and the interview list of a job:
  - which query each opens, and when it is replaced or cancelled;
  - how each snapshot replaces the list;
  - what the list shows: sign-in prompt, loading, empty message, or one row per
    record in snapshot order;
  - the outcome and priority styling of the job table's rows.
- **The submit handlers of the four forms** (two job forms, the interview form,
  the document form):
  - their ordered guards and error messages;
  - the payload they build;
  - closing only after the store accepted the write.

The store and the storage are classes holding maps. Each remote call is a method
that succeeds or fails according to a flag the caller supplies. Generated ids,
download tokens and clock readings are parameters too. Every React component or
hook with state is a class: its state variables are fields and its handlers are
methods. Effects are methods named after the render that runs them.

## Model

| member | source | states |
|---|---|---|
| Values.OrUndefined | components/ui/modals/JobCreatorModal.tsx:67-71 | `text \|\| undefined` is undefined exactly for the empty text, and the text itself otherwise |
| Values.RemoveUndefinedFields | lib/hooks/useJobs.ts:28-32 | keeps exactly the entries whose value is not undefined, with their values unchanged |
| Values.RemoveUndefinedFieldsPreservesReads | lib/hooks/useJobs.ts:28-32 | every property reads the same through the filtered object (an absent property reads undefined), and no kept value is undefined |
| Values.RemoveUndefinedFieldsIdempotent | lib/hooks/useInterview.ts:23-27 | filtering an already filtered object changes nothing |
| Values.LookupSpread | lib/hooks/useJobs.ts:43-52 | in `{ ...a, ...b }` a property of `b` wins, any other reads as in `a`, and the keys are the union |
| Values.WithId | components/ui/tables/JobList.tsx:84-90 | `{ id, ...data }` has the data's keys plus `id`; its `id` is the data's own `id` if it has one, else the document id; every data value is kept |
| JsText.TrimStart | components/ui/modals/JobCreatorModal.tsx:55 | the result is a suffix, the dropped prefix is all whitespace, and the result does not start with whitespace |
| JsText.TrimEnd | components/ui/modals/JobCreatorModal.tsx:55 | the result is a prefix, the dropped suffix is all whitespace, and the result does not end with whitespace |
| JsText.TrimBlankIff | components/ui/modals/JobCreatorModal.tsx:55 | `s.trim()` is empty exactly when every character of `s` is ECMAScript whitespace |
| JsText.TrimmedIsTrim | components/ui/modals/DocumentCreationModal.tsx:21-24 | a non-empty trimmed string has no whitespace at either end, and trimming is idempotent |
| JsText.Split | components/ui/modals/JobCreatorModal.tsx:13 | `split` on one character gives at least one piece, and no piece contains the separator |
| JsText.JoinSplit | components/ui/modals/JobCreatorModal.tsx:13 | joining the pieces of a split with the separator gives the string back |
| JsText.SplitJoin | components/ui/modals/JobCreatorModal.tsx:13 | splitting the join of separator-free pieces gives the pieces back |
| JsText.SplitNoSeparator | components/ui/modals/JobCreatorModal.tsx:13 | a string without the separator splits into itself alone |
| JsText.SplitAfterPrefix | components/ui/modals/JobCreatorModal.tsx:13 | a separator-free prefix followed by the separator is the first piece, and the rest splits on its own |
| JsText.NatToDecimal | lib/hooks/useDocuments.ts:67 | a non-negative integer in a template literal is a non-empty string of decimal digits |
| JsText.DecimalRoundTrip | lib/hooks/useDocuments.ts:67 | the digits of `n` read back as `n` |
| JsText.NatToDecimalInjective | lib/hooks/useDocuments.ts:67 | different integers format to different digit strings |
| JsText.JsNumber | components/ui/modals/JobCreatorModal.tsx:13 | `Number` of blank text is 0, and of a string of decimal digits is its decimal value |
| RemoteStore.Firestore.AddDoc | lib/hooks/useJobs.ts:54 | on success, the data is stored under the new id in the named collection and nothing else changes; a rejection, or data holding an undefined value, changes nothing |
| RemoteStore.Firestore.UpdateDoc | lib/hooks/useInterview.ts:45-46 | on an existing document the given fields replace the stored ones and the others stay; a missing document, a rejection or undefined values change nothing and report the error |
| RemoteStore.Firestore.GetDoc | lib/hooks/useDocuments.ts:81-83 | returns the stored document, or none when the id is absent, or the rejection |
| RemoteStore.Storage.UploadBytes | lib/hooks/useDocuments.ts:65-69 | on success the bytes are stored at the path with the URL the storage mints; a rejection changes nothing |
| RemoteStore.Storage.GetDownloadURL | lib/hooks/useDocuments.ts:86-88 | the root path is refused, an absent object is not found, and a stored object yields its URL |
| LiveQuery.Materialize | components/ui/tables/JobList.tsx:84-91 | one object per snapshot document, in snapshot order, each tagged with its document id and carrying the document's data |
| Jobs.JobPayloadLookup | lib/hooks/useJobs.ts:43-52 | each property of the written record is the hook's override if it has one, else the caller's value, and is present exactly when not undefined |
| Jobs.JobPayloadShape | lib/hooks/useJobs.ts:43-52 | the record holds no undefined value and every required property; it holds an optional text exactly when the caller gave it, and nothing else |
| Jobs.JobPayloadDefaults | lib/hooks/useJobs.ts:45-51 | owner is the current uid and outcome is Applied whatever the caller passed; priority defaults to MEDIUM and follow-up to false; creation time is the server timestamp |
| Jobs.JobPayloadCopiesData | lib/hooks/useJobs.ts:43-44 | company name, title, applied date and the given optional texts are written unchanged |
| Jobs.CreateJob | lib/hooks/useJobs.ts:38-57 | on success the payload is added to `jobs` under the new id and that reference is returned; on failure nothing is written |
| Jobs.CreatedJobReadsBackWithItsId | lib/hooks/useJobs.ts:43-54 | a created job read back through a list carries its document id and its owner |
| Interviews.InterviewPayloadLookup | lib/hooks/useInterview.ts:32-36 | each property of the written interview is the override (owner, creation time) if there is one, else the caller's value, and is present exactly when not undefined |
| Interviews.InterviewPayloadContents | lib/hooks/useInterview.ts:32-36 | the interview belongs to the current uid whatever `userId` the caller passed, and carries job id, date and the given texts unchanged |
| Interviews.InterviewPayloadShape | lib/hooks/useInterview.ts:23-36 | no undefined values; an optional text is present exactly when given; no property outside the interview's |
| Interviews.CreateInterview | lib/hooks/useInterview.ts:30-49 | inserts the interview first and then sets the parent job's outcome to Interview, touching no other property or collection; if the insert fails nothing is written; if the job update fails the interview stays and the call fails |
| Documents.BlobPath | lib/hooks/useDocuments.ts:65-68 | the storage path is the folder and file name, a dash, then digits whose decimal value is the timestamp |
| Documents.BlobPathsDistinct | lib/hooks/useDocuments.ts:67 | the same file uploaded into the same folder at two different times gets two different paths |
| Documents.DocumentRecordResolves | lib/hooks/useDocuments.ts:72-76 | the registered record has the given title, points at the given path, and holds no undefined value |
| Documents.DocumentsHook.constructor | lib/hooks/useDocuments.ts:47-60 | the hook starts with no documents and a live query on its whole collection |
| Documents.DocumentsHook.Unmount | lib/hooks/useDocuments.ts:59 | the cleanup cancels the query and keeps the list |
| Documents.DocumentsHook.OnSnapshot | lib/hooks/useDocuments.ts:51-57 | each snapshot replaces the list wholesale, in snapshot order, each entry tagged with its id |
| Documents.DocumentsHook.UploadDocument | lib/hooks/useDocuments.ts:63-77 | the file is written under `BlobPath` first; a record pointing at that path is added only once the write succeeded; if the record write fails the file stays |
| Documents.DocumentsHook.GetDownloadUrl | lib/hooks/useDocuments.ts:80-89 | fails with "Document not found" for an unknown id; otherwise returns the URL of the record's file path, or the storage's error |
| Documents.UploadedDocumentResolves | lib/hooks/useDocuments.ts:63-89 | after an upload, the new record's id resolves to the URL minted for the uploaded file |
| EditOverlay.AllFlagsOff | lib/hooks/useEditableFields.tsx:70-84 | one flag per editable key (id and the ten editable properties), all off |
| EditOverlay.Cleared | lib/hooks/useEditableFields.tsx:113-121 | the reset flags have the previous keys, all off |
| EditOverlay.Toggled | lib/hooks/useEditableFields.tsx:96-101 | flips the clicked flag and leaves every other flag as it was |
| EditOverlay.ToggledTwice | lib/hooks/useEditableFields.tsx:96-101 | clicking the same field twice restores the flags |
| EditOverlay.ClearedIsAllOff | lib/hooks/useEditableFields.tsx:113-121 | resetting a full set of flags gives the initial flags |
| EditOverlay.ChangedFields | lib/hooks/useEditableFields.tsx:128-136 | the diff holds exactly the flag keys whose working value is not strictly equal to the baseline's, each with its working value |
| EditOverlay.ChangedFieldsEmptyIff | lib/hooks/useEditableFields.tsx:128-139 | the diff is empty exactly when the working copy agrees with the baseline on every key |
| EditOverlay.ChangedFieldsApplied | lib/hooks/useEditableFields.tsx:128-136 | merging the diff into the baseline reproduces the working copy on every key and keeps the other properties |
| EditOverlay.EditableFieldsHook.constructor | lib/hooks/useEditableFields.tsx:67-86 | the working copy is the job, every flag is off, nothing has changed |
| EditOverlay.EditableFieldsHook.InitialJobChanged | lib/hooks/useEditableFields.tsx:88-94 | a new job id resets working copy, flags and `hasChanges`; new data under the same id only becomes the diff's baseline |
| EditOverlay.EditableFieldsHook.HandleFieldClick | lib/hooks/useEditableFields.tsx:96-101 | flips that field's edit flag, nothing else |
| EditOverlay.EditableFieldsHook.HandleChange | lib/hooks/useEditableFields.tsx:103-106 | sets the field's working text and marks a change, even if the value is unchanged |
| EditOverlay.EditableFieldsHook.HandleBooleanChange | lib/hooks/useEditableFields.tsx:108-111 | sets the field's working flag and marks a change |
| EditOverlay.EditableFieldsHook.ResetEditing | lib/hooks/useEditableFields.tsx:113-121 | every previous flag becomes false, one key at a time; nothing else changes |
| EditOverlay.EditableFieldsHook.PendingUpdates | lib/hooks/useEditableFields.tsx:128-136 | the loop over the flag keys builds exactly the diff of the working copy against the baseline |
| EditOverlay.EditableFieldsHook.FinishSave | lib/hooks/useEditableFields.tsx:142-143 | clears `hasChanges` and every flag, keeps the working copy |
| EditOverlay.EditableFieldsHook.HandleSaveChanges | lib/hooks/useEditableFields.tsx:127-144 | the callback gets the diff exactly when it is non-empty; the overlay is cleared unless the callback rejected, in which case it is untouched |
| JobDetail.EditableProjection | components/ui/modals/JobDetailModal.tsx:40-52 | the projected job has exactly the id and the ten editable keys |
| JobDetail.EditableProjectionFaithful | components/ui/modals/JobDetailModal.tsx:40-52 | every editable key reads as in the stored job; applied and creation dates are dropped; projecting twice changes nothing |
| JobDetail.UpdateEditableJob | components/ui/modals/JobDetailModal.tsx:55-69 | nothing is written without a signed-in user; otherwise exactly the updates are merged into `jobs/<id>`, and a rejected write is swallowed |
| JobDetail.SaveChanges | components/ui/modals/JobDetailModal.tsx:40-72 | for an overlay opened on the job with the id being written, Save Changes writes the diff when it is non-empty and always clears the overlay, since the write never rejects; when the baseline is the projection of the stored job and the write goes through, the job read back under its id agrees with the working copy on every editable key |
| JobDetail.SavedJobMatchesWorkingCopy | components/ui/modals/JobDetailModal.tsx:40-63 | after a save, the stored job reads like the working copy on every editable key and is unchanged elsewhere, the dates in particular |
| JobDetail.SavedJobReadsBack | components/ui/modals/JobDetailModal.tsx:40-63 | the same for the job as the list delivers it, `{ id, ...data }`: read back after the merge, it agrees with the working copy on every editable key |
| JobDetail.SecondSaveSendsNothing | lib/hooks/useEditableFields.tsx:127-141 | once the saved job is the baseline, the diff of the unchanged working copy against it is empty, so a second save sends nothing |
| JobDetail.Actions | components/ui/modals/JobDetailModal.tsx:110-130 | the Save Changes button is shown exactly while there are changes; Close is always shown, last |
| JobListing.JobsQuery | components/ui/tables/JobList.tsx:77-81 | the query reads `jobs` owned by the uid, newest creation first |
| JobListing.JobsQueryInjective | components/ui/tables/JobList.tsx:77-81 | two different users never share a query |
| JobListing.View | components/ui/tables/JobList.tsx:98-108 | sign-in prompt exactly without a user, then loading, then the empty message exactly for an empty list, otherwise the table of the jobs |
| JobListing.CellText | components/ui/tables/JobList.tsx:170-190 | `value \|\| ''` shows a text as itself and anything else as nothing |
| JobListing.Cell | components/ui/tables/JobList.tsx:170-211 | "Link" exactly when there is a posting URL, else nothing; "Yes" exactly when follow-up is truthy, else "No"; text cells via `CellText` |
| JobListing.JobRow | components/ui/tables/JobList.tsx:165-212 | a row is keyed by the job id and has one cell per column, in column order |
| JobListing.Rows | components/ui/tables/JobList.tsx:159-214 | one row per job, in list order |
| JobListing.RowsFollowSnapshot | components/ui/tables/JobList.tsx:159-166 | the rows of a list filled from a snapshot are keyed by the snapshot's document ids, in snapshot order |
| JobTable.RowBgColor | components/ui/tables/JobList.tsx:36-48 | rose for Denied, emerald for Interview, darker emerald for Hired, and slate for anything else, absent included, and only then |
| JobTable.RowWeight | components/ui/tables/JobList.tsx:50-59 | light exactly for LOW, semi-bold exactly for HIGH, plain otherwise |
| JobTable.StoredPriorityWeight | components/ui/tables/JobList.tsx:163 | the stored priority text (MEDIUM when none was given) weighs as its priority |
| JobTable.CreatedJobRowStyle | components/ui/tables/JobList.tsx:162-163 | a freshly created job is drawn on slate, with the weight of its priority |
| JobTable.JobTable.constructor | components/ui/tables/JobList.tsx:61-96 | starts empty with no selection; without a user loading ends, with one loading shows and the user's query opens |
| JobTable.JobTable.UserChanged | components/ui/tables/JobList.tsx:70-96 | a new user cancels the old query; no user ends loading; a user opens that user's query with loading unchanged; the same user changes nothing |
| JobTable.JobTable.Unmount | components/ui/tables/JobList.tsx:95 | the cleanup cancels the query and changes nothing else |
| JobTable.JobTable.OnSnapshot | components/ui/tables/JobList.tsx:83-93 | the snapshot replaces the jobs wholesale and ends loading |
| JobTable.JobTable.DetailsShown | components/ui/tables/JobList.tsx:218-223 | the details modal only shows inside the table, while it is open, and with a selected job |
| JobTable.JobTable.HandleRowClick | components/ui/tables/JobList.tsx:110-114 | selects the job and opens the details, which then show |
| JobTable.JobTable.CloseDetailsModal | components/ui/tables/JobList.tsx:116-119 | clears the selection and closes the details |
| JobTable.JobTable.RowsWithStyle | components/ui/tables/JobList.tsx:159-166 | one row per job in list order, keyed by its id, styled by its outcome and priority |
| ProfileJobList.ProfileJobList.constructor | components/ui/tabls/JobList.tsx:32-65 | starts empty; without a user loading ends, with one loading shows and the user's query opens |
| ProfileJobList.ProfileJobList.UserChanged | components/ui/tabls/JobList.tsx:37-65 | a new user cancels the old query; no user ends loading; a user opens that user's query; the same user changes nothing |
| ProfileJobList.ProfileJobList.Unmount | components/ui/tabls/JobList.tsx:63-64 | the cleanup cancels the query and changes nothing else |
| ProfileJobList.ProfileJobList.OnSnapshot | components/ui/tabls/JobList.tsx:50-61 | the snapshot replaces the jobs wholesale and ends loading |
| ProfileJobList.SnapshotDisplay | components/ui/tabls/JobList.tsx:67-77 | after a snapshot, a signed-in user sees the empty message for an empty snapshot and otherwise the table, one row per document |
| InterviewList.InterviewsQuery | components/layouts/form-components/InterviewComponent.tsx:41-46 | the query reads `interviews` of the job and the uid, earliest first |
| InterviewList.SubscriptionFor | components/layouts/form-components/InterviewComponent.tsx:38-46 | a query opens exactly when there is a job id and a user |
| InterviewList.ItemLines | components/layouts/form-components/InterviewComponent.tsx:79-101 | the date line always comes first, empty without a date; each of interviewers, contact info and notes shows exactly when truthy |
| InterviewList.OptionalLinesOf | components/layouts/form-components/InterviewComponent.tsx:87-101 | at most one line per label; every shown optional line is truthy, every truthy one is shown, and nothing else is |
| InterviewList.OptionalLinesInLabelOrder | components/layouts/form-components/InterviewComponent.tsx:87-101 | the optional lines keep the order of their labels: the lines of earlier labels come before those of later ones |
| InterviewList.ListView | components/layouts/form-components/InterviewComponent.tsx:74-106 | "No interviews scheduled." exactly for an empty list, otherwise one item per interview in list order, keyed by its id |
| InterviewList.InterviewList.constructor | components/layouts/form-components/InterviewComponent.tsx:33-60 | starts empty, modal closed, with the query for the job and user if both are there |
| InterviewList.InterviewList.PropsChanged | components/layouts/form-components/InterviewComponent.tsx:38-60 | a new job id or user cancels the old query and opens the new one if both are there; the list stays until the next snapshot |
| InterviewList.InterviewList.OnSnapshot | components/layouts/form-components/InterviewComponent.tsx:48-57 | the snapshot replaces the interviews wholesale |
| InterviewList.InterviewList.OpenInterviewModal | components/layouts/form-components/InterviewComponent.tsx:66-67 | "+ Add Interview" opens the creator modal |
| InterviewList.InterviewList.CloseInterviewModal | components/layouts/form-components/InterviewComponent.tsx:108-113 | closing the creator hides it |
| JobCreator.ParseLocalDate | components/ui/modals/JobCreatorModal.tsx:11-16 | the result is a local calendar date at 12:00:00 |
| JobCreator.SplitDateInput | components/ui/modals/JobCreatorModal.tsx:13 | "Y-M-D" with dash-free pieces splits into exactly those three pieces |
| JobCreator.ParseLocalDateOfDateInput | components/ui/modals/JobCreatorModal.tsx:11-16 | "Y-M-D" is noon of day `Number(D)` of zero-based month `Number(M) - 1` of year `Number(Y)` |
| JobCreator.ParseLocalDateWithoutDash | components/ui/modals/JobCreatorModal.tsx:13-15 | a text without a dash gives a NaN month and day |
| JobCreator.SubmittedDate | components/ui/modals/JobCreatorModal.tsx:60 | an empty applied date is the current time; a non-empty one goes through `parseLocalDate`, or through `new Date(text)` in the older form (components/modals/JobCreatorModal.tsx, line 57) |
| JobCreator.InitialForm | components/ui/modals/JobCreatorModal.tsx:23-45 | empty texts, today's date, MEDIUM priority, no automatic follow-up |
| JobCreator.MissingRequiredIff | components/ui/modals/JobCreatorModal.tsx:55 | the required-fields check fails exactly when company name or job title is all whitespace |
| JobCreator.OptionalInput | components/ui/modals/JobCreatorModal.tsx:67-71 | an empty optional input is left out, any other is passed as typed |
| JobCreator.FormJobData | components/ui/modals/JobCreatorModal.tsx:63-74 | name and title are passed untrimmed, the date as computed, each optional text only when non-empty, and the chosen priority and flag |
| JobCreator.SubmittedFormStored | components/ui/modals/JobCreatorModal.tsx:63-76 | the stored job has the typed name and title, the date, and the chosen priority and follow-up flag |
| JobCreator.SubmittedFormOptionalTexts | components/ui/modals/JobCreatorModal.tsx:67-71 | each optional text is stored exactly when its input is not empty, as typed |
| JobCreator.JobCreatorModal.constructor | components/ui/modals/JobCreatorModal.tsx:23-45 | the form starts from `InitialForm`, with no message, open; the older form (components/modals/JobCreatorModal.tsx, lines 15-37) starts the same way |
| JobCreator.JobCreatorModal.EditForm | components/ui/modals/JobCreatorModal.tsx:101-212 | the inputs set the form state and nothing else |
| JobCreator.JobCreatorModal.HandleSubmit | components/ui/modals/JobCreatorModal.tsx:47-85 | sign-in check first, then the required check, each setting its message and writing nothing; then `createJob`, which closes the modal on success and sets the failure message otherwise; the older form (components/modals/JobCreatorModal.tsx, lines 39-76) runs the same steps |
| InterviewCreator.FormInterviewData | components/ui/modals/InterviewCreatorModal.tsx:55-65 | the data carries the prop job id, the current uid, `new Date(dateTime)` and the three texts as typed |
| InterviewCreator.SubmittedInterviewStored | components/ui/modals/InterviewCreatorModal.tsx:58-65 | the stored interview has the job, the user and the date, and all three texts as typed; an empty one is stored empty, not dropped |
| InterviewCreator.InterviewCreatorModal.constructor | components/ui/modals/InterviewCreatorModal.tsx:22-39 | empty inputs, no message, open |
| InterviewCreator.InterviewCreatorModal.EditForm | components/ui/modals/InterviewCreatorModal.tsx:97-132 | the inputs set the form state and nothing else |
| InterviewCreator.InterviewCreatorModal.HandleSubmit | components/ui/modals/InterviewCreatorModal.tsx:41-81 | sign-in check, then the date check, each setting its message and writing nothing; then `createInterview`; the modal closes only when both writes succeed, and a failed job update leaves the interview stored behind the failure message; no collection other than `interviews` and `jobs` is written |
| DocumentCreation.DocumentCreationModal.constructor | components/ui/modals/DocumentCreationModal.tsx:16-17 | no file, empty title, open |
| DocumentCreation.DocumentCreationModal.PickFile | components/ui/modals/DocumentCreationModal.tsx:51-55 | a picked file replaces the current one; picking none keeps it |
| DocumentCreation.DocumentCreationModal.EditTitle | components/ui/modals/DocumentCreationModal.tsx:40 | the title input sets the title and nothing else |
| DocumentCreation.DocumentCreationModal.HandleSubmit | components/ui/modals/DocumentCreationModal.tsx:19-29 | no file or a blank title does nothing; otherwise the upload gets the trimmed title, and the modal closes only when it resolved |
| DocumentCreation.SubmittedTitle | components/ui/modals/DocumentCreationModal.tsx:21-24 | the registered title is the typed one trimmed: not blank, no whitespace at either end, pointing at the uploaded path |

## Left out

- Remote I/O is not performed. The store, the storage and live queries are maps and sequences. Each call's rejection is a flag supplied by the caller.
- The store's own filtering and ordering of query results are left out. A snapshot is taken as delivered.
- Generated document ids, download tokens, `Date.now()` and `new Date()` are parameters. The model takes a generated id to be fresh in its collection.
- Dates are kept as the arguments they were built from: a clock reading, local calendar fields, or the text given to `new Date`. Time zones, `toISOString`, `toLocaleString`, `toLocaleDateString` and `Timestamp.toDate` are not modelled. The applied-date column of the tables and the date text of an interview item are therefore not modelled.
- JsText.JsNumber: only blank text and plain decimal digits (surrounded by optional whitespace) get a value. Every other text, such as signs, fractions, exponents or hexadecimal, is taken as NaN.
- FilePathOf treats a record whose `filePath` is not a text as pointing at the bucket root. Storage path normalisation is not modelled: the path written is the path read back.
- Rendering beyond what is listed above is not modelled: markup, Tailwind classes, and the `render*` helpers of the edit overlay. The text of a cell is modelled; the nodes that hold it are not.
- The `onClick` of a posting link stops propagation. This is not modelled, so a link click is not a row click.
- React scheduling is not modelled: effect timing, batched updates, and interleaving of asynchronous handlers. Each handler runs as one atomic step, and an awaited call's result is a parameter.
- The effects' `currentUser` dependency is modelled by the user's uid. A new user object with the same uid reruns the real effect; here it changes nothing.
- Map iteration order is not modelled. `Object.keys` order does not affect any result here, so the loops pick keys in any order.
- Authentication, routing, and the modal and button wrappers are not part of this model. The document manager that passes `useDocuments`'s `uploadDocument` to the document form as its `onUpload` is not modelled; that wiring is assumed by `DocumentCreation.DocumentCreationModal.HandleSubmit`.
- Native form validation is not modelled. The browser refuses to submit a form whose `required` inputs are empty: company name and job title in both job forms, the applied date in the newer job form, and the date and time in the interview form. The handlers' own checks are modelled as written, so their "required" messages are reached here by empty input that the browser would stop first; for the names and titles they are also reached by whitespace-only input, which the browser lets through.
- The optional success callback of the interview form is commented out in the source, so it is not modelled.
- A saved change does not refresh the open details modal. The job table keeps the job it selected at click time while snapshots arrive (`JobTable.JobTable.OnSnapshot` leaves `selectedJob` as it was). The overlay's baseline therefore stays the job as first opened, and a later save sends the already saved keys again. `JobDetail.SecondSaveSendsNothing` holds only once the saved job becomes the baseline, which happens when the modal is opened anew.
- A failed save does not keep its pending edits. `updateEditableJob` catches and logs every write error, so the overlay's save always completes and clears `hasChanges` and the flags (`JobDetail.SaveChanges`); the working copy keeps its values, but nothing marks them as unsaved.

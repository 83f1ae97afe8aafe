/**
 * The document upload form (components/ui/modals/DocumentCreationModal.tsx): a
 * picked file and a title, handed to the documents hook's `uploadDocument` with
 * the title trimmed.
 */
module DocumentCreation {
  import opened Wrappers
  import opened JsText
  import opened RemoteStore
  import opened Documents

  class DocumentCreationModal {
    var file: Option<File>
    var title: string
    /** Whether `onClose` was called. */
    var closed: bool

    constructor ()
      ensures file == None && title == "" && !closed
    {
      file := None;
      title := "";
      closed := false;
    }

    /** The file input's `onChange`: the first picked file replaces the current one; picking none keeps it. */
    method PickFile(picked: Option<File>)
      modifies this
      ensures file == (if picked.Some? then picked else old(file))
      ensures title == old(title) && closed == old(closed)
    {
      if picked.Some? {
        file := picked;
      }
    }

    /** The title input's `onChange`. */
    method EditTitle(text: string)
      modifies this
      ensures title == text && file == old(file) && closed == old(closed)
    {
      title := text;
    }

    /**
     * `handleSubmit` with `uploadDocument` of `hook` as `onUpload`: without a file, or
     * with a title that is blank once trimmed, nothing happens. Otherwise the file is
     * uploaded under the trimmed title, and the modal closes only when the upload
     * resolved; a rejection is logged and the modal stays.
     */
    method HandleSubmit(hook: DocumentsHook, db: Firestore, storage: Storage, now: nat, createdAt: int,
                        downloadUrl: string, newId: string, uploadFails: bool, addFails: bool)
      requires newId !in db.Collection(hook.collectionName)
      modifies this, db, storage
      ensures file == old(file) && title == old(title)
      ensures file.None? || Trim(title) == "" ==>
        && closed == old(closed)
        && db.collections == old(db.collections) && storage.objects == old(storage.objects)
      ensures file.Some? && Trim(title) != "" ==>
        && (uploadFails ==> storage.objects == old(storage.objects))
        && (!uploadFails ==> storage.objects == old(storage.objects)[BlobPath(hook.storageFolder, file.value.name, now) :=
              StoredObject(file.value.bytes, downloadUrl)])
        && (closed <==> old(closed) || (!uploadFails && !addFails))
        && (!uploadFails && !addFails ==>
              db.collections == old(db.collections)[hook.collectionName := old(db.Collection(hook.collectionName))[newId :=
                DocumentRecord(Trim(title), BlobPath(hook.storageFolder, file.value.name, now), createdAt)]])
        && (uploadFails || addFails ==> db.collections == old(db.collections))
    {
      if file.None? || Trim(title) == "" {
        return;
      }
      var uploaded := hook.UploadDocument(db, storage, file.value, Trim(title), now, createdAt,
                                          downloadUrl, newId, uploadFails, addFails);
      if uploaded.Ok? {
        closed := true;
      }
    }
  }

  /**
   * The title a submitted document is registered under is the typed title trimmed:
   * not blank, with no whitespace at either end.
   */
  lemma SubmittedTitle(title: string, filePath: string, createdAt: int)
    requires Trim(title) != ""
    ensures FilePathOf(DocumentRecord(Trim(title), filePath, createdAt)) == filePath
    ensures var t := Trim(title);
      && Values.Lookup(DocumentRecord(t, filePath, createdAt), Values.Title) == Values.Str(t)
      && !IsJsWhitespace(t[0]) && !IsJsWhitespace(t[|t| - 1])
      && !AllWhitespace(title)
  {
    TrimmedIsTrim(title);
    TrimBlankIff(title);
    DocumentRecordResolves(Trim(title), filePath, createdAt);
  }
}

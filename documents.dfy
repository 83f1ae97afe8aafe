/**
 * The documents hook (lib/hooks/useDocuments.ts), used for resumes and cover
 * letters: a live list of one collection, an upload that stores the file under a
 * time-stamped path and then registers a record pointing at it, and the lookup
 * from a record id to the file's download URL.
 */
module Documents {
  import opened Wrappers
  import opened JsText
  import opened Values
  import opened RemoteStore
  import opened LiveQuery

  /** A file picked in the browser: its name and its contents. */
  datatype File = File(name: string, bytes: seq<bv8>)

  /** A rejection of `getDownloadUrl`: its own message, or the store's error passed on. */
  datatype DocumentsError = Message(text: string) | Remote(error: StoreError)

  const DocumentNotFound := "Document not found"

  /** `${storageFolder}${file.name}-${Date.now()}`: never the bucket root, and inside the folder. */
  function BlobPath(storageFolder: string, fileName: string, now: nat): (path: string)
    ensures |path| > |storageFolder + fileName|
    ensures path[..|storageFolder + fileName|] == storageFolder + fileName
    ensures path[|storageFolder + fileName|] == '-'
    ensures IsDigits(path[|storageFolder + fileName| + 1..])
    ensures DecimalValue(path[|storageFolder + fileName| + 1..]) == now
  {
    var path := storageFolder + fileName + "-" + NatToDecimal(now);
    assert path[|storageFolder + fileName| + 1..] == NatToDecimal(now);
    DecimalRoundTrip(now);
    path
  }

  /** Two uploads of the same file name into the same folder at different times use different paths. */
  lemma BlobPathsDistinct(storageFolder: string, fileName: string, t1: nat, t2: nat)
    requires t1 != t2
    ensures BlobPath(storageFolder, fileName, t1) != BlobPath(storageFolder, fileName, t2)
  {
    var prefix := storageFolder + fileName + "-";
    assert BlobPath(storageFolder, fileName, t1)[|prefix|..] == NatToDecimal(t1);
    assert BlobPath(storageFolder, fileName, t2)[|prefix|..] == NatToDecimal(t2);
    NatToDecimalInjective(t1, t2);
  }

  /** `{ title, filePath: storageRef.fullPath, createdAt: new Date() }` */
  function DocumentRecord(title: string, filePath: string, createdAt: int): Doc {
    map[Title := Str(title), FilePath := Str(filePath), CreatedAt := DateTime(Clock(createdAt))]
  }

  /** The storage path a record points at; a record without a text `filePath` points at the bucket root. */
  function FilePathOf(record: Doc): string {
    match Lookup(record, FilePath)
    case Str(p) => p
    case _ => ""
  }

  /** A registered record carries the title it was given and points at the path the file was written to. */
  lemma DocumentRecordResolves(title: string, filePath: string, createdAt: int)
    ensures Lookup(DocumentRecord(title, filePath, createdAt), Title) == Str(title)
    ensures FilePathOf(DocumentRecord(title, filePath, createdAt)) == filePath
    ensures NoUndefined(DocumentRecord(title, filePath, createdAt))
  {
    var r := DocumentRecord(title, filePath, createdAt);
    assert r[Title] == Str(title);
    assert r[FilePath] == Str(filePath);
  }

  class DocumentsHook {
    const collectionName: string
    const storageFolder: string
    var documents: seq<Doc>
    /** The live query the mount effect opened, until the cleanup cancels it. */
    var subscription: Option<Query>

    /** `useDocuments(collectionName, storageFolder)` after its mount effect. */
    constructor (collectionName: string, storageFolder: string)
      ensures this.collectionName == collectionName && this.storageFolder == storageFolder
      ensures documents == []
      ensures subscription == Some(WholeCollection(collectionName))
    {
      this.collectionName := collectionName;
      this.storageFolder := storageFolder;
      documents := [];
      subscription := Some(WholeCollection(collectionName));
    }

    /** The effect cleanup: `unsubscribe()`. */
    method Unmount()
      modifies this
      ensures subscription == None && documents == old(documents)
    {
      subscription := None;
    }

    /** The snapshot callback: the list is replaced wholesale by the snapshot's documents. */
    method OnSnapshot(snapshot: seq<SnapshotDoc>)
      requires subscription.Some?
      modifies this
      ensures documents == Materialize(snapshot)
      ensures subscription == old(subscription)
    {
      documents := Materialize(snapshot);
    }

    /**
     * `uploadDocument(file, title)`: writes the file under `BlobPath`, and only once
     * that succeeded adds a record pointing at it. A failed record write leaves the
     * stored file in place.
     */
    method UploadDocument(db: Firestore, storage: Storage, file: File, title: string, now: nat, createdAt: int,
                          downloadUrl: string, newId: string, uploadFails: bool, addFails: bool)
      returns (r: Result<(), StoreError>)
      requires newId !in db.Collection(collectionName)
      modifies db, storage
      ensures uploadFails ==> r == Err(Unavailable) && storage.objects == old(storage.objects)
      ensures !uploadFails ==>
        storage.objects == old(storage.objects)[BlobPath(storageFolder, file.name, now) := StoredObject(file.bytes, downloadUrl)]
      ensures r.Err? ==> db.collections == old(db.collections)
      ensures !uploadFails && addFails ==> r == Err(Unavailable)
      ensures !uploadFails && !addFails ==>
        && r == Ok(())
        && db.collections == old(db.collections)[collectionName :=
             old(db.Collection(collectionName))[newId := DocumentRecord(title, BlobPath(storageFolder, file.name, now), createdAt)]]
    {
      var path := BlobPath(storageFolder, file.name, now);
      var uploaded := storage.UploadBytes(path, file.bytes, downloadUrl, uploadFails);
      if uploaded.Err? {
        return Err(uploaded.error);
      }
      DocumentRecordResolves(title, path, createdAt);
      var added := db.AddDoc(collectionName, DocumentRecord(title, path, createdAt), newId, addFails);
      if added.Err? {
        return Err(added.error);
      }
      r := Ok(());
    }

    /**
     * `getDownloadUrl(docId)`: "Document not found" when the collection holds no
     * record with that id, otherwise the download URL of the file the record points at.
     */
    method GetDownloadUrl(db: Firestore, storage: Storage, docId: string, getFails: bool, urlFails: bool)
      returns (r: Result<string, DocumentsError>)
      ensures getFails ==> r == Err(Remote(Unavailable))
      ensures !getFails && docId !in db.Collection(collectionName) ==> r == Err(Message(DocumentNotFound))
      ensures !getFails && docId in db.Collection(collectionName) ==>
        var path := FilePathOf(db.Collection(collectionName)[docId]);
        && (urlFails ==> r == Err(Remote(Unavailable)))
        && (!urlFails && path == "" ==> r == Err(Remote(InvalidRootOperation)))
        && (!urlFails && path != "" && path !in storage.objects ==> r == Err(Remote(ObjectNotFound)))
        && (!urlFails && path != "" && path in storage.objects ==> r == Ok(storage.objects[path].downloadUrl))
    {
      var snap := db.GetDoc(DocRef(collectionName, docId), getFails);
      if snap.Err? {
        return Err(Remote(snap.error));
      }
      if snap.value.None? {
        return Err(Message(DocumentNotFound));
      }
      var url := storage.GetDownloadURL(FilePathOf(snap.value.value), urlFails);
      if url.Err? {
        return Err(Remote(url.error));
      }
      r := Ok(url.value);
    }
  }

  /**
   * After a successful upload, the new record's id resolves to the URL minted for
   * the uploaded file, provided the storage still holds it.
   */
  lemma UploadedDocumentResolves(records: map<string, Doc>, objects: map<string, StoredObject>,
                                 storageFolder: string, file: File, title: string, now: nat, createdAt: int,
                                 downloadUrl: string, newId: string)
    ensures var path := BlobPath(storageFolder, file.name, now);
      var records' := records[newId := DocumentRecord(title, path, createdAt)];
      var objects' := objects[path := StoredObject(file.bytes, downloadUrl)];
      && newId in records'
      && FilePathOf(records'[newId]) == path
      && path != ""
      && path in objects'
      && objects'[path].downloadUrl == downloadUrl
  {
    DocumentRecordResolves(title, BlobPath(storageFolder, file.name, now), createdAt);
  }
}

/**
 * The two remote collaborators, reduced to abstract maps: the document store
 * (collections of documents keyed by id) and the blob storage (objects keyed by
 * path). Generated ids, download tokens and failures are supplied by the caller.
 */
module RemoteStore {
  import opened Wrappers
  import opened Values

  datatype DocRef = DocRef(collection: string, id: string)

  datatype StoreError =
    | Unavailable            // the remote call was rejected (network, permissions)
    | UnsupportedUndefined   // a field value of `undefined` in the written data
    | NotFound               // updateDoc on a document that does not exist
    | ObjectNotFound         // getDownloadURL on a path with no object
    | InvalidRootOperation   // getDownloadURL on the root of the bucket

  /** The store refuses data that holds an `undefined` field value. */
  predicate NoUndefined(data: Doc) {
    forall f | f in data :: data[f] != Undefined
  }

  class Firestore {
    var collections: map<string, map<string, Doc>>

    constructor ()
      ensures collections == map[]
    {
      collections := map[];
    }

    function Collection(name: string): map<string, Doc>
      reads this
    {
      if name in collections then collections[name] else map[]
    }

    /** `addDoc(collection(db, name), data)`, where the store generates `newId`. */
    method AddDoc(name: string, data: Doc, newId: string, fails: bool) returns (r: Result<DocRef, StoreError>)
      requires newId !in Collection(name)
      modifies this
      ensures fails ==> r == Err(Unavailable)
      ensures !fails && !NoUndefined(data) ==> r == Err(UnsupportedUndefined)
      ensures r.Err? ==> collections == old(collections)
      ensures !fails && NoUndefined(data) ==>
        && r == Ok(DocRef(name, newId))
        && collections == old(collections)[name := old(Collection(name))[newId := data]]
    {
      if fails {
        return Err(Unavailable);
      }
      if !NoUndefined(data) {
        return Err(UnsupportedUndefined);
      }
      collections := collections[name := Collection(name)[newId := data]];
      r := Ok(DocRef(name, newId));
    }

    /** `updateDoc(ref, updates)`: the given fields replace the stored ones, every other field stays. */
    method UpdateDoc(ref: DocRef, updates: Doc, fails: bool) returns (r: Result<(), StoreError>)
      modifies this
      ensures fails ==> r == Err(Unavailable)
      ensures !fails && !NoUndefined(updates) ==> r == Err(UnsupportedUndefined)
      ensures !fails && NoUndefined(updates) && ref.id !in old(Collection(ref.collection)) ==> r == Err(NotFound)
      ensures r.Err? ==> collections == old(collections)
      ensures !fails && NoUndefined(updates) && ref.id in old(Collection(ref.collection)) ==>
        && r == Ok(())
        && collections == old(collections)[ref.collection :=
             old(Collection(ref.collection))[ref.id := old(Collection(ref.collection))[ref.id] + updates]]
    {
      if fails {
        return Err(Unavailable);
      }
      if !NoUndefined(updates) {
        return Err(UnsupportedUndefined);
      }
      var docs := Collection(ref.collection);
      if ref.id !in docs {
        return Err(NotFound);
      }
      collections := collections[ref.collection := docs[ref.id := docs[ref.id] + updates]];
      r := Ok(());
    }

    /** `getDoc(ref)`: the stored document, or none when it does not exist. */
    method GetDoc(ref: DocRef, fails: bool) returns (r: Result<Option<Doc>, StoreError>)
      ensures fails ==> r == Err(Unavailable)
      ensures !fails && ref.id in Collection(ref.collection) ==> r == Ok(Some(Collection(ref.collection)[ref.id]))
      ensures !fails && ref.id !in Collection(ref.collection) ==> r == Ok(None)
    {
      if fails {
        return Err(Unavailable);
      }
      var docs := Collection(ref.collection);
      r := if ref.id in docs then Ok(Some(docs[ref.id])) else Ok(None);
    }
  }

  /** A stored blob and the download URL the storage hands out for it. */
  datatype StoredObject = StoredObject(bytes: seq<bv8>, downloadUrl: string)

  class Storage {
    var objects: map<string, StoredObject>

    constructor ()
      ensures objects == map[]
    {
      objects := map[];
    }

    /** `uploadBytes(ref(storage, path), bytes)`; the storage mints `downloadUrl` for the object. */
    method UploadBytes(path: string, bytes: seq<bv8>, downloadUrl: string, fails: bool) returns (r: Result<(), StoreError>)
      modifies this
      ensures fails ==> r == Err(Unavailable) && objects == old(objects)
      ensures !fails ==> r == Ok(()) && objects == old(objects)[path := StoredObject(bytes, downloadUrl)]
    {
      if fails {
        return Err(Unavailable);
      }
      objects := objects[path := StoredObject(bytes, downloadUrl)];
      r := Ok(());
    }

    /** `getDownloadURL(ref(storage, path))`; the empty path is the bucket root. */
    method GetDownloadURL(path: string, fails: bool) returns (r: Result<string, StoreError>)
      ensures fails ==> r == Err(Unavailable)
      ensures !fails && path == "" ==> r == Err(InvalidRootOperation)
      ensures !fails && path != "" && path !in objects ==> r == Err(ObjectNotFound)
      ensures !fails && path != "" && path in objects ==> r == Ok(objects[path].downloadUrl)
    {
      if fails {
        return Err(Unavailable);
      }
      if path == "" {
        return Err(InvalidRootOperation);
      }
      r := if path in objects then Ok(objects[path].downloadUrl) else Err(ObjectNotFound);
    }
  }
}

/**
 * Uploads to cloud storage: the guard against two simultaneous uploads of the
 * same path, the storage path formats, and the order claim, compress, upload.
 * Compression and the network are outcomes passed in by the caller.
 */
module StorageService {
  import opened Wrappers
  import opened Strings

  type Bytes = seq<int>

  datatype StorageError = UploadInProgress | CompressionFailed | UploadFailed(reason: string)

  /** Swift's rendering of an `Int` inside string interpolation. */
  function IntToString(i: int): (r: string)
    ensures |r| >= 1
    ensures i >= 0 ==> r == NatToString(i)
    ensures i < 0 ==> r[0] == '-' && r[1..] == NatToString(-i)
  {
    if i < 0 then "-" + NatToString(-i) else NatToString(i)
  }

  lemma IntToStringInjective(a: int, b: int)
    requires IntToString(a) == IntToString(b)
    ensures a == b
  {
    var sa, sb := IntToString(a), IntToString(b);
    if a < 0 && b < 0 {
      NatToStringInjective(-a, -b);
    } else if a >= 0 && b >= 0 {
      NatToStringInjective(a, b);
    }
  }

  /** `profiles/{uid}/profile.jpg`. */
  function ProfileImagePath(uid: string): (r: string)
  {
    "profiles/" + uid + "/profile.jpg"
  }

  /** `portfolios/{userID}/image_{imageIndex}.jpg`. */
  function PortfolioImagePath(userID: string, imageIndex: int): (r: string)
  {
    "portfolios/" + userID + "/image_" + IntToString(imageIndex) + ".jpg"
  }

  /** Two works of one user with different indices never share a storage path. */
  lemma PortfolioPathsDistinct(userID: string, i: int, j: int)
    requires i != j
    ensures PortfolioImagePath(userID, i) != PortfolioImagePath(userID, j)
  {
    if PortfolioImagePath(userID, i) == PortfolioImagePath(userID, j) {
      var p := "portfolios/" + userID + "/image_";
      assert p + IntToString(i) + ".jpg" == p + IntToString(j) + ".jpg";
      CancelAround(p, IntToString(i), IntToString(j), ".jpg");
      IntToStringInjective(i, j);
    }
  }

  /** A profile picture never lands on a portfolio path, and each user has a path of their own. */
  lemma ProfileAndPortfolioPathsDiffer(uid: string, userID: string, i: int)
    ensures ProfileImagePath(uid) != PortfolioImagePath(userID, i)
    ensures forall other :: other != uid ==> ProfileImagePath(other) != ProfileImagePath(uid)
  {
    assert ProfileImagePath(uid)[1] == 'r';
    assert PortfolioImagePath(userID, i)[1] == 'o';
    forall other | other != uid
      ensures ProfileImagePath(other) != ProfileImagePath(uid)
    {
      if ProfileImagePath(other) == ProfileImagePath(uid) {
        CancelAround("profiles/", other, uid, "/profile.jpg");
      }
    }
  }

  /** The set of paths with an upload in progress. */
  class UploadManager {
    var activeUploads: set<string>

    constructor()
      ensures activeUploads == {}
    {
      activeUploads := {};
    }

    /** Claims `path`; fails, changing nothing, when it is already claimed. */
    method StartUpload(path: string) returns (r: Result<(), StorageError>)
      modifies this
      ensures path in old(activeUploads) ==> r == Err(UploadInProgress) && activeUploads == old(activeUploads)
      ensures path !in old(activeUploads) ==> r == Ok(()) && activeUploads == old(activeUploads) + {path}
    {
      if path in activeUploads {
        return Err(UploadInProgress);
      }
      activeUploads := activeUploads + {path};
      r := Ok(());
    }

    /** Releases `path`; releasing a path that is not claimed changes nothing. */
    method FinishUpload(path: string)
      modifies this
      ensures activeUploads == old(activeUploads) - {path}
    {
      activeUploads := activeUploads - {path};
    }
  }

  /**
   * On a fresh manager: after `start(p)` succeeds, a second `start(p)` fails,
   * a `start(q)` for another path succeeds, and after `finish(p)` it can be claimed again.
   */
  method GuardScenario(p: string, q: string) returns (first: Result<(), StorageError>, second: Result<(), StorageError>,
                                                       other: Result<(), StorageError>, again: Result<(), StorageError>)
    requires p != q
    ensures first.Ok? && second == Err(UploadInProgress) && other.Ok? && again.Ok?
  {
    var m := new UploadManager();
    first := m.StartUpload(p);
    second := m.StartUpload(p);
    other := m.StartUpload(q);
    m.FinishUpload(p);
    again := m.StartUpload(p);
  }

  /**
   * What the bucket answers to one `uploadImage`: `putData`'s outcome and,
   * when the bytes were stored, `downloadURL`'s outcome.
   */
  datatype UploadOutcome = UploadOutcome(put: Result<(), StorageError>, url: Result<string, StorageError>)

  /** What `uploadImage` returns or throws: the first error of the two calls, else the URL. */
  function UploadAnswer(o: UploadOutcome): (r: Result<string, StorageError>)
    ensures o.put.Err? ==> r == Err(o.put.error)
    ensures o.put.Ok? ==> r == o.url
  {
    if o.put.Err? then Err(o.put.error) else o.url
  }

  /** The bucket after `uploadImage`: the bytes are at the path exactly when `putData` succeeded. */
  function StoredAfter(objects: map<string, Bytes>, path: string, data: Bytes, o: UploadOutcome): (r: map<string, Bytes>)
    ensures o.put.Ok? ==> path in r && r[path] == data
    ensures forall p :: p != path ==> (p in r <==> p in objects) && (p in r ==> r[p] == objects[p])
    ensures o.put.Err? ==> r == objects
  {
    if o.put.Ok? then objects[path := data] else objects
  }

  /**
   * A `downloadURL` failure after a successful `putData` leaves the bytes in the
   * bucket although the caller gets an error.
   */
  lemma FailedURLLeavesObject(objects: map<string, Bytes>, path: string, data: Bytes, o: UploadOutcome)
    requires o.put.Ok? && o.url.Err?
    ensures UploadAnswer(o).Err? && path in StoredAfter(objects, path, data, o)
  {
  }

  /** The storage bucket and the service's upload manager. */
  class Storage {
    const uploadManager: UploadManager
    var objects: map<string, Bytes>

    constructor()
      ensures objects == map[] && fresh(uploadManager) && uploadManager.activeUploads == {}
    {
      uploadManager := new UploadManager();
      objects := map[];
    }

    /**
     * `uploadImage`: `putData` stores the bytes at the path, then `downloadURL`
     * answers the URL; either can throw, and a throw of the second keeps the bytes.
     */
    method UploadImage(data: Bytes, path: string, outcome: UploadOutcome) returns (r: Result<string, StorageError>)
      modifies this
      ensures r == UploadAnswer(outcome)
      ensures objects == StoredAfter(old(objects), path, data, outcome)
    {
      if outcome.put.Err? {
        return Err(outcome.put.error);
      }
      objects := objects[path := data];
      r := outcome.url;
    }

    /**
     * The compressing uploads: claim the path first, then compress (a nil result
     * throws), then upload. The release of the path, deferred to a separate task
     * in the source, is the caller's later `FinishUpload`.
     */
    method UploadCompressed(path: string, compressed: Option<Bytes>, outcome: UploadOutcome)
      returns (r: Result<string, StorageError>)
      modifies this, uploadManager
      ensures path in old(uploadManager.activeUploads) ==>
                r == Err(UploadInProgress) && objects == old(objects) &&
                uploadManager.activeUploads == old(uploadManager.activeUploads)
      ensures path !in old(uploadManager.activeUploads) ==>
                uploadManager.activeUploads == old(uploadManager.activeUploads) + {path} &&
                (compressed.None? ==> r == Err(CompressionFailed) && objects == old(objects)) &&
                (compressed.Some? ==>
                   r == UploadAnswer(outcome) && objects == StoredAfter(old(objects), path, compressed.value, outcome))
    {
      var claimed := uploadManager.StartUpload(path);
      if claimed.Err? {
        return Err(UploadInProgress);
      }
      if compressed.None? {
        return Err(CompressionFailed);
      }
      r := UploadImage(compressed.value, path, outcome);
    }

    /** `uploadProfileImage(image:path:)`. */
    method UploadProfileImage(path: string, compressed: Option<Bytes>, outcome: UploadOutcome)
      returns (r: Result<string, StorageError>)
      modifies this, uploadManager
      ensures path in old(uploadManager.activeUploads) ==>
                r == Err(UploadInProgress) && objects == old(objects) &&
                uploadManager.activeUploads == old(uploadManager.activeUploads)
      ensures path !in old(uploadManager.activeUploads) && compressed.None? ==> r == Err(CompressionFailed) && objects == old(objects)
      ensures path !in old(uploadManager.activeUploads) && compressed.Some? ==>
                r == UploadAnswer(outcome) && objects == StoredAfter(old(objects), path, compressed.value, outcome)
      ensures path !in old(uploadManager.activeUploads) ==> uploadManager.activeUploads == old(uploadManager.activeUploads) + {path}
    {
      r := UploadCompressed(path, compressed, outcome);
    }

    /** `uploadPortfolioImage(image:userID:imageIndex:)`: the guarded upload to the work's path. */
    method UploadPortfolioImage(userID: string, imageIndex: int, compressed: Option<Bytes>, outcome: UploadOutcome)
      returns (r: Result<string, StorageError>)
      modifies this, uploadManager
      ensures var path := PortfolioImagePath(userID, imageIndex);
              (path in old(uploadManager.activeUploads) ==>
                 r == Err(UploadInProgress) && objects == old(objects) &&
                 uploadManager.activeUploads == old(uploadManager.activeUploads)) &&
              (path !in old(uploadManager.activeUploads) && compressed.None? ==> r == Err(CompressionFailed) && objects == old(objects)) &&
              (path !in old(uploadManager.activeUploads) && compressed.Some? ==>
                 r == UploadAnswer(outcome) && objects == StoredAfter(old(objects), path, compressed.value, outcome)) &&
              (path !in old(uploadManager.activeUploads) ==>
                 uploadManager.activeUploads == old(uploadManager.activeUploads) + {path})
    {
      r := UploadCompressed(PortfolioImagePath(userID, imageIndex), compressed, outcome);
    }

    /** The legacy `uploadPortfolioImage(userID:imageData:imageIndex:)`: same path, no guard, no compression. */
    method UploadPortfolioImageLegacy(userID: string, data: Bytes, imageIndex: int, outcome: UploadOutcome)
      returns (r: Result<string, StorageError>)
      modifies this
      ensures r == UploadAnswer(outcome)
      ensures objects == StoredAfter(old(objects), PortfolioImagePath(userID, imageIndex), data, outcome)
    {
      r := UploadImage(data, PortfolioImagePath(userID, imageIndex), outcome);
    }
  }
}

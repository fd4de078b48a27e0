/**
 * The profile editor: the form is filled from the stored profile, existing
 * works can be removed, and saving uploads the new pictures, writes one
 * update into the profile document and drops the affected cache entries.
 * Upload outcomes are parameters; the document store and the image cache
 * are the model's `UserStore` and `ImageCache`.
 */
module EditProfile {
  import opened Wrappers
  import opened Strings
  import StorageService
  import UPS = UserProfileService
  import CachedAsyncImage
  import CreateAccountFlow

  /** The editor's form state, including the existing works still listed. */
  datatype EditForm = EditForm(firstName: string, lastName: string, artistName: string, useRealName: bool,
                               profession: string, bio: string, dateOfBirth: nat, location: string,
                               portfolioURLs: seq<string>, portfolioPaths: seq<string>)

  const NotAuthenticatedMessage := "User not authenticated"

  /**
   * What the editor shows for a failed profile write: the thrown error's
   * description; for a missing document, whose text the SDK composes,
   * `missingText` stands for it.
   */
  function WriteErrorText(e: UPS.ProfileError, missingText: string): string {
    if e.Backend? then e.description else missingText
  }

  /**
   * `loadProfile`: a missing field becomes the empty string or the empty list,
   * a missing birth date becomes today, and the real name is used unless an
   * artist name is stored.
   */
  function LoadedForm(p: UPS.UserProfile, today: nat): (form: EditForm)
    ensures form.useRealName <==> p.artistName.None? || p.artistName.value == ""
  {
    EditForm(p.firstName.GetOr(""), p.lastName.GetOr(""), p.artistName.GetOr(""),
             p.artistName.None? || p.artistName.value == "",
             p.profession.GetOr(""), p.bio.GetOr(""), p.dateOfBirth.GetOr(today), p.location.GetOr(""),
             p.portfolioURLs.GetOr([]), p.portfolioPaths.GetOr([]))
  }

  /** The delete button's `remove(at:)`, taken only when the index is in range. */
  function RemoveAt(s: seq<string>, i: int): (r: seq<string>)
    ensures 0 <= i < |s| ==> |r| == |s| - 1 && (forall j :: 0 <= j < i ==> r[j] == s[j]) &&
                             (forall j :: i <= j < |r| ==> r[j] == s[j + 1])
    ensures !(0 <= i < |s|) ==> r == s
  {
    if 0 <= i < |s| then s[..i] + s[i + 1..] else s
  }

  /** Removing the same index from two lists of equal length keeps them of equal length and paired. */
  lemma RemovalKeepsPairs(urls: seq<string>, paths: seq<string>, i: int)
    requires |urls| == |paths|
    ensures |RemoveAt(urls, i)| == |RemoveAt(paths, i)|
    ensures 0 <= i < |urls| ==>
              forall j :: 0 <= j < |RemoveAt(urls, i)| ==>
                var k := if j < i then j else j + 1;
                RemoveAt(urls, i)[j] == urls[k] && RemoveAt(paths, i)[j] == paths[k]
  {
  }

  // ---------------------------------------------------------------------------
  // Uploads: any failure aborts the save.

  /** The first failed upload's error, if any. */
  function FirstError(uploads: seq<Result<string, string>>): (e: Option<string>)
    ensures e.None? <==> forall k :: 0 <= k < |uploads| ==> uploads[k].Ok?
    ensures e.Some? ==> exists k :: 0 <= k < |uploads| && uploads[k] == Err(e.value) &&
                                    forall j :: 0 <= j < k ==> uploads[j].Ok?
  {
    if uploads == [] then None
    else if uploads[0].Err? then Some(uploads[0].error)
    else
      var e := FirstError(uploads[1..]);
      assert forall k :: 1 <= k < |uploads| ==> uploads[k] == uploads[1..][k - 1];
      e
  }

  /** The download URLs of uploads that all succeeded. */
  function UploadedURLs(uploads: seq<Result<string, string>>): (r: seq<string>)
    requires forall k :: 0 <= k < |uploads| ==> uploads[k].Ok?
    ensures |r| == |uploads| && forall k :: 0 <= k < |r| ==> Ok(r[k]) == uploads[k]
  {
    seq(|uploads|, k requires 0 <= k < |uploads| => uploads[k].value)
  }

  /** New work `k` goes to `portfolios/{uid}/image_{start + k}.jpg`, `start` being the existing path count. */
  function NumberedPaths(uid: string, start: nat, count: nat): (r: seq<string>)
    ensures |r| == count
  {
    seq(count, k => StorageService.PortfolioImagePath(uid, start + k))
  }

  /** Numbered paths never repeat among themselves. */
  lemma NumberedPathsDistinct(uid: string, start: nat, count: nat)
    ensures forall j, k :: 0 <= j < k < count ==> NumberedPaths(uid, start, count)[j] != NumberedPaths(uid, start, count)[k]
  {
    forall j, k | 0 <= j < k < count
      ensures NumberedPaths(uid, start, count)[j] != NumberedPaths(uid, start, count)[k]
    {
      StorageService.PortfolioPathsDistinct(uid, start + j, start + k);
    }
  }

  /** While no work was removed, the next numbers continue the existing ones without a gap. */
  lemma NumberingContinues(uid: string, n: nat, m: nat)
    ensures NumberedPaths(uid, 0, n) + NumberedPaths(uid, n, m) == NumberedPaths(uid, 0, n + m)
  {
  }

  /**
   * The save's upload loop: each new work is uploaded under its numbered path;
   * the first failure stops the save.
   */
  method UploadNewWorks(uid: string, existingPathCount: nat, uploads: seq<Result<string, string>>)
    returns (r: Result<(seq<string>, seq<string>), string>)
    ensures r.Err? <==> FirstError(uploads).Some?
    ensures r.Err? ==> r.error == FirstError(uploads).value
    ensures r.Ok? ==> r.value.0 == UploadedURLs(uploads) && r.value.1 == NumberedPaths(uid, existingPathCount, |uploads|)
  {
    var urls, paths := [], [];
    for index := 0 to |uploads|
      invariant forall k :: 0 <= k < index ==> uploads[k].Ok?
      invariant |urls| == index && forall k :: 0 <= k < index ==> Ok(urls[k]) == uploads[k]
      invariant paths == NumberedPaths(uid, existingPathCount, index)
    {
      if uploads[index].Err? {
        assert FirstError(uploads).Some? by {
          assert !(forall k :: 0 <= k < |uploads| ==> uploads[k].Ok?);
        }
        var e := FirstError(uploads).value;
        var k :| 0 <= k < |uploads| && uploads[k] == Err(e) && forall j :: 0 <= j < k ==> uploads[j].Ok?;
        assert k == index;
        return Err(uploads[index].error);
      }
      urls := urls + [uploads[index].value];
      paths := paths + [StorageService.PortfolioImagePath(uid, existingPathCount + index)];
    }
    r := Ok((urls, paths));
  }

  // ---------------------------------------------------------------------------
  // The update map and the cache keys.

  /**
   * The picture fields the save writes: the new upload's URL and path, or else
   * the values the loaded profile had (none without a loaded profile).
   */
  function ImageAfterSave(loaded: Option<UPS.UserProfile>, uid: string, uploadedURL: Option<string>)
    : (image: (Option<string>, Option<string>))
    ensures uploadedURL.Some? ==> image == (uploadedURL, Some(StorageService.ProfileImagePath(uid)))
    ensures uploadedURL.None? && loaded.Some? ==> image == (loaded.value.profileImageURL, loaded.value.profileImagePath)
    ensures uploadedURL.None? && loaded.None? ==> image == (None, None)
  {
    if uploadedURL.Some? then (uploadedURL, Some(StorageService.ProfileImagePath(uid)))
    else if loaded.Some? then (loaded.value.profileImageURL, loaded.value.profileImagePath)
    else (None, None)
  }

  /** The display name the editor saves; unlike onboarding, an empty one is not refused. */
  function EditDisplayName(form: EditForm): string {
    CreateAccountFlow.OnboardingDisplayName(form.useRealName, form.firstName, form.lastName, form.artistName)
  }

  /** The value `saveProfile`'s `updates` holds for a field, given the merged lists. */
  function EditValue(form: EditForm, image: (Option<string>, Option<string>),
                     allURLs: seq<string>, allPaths: seq<string>, f: UPS.Field): Option<UPS.Value>
  {
    match f
    case DisplayName => Some(UPS.Str(EditDisplayName(form)))
    case Profession => Some(CreateAccountFlow.NullIfEmpty(form.profession))
    case Bio => Some(CreateAccountFlow.NullIfEmpty(form.bio))
    case DateOfBirth => Some(UPS.Time(form.dateOfBirth))
    case PortfolioURLs => Some(UPS.List(allURLs))
    case PortfolioPaths => Some(if allPaths == [] then UPS.Null else UPS.List(allPaths))
    case Location => Some(CreateAccountFlow.NullIfEmpty(form.location))
    case ProfileImageURL => if image.0.Some? then Some(UPS.Str(image.0.value)) else None
    case ProfileImagePath => if image.1.Some? then Some(UPS.Str(image.1.value)) else None
    case _ => None
  }

  /** `saveProfile`'s `updates`: the lists are the existing entries followed by the new ones. */
  function EditUpdates(form: EditForm, image: (Option<string>, Option<string>),
                       newURLs: seq<string>, newPaths: seq<string>): (u: UPS.Document)
    ensures forall f :: f in u <==> EditValue(form, image, form.portfolioURLs + newURLs, form.portfolioPaths + newPaths, f).Some?
    ensures forall f :: f in u ==> u[f] == EditValue(form, image, form.portfolioURLs + newURLs, form.portfolioPaths + newPaths, f).value
  {
    UPS.AllFieldsComplete();
    map f | f in UPS.AllFields && EditValue(form, image, form.portfolioURLs + newURLs, form.portfolioPaths + newPaths, f).Some? ::
      EditValue(form, image, form.portfolioURLs + newURLs, form.portfolioPaths + newPaths, f).value
  }

  /** Every value the editor writes has its field's kind, or is a null for an optional field. */
  lemma EditUpdatesWellKinded(form: EditForm, image: (Option<string>, Option<string>),
                              newURLs: seq<string>, newPaths: seq<string>)
    ensures var u := EditUpdates(form, image, newURLs, newPaths);
            forall f :: f in u ==> UPS.HasKind(u[f], UPS.KindOf(f)) || (u[f].Null? && !UPS.Required(f))
  {
  }

  /** The cache keys a successful save drops: the picture's `path ?? url`, then every work path and URL. */
  function InvalidatedKeys(image: (Option<string>, Option<string>), allPaths: seq<string>, allURLs: seq<string>)
    : (keys: set<string>)
    ensures image.1.Some? ==> image.1.value in keys
    ensures image.1.None? && image.0.Some? ==> image.0.value in keys
    ensures forall k :: k in allPaths || k in allURLs ==> k in keys
    ensures forall k :: k in keys ==> k in allPaths || k in allURLs || Some(k) == image.1 ||
                                      (image.1.None? && Some(k) == image.0)
  {
    var profileKey := if image.1.Some? then image.1 else image.0;
    (if profileKey.Some? then {profileKey.value} else {}) + (set k | k in allPaths) + (set k | k in allURLs)
  }

  /** Removes the picture's key and every work key from the shared cache, one call per key. */
  method InvalidateCache(cache: CachedAsyncImage.ImageCache, image: (Option<string>, Option<string>),
                         allPaths: seq<string>, allURLs: seq<string>)
    modifies cache
    ensures cache.cache == old(cache.cache) - InvalidatedKeys(image, allPaths, allURLs)
  {
    var profileKey := if image.1.Some? then image.1 else image.0;
    ghost var first: set<string> := if profileKey.Some? then {profileKey.value} else {};
    if profileKey.Some? {
      cache.RemoveImage(profileKey.value);
    }
    ghost var afterFirst := cache.cache;
    assert afterFirst == old(cache.cache) - first;
    RemoveKeys(cache, allPaths);
    RemoveKeys(cache, allURLs);
    ghost var paths, urls := (set k | k in allPaths), (set k | k in allURLs);
    assert InvalidatedKeys(image, allPaths, allURLs) == first + paths + urls;
    SubtractTwice(old(cache.cache), first, paths);
    SubtractTwice(old(cache.cache), first + paths, urls);
  }

  /** Removing two key sets one after the other removes their union. */
  lemma SubtractTwice(m: map<string, CachedAsyncImage.Image>, a: set<string>, b: set<string>)
    ensures (m - a) - b == m - (a + b)
  {
  }

  /** One `removeImage` call per key, in order. */
  method RemoveKeys(cache: CachedAsyncImage.ImageCache, keys: seq<string>)
    modifies cache
    ensures cache.cache == old(cache.cache) - (set k | k in keys)
  {
    for i := 0 to |keys|
      invariant cache.cache == old(cache.cache) - (set k | k in keys[..i])
    {
      ghost var done := set k | k in keys[..i];
      ghost var upTo := keys[..i + 1];
      assert upTo == keys[..i] + [keys[i]];
      assert (set k | k in upTo) == done + {keys[i]};
      cache.RemoveImage(keys[i]);
      SubtractTwice(old(cache.cache), done, {keys[i]});
    }
    assert keys[..|keys|] == keys;
  }

  // ---------------------------------------------------------------------------
  // What the saved document reads back as.

  /** A text field after a merge: the update's string, nil for its null, or the document's when not updated. */
  lemma MergedStr(doc: UPS.Document, u: UPS.Document, now: nat, f: UPS.Field)
    requires f != UPS.UpdatedAt
    ensures f in u ==> UPS.GetStr(UPS.Merge(doc, UPS.Stamped(u, now)), f) == (if u[f].Str? then Some(u[f].s) else None)
    ensures f !in u ==> UPS.GetStr(UPS.Merge(doc, UPS.Stamped(u, now)), f) == UPS.GetStr(doc, f)
  {
  }

  /** A list field after a merge, likewise. */
  lemma MergedList(doc: UPS.Document, u: UPS.Document, now: nat, f: UPS.Field)
    requires f != UPS.UpdatedAt && f in u
    ensures UPS.GetList(UPS.Merge(doc, UPS.Stamped(u, now)), f) == (if u[f].List? then Some(u[f].items) else None)
  {
  }

  /** The save's merge: the document with the editor's fields and the time stamp. */
  function SavedEdit(doc: UPS.Document, form: EditForm, image: (Option<string>, Option<string>),
                     newURLs: seq<string>, newPaths: seq<string>, now: nat): UPS.Document
  {
    UPS.Merge(doc, UPS.Stamped(EditUpdates(form, image, newURLs, newPaths), now))
  }

  /** The editor's merge keeps a readable document readable. */
  lemma SavedEditDecodes(doc: UPS.Document, form: EditForm, image: (Option<string>, Option<string>),
                         newURLs: seq<string>, newPaths: seq<string>, now: nat)
    requires UPS.Decodable(doc)
    ensures UPS.Decodable(SavedEdit(doc, form, image, newURLs, newPaths, now))
  {
    EditUpdatesWellKinded(form, image, newURLs, newPaths);
    UPS.MergeKeepsDecodable(doc, UPS.Stamped(EditUpdates(form, image, newURLs, newPaths), now));
  }

  /** A time field after a merge: the update's time when one is written. */
  lemma MergedTime(doc: UPS.Document, u: UPS.Document, now: nat, f: UPS.Field)
    requires f != UPS.UpdatedAt && f in u
    ensures UPS.GetTime(UPS.Merge(doc, UPS.Stamped(u, now)), f) == (if u[f].Time? then Some(u[f].t) else None)
  {
  }

  /** The display name, birth date and time stamp read back as saved. */
  lemma SavedEditNameAndTime(uid: string, doc: UPS.Document, form: EditForm, image: (Option<string>, Option<string>),
                             newURLs: seq<string>, newPaths: seq<string>, now: nat)
    ensures var q := UPS.Build(uid, SavedEdit(doc, form, image, newURLs, newPaths, now));
            q.displayName == EditDisplayName(form) && q.dateOfBirth == Some(form.dateOfBirth) && q.updatedAt == now
  {
    var u := EditUpdates(form, image, newURLs, newPaths);
    var allURLs, allPaths := form.portfolioURLs + newURLs, form.portfolioPaths + newPaths;
    assert EditValue(form, image, allURLs, allPaths, UPS.DisplayName) == Some(UPS.Str(EditDisplayName(form)));
    assert EditValue(form, image, allURLs, allPaths, UPS.DateOfBirth) == Some(UPS.Time(form.dateOfBirth));
    MergedStr(doc, u, now, UPS.DisplayName);
    MergedTime(doc, u, now, UPS.DateOfBirth);
  }

  /** The optional text fields read back as the form had them, empty text as nil. */
  lemma SavedEditText(uid: string, doc: UPS.Document, form: EditForm, image: (Option<string>, Option<string>),
                      newURLs: seq<string>, newPaths: seq<string>, now: nat)
    ensures var q := UPS.Build(uid, SavedEdit(doc, form, image, newURLs, newPaths, now));
            q.location == (if form.location == "" then None else Some(form.location)) &&
            q.profession == (if form.profession == "" then None else Some(form.profession)) &&
            q.bio == (if form.bio == "" then None else Some(form.bio))
  {
    var u := EditUpdates(form, image, newURLs, newPaths);
    var allURLs, allPaths := form.portfolioURLs + newURLs, form.portfolioPaths + newPaths;
    assert EditValue(form, image, allURLs, allPaths, UPS.Location) == Some(CreateAccountFlow.NullIfEmpty(form.location));
    assert EditValue(form, image, allURLs, allPaths, UPS.Profession) == Some(CreateAccountFlow.NullIfEmpty(form.profession));
    assert EditValue(form, image, allURLs, allPaths, UPS.Bio) == Some(CreateAccountFlow.NullIfEmpty(form.bio));
    MergedStr(doc, u, now, UPS.Location);
    MergedStr(doc, u, now, UPS.Profession);
    MergedStr(doc, u, now, UPS.Bio);
  }

  /** The lists read back as existing followed by new; an empty path list as nil. */
  lemma SavedEditLists(uid: string, doc: UPS.Document, form: EditForm, image: (Option<string>, Option<string>),
                       newURLs: seq<string>, newPaths: seq<string>, now: nat)
    ensures var q := UPS.Build(uid, SavedEdit(doc, form, image, newURLs, newPaths, now));
            q.portfolioURLs == Some(form.portfolioURLs + newURLs) &&
            q.portfolioPaths == (if form.portfolioPaths + newPaths == [] then None else Some(form.portfolioPaths + newPaths))
  {
    var u := EditUpdates(form, image, newURLs, newPaths);
    MergedList(doc, u, now, UPS.PortfolioURLs);
    MergedList(doc, u, now, UPS.PortfolioPaths);
  }

  /** The picture fields change only when the save gives them. */
  lemma SavedEditImage(uid: string, doc: UPS.Document, form: EditForm, image: (Option<string>, Option<string>),
                       newURLs: seq<string>, newPaths: seq<string>, now: nat)
    ensures var q := UPS.Build(uid, SavedEdit(doc, form, image, newURLs, newPaths, now));
            var p := UPS.Build(uid, doc);
            q.profileImageURL == (if image.0.Some? then image.0 else p.profileImageURL) &&
            q.profileImagePath == (if image.1.Some? then image.1 else p.profileImagePath)
  {
    var u := EditUpdates(form, image, newURLs, newPaths);
    var allURLs, allPaths := form.portfolioURLs + newURLs, form.portfolioPaths + newPaths;
    assert EditValue(form, image, allURLs, allPaths, UPS.ProfileImageURL) ==
           (if image.0.Some? then Some(UPS.Str(image.0.value)) else None);
    assert EditValue(form, image, allURLs, allPaths, UPS.ProfileImagePath) ==
           (if image.1.Some? then Some(UPS.Str(image.1.value)) else None);
    MergedStr(doc, u, now, UPS.ProfileImageURL);
    MergedStr(doc, u, now, UPS.ProfileImagePath);
  }

  /** The name fields are never written, so they keep their stored values. */
  lemma SavedEditKeepsNames(uid: string, doc: UPS.Document, form: EditForm, image: (Option<string>, Option<string>),
                            newURLs: seq<string>, newPaths: seq<string>, now: nat)
    ensures var q := UPS.Build(uid, SavedEdit(doc, form, image, newURLs, newPaths, now));
            var p := UPS.Build(uid, doc);
            q.firstName == p.firstName && q.lastName == p.lastName && q.artistName == p.artistName
  {
    var u := EditUpdates(form, image, newURLs, newPaths);
    var allURLs, allPaths := form.portfolioURLs + newURLs, form.portfolioPaths + newPaths;
    assert EditValue(form, image, allURLs, allPaths, UPS.FirstName).None?;
    assert EditValue(form, image, allURLs, allPaths, UPS.LastName).None?;
    assert EditValue(form, image, allURLs, allPaths, UPS.ArtistName).None?;
    MergedStr(doc, u, now, UPS.FirstName);
    MergedStr(doc, u, now, UPS.LastName);
    MergedStr(doc, u, now, UPS.ArtistName);
  }

  /**
   * Switching from an artist name to the real name does not survive a reload:
   * the stored artist name is kept, so the reloaded form uses it again.
   */
  lemma RealNameSwitchDoesNotStick(uid: string, doc: UPS.Document, form: EditForm, image: (Option<string>, Option<string>),
                                   newURLs: seq<string>, newPaths: seq<string>, now: nat, today: nat)
    requires UPS.Decodable(doc)
    requires var p := UPS.Decode(uid, doc).value; p.artistName.Some? && p.artistName.value != ""
    requires form.useRealName
    ensures var saved := UPS.Decode(uid, SavedEdit(doc, form, image, newURLs, newPaths, now));
            saved.Ok? && !LoadedForm(saved.value, today).useRealName
  {
    SavedEditDecodes(doc, form, image, newURLs, newPaths, now);
    SavedEditKeepsNames(uid, doc, form, image, newURLs, newPaths, now);
  }

  /**
   * The works removed and added in one session clash: after removing the first
   * of two numbered works, the new work is numbered 1 again, so both listed
   * paths are the same file.
   */
  lemma RemovalThenAddReusesPath(uid: string)
    ensures var existing := RemoveAt(NumberedPaths(uid, 0, 2), 0);
            var all := existing + NumberedPaths(uid, |existing|, 1);
            |all| == 2 && all[0] == all[1]
  {
    var existing := RemoveAt(NumberedPaths(uid, 0, 2), 0);
    assert existing[0] == StorageService.PortfolioImagePath(uid, 1);
  }

  // ---------------------------------------------------------------------------
  // The corrected save: fresh work numbers, and the name fields written.

  /**
   * The first `count` indices from `from` on whose paths are not already
   * listed (`taken` holds the listed paths not yet passed).
   */
  function FreshIndices(uid: string, taken: set<string>, from: nat, count: nat): (r: seq<nat>)
    ensures |r| == count
    ensures forall k :: 0 <= k < count ==> r[k] >= from
    ensures forall j, k :: 0 <= j < k < count ==> r[j] < r[k]
    decreases count, |taken|
  {
    if count == 0 then []
    else
      var p := StorageService.PortfolioImagePath(uid, from);
      if p in taken then FreshIndices(uid, taken - {p}, from + 1, count)
      else [from] + FreshIndices(uid, taken, from + 1, count - 1)
  }

  /** No fresh index lands on a path in `taken`. */
  lemma {:induction false} FreshIndicesAvoidTaken(uid: string, taken: set<string>, from: nat, count: nat)
    ensures forall k :: 0 <= k < count ==>
              StorageService.PortfolioImagePath(uid, FreshIndices(uid, taken, from, count)[k]) !in taken
    decreases count, |taken|
  {
    if count > 0 {
      var p := StorageService.PortfolioImagePath(uid, from);
      var r := FreshIndices(uid, taken, from, count);
      if p in taken {
        var rest := FreshIndices(uid, taken - {p}, from + 1, count);
        FreshIndicesAvoidTaken(uid, taken - {p}, from + 1, count);
        assert r == rest;
        forall k | 0 <= k < count
          ensures StorageService.PortfolioImagePath(uid, r[k]) !in taken
        {
          assert rest[k] >= from + 1;
          StorageService.PortfolioPathsDistinct(uid, from, rest[k]);
          assert StorageService.PortfolioImagePath(uid, rest[k]) !in taken - {p};
        }
      } else {
        var rest := FreshIndices(uid, taken, from + 1, count - 1);
        FreshIndicesAvoidTaken(uid, taken, from + 1, count - 1);
        assert r == [from] + rest;
        forall k | 0 <= k < count
          ensures StorageService.PortfolioImagePath(uid, r[k]) !in taken
        {
          if k > 0 {
            assert r[k] == rest[k - 1];
          }
        }
      }
    }
  }

  /** The corrected numbering: new works take the first indices whose paths are not listed. */
  function FreshWorkPaths(uid: string, existingPaths: seq<string>, count: nat): (r: seq<string>)
    ensures |r| == count
  {
    var indices := FreshIndices(uid, set p | p in existingPaths, 0, count);
    seq(count, k requires 0 <= k < count => StorageService.PortfolioImagePath(uid, indices[k]))
  }

  /** With fresh numbering, the saved path list repeats no path that the existing list did not. */
  lemma FreshWorkPathsDistinct(uid: string, existingPaths: seq<string>, count: nat)
    requires forall j, k :: 0 <= j < k < |existingPaths| ==> existingPaths[j] != existingPaths[k]
    ensures var all := existingPaths + FreshWorkPaths(uid, existingPaths, count);
            forall j, k :: 0 <= j < k < |all| ==> all[j] != all[k]
  {
    var taken := set p | p in existingPaths;
    var indices := FreshIndices(uid, taken, 0, count);
    var added := FreshWorkPaths(uid, existingPaths, count);
    FreshIndicesAvoidTaken(uid, taken, 0, count);
    forall j, k | 0 <= j < k < count
      ensures added[j] != added[k]
    {
      StorageService.PortfolioPathsDistinct(uid, indices[j], indices[k]);
    }
    assert forall k :: 0 <= k < count ==> added[k] !in taken;
  }

  /** The corrected `updates`: the name fields are written as onboarding writes them. */
  function CorrectedEditValue(form: EditForm, image: (Option<string>, Option<string>),
                              allURLs: seq<string>, allPaths: seq<string>, f: UPS.Field): Option<UPS.Value>
  {
    match f
    case FirstName => Some(if form.useRealName then UPS.Str(form.firstName) else UPS.Null)
    case LastName => Some(if form.useRealName then UPS.Str(form.lastName) else UPS.Null)
    case ArtistName => Some(if form.useRealName then UPS.Null else UPS.Str(form.artistName))
    case _ => EditValue(form, image, allURLs, allPaths, f)
  }

  function CorrectedEditUpdates(form: EditForm, image: (Option<string>, Option<string>),
                                newURLs: seq<string>, newPaths: seq<string>): (u: UPS.Document)
    ensures forall f :: f in u <==> CorrectedEditValue(form, image, form.portfolioURLs + newURLs, form.portfolioPaths + newPaths, f).Some?
    ensures forall f :: f in u ==> u[f] == CorrectedEditValue(form, image, form.portfolioURLs + newURLs, form.portfolioPaths + newPaths, f).value
  {
    UPS.AllFieldsComplete();
    map f | f in UPS.AllFields && CorrectedEditValue(form, image, form.portfolioURLs + newURLs, form.portfolioPaths + newPaths, f).Some? ::
      CorrectedEditValue(form, image, form.portfolioURLs + newURLs, form.portfolioPaths + newPaths, f).value
  }

  /** The corrected merge keeps a readable document readable. */
  lemma CorrectedSaveDecodes(doc: UPS.Document, form: EditForm, image: (Option<string>, Option<string>),
                             newURLs: seq<string>, newPaths: seq<string>, now: nat)
    requires UPS.Decodable(doc)
    ensures UPS.Decodable(UPS.Merge(doc, UPS.Stamped(CorrectedEditUpdates(form, image, newURLs, newPaths), now)))
  {
    CorrectedEditUpdatesWellKinded(form, image, newURLs, newPaths);
    UPS.MergeKeepsDecodable(doc, UPS.Stamped(CorrectedEditUpdates(form, image, newURLs, newPaths), now));
  }

  /** Every value the corrected save writes has its field's kind, or is a null for an optional field. */
  lemma CorrectedEditUpdatesWellKinded(form: EditForm, image: (Option<string>, Option<string>),
                                       newURLs: seq<string>, newPaths: seq<string>)
    ensures var u := CorrectedEditUpdates(form, image, newURLs, newPaths);
            forall f :: f in u ==> UPS.HasKind(u[f], UPS.KindOf(f)) || (u[f].Null? && !UPS.Required(f))
  {
  }

  /** The corrected merge writes the name fields for the chosen name. */
  lemma CorrectedSaveNames(uid: string, doc: UPS.Document, form: EditForm, image: (Option<string>, Option<string>),
                           newURLs: seq<string>, newPaths: seq<string>, now: nat)
    ensures var q := UPS.Build(uid, UPS.Merge(doc, UPS.Stamped(CorrectedEditUpdates(form, image, newURLs, newPaths), now)));
            q.firstName == (if form.useRealName then Some(form.firstName) else None) &&
            q.lastName == (if form.useRealName then Some(form.lastName) else None) &&
            q.artistName == (if form.useRealName then None else Some(form.artistName))
  {
    var u := CorrectedEditUpdates(form, image, newURLs, newPaths);
    var allURLs, allPaths := form.portfolioURLs + newURLs, form.portfolioPaths + newPaths;
    assert CorrectedEditValue(form, image, allURLs, allPaths, UPS.FirstName) ==
           Some(if form.useRealName then UPS.Str(form.firstName) else UPS.Null);
    assert CorrectedEditValue(form, image, allURLs, allPaths, UPS.LastName) ==
           Some(if form.useRealName then UPS.Str(form.lastName) else UPS.Null);
    assert CorrectedEditValue(form, image, allURLs, allPaths, UPS.ArtistName) ==
           Some(if form.useRealName then UPS.Null else UPS.Str(form.artistName));
    MergedStr(doc, u, now, UPS.FirstName);
    MergedStr(doc, u, now, UPS.LastName);
    MergedStr(doc, u, now, UPS.ArtistName);
  }

  /** The corrected merge writes the optional text fields as the editor does. */
  lemma CorrectedSaveText(uid: string, doc: UPS.Document, form: EditForm, image: (Option<string>, Option<string>),
                          newURLs: seq<string>, newPaths: seq<string>, now: nat)
    ensures var q := UPS.Build(uid, UPS.Merge(doc, UPS.Stamped(CorrectedEditUpdates(form, image, newURLs, newPaths), now)));
            q.location == (if form.location == "" then None else Some(form.location)) &&
            q.profession == (if form.profession == "" then None else Some(form.profession)) &&
            q.bio == (if form.bio == "" then None else Some(form.bio))
  {
    var u := CorrectedEditUpdates(form, image, newURLs, newPaths);
    var allURLs, allPaths := form.portfolioURLs + newURLs, form.portfolioPaths + newPaths;
    assert CorrectedEditValue(form, image, allURLs, allPaths, UPS.Location) == Some(CreateAccountFlow.NullIfEmpty(form.location));
    assert CorrectedEditValue(form, image, allURLs, allPaths, UPS.Profession) == Some(CreateAccountFlow.NullIfEmpty(form.profession));
    assert CorrectedEditValue(form, image, allURLs, allPaths, UPS.Bio) == Some(CreateAccountFlow.NullIfEmpty(form.bio));
    MergedStr(doc, u, now, UPS.Location);
    MergedStr(doc, u, now, UPS.Profession);
    MergedStr(doc, u, now, UPS.Bio);
  }

  /** The corrected merge writes the birth date and the merged lists as the editor does. */
  lemma CorrectedSaveLists(uid: string, doc: UPS.Document, form: EditForm, image: (Option<string>, Option<string>),
                           newURLs: seq<string>, newPaths: seq<string>, now: nat)
    ensures var q := UPS.Build(uid, UPS.Merge(doc, UPS.Stamped(CorrectedEditUpdates(form, image, newURLs, newPaths), now)));
            q.dateOfBirth == Some(form.dateOfBirth) &&
            q.portfolioURLs == Some(form.portfolioURLs + newURLs) &&
            q.portfolioPaths == (if form.portfolioPaths + newPaths == [] then None else Some(form.portfolioPaths + newPaths))
  {
    CorrectedSaveDate(doc, form, image, newURLs, newPaths, now);
    CorrectedSaveListFields(doc, form, image, newURLs, newPaths, now);
  }

  /** The corrected save stores both portfolio lists, an empty path list as a null. */
  lemma CorrectedSaveListFields(doc: UPS.Document, form: EditForm, image: (Option<string>, Option<string>),
                                newURLs: seq<string>, newPaths: seq<string>, now: nat)
    ensures var m := UPS.Merge(doc, UPS.Stamped(CorrectedEditUpdates(form, image, newURLs, newPaths), now));
            var allPaths := form.portfolioPaths + newPaths;
            UPS.GetList(m, UPS.PortfolioURLs) == Some(form.portfolioURLs + newURLs) &&
            UPS.GetList(m, UPS.PortfolioPaths) == (if allPaths == [] then None else Some(allPaths))
  {
    var u := CorrectedEditUpdates(form, image, newURLs, newPaths);
    var allURLs, allPaths := form.portfolioURLs + newURLs, form.portfolioPaths + newPaths;
    assert CorrectedEditValue(form, image, allURLs, allPaths, UPS.PortfolioURLs) == Some(UPS.List(allURLs));
    assert CorrectedEditValue(form, image, allURLs, allPaths, UPS.PortfolioPaths) ==
           Some(if allPaths == [] then UPS.Null else UPS.List(allPaths));
    MergedList(doc, u, now, UPS.PortfolioURLs);
    MergedList(doc, u, now, UPS.PortfolioPaths);
  }

  /** The corrected save stores the birth date as a timestamp. */
  lemma CorrectedSaveDate(doc: UPS.Document, form: EditForm, image: (Option<string>, Option<string>),
                          newURLs: seq<string>, newPaths: seq<string>, now: nat)
    ensures var u := CorrectedEditUpdates(form, image, newURLs, newPaths);
            UPS.GetTime(UPS.Merge(doc, UPS.Stamped(u, now)), UPS.DateOfBirth) == Some(form.dateOfBirth)
  {
    var u := CorrectedEditUpdates(form, image, newURLs, newPaths);
    var allURLs, allPaths := form.portfolioURLs + newURLs, form.portfolioPaths + newPaths;
    assert CorrectedEditValue(form, image, allURLs, allPaths, UPS.DateOfBirth) == Some(UPS.Time(form.dateOfBirth));
    MergedTime(doc, u, now, UPS.DateOfBirth);
  }

  /**
   * With the name fields written, saving and reloading gives back the form:
   * the name choice, the visible name fields, the text fields and the merged lists.
   */
  lemma CorrectedSaveReloads(uid: string, doc: UPS.Document, form: EditForm, image: (Option<string>, Option<string>),
                             newURLs: seq<string>, newPaths: seq<string>, now: nat, today: nat)
    requires UPS.Decodable(doc)
    requires !form.useRealName ==> form.artistName != ""
    ensures var saved := UPS.Decode(uid, UPS.Merge(doc, UPS.Stamped(CorrectedEditUpdates(form, image, newURLs, newPaths), now)));
            saved.Ok? &&
            var again := LoadedForm(saved.value, today);
            again.useRealName == form.useRealName &&
            (form.useRealName ==> again.firstName == form.firstName && again.lastName == form.lastName) &&
            (!form.useRealName ==> again.artistName == form.artistName) &&
            again.profession == form.profession && again.bio == form.bio && again.location == form.location &&
            again.dateOfBirth == form.dateOfBirth &&
            again.portfolioURLs == form.portfolioURLs + newURLs && again.portfolioPaths == form.portfolioPaths + newPaths
  {
    CorrectedSaveDecodes(doc, form, image, newURLs, newPaths, now);
    CorrectedSaveNames(uid, doc, form, image, newURLs, newPaths, now);
    CorrectedSaveText(uid, doc, form, image, newURLs, newPaths, now);
    CorrectedSaveLists(uid, doc, form, image, newURLs, newPaths, now);
  }

  // ---------------------------------------------------------------------------
  // The view.

  class EditProfileView {
    var userProfile: Option<UPS.UserProfile>
    var isLoading: bool
    var isSaving: bool
    var errorMessage: Option<string>
    var dismissed: bool
    var firstName: string
    var lastName: string
    var artistName: string
    var useRealName: bool
    var profession: string
    var bio: string
    var dateOfBirth: nat
    var location: string
    var existingPortfolioURLs: seq<string>
    var existingPortfolioPaths: seq<string>

    constructor(today: nat)
      ensures userProfile == None && isLoading && !isSaving && errorMessage == None && !dismissed
      ensures Form() == EditForm("", "", "", true, "", "", today, "", [], [])
    {
      userProfile, isLoading, isSaving, errorMessage, dismissed := None, true, false, None, false;
      firstName, lastName, artistName, useRealName := "", "", "", true;
      profession, bio, dateOfBirth, location := "", "", today, "";
      existingPortfolioURLs, existingPortfolioPaths := [], [];
    }

    function Form(): EditForm
      reads this
    {
      EditForm(firstName, lastName, artistName, useRealName, profession, bio, dateOfBirth, location,
               existingPortfolioURLs, existingPortfolioPaths)
    }

    /**
     * `loadProfile`: without a signed-in user, or when the fetch fails (a
     * missing or unreadable profile, or a read that throws, `readFault`), only
     * the spinner stops; a fetched profile fills the form.
     */
    method LoadProfile(uid: Option<string>, store: UPS.UserStore, readFault: Option<string>, today: nat)
      modifies this
      ensures !isLoading && errorMessage == old(errorMessage) && isSaving == old(isSaving) && dismissed == old(dismissed)
      ensures var fetched := if uid.None? then Err(UPS.NotFound)
                             else if readFault.Some? then Err(UPS.Backend(readFault.value))
                             else UPS.FetchUserProfile(store.users, uid.value);
              (uid.Some? && fetched.Ok? ==> userProfile == fetched.value) &&
              (uid.Some? && fetched.Ok? && fetched.value.Some? ==> Form() == LoadedForm(fetched.value.value, today)) &&
              (!(uid.Some? && fetched.Ok? && fetched.value.Some?) ==> Form() == old(Form())) &&
              (!(uid.Some? && fetched.Ok?) ==> userProfile == old(userProfile))
    {
      if uid.None? {
        isLoading := false;
        return;
      }
      var fetched := if readFault.Some? then Err(UPS.Backend(readFault.value))
                     else UPS.FetchUserProfile(store.users, uid.value);
      if fetched.Ok? {
        userProfile := fetched.value;
        if fetched.value.Some? {
          SetForm(LoadedForm(fetched.value.value, today));
        }
      }
      isLoading := false;
    }

    /** Fills the form fields. */
    method SetForm(form: EditForm)
      modifies this
      ensures Form() == form
      ensures userProfile == old(userProfile) && isLoading == old(isLoading) && isSaving == old(isSaving)
      ensures errorMessage == old(errorMessage) && dismissed == old(dismissed)
    {
      SetNames(form);
      SetDetails(form);
      assert form == EditForm(firstName, lastName, artistName, useRealName, profession, bio, dateOfBirth, location,
                              existingPortfolioURLs, existingPortfolioPaths);
    }

    /** Fills the name fields of the form. */
    method SetNames(form: EditForm)
      modifies this
      ensures firstName == form.firstName && lastName == form.lastName && artistName == form.artistName
      ensures useRealName == form.useRealName
      ensures profession == old(profession) && bio == old(bio) && dateOfBirth == old(dateOfBirth)
      ensures location == old(location) && existingPortfolioURLs == old(existingPortfolioURLs)
      ensures existingPortfolioPaths == old(existingPortfolioPaths)
      ensures userProfile == old(userProfile) && isLoading == old(isLoading) && isSaving == old(isSaving)
      ensures errorMessage == old(errorMessage) && dismissed == old(dismissed)
    {
      firstName, lastName, artistName, useRealName := form.firstName, form.lastName, form.artistName, form.useRealName;
    }

    /** Fills the remaining fields of the form. */
    method SetDetails(form: EditForm)
      modifies this
      ensures profession == form.profession && bio == form.bio && dateOfBirth == form.dateOfBirth
      ensures location == form.location && existingPortfolioURLs == form.portfolioURLs
      ensures existingPortfolioPaths == form.portfolioPaths
      ensures firstName == old(firstName) && lastName == old(lastName) && artistName == old(artistName)
      ensures useRealName == old(useRealName)
      ensures userProfile == old(userProfile) && isLoading == old(isLoading) && isSaving == old(isSaving)
      ensures errorMessage == old(errorMessage) && dismissed == old(dismissed)
    {
      profession, bio, dateOfBirth, location := form.profession, form.bio, form.dateOfBirth, form.location;
      existingPortfolioURLs, existingPortfolioPaths := form.portfolioURLs, form.portfolioPaths;
    }

    /** The delete button on existing work `index`. */
    method RemoveExistingWork(index: int)
      modifies this
      ensures existingPortfolioURLs == RemoveAt(old(existingPortfolioURLs), index)
      ensures existingPortfolioPaths == RemoveAt(old(existingPortfolioPaths), index)
      ensures firstName == old(firstName) && lastName == old(lastName) && artistName == old(artistName)
      ensures useRealName == old(useRealName) && profession == old(profession) && bio == old(bio)
      ensures dateOfBirth == old(dateOfBirth) && location == old(location) && userProfile == old(userProfile)
      ensures isLoading == old(isLoading) && isSaving == old(isSaving) && errorMessage == old(errorMessage)
      ensures dismissed == old(dismissed)
    {
      if 0 <= index < |existingPortfolioURLs| {
        existingPortfolioURLs := existingPortfolioURLs[..index] + existingPortfolioURLs[index + 1..];
      }
      if 0 <= index < |existingPortfolioPaths| {
        existingPortfolioPaths := existingPortfolioPaths[..index] + existingPortfolioPaths[index + 1..];
      }
    }

    /**
     * `saveProfile`. `profileUpload` is the new picture's upload (nothing when
     * none was picked) and `workUploads` has one outcome per new work; a failed
     * upload, like a missing document or a write that throws (`writeFault`),
     * ends the save with the error's description shown and no write;
     * `missingText` is the SDK's description of a missing document.
     */
    method SaveProfile(uid: Option<string>, profileUpload: Option<Result<string, string>>,
                       workUploads: seq<Result<string, string>>, now: nat, writeFault: Option<string>,
                       missingText: string, store: UPS.UserStore, cache: CachedAsyncImage.ImageCache)
      modifies this, store, cache
      ensures Form() == old(Form()) && userProfile == old(userProfile) && isLoading == old(isLoading)
      ensures uid.None? ==> errorMessage == Some(NotAuthenticatedMessage) && isSaving == old(isSaving) &&
                            dismissed == old(dismissed) &&
                            store.users == old(store.users) && cache.cache == old(cache.cache)
      ensures uid.Some? ==> !isSaving
      ensures uid.Some? && profileUpload.Some? && profileUpload.value.Err? ==>
                errorMessage == Some(profileUpload.value.error) && dismissed == old(dismissed) &&
                store.users == old(store.users) && cache.cache == old(cache.cache)
      ensures uid.Some? && !(profileUpload.Some? && profileUpload.value.Err?) && FirstError(workUploads).Some? ==>
                errorMessage == FirstError(workUploads) && dismissed == old(dismissed) &&
                store.users == old(store.users) && cache.cache == old(cache.cache)
      ensures uid.Some? && !(profileUpload.Some? && profileUpload.value.Err?) && FirstError(workUploads).None? ==>
                var id := uid.value;
                var image := ImageAfterSave(old(userProfile), id,
                                            if profileUpload.Some? then Some(profileUpload.value.value) else None);
                var newURLs := UploadedURLs(workUploads);
                var newPaths := NumberedPaths(id, |old(existingPortfolioPaths)|, |workUploads|);
                (writeFault.Some? ==>
                   errorMessage == writeFault && dismissed == old(dismissed) && store.users == old(store.users) &&
                   cache.cache == old(cache.cache)) &&
                (writeFault.None? && id !in old(store.users) ==>
                   errorMessage == Some(missingText) && dismissed == old(dismissed) && store.users == old(store.users) &&
                   cache.cache == old(cache.cache)) &&
                (writeFault.None? && id in old(store.users) ==>
                   errorMessage == None && dismissed &&
                   store.users == old(store.users)[id := UPS.Merge(old(store.users)[id],
                                    UPS.Stamped(EditUpdates(old(Form()), image, newURLs, newPaths), now))] &&
                   cache.cache == old(cache.cache) - InvalidatedKeys(image, old(existingPortfolioPaths) + newPaths,
                                                                      old(existingPortfolioURLs) + newURLs))
    {
      if uid.None? {
        errorMessage := Some(NotAuthenticatedMessage);
        return;
      }
      var id := uid.value;
      isSaving := true;
      errorMessage := None;
      var uploadedURL: Option<string> := None;
      if profileUpload.Some? {
        if profileUpload.value.Err? {
          errorMessage := Some(profileUpload.value.error);
          isSaving := false;
          return;
        }
        uploadedURL := Some(profileUpload.value.value);
      }
      var image := ImageAfterSave(userProfile, id, uploadedURL);
      var works := UploadNewWorks(id, |existingPortfolioPaths|, workUploads);
      if works.Err? {
        errorMessage := Some(works.error);
        isSaving := false;
        return;
      }
      FinishSave(id, image, works.value.0, works.value.1, now, writeFault, missingText, store, cache);
    }

    /**
     * The end of `saveProfile`, once every upload succeeded: the one write of
     * the edit, then on success the cache invalidation and the dismissal.
     */
    method FinishSave(id: string, image: (Option<string>, Option<string>), newURLs: seq<string>,
                      newPaths: seq<string>, now: nat, writeFault: Option<string>, missingText: string,
                      store: UPS.UserStore, cache: CachedAsyncImage.ImageCache)
      modifies this, store, cache
      ensures Form() == old(Form()) && userProfile == old(userProfile) && isLoading == old(isLoading) && !isSaving
      ensures writeFault.Some? ==>
                errorMessage == writeFault && dismissed == old(dismissed) && store.users == old(store.users) &&
                cache.cache == old(cache.cache)
      ensures writeFault.None? && id !in old(store.users) ==>
                errorMessage == Some(missingText) && dismissed == old(dismissed) && store.users == old(store.users) &&
                cache.cache == old(cache.cache)
      ensures writeFault.None? && id in old(store.users) ==>
                errorMessage == None && dismissed &&
                store.users == old(store.users)[id := UPS.Merge(old(store.users)[id],
                                 UPS.Stamped(EditUpdates(old(Form()), image, newURLs, newPaths), now))] &&
                cache.cache == old(cache.cache) - InvalidatedKeys(image, old(existingPortfolioPaths) + newPaths,
                                                                   old(existingPortfolioURLs) + newURLs)
    {
      var written := WriteEdit(id, Form(), image, newURLs, newPaths, now, writeFault, store);
      if written.Err? {
        errorMessage := Some(WriteErrorText(written.error, missingText));
        isSaving := false;
        return;
      }
      InvalidateCache(cache, image, existingPortfolioPaths + newPaths, existingPortfolioURLs + newURLs);
      errorMessage := None;
      isSaving := false;
      dismissed := true;
    }
  }

  /** The single `updateUserProfile` call of the save; `fault` is its error, if it throws. */
  method WriteEdit(uid: string, form: EditForm, image: (Option<string>, Option<string>),
                   newURLs: seq<string>, newPaths: seq<string>, now: nat, fault: Option<string>, store: UPS.UserStore)
    returns (r: Result<(), UPS.ProfileError>)
    modifies store
    ensures fault.Some? ==> r == Err(UPS.Backend(fault.value)) && store.users == old(store.users)
    ensures fault.None? && uid !in old(store.users) ==> r == Err(UPS.NotFound) && store.users == old(store.users)
    ensures fault.None? && uid in old(store.users) ==>
              r.Ok? && store.users == old(store.users)[uid := UPS.Merge(old(store.users)[uid],
                                                           UPS.Stamped(EditUpdates(form, image, newURLs, newPaths), now))]
  {
    var updates := EditUpdates(form, image, newURLs, newPaths);
    r := store.UpdateUserProfile(uid, updates, now, fault);
  }
}

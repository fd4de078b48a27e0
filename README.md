# Lymbo: a Dafny model of the app's core logic

Lymbo is an iOS app for creative professionals. SwiftUI screens sit on
Firebase Authentication, Firestore and Storage. This project models the
parts of the app whose behaviour can be stated precisely, and proves
properties of them:

- **Like/match engine.** The `likes` and `matches` collections are sequences
  owned by `MatchService.MatchStore`.
- **Profile document store.** The `users` collection is a map from uid to a
  field map, in `UserProfileService.UserStore`. It covers create, create-or-update,
  the merge update that stamps `updatedAt`, fetch with Codable decoding, and
  the prefix-range search.
- **Storage.** The upload de-duplication guard (`UploadManager`), the storage
  path formats, and the claim-then-compress order of the upload methods.
- **City lookup bookkeeping in `LocationService`.** Callers wait in a list
  until one geocode answers all of them. The location-manager and geocoder
  callbacks are explicit event methods.
- **Bounded image cache and load routing of `CachedAsyncImage`.** The cache
  holds at most 50 entries and evicts an unspecified key.
- **Text and parse helpers.** The profanity tokenizer and masker, and the
  integer part of `Color(hex:)`.
- **Decision rules in services and views:**
  - the onboarding-completion rule and auth listener (`AuthService`);
  - the sign-up form (`SignupView`);
  - the onboarding flow (`CreateAccountFlowView`);
  - the profile editor (`EditProfileView`);
  - the badge card (`BadgeCardView`);
  - the events list (`EventsView`);
  - the tutorial (`TutorialCardsView`);
  - the swipe deck (`ConnectView`).

One module models each Swift file. `Wrappers` (Option, Result) and `Strings`
(ASCII text helpers shared by several modules) are support modules.

Code that changes state in the source is modelled as a class whose methods
`modify` its fields. Examples are the stores, the upload manager, the
location service, the image cache and the view state. Computed properties
and pure rules are functions, with lemmas about them.

Firebase, the network, CoreLocation and the clock are parameters of the
operations:

- query and upload outcomes;
- HTTP status and body;
- geocoder answers;
- `now` for `Timestamp()`.

## Model

| member | source | states |
|---|---|---|
| MatchService.Match.GetOtherUserID | Services/MatchService.swift:20-22 | the definition: `user2ID` when the caller is `user1ID`, else `user1ID`; its meaning for participants and outsiders is proved in the next two rows |
| MatchService.OtherUserIsOtherParticipant | Services/MatchService.swift:20-22 | for a participant, `getOtherUserID` names the other member of the pair; with distinct members it never answers the caller, and applying it twice gives the caller back |
| MatchService.OtherUserOfOutsider | Services/MatchService.swift:20-22 | for a user who is not in the match, `getOtherUserID` answers `user1ID` |
| MatchService.MatchStore.constructor | Services/MatchService.swift:34-39 | the store starts with no likes and no matches |
| MatchService.MatchStore.LikeUser | Services/MatchService.swift:43-77 | the likes and matches after `likeUser`, as written: a repeated like changes nothing; otherwise one Like is appended, and a match is attempted when the reverse like exists after the insert. When the backend call `fault` is reached and throws, the call fails with it, matches are unchanged, and the new Like stays exactly when the throw came after its write (line 64) |
| MatchService.MatchStore.CreateMatch | Services/MatchService.swift:81-103 | a match is appended only when the broad `in [a,b]` query finds none, active or not; a throw of the query, or of the write when it is reached, fails with nothing appended; likes are untouched |
| MatchService.MatchStore.Unmatch | Services/MatchService.swift:146-150 | only `isActive` of that one document becomes false; a missing document gives NotFound, and a throwing write fails; both change nothing; likes are untouched |
| MatchService.LikeKeepsUniqueLikes | Services/MatchService.swift:45-64 | `likeUser` keeps at most one Like per ordered pair |
| MatchService.CreateKeepsUniqueMatches | Services/MatchService.swift:83-102 | `createMatch` keeps at most one Match per unordered pair |
| MatchService.UnmatchKeepsUniqueMatches | Services/MatchService.swift:146-150 | unmatching keeps at most one Match per unordered pair |
| MatchService.LikeTwiceIsLikeOnce | Services/MatchService.swift:45-53 | liking the same user again adds no Like and no Match |
| MatchService.NoMatchWithoutReverseLike | Services/MatchService.swift:67-76 | a like of another user who has not liked back creates no match |
| MatchService.MutualLikeCreatesMatch | Services/MatchService.swift:67-102 | the second like of a mutual pair appends exactly one Like and exactly one Match with `user1ID = from`, `user2ID = to`, no last message, active |
| MatchService.ExistingMatchBlocksCreate | Services/MatchService.swift:83-91 | a pair that already has a match, in either order, gets no second one |
| MatchService.FetchMatches | Services/MatchService.swift:107-120 | exactly the active matches with the user on either side, the same multiset as the filter, sorted by `matchedAt` descending |
| MatchService.FetchReceivedLikes | Services/MatchService.swift:124-131 | exactly the likes to the user, sorted by `createdAt` descending |
| MatchService.FetchSentLikes | Services/MatchService.swift:135-142 | exactly the likes from the user, sorted by `createdAt` descending |
| MatchService.SortDesc | Services/MatchService.swift:116 | ordering descending by a key is a permutation and is sorted; the same ordering is used at lines 127 and 138 |
| MatchService.UnmatchHidesOnlyThatMatch | Services/MatchService.swift:146-150 | after `unmatch(id)` a user's match list holds exactly the previous ones other than `id`; the collection keeps its length |
| MatchService.UnmatchedActiveMatch | Services/MatchService.swift:146-150 | after the soft delete a match is active for a user exactly when it was before and is not the deleted one |
| MatchService.ConcreteMutualLikes | Services/MatchService.swift:43-103 | on an empty store, like(u1,u2) then like(u2,u1) store two likes and one match |
| MatchService.ConcreteFetchAndUnmatch | Services/MatchService.swift:107-120 | the match of that scenario is listed for both users and disappears after unmatch; the unmatch is the one at lines 146-150 |
| MatchService.ConcreteLikeLists | Services/MatchService.swift:124-142 | in that scenario u1 has sent the first like and received the second |
| MatchService.SelfLikeMatchesItself | Services/MatchService.swift:43-77 | with no self-like guard, like(A,A) on an empty store stores Like(A→A) and Match(A,A) |
| MatchService.SelfLikeBlocksLaterMatch | Services/MatchService.swift:81-91 | as written, after like(A,A), like(A,B) and like(B,A) the two users have liked each other but no match exists for {A,B} |
| MatchService.MatchStore.LikeUserRejectingSelf | Services/MatchService.swift:43-77 | the corrected `likeUser`: a self-like is rejected and changes nothing; any other like behaves as `likeUser`, failures included |
| MatchService.GuardedLikeMatchesEveryMutualPair | Services/MatchService.swift:43-103 | with self-likes rejected, every like keeps "each mutual pair of likes has a match" and no self pairs |
| MatchService.UnmatchKeepsMutualLikesMatched | Services/MatchService.swift:146-150 | unmatching keeps that property: a soft-deleted match still exists for its pair |
| MatchService.PartialLikeFailureStrandsPair | Services/MatchService.swift:64-75 | when b already likes a and a throw comes after a's Like is written (the reverse query, the match query or the match write), both likes are stored but no match exists for the pair, and liking again in either direction returns early and changes nothing |
| CachedAsyncImage.ImageCache.constructor | Utils/CachedAsyncImage.swift:190-197 | the shared cache starts empty, with a limit of 50; the 50-entry bound holds |
| CachedAsyncImage.ImageCache.GetImage | Utils/CachedAsyncImage.swift:198-200 | the stored image for a key, or nil |
| CachedAsyncImage.ImageCache.SetImage | Utils/CachedAsyncImage.swift:202-211 | with 50 or more entries one existing key, chosen without order (possibly the key itself), is removed, and then the image is stored under the key; the 50-entry bound is kept |
| CachedAsyncImage.ImageCache.RemoveImage | Utils/CachedAsyncImage.swift:213-215 | removes only that key; the cache never grows, so the 50-entry bound is kept |
| CachedAsyncImage.ImageCache.ClearCache | Utils/CachedAsyncImage.swift:217-219 | leaves the cache empty; the 50-entry bound holds |
| CachedAsyncImage.SetThenGet | Utils/CachedAsyncImage.swift:202-211 | after `setImage(img, k)`, `getImage(k)` is `img` |
| CachedAsyncImage.SetBelowCapKeepsOthers | Utils/CachedAsyncImage.swift:203-210 | below 50 entries no other key is removed or changed |
| CachedAsyncImage.SetAtCapEvictsOne | Utils/CachedAsyncImage.swift:204-207 | at 50 or more entries exactly one existing key is removed before the key is stored |
| CachedAsyncImage.SetKeepsBound | Utils/CachedAsyncImage.swift:194-210 | at most 50 entries before a set means at most 50 after |
| CachedAsyncImage.ResetAtCapShrinks | Utils/CachedAsyncImage.swift:204-210 | eviction fires even for a present key, so re-storing it with another key evicted shrinks a full cache by one |
| CachedAsyncImage.IsFirebaseStorageURL | Utils/CachedAsyncImage.swift:174-179 | the definition: a host whose lowercase form contains one of the three Firebase Storage domains; its meaning is proved in the rows that follow |
| CachedAsyncImage.FirebaseHostCaseInsensitive | Utils/CachedAsyncImage.swift:174-179 | the host test lowercases the host, so the host's case never matters |
| CachedAsyncImage.NoHostIsNotFirebase | Utils/CachedAsyncImage.swift:175 | a URL without a host is never a Firebase Storage URL |
| CachedAsyncImage.AppspotHostIsFirebase | Utils/CachedAsyncImage.swift:176-178 | any host with a slice that lowercases to `appspot.com` is a Firebase Storage URL |
| CachedAsyncImage.FirebaseHostIffDomainOccurs | Utils/CachedAsyncImage.swift:174-179 | a URL with a host is a Firebase Storage URL exactly when one of the three domains occurs in the lowercased host |
| CachedAsyncImage.FetchImageData | Utils/CachedAsyncImage.swift:121-147 | the definition: the session reply, a 403 from a Firebase host retried through the SDK, a non-200 code as `httpError`, and any error falling back to the SDK for Firebase hosts; its answers are proved in the next three rows |
| CachedAsyncImage.FetchOkOn200 | Utils/CachedAsyncImage.swift:136-140 | an HTTP 200 reply gives its body, whatever the host |
| CachedAsyncImage.FetchNonFirebase | Utils/CachedAsyncImage.swift:125-146 | for other hosts the SDK is never used: a non-HTTP reply is `invalidResponse`, any other non-200 status `httpError(code)`, and a transport error passes through |
| CachedAsyncImage.FetchFirebaseFallsBack | Utils/CachedAsyncImage.swift:131-145 | for Firebase hosts every path other than a 200 ends in an SDK download; a 403 whose first SDK download fails is caught and retried once |
| CachedAsyncImage.Download | Utils/CachedAsyncImage.swift:160-172 | data wins, then the error, else `unknown` |
| CachedAsyncImage.CacheKey | Utils/CachedAsyncImage.swift:72 | the storage path when given, else the URL's text, else the fresh UUID |
| CachedAsyncImage.SameSourceSameKey | Utils/CachedAsyncImage.swift:72-106 | a given Storage path, or else a given URL, always selects the same cache entry, so a second view of that source finds the image the first one stored |
| CachedAsyncImage.LoadedData | Utils/CachedAsyncImage.swift:84-92 | a storage path is downloaded through the SDK; otherwise the URL goes through `fetchImageData` |
| CachedAsyncImage.AsyncImageView.constructor | Utils/CachedAsyncImage.swift:19-29 | no image yet, loading |
| CachedAsyncImage.AsyncImageView.LoadImage | Utils/CachedAsyncImage.swift:56-119 | with no source: no image, not loading, cache untouched; a hit shows the cached image without a fetch; a decodable fetch is stored under the key and shown; any failure stores nothing and shows nothing |
| UserProfileService.AllFieldsComplete | Services/UserProfileService.swift:12-31 | every field of the profile document is one of the listed kinds, and every key the app writes is one of them |
| UserProfileService.NewProfile | Services/UserProfileService.swift:49-65 | the new profile has the given email and display name, every optional field nil, both preferences true, and `createdAt = updatedAt = now` |
| UserProfileService.Encode | Services/UserProfileService.swift:12-37 | the encoded document holds a field exactly when the property is not nil, with that value |
| UserProfileService.Decode | Services/UserProfileService.swift:91 | decoding fails exactly when a field has the wrong kind or a required field is missing |
| UserProfileService.Build | Services/UserProfileService.swift:91 | the profile a document describes reads each field directly, and a missing or null optional field as nil |
| UserProfileService.EncodeDecodable | Services/UserProfileService.swift:67-91 | every encoded profile decodes |
| UserProfileService.DecodeEncode | Services/UserProfileService.swift:67-91 | reading back an encoded profile gives the same profile |
| UserProfileService.EncodeStrings | Services/UserProfileService.swift:12-27 | the text fields of an encoded profile read back as the profile's |
| UserProfileService.EncodeOthers | Services/UserProfileService.swift:19-31 | the time, flag, preference and list fields of an encoded profile read back as the profile's |
| UserProfileService.UserStore.constructor | Services/UserProfileService.swift:40-45 | the collection starts empty |
| UserProfileService.UserStore.CreateUserProfile | Services/UserProfileService.swift:49-68 | `setData` replaces the document at uid with the encoded new profile; other documents stay; a throwing write fails with its error and changes nothing |
| UserProfileService.UserStore.CreateOrUpdateUserProfile | Services/UserProfileService.swift:70-85 | an existing document gets email, displayName and `updatedAt` merged in; a missing one is created as `createUserProfile` does; a throwing write fails with its error and changes nothing |
| UserProfileService.UserStore.UpdateUserProfile | Services/UserProfileService.swift:96-101 | a throwing write fails with its error, and a missing document fails as NotFound; both change nothing; otherwise the fields are merged with `updatedAt = now` overriding any given one |
| UserProfileService.UserStore.UploadProfileImage | Services/UserProfileService.swift:105-119 | a failed upload, a throwing write of the two fields, or a missing document (NotFound) writes nothing; otherwise `profileImageURL` and `profileImagePath = profiles/{uid}/profile.jpg` are merged in and the URL is returned |
| UserProfileService.FetchUserProfile | Services/UserProfileService.swift:89-92 | a missing document throws NotFound; otherwise the decoded profile, or an error exactly when the document does not decode |
| UserProfileService.Merge | Services/UserProfileService.swift:100 | `updateData`: the given fields win, and every field that is not given keeps its value |
| UserProfileService.Stamped | Services/UserProfileService.swift:97-98 | the caller's fields with `updatedAt` set to `now`, even when the caller gave one |
| UserProfileService.MergeKeepsDecodable | Services/UserProfileService.swift:96-101 | merging well-kinded fields, or nulls for optional ones, into a readable document keeps it readable |
| UserProfileService.MergeKeepsGetters | Services/UserProfileService.swift:96-101 | fields a merge does not name read back the same |
| UserProfileService.MergeKeepsCommonFields | Services/UserProfileService.swift:76-80 | the optional properties that neither sign-in nor a picture upload writes keep their values; the same holds for the upload's merge at lines 113-116 |
| UserProfileService.SignInUpdateChangesOnlyNameAndEmail | Services/UserProfileService.swift:72-80 | on an existing profile, create-or-update changes only email, display name and `updatedAt` |
| UserProfileService.CreateThenFetch | Services/UserProfileService.swift:49-92 | a created profile reads back as the new profile |
| UserProfileService.UpdateStampsUpdatedAt | Services/UserProfileService.swift:96-101 | after an update, `updatedAt` reads back as the call's time even when the caller supplied one |
| UserProfileService.ProfileImageFields | Services/UserProfileService.swift:113-116 | the two fields recorded after a picture upload: the URL and the uid's profile path |
| UserProfileService.UploadedImageReadsBack | Services/UserProfileService.swift:105-119 | after a picture upload the profile reads back with that URL, the uid's profile path and `updatedAt = now`, and every other property unchanged; a readable document stays readable |
| UserProfileService.InSearchRangeIffPrefix | Services/UserProfileService.swift:125-126 | the range `query <= name < query + "\u{f8ff}"` holds exactly when the name is the query followed by nothing or by a character below U+F8FF |
| UserProfileService.Hits | Services/UserProfileService.swift:124-128 | the ids in backend order whose display name is in the range, each a stored document |
| UserProfileService.DecodeAll | Services/UserProfileService.swift:130 | every hit decoded in order, or an error when one does not decode |
| UserProfileService.SearchUsers | Services/UserProfileService.swift:123-131 | for a limit of at least 1 (the backend rejects less): at most `limit` profiles, each a stored hit in the prefix range that decodes to that profile |
| UserProfileService.FirstHits | Services/UserProfileService.swift:124-127 | the first `limit` hits in backend order, or all of them when there are fewer |
| UserProfileService.SearchReturnsFirstHits | Services/UserProfileService.swift:123-131 | a search returns one profile per kept hit, in backend order; it throws, as a decode error, exactly when one kept hit does not decode |
| StorageService.ProfileImagePath | Services/UserProfileService.swift:106 | the definition: `profiles/{uid}/profile.jpg`; StorageService.ProfileAndPortfolioPathsDiffer proves it distinct per user |
| StorageService.PortfolioImagePath | Services/StorageService.swift:87 | the definition: `portfolios/{userID}/image_{imageIndex}.jpg`; StorageService.PortfolioPathsDistinct proves it injective in the index |
| StorageService.IntToString | Services/StorageService.swift:87 | Swift's decimal rendering of an `Int`, with a leading `-` for negatives |
| StorageService.IntToStringInjective | Services/StorageService.swift:87 | distinct integers render differently |
| StorageService.PortfolioPathsDistinct | Services/StorageService.swift:87 | two works of one user with different indices never share a path; the same path is built at line 120 |
| StorageService.ProfileAndPortfolioPathsDiffer | Services/StorageService.swift:87 | a profile path is never a portfolio path, and different users have different profile paths; the profile path is the one of Services/UserProfileService.swift line 106 |
| StorageService.UploadManager.constructor | Services/StorageService.swift:12-13 | no upload is active |
| StorageService.UploadManager.StartUpload | Services/StorageService.swift:15-20 | an active path fails with nothing changed; otherwise the path joins the active set |
| StorageService.UploadManager.FinishUpload | Services/StorageService.swift:22-24 | the path leaves the active set; a path that is not active changes nothing |
| StorageService.GuardScenario | Services/StorageService.swift:13-24 | after a successful start(p) a second start(p) fails, start(q) succeeds, and after finish(p) p can be claimed again |
| StorageService.Storage.constructor | Services/StorageService.swift:27-34 | an empty bucket and a fresh upload manager |
| StorageService.Storage.UploadImage | Services/StorageService.swift:38-46 | the answer and the bucket follow the two SDK calls: a failed `putData` stores nothing and fails; a stored object stays even when `downloadURL` then throws, and the answer is that call's URL or error |
| StorageService.UploadAnswer | Services/StorageService.swift:44-45 | the error of `putData` when it throws, else what `downloadURL` answers |
| StorageService.StoredAfter | Services/StorageService.swift:44 | after a successful `putData` the bytes are at the path and every other object is unchanged; after a failed one the bucket is unchanged |
| StorageService.FailedURLLeavesObject | Services/StorageService.swift:44-45 | an upload whose `downloadURL` throws fails, yet its object is stored |
| StorageService.Storage.UploadCompressed | Services/StorageService.swift:50-115 | the path is claimed first (an active path fails before compressing); a nil compression fails after the claim; otherwise the compressed bytes go through `uploadImage`, with its answer and its effect on the bucket |
| StorageService.Storage.UploadProfileImage | Services/StorageService.swift:50-81 | the guarded upload at the caller's path: a path already in progress fails with bucket and active set unchanged; otherwise the path is claimed, a nil compression fails with nothing stored, and the compressed bytes are uploaded with `uploadImage`'s answer and effect |
| StorageService.Storage.UploadPortfolioImage | Services/StorageService.swift:86-115 | the same guarded upload at `portfolios/{userID}/image_{imageIndex}.jpg`, with the active set unchanged when that path is in progress |
| StorageService.Storage.UploadPortfolioImageLegacy | Services/StorageService.swift:119-122 | the same path, with no guard and no compression |
| LocationService.IsAuthorized | Services/LocationService.swift:45 | the definition: "when in use" or "always"; the guards of the get, request and save operations use it |
| LocationService.CityName | Services/LocationService.swift:95 | `locality ?? administrativeArea ?? name ?? "Unknown"` |
| LocationService.GeocodeResult | Services/LocationService.swift:84-97 | an error answers with the error, no placemark with nil, otherwise the city name |
| LocationService.ResolveAll | Services/LocationService.swift:102-114 | every waiter in the list gets the one result, and earlier answers stay |
| LocationService.SaveLocationUpdate | Services/LocationService.swift:119-144 | an update `location = city` only when authorized, signed in and the lookup gave a non-empty city |
| LocationService.LocationService.constructor | Services/LocationService.swift:20-34 | the given status; no location, no city, no waiter, no geocode |
| LocationService.LocationService.TriggerReverseGeocode | Services/LocationService.swift:70-78 | a geocode starts only when someone waits and none is running |
| LocationService.LocationService.ResolveContinuations | Services/LocationService.swift:102-114 | every pending waiter is answered exactly once with the same result, and the list ends empty |
| LocationService.LocationService.GetCurrentCity | Services/LocationService.swift:44-66 | throws unless authorized, with no field changed; a cached city returns at once, not loading, with the message cleared and no waiter or geocode added; otherwise one waiter is added, and a geocode starts when a location is known, else a fix is requested; the class invariant is kept |
| LocationService.LocationService.SuspendCaller | Services/LocationService.swift:57-64 | the caller gets the next waiter number and joins the end of the list; with a known location a geocode starts unless one runs, otherwise one location fix is requested; every caller stays waiting or answered, never both |
| LocationService.LocationService.GeocodeCompleted | Services/LocationService.swift:79-98 | clears `isGeocoding` and loading, stores a found city, and answers every waiter with the geocode result |
| LocationService.LocationService.LocationsUpdated | Services/LocationService.swift:158-165 | keeps the first fix and tries to start a geocode |
| LocationService.LocationService.LocationFailed | Services/LocationService.swift:167-174 | as written: answers every waiter with the error and clears loading and `isGeocoding` |
| LocationService.LocationService.LocationFailedKeepingGeocode | Services/LocationService.swift:167-174 | corrected: the same, except that a geocode in flight keeps `isGeocoding` until it completes |
| LocationService.LocationService.AuthorizationChanged | Services/LocationService.swift:176-189 | records the status; the save is launched only when authorized and signed in; every other field, the single-geocode invariant included, is kept |
| LocationService.LocationService.RequestLocationUpdate | Services/LocationService.swift:147-152 | asks for a fix only when authorized; every other field is kept, and so is the class invariant |
| LocationService.SharedAnswerScenario | Services/LocationService.swift:44-114 | two callers waiting across one geocode get the same city, and the next call returns the cached city without waiting |
| LocationService.FailureAllowsSecondGeocode | Services/LocationService.swift:167-174 | as written, a location failure during a geocode lets a second geocode start while the first still runs; the single-geocode guard is at lines 75-78 |
| LocationService.CorrectedFailureKeepsOneGeocode | Services/LocationService.swift:167-174 | with the corrected handler the same events keep a single geocode in flight; the single-geocode guard is at lines 75-78 |
| ProfanityFilter.Tokens | Utils/ProfanityFilter.swift:23-36 | the words, split on every non-alphanumeric character; no word holds a separator |
| ProfanityFilter.ContainsProfanity | Utils/ProfanityFilter.swift:21-32 | true exactly when some word of the lowercased text is listed |
| ProfanityFilter.TokensOfWord | Utils/ProfanityFilter.swift:23 | a text without separators is one word |
| ProfanityFilter.TokensAroundSeparator | Utils/ProfanityFilter.swift:23 | a separator splits the words of its two sides apart |
| ProfanityFilter.CaseInsensitive | Utils/ProfanityFilter.swift:22 | the verdict on a text equals the verdict on its lowercase form |
| ProfanityFilter.EmptyTextIsClean | Utils/ProfanityFilter.swift:14-31 | the empty text is not flagged |
| ProfanityFilter.SingleWordFlaggedIffListed | Utils/ProfanityFilter.swift:21-31 | a text of letters and digits is flagged exactly when its lowercase form is listed |
| ProfanityFilter.SwearingIsNotFlagged | Utils/ProfanityFilter.swift:23-27 | a listed word inside a longer word ("swearing") is not flagged |
| ProfanityFilter.StandaloneWordIsFlagged | Utils/ProfanityFilter.swift:21-31 | a listed word between separators is flagged, whatever its case and surroundings |
| ProfanityFilter.Stars | Utils/ProfanityFilter.swift:40 | `n` asterisks |
| ProfanityFilter.FilterProfanity | Utils/ProfanityFilter.swift:34-45 | the loop over the original words leaves the text its fold of the masking step |
| ProfanityFilter.ReplaceKeepsLength | Utils/ProfanityFilter.swift:40 | a case-insensitive replacement no longer than its target keeps the length, and changes characters only into the replacement's |
| ProfanityFilter.MaskAllKeepsLength | Utils/ProfanityFilter.swift:38-42 | masking keeps the length, and each character is kept or becomes `*` |
| ProfanityFilter.MaskAllWithoutListedWords | Utils/ProfanityFilter.swift:38-42 | with no listed word the text is unchanged |
| ProfanityFilter.FilterKeepsLength | Utils/ProfanityFilter.swift:34-45 | the filtered text has the text's length and only ever writes `*` |
| ProfanityFilter.CleanTextUnchanged | Utils/ProfanityFilter.swift:34-45 | a text without listed words comes back as it is |
| ProfanityFilter.SwearWords | Utils/ProfanityFilter.swift:36 | "swear" is the single word "swear" |
| ProfanityFilter.SwearSwearingWords | Utils/ProfanityFilter.swift:36 | "swear swearing" splits into "swear" and "swearing" |
| ProfanityFilter.ReplaceSwearInSwearing | Utils/ProfanityFilter.swift:40 | replacing "swear" in "swearing" gives "*****ing" |
| ProfanityFilter.ReplaceSwearInText | Utils/ProfanityFilter.swift:40 | replacing "swear" in "swear swearing" masks both occurrences |
| ProfanityFilter.MaskAllTwoWords | Utils/ProfanityFilter.swift:38-42 | the loop over two words is two masking steps |
| ProfanityFilter.MaskSwear | Utils/ProfanityFilter.swift:39-40 | the listed word "swear" is masked |
| ProfanityFilter.MaskSwearing | Utils/ProfanityFilter.swift:39 | the unlisted word "swearing" changes nothing |
| ProfanityFilter.SwearSwearingMasked | Utils/ProfanityFilter.swift:34-45 | "swear swearing" becomes "***** *****ing": the listed word is masked also where it starts a longer word |
| ColorScheme.ColorFromHex | Theme/ColorScheme.swift:42-56 | the definition: trim, scan, then lay out by length; its values are proved in the ColorScheme rows below |
| ColorScheme.HexRun | Theme/ColorScheme.swift:44-45 | the leading run of hex digits: all hex digits, a prefix of the text, followed by a non-digit or the end |
| ColorScheme.HexValue | Theme/ColorScheme.swift:44-45 | the value of `n` hex digits is below 16^n |
| ColorScheme.ScanHex | Theme/ColorScheme.swift:44-45 | `scanHexInt64` skips an optional `0x`/`0X` and reads the value of the hex digits after it, 0 when there are none; the value is below 16 to the length |
| ColorScheme.ComponentsAreBytes | Theme/ColorScheme.swift:47-56 | for every input, each of a, r, g, b is at most 255 |
| ColorScheme.ByteLayout | Theme/ColorScheme.swift:50-53 | four bytes side by side come apart again under the shifts and masks |
| ColorScheme.TrimKeepsHexDigits | Theme/ColorScheme.swift:43-45 | a string of hex digits is untouched by the trim and read in full by the scan |
| ColorScheme.SixDigitsAreRgbBytes | Theme/ColorScheme.swift:50-51 | six hex digits give alpha 255 and the three bytes they spell |
| ColorScheme.EightDigitsAreArgbBytes | Theme/ColorScheme.swift:52-53 | eight hex digits give alpha, red, green and blue bytes in that order |
| ColorScheme.ThreeDigitsRepeatNibbles | Theme/ColorScheme.swift:48-49 | three hex digits give alpha 255 and each nibble times 17 |
| ColorScheme.OtherLengthsAreBlack | Theme/ColorScheme.swift:54-55 | any other trimmed length gives (255, 0, 0, 0) |
| ColorScheme.HashIsIgnored | Theme/ColorScheme.swift:43 | a leading `#` is trimmed and does not count towards the length |
| ColorScheme.HashSixDigits | Theme/ColorScheme.swift:43-51 | `#` and six hex digits give the RGB bytes, opaque |
| ColorScheme.PalettePrimaryBlack | Theme/ColorScheme.swift:12 | "#000000" gives (255, 0, 0, 0) |
| ColorScheme.PaletteAccentWhite | Theme/ColorScheme.swift:14 | "#ffffff" gives (255, 255, 255, 255) |
| ColorScheme.PaletteDestructive | Theme/ColorScheme.swift:26 | "#d4183d" gives (255, 212, 24, 61) |
| ColorScheme.TrimKeepsAlphanumericEnds | Theme/ColorScheme.swift:43 | a string that starts and ends with a letter or digit is not trimmed |
| ColorScheme.HexRunStops | Theme/ColorScheme.swift:44-45 | the digit run ends at the first character that is not a hex digit |
| ColorScheme.PrefixIsSkipped | Theme/ColorScheme.swift:44-45 | `0x` or `0X` before hex digits is skipped, and the value is that of the digits |
| ColorScheme.BarePrefixIsZero | Theme/ColorScheme.swift:44-45 | a prefix with no hex digit after it reads as 0 |
| ColorScheme.HashPrefixedDigits | Theme/ColorScheme.swift:43-56 | `#0x` and hex digits: the prefix counts towards the length that picks the layout, while only the digits give the value |
| ColorScheme.PrefixedFourDigits | Theme/ColorScheme.swift:43-51 | `#0x` and four hex digits pick the six-digit layout: alpha 255, red 0, then the two bytes the digits spell (so `#0x0fff` gives 0, 15, 255) |
| AuthService.WritesProfile | Services/AuthService.swift:112 | the definition: the provider account has both an email and a display name; AuthService.SignInWithProvider writes a profile exactly then |
| AuthService.OnboardingComplete | Services/AuthService.swift:54-74 | a stored flag decides; without one, a profession or a non-empty bio; a missing profile or a failed fetch gives false |
| AuthService.LocationActionFor | Services/AuthService.swift:40-52 | save when authorized, ask when undecided, else nothing |
| AuthService.NewAccountNotOnboarded | Services/AuthService.swift:54-74 | a freshly created account reads as not onboarded; the account is the one Services/UserProfileService.swift lines 49-68 create |
| AuthService.StoredFlagDecides | Services/AuthService.swift:58-59 | a stored profile's flag is the answer |
| AuthService.LegacyProfileWithProfession | Services/AuthService.swift:60-65 | a profile without the flag but with a profession counts as onboarded |
| AuthService.UnreadableProfileNotOnboarded | Services/AuthService.swift:70-73 | a profile that does not decode reads as not onboarded |
| AuthService.AuthService.constructor | Services/AuthService.swift:15-17 | no user, not authenticated, not onboarded |
| AuthService.AuthService.AuthStateChanged | Services/AuthService.swift:21-38 | records the user and `isAuthenticated = (user != nil)`; with a user the flag is the onboarding rule on the stored profile, or false when the read throws, and the location step follows the status; without one the flag is false |
| AuthService.AuthService.CheckOnboardingStatus | Services/AuthService.swift:54-74 | sets the flag to the onboarding rule on the stored profile; a read that throws is caught and gives false even for an onboarded profile; the user fields are kept |
| AuthService.AuthService.SignOut | Services/AuthService.swift:100-103 | a successful provider sign-out clears the flag; a provider error changes nothing |
| AuthService.SignUp | Services/AuthService.swift:80-94 | a failed account creation or name commit writes nothing; a throwing profile write fails with its error and writes nothing; otherwise the new profile is written at the new uid |
| AuthService.SignInWithProvider | Services/AuthService.swift:107-135 | after a successful sign-in the profile is created or updated exactly when email and display name are both present; a throwing write then fails with its error and changes nothing |
| AuthService.FailedSignUpWriteNotOnboarded | Services/AuthService.swift:54-94 | an account whose profile write threw has no document, and the listener reports it as not onboarded |
| AuthService.SignUpThenListenerScenario | Services/AuthService.swift:21-103 | after sign-up the listener reports authenticated and not onboarded, the location is saved when authorized, and sign-out clears the flag |
| Signup.IsFormValid | Views/Auth/SignupView.swift:162-168 | the definition: every field filled in and matching passwords of at least six characters; Signup.ValidFormPassesGuards relates it to the guards |
| Signup.SignupGuard | Views/Auth/SignupView.swift:170-179 | the mismatch message comes first; matching passwords under 6 characters get the length message; nothing exactly when both pass |
| Signup.ValidFormPassesGuards | Views/Auth/SignupView.swift:162-179 | a form the button accepts passes both guards |
| Signup.GuardsIgnoreEmptyFields | Views/Auth/SignupView.swift:162-179 | the guards do not check email or name; only the button does; the button's own condition is at line 108 |
| Signup.SignupView.constructor | Views/Auth/SignupView.swift:14-20 | empty fields, not loading, no message |
| Signup.SignupView.ButtonEnabled | Views/Auth/SignupView.swift:104-108 | the definition: not loading and a valid form, as the button's `disabled` modifier has it |
| Signup.SignupView.HandleSignup | Views/Auth/SignupView.swift:170-193 | a failed guard sets its message and writes nothing; past both, loading starts and the message clears, then success dismisses and writes the new profile, and any failure (creation, name commit or profile write) shows its error and writes nothing |
| Signup.GuardOrderScenario | Views/Auth/SignupView.swift:170-179 | a short, mismatched password is reported as a mismatch, then once matched as too short, and nothing is written |
| CreateAccountFlow.IsValidEmailForm | Views/Onboarding/CreateAccountFlowView.swift:248-253 | the definition: a non-empty address containing `@`, six or more password characters and a matching confirmation; CreateAccountFlow.ValidFormMeans spells it out |
| CreateAccountFlow.ValidFormMeans | Views/Onboarding/CreateAccountFlowView.swift:248-253 | the form passes exactly when the email is non-empty and contains "@", and the password has 6 or more characters and equals its confirmation |
| CreateAccountFlow.LimitBio | Views/Onboarding/CreateAccountFlowView.swift:635-639 | a bio over 200 characters becomes its first 200; a shorter one stays |
| CreateAccountFlow.LimitBioIdempotent | Views/Onboarding/CreateAccountFlowView.swift:635-639 | cutting twice is cutting once |
| CreateAccountFlow.SplitGoogleName | Views/Onboarding/CreateAccountFlowView.swift:903-906 | the definition: the first space-separated component and the rest joined by a space; the next two rows prove it |
| CreateAccountFlow.FirstNameHasNoSpace | Views/Onboarding/CreateAccountFlowView.swift:904-905 | the first name is the account name up to its first space, and holds no space |
| CreateAccountFlow.SplitGoogleNameRejoins | Views/Onboarding/CreateAccountFlowView.swift:904-906 | first name, then a space and the last name when there was a space, give the account name back |
| CreateAccountFlow.StepAfterGoogleSignIn | Views/Onboarding/CreateAccountFlowView.swift:913-921 | a non-empty first name goes to `verifyNameInfo`, otherwise to `nameInfo` |
| CreateAccountFlow.NamelessAccountAskedForName | Views/Onboarding/CreateAccountFlowView.swift:903-921 | an account without a name is asked for one |
| CreateAccountFlow.OnboardingDisplayName | Views/Onboarding/CreateAccountFlowView.swift:973 | the definition: the whitespace-trimmed "first last" for a real name, else the artist name; the next two rows prove what it gives |
| CreateAccountFlow.RealNameIsFirstSpaceLast | Views/Onboarding/CreateAccountFlowView.swift:973 | with names that do not start or end in blanks, the real display name is "first last", or "first" alone |
| CreateAccountFlow.BlankNamesGiveEmptyDisplayName | Views/Onboarding/CreateAccountFlowView.swift:973-977 | blank names give an empty display name, which stops completion |
| CreateAccountFlow.UploadedIndices | Views/Onboarding/CreateAccountFlowView.swift:1000-1013 | the indices of the works whose upload succeeded, increasing |
| CreateAccountFlow.WorkURLs | Views/Onboarding/CreateAccountFlowView.swift:1000-1013 | one URL per uploaded work |
| CreateAccountFlow.WorkPaths | Views/Onboarding/CreateAccountFlowView.swift:1002 | one path per uploaded work, numbered by its selection index |
| CreateAccountFlow.UploadSelectedWorks | Views/Onboarding/CreateAccountFlowView.swift:998-1014 | the loop builds exactly those URL and path lists |
| CreateAccountFlow.WorkListsInLockStep | Views/Onboarding/CreateAccountFlowView.swift:998-1014 | the two lists have equal length, and every entry belongs to a work whose upload succeeded |
| CreateAccountFlow.WorkPathsDistinct | Views/Onboarding/CreateAccountFlowView.swift:1002 | no two uploaded works share a path |
| CreateAccountFlow.AllUploadedNumberedInOrder | Views/Onboarding/CreateAccountFlowView.swift:1000-1009 | when every upload succeeds, work `k` is `image_k` |
| CreateAccountFlow.NullIfEmpty | Views/Onboarding/CreateAccountFlowView.swift:1031-1032 | an empty text is written as null |
| CreateAccountFlow.OnboardingUpdates | Views/Onboarding/CreateAccountFlowView.swift:1029-1069 | the update map holds a field exactly when completion writes it, with that value |
| CreateAccountFlow.OnboardingUpdatesAnswers | Views/Onboarding/CreateAccountFlowView.swift:1029-1035 | name, date of birth and a true completion flag are always written |
| CreateAccountFlow.OnboardingUpdatesProfile | Views/Onboarding/CreateAccountFlowView.swift:1031-1039 | profession and bio are written, null when empty; location only when given; email and timestamps never |
| CreateAccountFlow.OnboardingUpdatesNames | Views/Onboarding/CreateAccountFlowView.swift:1061-1069 | a real name writes first and last and nulls the artist name; an artist name writes it and nulls the other two |
| CreateAccountFlow.OnboardingUpdatesMedia | Views/Onboarding/CreateAccountFlowView.swift:1041-1059 | picture fields only after an upload; no works means no URL list and a null path list; otherwise both lists |
| CreateAccountFlow.OnboardingUpdatesWellKinded | Views/Onboarding/CreateAccountFlowView.swift:1029-1069 | every value written has its field's kind, or is a null for an optional field |
| CreateAccountFlow.SavedProfileIsOnboarded | Views/Onboarding/CreateAccountFlowView.swift:1017-1072 | whatever was stored before, the saved profile reads back with the new display name and as onboarded; the onboarding test is the one of Services/AuthService.swift lines 54-74 |
| CreateAccountFlow.OnboardedDocumentDecodes | Views/Onboarding/CreateAccountFlowView.swift:1017-1072 | the merged onboarding document, on a stored or a freshly created profile, still decodes, with the onboarding flag true and the display name written |
| CreateAccountFlow.CreateAccountFlow.constructor | Views/Onboarding/CreateAccountFlowView.swift:14-26 | the first step with an empty form |
| CreateAccountFlow.CreateAccountFlow.Appear | Views/Onboarding/CreateAccountFlowView.swift:79-84 | an authenticated user on the sign-up choice moves to the name step; anything else stays, and the form, loading flag and message are kept |
| CreateAccountFlow.CreateAccountFlow.PickCategory | Views/Onboarding/CreateAccountFlowView.swift:399-402 | the preset is selected and the custom text cleared; the rest of the form, the step, the loading flag and the message are kept |
| CreateAccountFlow.CreateAccountFlow.EditCustomCategory | Views/Onboarding/CreateAccountFlowView.swift:410-414 | non-empty custom text clears the preset; the rest of the form, the step, the loading flag and the message are kept |
| CreateAccountFlow.CreateAccountFlow.CategoryContinueEnabled | Views/Onboarding/CreateAccountFlowView.swift:433-436 | the definition: enabled unless both the preset and the custom category are empty; ContinueFromCategory's contract uses it |
| CreateAccountFlow.CreateAccountFlow.ContinueFromCategory | Views/Onboarding/CreateAccountFlowView.swift:416-436 | disabled when both are empty; otherwise a non-empty, clean custom text is adopted and the flow moves to the works step; only the category and the step change |
| CreateAccountFlow.CreateAccountFlow.EditBio | Views/Onboarding/CreateAccountFlowView.swift:635-639 | the bio becomes the edit, cut to 200 characters; nothing else changes |
| CreateAccountFlow.CreateAccountFlow.HandleEmailSignUp | Views/Onboarding/CreateAccountFlowView.swift:933-960 | an invalid form shows the message and writes nothing; otherwise the account is created with an empty display name; on success the flow moves to the name step; a failure shows the first error of creation, name commit and profile write; the form is kept throughout |
| CreateAccountFlow.CreateAccountFlow.GoogleSignedIn | Views/Onboarding/CreateAccountFlowView.swift:868-926 | the message is cleared at the start; on success the split name fills the form, the step is chosen, no message is shown and the store is the provider's profile write (merge, create or nothing); a failed sign-in or a throwing profile write shows its error and keeps the step and both names, the store unchanged; no other form field changes |
| CreateAccountFlow.CreateAccountFlow.CompleteOnboarding | Views/Onboarding/CreateAccountFlowView.swift:963-1085 | no user or an empty display name fails with nothing written; otherwise the works are uploaded, a profile created if the fetch found none, the fields merged, and the local flag set with the ready step; a create or update that throws shows its error, keeps the step and the flag, and leaves the store as far as the writes got; the form and the signed-in user are kept |
| CreateAccountFlow.CreateAccountFlow.SaveAndFinish | Views/Onboarding/CreateAccountFlowView.swift:1015-1085 | the create-if-missing and the update: on success the document is the onboarded one, the local flag is set and the step is ready; a throwing create or update shows its description and leaves the step, the flag and the store as far as the writes got; the spinner stops, and the form and the signed-in user are kept |
| CreateAccountFlow.SaveOnboarding | Views/Onboarding/CreateAccountFlowView.swift:998-1072 | the save's outcome is its writes' first error, or success; on success the store holds the onboarded document for the uid, and on failure only the profile created before a failed update |
| CreateAccountFlow.SaveOutcome | Views/Onboarding/CreateAccountFlowView.swift:1017-1072 | the save succeeds exactly when neither the needed create nor the update throws |
| CreateAccountFlow.FailedUpdateLeavesProfileNotOnboarded | Views/Onboarding/CreateAccountFlowView.swift:1017-1072 | when the create succeeds and the update throws, the new profile is stored but is read as not onboarded |
| CreateAccountFlow.ProfaneCategoryScenario | Views/Onboarding/CreateAccountFlowView.swift:416-426 | a profane custom category is not adopted |
| EditProfile.LoadedForm | Views/Profile/EditProfileView.swift:448-458 | `useRealName` exactly when the artist name is nil or empty; missing fields become "" or [] |
| EditProfile.EditProfileView.constructor | Views/Profile/EditProfileView.swift:16-30 | empty form, loading, not saving |
| EditProfile.EditProfileView.LoadProfile | Views/Profile/EditProfileView.swift:436-470 | no user: only loading stops; a fetched profile fills the form as `LoadedForm` says; a missing or unreadable profile, or a read that throws, leaves the form and the profile; the message, saving and dismissal flags are kept |
| EditProfile.EditProfileView.SetForm | Views/Profile/EditProfileView.swift:16-40 | the form fields the user edits become the given ones; the loaded profile and the flags stay |
| EditProfile.RemoveAt | Views/Profile/EditProfileView.swift:311-317 | an index in range drops that entry and keeps the others in order; any other index changes nothing |
| EditProfile.RemovalKeepsPairs | Views/Profile/EditProfileView.swift:311-317 | removing one index from paired lists of equal length keeps them paired |
| EditProfile.EditProfileView.RemoveExistingWork | Views/Profile/EditProfileView.swift:311-317 | both lists lose that index when it is in range; every other field is kept |
| EditProfile.FirstError | Views/Profile/EditProfileView.swift:499-509 | nothing exactly when every upload succeeded; otherwise the first failure's error |
| EditProfile.UploadedURLs | Views/Profile/EditProfileView.swift:507 | the URL of each upload, in order |
| EditProfile.NumberedPaths | Views/Profile/EditProfileView.swift:500-501 | work `k` goes to `image_{start + k}` |
| EditProfile.NumberedPathsDistinct | Views/Profile/EditProfileView.swift:500-501 | the new paths never repeat among themselves |
| EditProfile.NumberingContinues | Views/Profile/EditProfileView.swift:500-501 | with nothing removed, the new numbers continue the existing ones with no gap |
| EditProfile.UploadNewWorks | Views/Profile/EditProfileView.swift:497-509 | the first failed upload aborts with its error; otherwise the URLs and numbered paths |
| EditProfile.ImageAfterSave | Views/Profile/EditProfileView.swift:484-494 | a new upload gives its URL and `profiles/{uid}/profile.jpg`; otherwise the loaded profile's pair |
| EditProfile.EditDisplayName | Views/Profile/EditProfileView.swift:516 | the definition: the same name rule as onboarding, with no refusal of an empty name; EditProfile.SavedEditNameAndTime reads it back |
| EditProfile.EditUpdates | Views/Profile/EditProfileView.swift:512-547 | the update map: the lists are existing followed by new; empty texts are null; the path list is null when empty |
| EditProfile.EditUpdatesWellKinded | Views/Profile/EditProfileView.swift:518-547 | every value written has its field's kind, or is a null for an optional field |
| EditProfile.InvalidatedKeys | Views/Profile/EditProfileView.swift:552-561 | the picture's `path ?? url` and every work path and URL, and nothing else |
| EditProfile.InvalidateCache | Views/Profile/EditProfileView.swift:552-561 | the cache loses exactly those keys |
| EditProfile.RemoveKeys | Views/Profile/EditProfileView.swift:556-561 | one `removeImage` per listed key: the cache loses exactly the listed keys and keeps every other entry |
| EditProfile.SavedEditDecodes | Views/Profile/EditProfileView.swift:549 | the editor's merge keeps a readable profile readable |
| EditProfile.SavedEditNameAndTime | Views/Profile/EditProfileView.swift:515-549 | the display name and birth date read back as saved, with `updatedAt = now` |
| EditProfile.SavedEditText | Views/Profile/EditProfileView.swift:520-533 | profession, bio and location read back as the form had them, empty as nil |
| EditProfile.SavedEditLists | Views/Profile/EditProfileView.swift:512-547 | the lists read back as existing followed by new; an empty path list as nil |
| EditProfile.SavedEditImage | Views/Profile/EditProfileView.swift:533-539 | the picture URL and path read back as given, or as stored when the save gives none |
| EditProfile.SavedEditKeepsNames | Views/Profile/EditProfileView.swift:518-547 | the save writes no first, last or artist name, so all three read back as stored |
| EditProfile.EditProfileView.SaveProfile | Views/Profile/EditProfileView.swift:472-574 | no user: the message only, nothing dismissed; a failed upload, a missing document or a throwing write: the error's description and nothing written; otherwise the update is merged, the cache keys removed, and the view dismissed; the form and the loading flag are kept |
| EditProfile.EditProfileView.FinishSave | Views/Profile/EditProfileView.swift:548-574 | a throwing write or a missing document: its description and nothing written or invalidated; otherwise the merged update is stored, exactly the picture and portfolio keys leave the cache, and the view is dismissed; the saving flag is cleared and the form is kept |
| EditProfile.WriteEdit | Views/Profile/EditProfileView.swift:549 | the single `updateUserProfile` call: a throwing write fails with its error, and a missing document as NotFound, both with nothing written; otherwise the merge with `updatedAt = now` |
| EditProfile.RealNameSwitchDoesNotStick | Views/Profile/EditProfileView.swift:518-547 | as written, switching an artist profile to the real name is lost on reload; the reload is the one at lines 448-458 |
| EditProfile.RemovalThenAddReusesPath | Views/Profile/EditProfileView.swift:499-513 | as written, removing `image_0` of two works and adding one lists `image_1` twice; the removal is the one at lines 311-317 |
| EditProfile.FreshIndices | Views/Profile/EditProfileView.swift:499-501 | corrected numbering: increasing indices from the start, the count asked for |
| EditProfile.FreshIndicesAvoidTaken | Views/Profile/EditProfileView.swift:499-501 | no fresh index lands on a taken path |
| EditProfile.FreshWorkPaths | Views/Profile/EditProfileView.swift:499-509 | the corrected new paths, one per new work |
| EditProfile.FreshWorkPathsDistinct | Views/Profile/EditProfileView.swift:499-513 | with the corrected numbering the saved path list has no repeats |
| EditProfile.CorrectedEditUpdates | Views/Profile/EditProfileView.swift:518-547 | the corrected update map also writes the name fields as onboarding does |
| EditProfile.CorrectedSaveDecodes | Views/Profile/EditProfileView.swift:549 | the corrected merge keeps a readable profile readable |
| EditProfile.CorrectedEditUpdatesWellKinded | Views/Profile/EditProfileView.swift:512-547 | with the name fields added, every value written still has its field's kind, or is a null for an optional field |
| EditProfile.CorrectedSaveNames | Views/Profile/EditProfileView.swift:518-547 | the corrected merge writes the names for the chosen kind |
| EditProfile.CorrectedSaveText | Views/Profile/EditProfileView.swift:520-533 | the corrected merge writes the text fields as the editor does |
| EditProfile.CorrectedSaveLists | Views/Profile/EditProfileView.swift:512-547 | the corrected merge writes the birth date and lists as the editor does |
| EditProfile.CorrectedSaveDate | Views/Profile/EditProfileView.swift:512-547 | the corrected merge reads back the form's birth date |
| EditProfile.CorrectedSaveListFields | Views/Profile/EditProfileView.swift:512-547 | the corrected merge reads back the existing entries followed by the new ones, an empty path list as absent |
| EditProfile.CorrectedSaveReloads | Views/Profile/EditProfileView.swift:518-547 | with the corrected merge, reloading gives back the form's name choice and names; the reload is the one at lines 448-458 |
| BadgeCard.BadgeDisplayName | Views/Profile/BadgeCardView.swift:278-285 | a non-empty artist name, else "first last" when both exist, else the stored display name |
| BadgeCard.BadgeShowsOnboardingName | Views/Profile/BadgeCardView.swift:278-285 | a real-name profile written by onboarding shows its stored display name |
| BadgeCard.ArtistNameHidesDisplayName | Views/Profile/BadgeCardView.swift:279-280 | a stored artist name wins over any display name |
| BadgeCard.ProfileImageSource | Views/Profile/BadgeCardView.swift:293-301 | nil exactly when there is no path and no URL that parses; otherwise the pair |
| BadgeCard.PortfolioMedia | Views/Profile/BadgeCardView.swift:308-318 | one entry per index up to the longer list, pairing URL `i` with path `i`, nil past either end |
| BadgeCard.MediaInLockStep | Views/Profile/BadgeCardView.swift:308-318 | lists of equal length give every entry its path and the URL at the same index |
| BadgeCard.UrlOnlyWorkHasNoPath | Views/Profile/BadgeCardView.swift:308-318 | a work listed only by URL still gets an entry, with no path |
| BadgeCard.FirstPortfolioItem | Views/Profile/BadgeCardView.swift:303-306 | nil exactly when both lists are empty or absent; otherwise entry 0 |
| BadgeCard.InfoRows | Views/Profile/BadgeCardView.swift:122-134 | the rows come in the card's order Name, Artist Name, Date of Birth, Email, each kind at most once, with the email last; a Name row exactly when both names exist, holding "first last"; an Artist row exactly when the artist name is non-empty, holding it; a birth date row exactly when there is one, holding it |
| BadgeCard.RealNameProfileRows | Views/Profile/BadgeCardView.swift:122-128 | a real-name profile shows the Name row and no Artist row |
| Events.Filter | Views/Events/EventsView.swift:18 | keeps only events of the category, never more than the list |
| Events.FilterMembership | Views/Events/EventsView.swift:18 | an event is kept exactly when it is listed with that category |
| Events.FilterAppend | Views/Events/EventsView.swift:18 | filtering keeps list order: a concatenation filters part by part |
| Events.FilterCounts | Views/Events/EventsView.swift:18 | each kept event keeps its multiplicity; the others are dropped |
| Events.FilteredEvents | Views/Events/EventsView.swift:14-19 | "All" gives every event; any other chip only events of that category |
| Events.MusicChip | Views/Events/EventsView.swift:14-19 | "Music" shows the jazz night and the electronic night, in order; over the sample events of lines 243-303 |
| Events.EveryChipHasAnEvent | Views/Events/EventsView.swift:12 | every chip other than "All" shows at least one sample event; over the sample events of lines 243-303 |
| Events.ShowsGoing | Views/Events/EventsView.swift:176 | the definition: the going row is shown exactly when someone is going |
| Events.Avatars | Views/Events/EventsView.swift:180 | the first two people, or everyone when fewer |
| Events.GoingSentence | Views/Events/EventsView.swift:200-211 | nothing exactly when no one is going; "X is going", "X & Y are going", or "X, Y & n others are going" with `n = count - 2`; shown at line 176 |
| Events.SentenceMatchesAvatars | Views/Events/EventsView.swift:200-211 | the sentence starts with the first pictured name, and for three or more the number is the count of people not pictured; the avatars are the ones at line 180 |
| Events.SentenceDeterminesCount | Views/Events/EventsView.swift:209 | with the same first two names, equal sentences mean equal counts |
| Events.FoodFestivalSentence | Views/Events/EventsView.swift:267-279 | the food festival reads "Marco, Lisa & 1 others are going" under two avatars; the sentence is built at line 209 |
| TutorialCards.Step | Views/Onboarding/TutorialCardsView.swift:190-202 | forward moves only below the last card, back only above the first |
| TutorialCards.MovesStayInRange | Views/Onboarding/TutorialCardsView.swift:190-202 | from any card, any moves stay on a card |
| TutorialCards.Forwards | Views/Onboarding/TutorialCardsView.swift:190-195 | `k` forward moves |
| TutorialCards.ForwardsReachLast | Views/Onboarding/TutorialCardsView.swift:190-195 | `k` forward moves advance `k` cards, stopping at the last |
| TutorialCards.VisibleCards | Views/Onboarding/TutorialCardsView.swift:66 | the cards with `index >= currentIndex && index < currentIndex + 2` |
| TutorialCards.GetStartedCardVisible | Views/Onboarding/TutorialCardsView.swift:66-71 | the last card's own button is on screen only from the last two cards |
| TutorialCards.NextButtonLabel | Views/Onboarding/TutorialCardsView.swift:172 | "Next" before the last card, "Get Started" on it |
| TutorialCards.TutorialCardsView.constructor | Views/Onboarding/TutorialCardsView.swift:13-15 | the first card, no drag, not completing |
| TutorialCards.TutorialCardsView.GoToNext | Views/Onboarding/TutorialCardsView.swift:190-195 | advances and resets the drag only below the last card |
| TutorialCards.TutorialCardsView.GoToPrevious | Views/Onboarding/TutorialCardsView.swift:197-202 | goes back and resets the drag only above the first card |
| TutorialCards.TutorialCardsView.DragChanged | Views/Onboarding/TutorialCardsView.swift:102-106 | the drag offset follows the translation |
| TutorialCards.TutorialCardsView.DragEnded | Views/Onboarding/TutorialCardsView.swift:107-127 | more than 100 to the right goes on, less than -100 goes back, and the offset resets when the card turns; otherwise the offset resets in place |
| TutorialCards.TutorialCardsView.CompleteTutorial | Views/Onboarding/TutorialCardsView.swift:204-235 | no user: only the spinner stops and nothing is written; otherwise the flag is merged into an existing profile unless the write throws, and the local flag is set either way; the card and the offset are kept |
| TutorialCards.TutorialCardsView.NextButtonTapped | Views/Onboarding/TutorialCardsView.swift:157-182 | disabled while completing, with nothing changed; on the last card it completes, with the write and its failure as `completeTutorial` has them; before it it advances and resets the offset |
| TutorialCards.CompletionUpdate | Views/Onboarding/TutorialCardsView.swift:216-218 | writes `hasCompletedOnboarding = true` and nothing else |
| TutorialCards.CompletionIsRemembered | Views/Onboarding/TutorialCardsView.swift:216-218 | after the write, the next onboarding check of that user reads "done"; the check reading it is the one of Services/AuthService.swift lines 54-74 |
| TutorialCards.WalkthroughScenario | Views/Onboarding/TutorialCardsView.swift:157-235 | three taps reach "Get Started", and the fourth saves the flag, which is then read as onboarded |
| TutorialCards.MissingProfileScenario | Views/Onboarding/TutorialCardsView.swift:204-235 | without a stored profile the write fails and the local flag is still set, but the next check reads "not done" |
| Connect.SampleCreatives | Views/Connect/ConnectView.swift:109-128 | the deck has two creatives |
| Connect.SwipedIndex | Views/Connect/ConnectView.swift:80-101 | left or right gives `min(index + 1, count - 1)`; up or down keeps the index |
| Connect.HorizontalCount | Views/Connect/ConnectView.swift:82-93 | the number of left or right swipes |
| Connect.IndexAfterCountsHorizontal | Views/Connect/ConnectView.swift:80-101 | from a card, any swipes land as many cards on as there were left or right swipes, or on the last card |
| Connect.SwipesStayInDeck | Views/Connect/ConnectView.swift:85-91 | swipes from a valid index stay inside the deck; the deck is indexed at line 44 |
| Connect.ConnectView.constructor | Views/Connect/ConnectView.swift:11-14 | both indices 0, no sheet shown |
| Connect.ConnectView.CurrentCreative | Views/Connect/ConnectView.swift:44 | the card on screen is a card of the deck |
| Connect.ConnectView.HandleSwipe | Views/Connect/ConnectView.swift:80-101 | the index moves as `SwipedIndex` says; left or right resets the work to 0; up or down keeps it; the sheets stay |
| Connect.ConnectView.SelectWork | Views/Connect/ConnectView.swift:53-57 | the tapped thumbnail becomes the selected work |
| Connect.ConnectView.TapImage | Views/Connect/ConnectView.swift:49-52 | the details toggle |
| Connect.ConnectView.TogglePreferences | Views/Connect/ConnectView.swift:31-33 | the preferences sheet toggles |
| Connect.ConnectView.CloseDetails | Views/Connect/ConnectView.swift:72-74 | the details close |
| Connect.SwipeThroughDeckScenario | Views/Connect/ConnectView.swift:80-101 | like, pass and like rest on the last creative with the first work; an up swipe keeps a chosen work |

## Left out

- Concurrency: actor isolation, `Task` and `MainActor` hops, and `CheckedContinuation` plumbing. `ImageCache`, `UploadManager` and `LocationService` are sequential classes, and every callback is an explicit method call.
- Races between concurrent `likeUser` calls, which can produce a duplicate Like or Match, cannot be stated with sequential calls.
- The unstructured `Task` in the `defer` of the upload methods that calls `finishUpload` (Services/StorageService.swift:53-57). The caller's own `FinishUpload` stands for it.
- Firebase, Firestore, Storage, GoogleSignIn, CoreLocation, URLSession and UIKit are not called. Their answers are parameters:
  - query results, upload outcomes and download bytes;
  - HTTP status codes;
  - geocoder placemarks;
  - `UIImage(data:)` succeeding;
  - `URL(string:)` parsing.
- `Timestamp()` is the parameter `now`, and `UUID()` is a parameter. One `now` stands for every `Timestamp()` of one operation, so `createdAt` and `updatedAt` of a new profile (Services/UserProfileService.swift:63-64) are equal in the model, while the two calls may differ by a few microseconds.
- Firestore document ids are positions in the collections. A document is never deleted.
- Floating point:
  - the division by 255 in `Color(hex:)` (Theme/ColorScheme.swift:57-63), so the model stops at the integer components;
  - `ImageCompressor`, whose result is the parameter `compressed`.
- TutorialCards.TutorialCardsView.DragChanged: the drag translation is an integer where the source has a `CGFloat`.
- Text is ASCII: `lowercased()`, `CharacterSet.alphanumerics` and `.whitespaces` are modelled on ASCII characters only. Grapheme clusters are not modelled.
- Dictionary order: `cache.keys.first` may evict any key. The order of equal timestamps in the sorted queries is unspecified.
- Firestore ordering: strings are compared by code point. Search hits keep the backend's listing order, which is a parameter.
- A Firestore or Storage call that throws is an optional error description passed in (`fault`, `writeFault`). Each call site has at most one such parameter per SDK call it makes; which network or permission error it is, is not modelled.
- CreateAccountFlow.CreateAccountFlow.CompleteOnboarding: a `getDocument` that throws at the `try?` of Views/Onboarding/CreateAccountFlowView.swift:1017 is not modelled. The model has no read-fault parameter there. It reaches the `setData` overwrite of an existing profile (lines 1019-1024) only for a document that is missing or does not decode, not after a transient read error.
- UserProfileService.FetchUserProfile: the answer of a `getDocument` that returns (Services/UserProfileService.swift:90). A read that throws is a `readFault` parameter of the callers that catch it: AuthService.AuthService.CheckOnboardingStatus, AuthService.AuthService.AuthStateChanged and EditProfile.EditProfileView.LoadProfile.
- UserProfileService.SearchUsers: a `getDocuments` that throws (Services/UserProfileService.swift:128) is not modelled; the search is the answer of a read that returns.
- MatchService.FetchMatches: a `getDocuments` that throws (Services/MatchService.swift:117) is not modelled; the list is the answer of a read that returns.
- MatchService.FetchReceivedLikes: a `getDocuments` that throws (Services/MatchService.swift:128) is not modelled.
- MatchService.FetchSentLikes: a `getDocuments` that throws (Services/MatchService.swift:139) is not modelled.
- The SDK's text for an update of a missing document is the parameter `missingText` of EditProfile.EditProfileView.SaveProfile.
- MatchService.GuardedLikeMatchesEveryMutualPair assumes calls that do not throw. MatchService.PartialLikeFailureStrandsPair shows what a throw after the Like write leaves behind.
- The 10 MB `maxSize` of the SDK's `getData` (Utils/CachedAsyncImage.swift:162) is the SDK's own check.
- Operations not modelled, because they are one-line calls into Firebase or CoreLocation with no logic of their own:
  - `deleteImage` and `getImageURL` (Services/StorageService.swift:126-136);
  - `signIn` and `resetPassword` (Services/AuthService.swift:96-98, 139-141);
  - `requestAuthorization` (Services/LocationService.swift:38-40).
- SignupView's `handleGoogleSignIn` (Views/Auth/SignupView.swift:195-239) retrieves SDK tokens, which are out of scope. Its profile write is `AuthService.SignInWithProvider`.
- In CreateAccountFlowView:
  - `handleAppleSignIn` (929-931) only sets a fixed message;
  - `getLocation` (800-820) is a CoreLocation call;
  - the profile picture upload in `completeOnboarding` (982-995) is a parameter outcome.
- The random avatar URL built from `profile.name.hash` (Views/Events/EventsView.swift:181). Swift's hash is seeded per process.
- Layout, animation, `print` logging and every view not named above.
- "& 1 others" is modelled as the source writes it.

## Findings

| source | as written | input that shows it | evidently intended | confidence | as-written member | corrected member |
|---|---|---|---|---|---|---|
| Services/MatchService.swift:43-91 | `likeUser` has no self-like guard, so `like(A,A)` creates Match(A,A). The duplicate-match query `user1ID in [a,b] && user2ID in [a,b]` then also matches that self-match when `{A,B}` is checked. | like(A,A), like(A,B), like(B,A) on an empty store: A and B like each other, but no match exists for {A,B} | a self-like is rejected, and every mutual pair of likes has a match | not executed | MatchService.SelfLikeBlocksLaterMatch | MatchService.GuardedLikeMatchesEveryMutualPair |
| Services/LocationService.swift:167-174 | `didFailWithError` clears `isGeocoding` even while a geocode it did not start is still running | authorized with a known location: a caller waits (geocode 1 starts), the location manager fails, another caller waits, and geocode 2 starts while geocode 1 still runs | at most one geocode runs at a time (lines 75-78) | not executed | LocationService.FailureAllowsSecondGeocode | LocationService.CorrectedFailureKeepsOneGeocode |
| Views/Profile/EditProfileView.swift:499-509 | new works are numbered from `existingPortfolioPaths.count`, which shrinks when a work is removed (lines 311-317) | paths `image_0`, `image_1`; remove index 0; add one work: the saved list is `image_1`, `image_1`, and the upload overwrites the kept work's file | new works go to paths not already listed | not executed | EditProfile.RemovalThenAddReusesPath | EditProfile.FreshWorkPathsDistinct |
| Views/Profile/EditProfileView.swift:518-547 | the save writes no `firstName`, `lastName` or `artistName`, but the load decides `useRealName` from `artistName` (line 452) | a profile with artist name "Ace"; the editor switches to the real name and saves; the reload shows the artist name again | the chosen name kind survives a save, as onboarding writes it (Views/Onboarding/CreateAccountFlowView.swift:1061-1069) | not executed | EditProfile.RealNameSwitchDoesNotStick | EditProfile.CorrectedSaveReloads |

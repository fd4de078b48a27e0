/**
 * The `users` collection: one field map per user id. Creating a profile
 * overwrites the document, updating merges fields into it and always stamps
 * `updatedAt`, and reading decodes a document into a `UserProfile`.
 */
module UserProfileService {
  import opened Wrappers
  import opened Strings
  import StorageService

  /** A Firestore field value, as far as this app writes them. */
  datatype Value = Null | Str(s: string) | Flag(b: bool) | Time(t: nat) | List(items: seq<string>)
                 | Prefs(showProfile: bool, notificationsEnabled: bool)

  /**
   * The names of the profile document's fields (`email`, `displayName`, …, `updatedAt`).
   * Every key the app writes is one of them.
   */
  datatype Field = Email | DisplayName | FirstName | LastName | ArtistName | DateOfBirth | Bio
                 | ProfileImageURL | ProfileImagePath | Location | Profession | PortfolioURL
                 | PortfolioURLs | PortfolioPaths | HasCompletedOnboarding | PreferencesField
                 | CreatedAt | UpdatedAt

  const AllFields: set<Field> := {Email, DisplayName, FirstName, LastName, ArtistName, DateOfBirth, Bio,
                                  ProfileImageURL, ProfileImagePath, Location, Profession, PortfolioURL,
                                  PortfolioURLs, PortfolioPaths, HasCompletedOnboarding, PreferencesField,
                                  CreatedAt, UpdatedAt}

  lemma AllFieldsComplete()
    ensures forall f: Field :: f in AllFields
  {
    forall f: Field
      ensures f in AllFields
    {
      match f
      case Email => case DisplayName => case FirstName => case LastName => case ArtistName =>
      case DateOfBirth => case Bio => case ProfileImageURL => case ProfileImagePath => case Location =>
      case Profession => case PortfolioURL => case PortfolioURLs => case PortfolioPaths =>
      case HasCompletedOnboarding => case PreferencesField => case CreatedAt => case UpdatedAt =>
    }
  }

  type Document = map<Field, Value>

  datatype UserPreferences = UserPreferences(showProfile: bool, notificationsEnabled: bool)

  datatype UserProfile = UserProfile(
    id: string,
    email: string,
    displayName: string,
    firstName: Option<string>,
    lastName: Option<string>,
    artistName: Option<string>,
    dateOfBirth: Option<nat>,
    bio: Option<string>,
    profileImageURL: Option<string>,
    profileImagePath: Option<string>,
    location: Option<string>,
    profession: Option<string>,
    portfolioURL: Option<string>,
    portfolioURLs: Option<seq<string>>,
    portfolioPaths: Option<seq<string>>,
    hasCompletedOnboarding: Option<bool>,
    preferences: Option<UserPreferences>,
    createdAt: nat,
    updatedAt: nat)

  /**
   * `NotFound`: there is no such document; `DecodeFailed`: it does not read back
   * as a profile; `Backend`: the Firestore or Storage call threw, with the
   * error's description.
   */
  datatype ProfileError = NotFound | DecodeFailed | Backend(description: string)

  /** The profile `createUserProfile` builds: every optional field nil, default preferences. */
  function NewProfile(uid: string, email: string, displayName: string, now: nat): (p: UserProfile)
    ensures p.id == uid && p.email == email && p.displayName == displayName
    ensures p.firstName.None? && p.lastName.None? && p.artistName.None? && p.dateOfBirth.None? && p.bio.None?
    ensures p.profileImageURL.None? && p.profileImagePath.None? && p.location.None? && p.profession.None?
    ensures p.portfolioURL.None? && p.portfolioURLs.None? && p.portfolioPaths.None? && p.hasCompletedOnboarding.None?
    ensures p.preferences == Some(UserPreferences(true, true))
    ensures p.createdAt == now && p.updatedAt == now
  {
    UserProfile(uid, email, displayName, None, None, None, None, None, None, None, None, None, None, None, None, None,
                Some(UserPreferences(true, true)), now, now)
  }

  // ---------------------------------------------------------------------------
  // Encoding: Codable writes every non-nil property; the document id is not a field.

  function OptStr(v: Option<string>): Option<Value> {
    if v.Some? then Some(Str(v.value)) else None
  }

  function OptList(v: Option<seq<string>>): Option<Value> {
    if v.Some? then Some(List(v.value)) else None
  }

  /** The value a profile property is encoded as; `None` for a nil property, which is omitted. */
  function FieldValue(p: UserProfile, f: Field): Option<Value> {
    match f
    case Email => Some(Str(p.email))
    case DisplayName => Some(Str(p.displayName))
    case FirstName => OptStr(p.firstName)
    case LastName => OptStr(p.lastName)
    case ArtistName => OptStr(p.artistName)
    case DateOfBirth => if p.dateOfBirth.Some? then Some(Time(p.dateOfBirth.value)) else None
    case Bio => OptStr(p.bio)
    case ProfileImageURL => OptStr(p.profileImageURL)
    case ProfileImagePath => OptStr(p.profileImagePath)
    case Location => OptStr(p.location)
    case Profession => OptStr(p.profession)
    case PortfolioURL => OptStr(p.portfolioURL)
    case PortfolioURLs => OptList(p.portfolioURLs)
    case PortfolioPaths => OptList(p.portfolioPaths)
    case HasCompletedOnboarding => if p.hasCompletedOnboarding.Some? then Some(Flag(p.hasCompletedOnboarding.value)) else None
    case PreferencesField =>
      if p.preferences.Some? then Some(Prefs(p.preferences.value.showProfile, p.preferences.value.notificationsEnabled)) else None
    case CreatedAt => Some(Time(p.createdAt))
    case UpdatedAt => Some(Time(p.updatedAt))
  }

  function Encode(p: UserProfile): (d: Document)
    ensures forall f :: f in d <==> FieldValue(p, f).Some?
    ensures forall f :: f in d ==> d[f] == FieldValue(p, f).value
  {
    AllFieldsComplete();
    map f | f in AllFields && FieldValue(p, f).Some? :: FieldValue(p, f).value
  }

  // ---------------------------------------------------------------------------
  // Decoding: required fields must hold the right kind of value; an optional
  // field may be absent or null (nil), and otherwise must hold the right kind.

  datatype Kind = StrKind | TimeKind | ListKind | FlagKind | PrefsKind

  predicate HasKind(v: Value, kind: Kind) {
    match kind
    case StrKind => v.Str?
    case TimeKind => v.Time?
    case ListKind => v.List?
    case FlagKind => v.Flag?
    case PrefsKind => v.Prefs?
  }

  /** The kind of value each field holds. */
  function KindOf(f: Field): Kind {
    match f
    case DateOfBirth | CreatedAt | UpdatedAt => TimeKind
    case PortfolioURLs | PortfolioPaths => ListKind
    case HasCompletedOnboarding => FlagKind
    case PreferencesField => PrefsKind
    case _ => StrKind
  }

  /** The non-optional properties of `UserProfile`. */
  predicate Required(f: Field) {
    f == Email || f == DisplayName || f == CreatedAt || f == UpdatedAt
  }

  predicate Decodable(d: Document) {
    Email in d && DisplayName in d && CreatedAt in d && UpdatedAt in d &&
    forall f :: f in d ==> HasKind(d[f], KindOf(f)) || (d[f].Null? && !Required(f))
  }

  function GetStr(d: Document, k: Field): Option<string> {
    if k in d && d[k].Str? then Some(d[k].s) else None
  }

  function GetTime(d: Document, k: Field): Option<nat> {
    if k in d && d[k].Time? then Some(d[k].t) else None
  }

  function GetFlag(d: Document, k: Field): Option<bool> {
    if k in d && d[k].Flag? then Some(d[k].b) else None
  }

  function GetPrefs(d: Document, k: Field): Option<UserPreferences> {
    if k in d && d[k].Prefs? then Some(UserPreferences(d[k].showProfile, d[k].notificationsEnabled)) else None
  }

  function GetList(d: Document, k: Field): Option<seq<string>> {
    if k in d && d[k].List? then Some(d[k].items) else None
  }

  /** The profile a document describes, reading a missing or null optional field as nil. */
  function Build(id: string, d: Document): (p: UserProfile)
    ensures p.id == id && p.firstName == GetStr(d, FirstName) && p.bio == GetStr(d, Bio)
  {
    UserProfile(
      id, GetStr(d, Email).GetOr(""), GetStr(d, DisplayName).GetOr(""),
      GetStr(d, FirstName), GetStr(d, LastName), GetStr(d, ArtistName), GetTime(d, DateOfBirth),
      GetStr(d, Bio), GetStr(d, ProfileImageURL), GetStr(d, ProfileImagePath),
      GetStr(d, Location), GetStr(d, Profession), GetStr(d, PortfolioURL),
      GetList(d, PortfolioURLs), GetList(d, PortfolioPaths),
      GetFlag(d, HasCompletedOnboarding), GetPrefs(d, PreferencesField),
      GetTime(d, CreatedAt).GetOr(0), GetTime(d, UpdatedAt).GetOr(0))
  }

  /** `data(as: UserProfile.self)`: fails unless every field holds the right kind of value. */
  function Decode(id: string, d: Document): (r: Result<UserProfile, ProfileError>)
    ensures r.Ok? <==> Decodable(d)
    ensures r.Ok? ==> r.value == Build(id, d)
  {
    if Decodable(d) then Ok(Build(id, d)) else Err(DecodeFailed)
  }

  lemma EncodeStrings(p: UserProfile)
    ensures var d := Encode(p);
            GetStr(d, FirstName) == p.firstName && GetStr(d, LastName) == p.lastName &&
            GetStr(d, ArtistName) == p.artistName && GetStr(d, Bio) == p.bio &&
            GetStr(d, ProfileImageURL) == p.profileImageURL && GetStr(d, ProfileImagePath) == p.profileImagePath &&
            GetStr(d, Location) == p.location && GetStr(d, Profession) == p.profession &&
            GetStr(d, PortfolioURL) == p.portfolioURL
  {
    EncodeNameStrings(p);
    EncodeOtherStrings(p);
  }

  lemma EncodeNameStrings(p: UserProfile)
    ensures var d := Encode(p);
            GetStr(d, FirstName) == p.firstName && GetStr(d, LastName) == p.lastName &&
            GetStr(d, ArtistName) == p.artistName && GetStr(d, Bio) == p.bio
  {
  }

  lemma EncodeOtherStrings(p: UserProfile)
    ensures var d := Encode(p);
            GetStr(d, ProfileImageURL) == p.profileImageURL && GetStr(d, ProfileImagePath) == p.profileImagePath &&
            GetStr(d, Location) == p.location && GetStr(d, Profession) == p.profession &&
            GetStr(d, PortfolioURL) == p.portfolioURL
  {
  }

  lemma EncodeOthers(p: UserProfile)
    ensures var d := Encode(p);
            GetStr(d, Email) == Some(p.email) && GetStr(d, DisplayName) == Some(p.displayName) &&
            GetTime(d, CreatedAt) == Some(p.createdAt) && GetTime(d, UpdatedAt) == Some(p.updatedAt) &&
            GetTime(d, DateOfBirth) == p.dateOfBirth &&
            GetList(d, PortfolioURLs) == p.portfolioURLs && GetList(d, PortfolioPaths) == p.portfolioPaths &&
            GetFlag(d, HasCompletedOnboarding) == p.hasCompletedOnboarding &&
            GetPrefs(d, PreferencesField) == p.preferences
  {
    EncodeAccountFields(p);
    EncodeCollectionFields(p);
  }

  lemma EncodeAccountFields(p: UserProfile)
    ensures var d := Encode(p);
            GetStr(d, Email) == Some(p.email) && GetStr(d, DisplayName) == Some(p.displayName) &&
            GetTime(d, CreatedAt) == Some(p.createdAt) && GetTime(d, UpdatedAt) == Some(p.updatedAt) &&
            GetTime(d, DateOfBirth) == p.dateOfBirth
  {
  }

  lemma EncodeCollectionFields(p: UserProfile)
    ensures var d := Encode(p);
            GetList(d, PortfolioURLs) == p.portfolioURLs && GetList(d, PortfolioPaths) == p.portfolioPaths &&
            GetFlag(d, HasCompletedOnboarding) == p.hasCompletedOnboarding &&
            GetPrefs(d, PreferencesField) == p.preferences
  {
  }

  lemma EncodeDecodable(p: UserProfile)
    ensures Decodable(Encode(p))
  {
    var d := Encode(p);
    forall f | f in d
      ensures HasKind(d[f], KindOf(f))
    {
      match f
      case Email => case DisplayName => case FirstName => case LastName => case ArtistName =>
      case DateOfBirth => case Bio => case ProfileImageURL => case ProfileImagePath => case Location =>
      case Profession => case PortfolioURL => case PortfolioURLs => case PortfolioPaths =>
      case HasCompletedOnboarding => case PreferencesField => case CreatedAt => case UpdatedAt =>
    }
  }

  /** Reading back what was written gives the same profile. */
  lemma DecodeEncode(p: UserProfile)
    ensures Decode(p.id, Encode(p)) == Ok(p)
  {
    EncodeDecodable(p);
    EncodeStrings(p);
    EncodeOthers(p);
  }

  // ---------------------------------------------------------------------------
  // The reads.

  /**
   * `fetchUserProfile`: `data(as:)` throws for a missing document as for one that
   * does not decode, so the optional result is never nil.
   */
  function FetchUserProfile(users: map<string, Document>, uid: string): (r: Result<Option<UserProfile>, ProfileError>)
    ensures uid !in users ==> r == Err(NotFound)
    ensures r.Ok? <==> uid in users && Decodable(users[uid])
    ensures r.Ok? ==> r.value.Some? && Decode(uid, users[uid]) == Ok(r.value.value)
  {
    if uid !in users then Err(NotFound)
    else
      var p := Decode(uid, users[uid]);
      if p.Ok? then Ok(Some(p.value)) else Err(p.error)
  }

  /** The private-use character U+F8FF that closes the prefix range. */
  const SearchSentinel: char := '\U{F8FF}'

  /** Firestore's range `query <= name < query + "\u{f8ff}"`. */
  predicate InSearchRange(name: string, query: string) {
    !LexLess(name, query) && LexLess(name, query + [SearchSentinel])
  }

  /**
   * The range is a prefix search: a name is in it exactly when it is the query
   * followed by nothing or by a character below U+F8FF.
   */
  lemma {:induction false} InSearchRangeIffPrefix(name: string, query: string)
    ensures InSearchRange(name, query) <==>
            StartsWith(name, query) && (|name| == |query| || name[|query|] < SearchSentinel)
    decreases |query|
  {
    if query == [] {
      assert name[..0] == [];
      if name != [] {
        assert LexLess(name, [SearchSentinel]) == (name[0] < SearchSentinel || (name[0] == SearchSentinel && LexLess(name[1..], [])));
      }
    } else if name != [] {
      InSearchRangeIffPrefix(name[1..], query[1..]);
      assert (query + [SearchSentinel])[0] == query[0];
      assert (query + [SearchSentinel])[1..] == query[1..] + [SearchSentinel];
      if name[0] == query[0] {
        assert StartsWith(name, query) <==> StartsWith(name[1..], query[1..]);
        if |name| > |query| {
          assert name[|query|] == name[1..][|query[1..]|];
        }
      } else {
        if |query| <= |name| {
          assert name[..|query|][0] != query[0];
        }
      }
    }
  }

  predicate SearchHit(users: map<string, Document>, uid: string, query: string) {
    uid in users && DisplayName in users[uid] && users[uid][DisplayName].Str? &&
    InSearchRange(users[uid][DisplayName].s, query)
  }

  /** The ids of `order` that are hits, in that order. */
  function Hits(users: map<string, Document>, order: seq<string>, query: string): (r: seq<string>)
    ensures forall x :: x in r <==> x in order && SearchHit(users, x, query)
    ensures |r| <= |order|
  {
    if order == [] then []
    else (if SearchHit(users, order[0], query) then [order[0]] else []) + Hits(users, order[1..], query)
  }

  function DecodeAll(users: map<string, Document>, ids: seq<string>): (r: Result<seq<UserProfile>, ProfileError>)
    requires forall i :: 0 <= i < |ids| ==> ids[i] in users
    ensures r.Ok? ==> |r.value| == |ids| &&
                      forall i :: 0 <= i < |ids| ==> Decodable(users[ids[i]]) && r.value[i] == Build(ids[i], users[ids[i]])
    ensures r.Err? ==> r.error == DecodeFailed && exists i :: 0 <= i < |ids| && !Decodable(users[ids[i]])
  {
    if ids == [] then Ok([])
    else if !Decodable(users[ids[0]]) then Err(DecodeFailed)
    else
      var rest := ids[1..];
      assert forall i :: 0 <= i < |rest| ==> rest[i] == ids[i + 1];
      var tail := DecodeAll(users, rest);
      if tail.Err? then tail
      else
        var r := [Build(ids[0], users[ids[0]])] + tail.value;
        assert forall i :: 1 <= i < |ids| ==> r[i] == tail.value[i - 1];
        Ok(r)
  }

  /**
   * `searchUsers`: `order` is the order in which the backend lists the collection's
   * document ids; the hits among them are taken, at most `limit` of them, and each
   * is decoded (one undecodable hit makes the whole call throw). The backend
   * rejects a limit below 1, so the caller must pass at least 1 (the default is 20).
   */
  function SearchUsers(users: map<string, Document>, order: seq<string>, query: string, limit: nat): (r: Result<seq<UserProfile>, ProfileError>)
    requires limit >= 1
    ensures r.Ok? ==> |r.value| <= limit
    ensures r.Ok? ==> forall i :: 0 <= i < |r.value| ==>
              var p := r.value[i];
              p.id in order && SearchHit(users, p.id, query) && Decode(p.id, users[p.id]) == Ok(p) &&
              InSearchRange(p.displayName, query)
  {
    var taken := FirstHits(users, order, query, limit);
    var decoded := DecodeAll(users, taken);
    assert decoded.Ok? ==> forall i :: 0 <= i < |taken| ==> SearchHit(users, taken[i], query) by {
      forall i | 0 <= i < |taken|
        ensures taken[i] in Hits(users, order, query)
      {
        assert Hits(users, order, query)[i] == taken[i];
      }
    }
    decoded
  }

  /** The hits the query keeps: the first `limit` of them, or all when there are fewer. */
  function FirstHits(users: map<string, Document>, order: seq<string>, query: string, limit: nat): (ids: seq<string>)
    ensures |ids| == if |Hits(users, order, query)| <= limit then |Hits(users, order, query)| else limit
    ensures forall i :: 0 <= i < |ids| ==> ids[i] == Hits(users, order, query)[i] && ids[i] in users
  {
    var hits := Hits(users, order, query);
    var taken := if |hits| <= limit then hits else hits[..limit];
    assert forall i :: 0 <= i < |taken| ==> taken[i] == hits[i] && taken[i] in users by {
      forall i | 0 <= i < |taken|
        ensures taken[i] == hits[i] && taken[i] in users
      {
        assert hits[i] in hits;
      }
    }
    taken
  }

  /**
   * The search returns the first `limit` hits in the backend's order, or all of
   * them when there are fewer; it throws exactly when one of those does not decode.
   */
  lemma SearchReturnsFirstHits(users: map<string, Document>, order: seq<string>, query: string, limit: nat, r: Result<seq<UserProfile>, ProfileError>)
    requires limit >= 1 && r == SearchUsers(users, order, query, limit)
    ensures r.Ok? ==> |r.value| == |FirstHits(users, order, query, limit)| &&
                      forall i :: 0 <= i < |r.value| ==> r.value[i].id == FirstHits(users, order, query, limit)[i]
    ensures r.Err? <==> exists i :: 0 <= i < |FirstHits(users, order, query, limit)| &&
                                   !Decodable(users[FirstHits(users, order, query, limit)[i]])
    ensures r.Err? ==> r.error == DecodeFailed
  {
    var ids := FirstHits(users, order, query, limit);
    assert r == DecodeAll(users, ids);
    if r.Ok? {
      forall i | 0 <= i < |ids|
        ensures Decodable(users[ids[i]]) && r.value[i].id == ids[i]
      {
      }
    }
  }

  // ---------------------------------------------------------------------------
  // Merges.

  /** `updateData`: the given fields replace or join the document's; the rest stay. */
  function Merge(doc: Document, updates: Document): (r: Document)
    ensures r.Keys == doc.Keys + updates.Keys
    ensures forall k :: k in updates ==> r[k] == updates[k]
    ensures forall k :: k in doc && k !in updates ==> r[k] == doc[k]
  {
    doc + updates
  }

  /** `updateUserProfile`'s field map: the caller's fields, then `updatedAt` overriding any given one. */
  function Stamped(updates: Document, now: nat): (r: Document)
    ensures r.Keys == updates.Keys + {UpdatedAt}
    ensures r[UpdatedAt] == Time(now)
    ensures forall k :: k in updates && k != UpdatedAt ==> r[k] == updates[k]
  {
    updates[UpdatedAt := Time(now)]
  }

  /** The fields `createOrUpdateUserProfile` writes into an existing document. */
  function SignInFields(email: string, displayName: string, now: nat): Document {
    map[Email := Str(email), DisplayName := Str(displayName), UpdatedAt := Time(now)]
  }

  /** The time stamp is a timestamp, so stamping keeps every written value of its field's kind. */
  lemma StampedKeepsKinds(updates: Document, now: nat)
    requires forall f :: f in updates ==> HasKind(updates[f], KindOf(f)) || (updates[f].Null? && !Required(f))
    ensures var r := Stamped(updates, now);
            forall f :: f in r ==> HasKind(r[f], KindOf(f)) || (r[f].Null? && !Required(f))
  {
  }

  /** Merging well-kinded fields, or nulls for optional ones, into a readable document keeps it readable. */
  lemma MergeKeepsDecodable(doc: Document, updates: Document)
    requires Decodable(doc)
    requires forall f :: f in updates ==> HasKind(updates[f], KindOf(f)) || (updates[f].Null? && !Required(f))
    ensures Decodable(Merge(doc, updates))
  {
  }

  /** Fields that a merge does not name read the same before and after it. */
  lemma MergeKeepsGetters(doc: Document, updates: Document, f: Field)
    requires f !in updates
    ensures GetStr(Merge(doc, updates), f) == GetStr(doc, f)
    ensures GetTime(Merge(doc, updates), f) == GetTime(doc, f)
    ensures GetList(Merge(doc, updates), f) == GetList(doc, f)
    ensures GetFlag(Merge(doc, updates), f) == GetFlag(doc, f)
    ensures GetPrefs(Merge(doc, updates), f) == GetPrefs(doc, f)
    ensures (f in Merge(doc, updates) <==> f in doc) && (f in doc ==> Merge(doc, updates)[f] == doc[f])
  {
  }

  /** The optional properties that neither sign-in nor a picture upload writes. */
  lemma MergeKeepsCommonFields(uid: string, doc: Document, updates: Document)
    requires updates.Keys <= {Email, DisplayName, ProfileImageURL, ProfileImagePath, UpdatedAt}
    ensures var p, q := Build(uid, doc), Build(uid, Merge(doc, updates));
            q.firstName == p.firstName && q.lastName == p.lastName && q.artistName == p.artistName &&
            q.dateOfBirth == p.dateOfBirth && q.bio == p.bio && q.location == p.location &&
            q.profession == p.profession && q.portfolioURL == p.portfolioURL &&
            q.portfolioURLs == p.portfolioURLs && q.portfolioPaths == p.portfolioPaths &&
            q.hasCompletedOnboarding == p.hasCompletedOnboarding && q.preferences == p.preferences &&
            q.createdAt == p.createdAt
  {
    MergeKeepsGetters(doc, updates, FirstName);
    MergeKeepsGetters(doc, updates, LastName);
    MergeKeepsGetters(doc, updates, ArtistName);
    MergeKeepsGetters(doc, updates, DateOfBirth);
    MergeKeepsGetters(doc, updates, Bio);
    MergeKeepsGetters(doc, updates, Location);
    MergeKeepsGetters(doc, updates, Profession);
    MergeKeepsGetters(doc, updates, PortfolioURL);
    MergeKeepsGetters(doc, updates, PortfolioURLs);
    MergeKeepsGetters(doc, updates, PortfolioPaths);
    MergeKeepsGetters(doc, updates, HasCompletedOnboarding);
    MergeKeepsGetters(doc, updates, PreferencesField);
    MergeKeepsGetters(doc, updates, CreatedAt);
  }

  /** On an existing profile, create-or-update changes only email, display name and `updatedAt`. */
  lemma SignInUpdateChangesOnlyNameAndEmail(uid: string, doc: Document, email: string, displayName: string, now: nat)
    requires Decodable(doc)
    ensures var p := Decode(uid, doc).value;
            Decode(uid, Merge(doc, SignInFields(email, displayName, now))) ==
              Ok(p.(email := email, displayName := displayName, updatedAt := now))
  {
    var u := SignInFields(email, displayName, now);
    MergeKeepsDecodable(doc, u);
    MergeKeepsCommonFields(uid, doc, u);
    MergeKeepsGetters(doc, u, ProfileImageURL);
    MergeKeepsGetters(doc, u, ProfileImagePath);
  }

  /** The class holding the collection; reads are the module's functions over `users`. */
  class UserStore {
    var users: map<string, Document>

    constructor()
      ensures users == map[]
    {
      users := map[];
    }

    /**
     * `createUserProfile`: `setData` replaces the whole document. `fault` is the
     * description of the error the write throws, if it throws.
     */
    method CreateUserProfile(uid: string, email: string, displayName: string, now: nat, fault: Option<string>)
      returns (r: Result<(), ProfileError>)
      modifies this
      ensures fault.Some? ==> r == Err(Backend(fault.value)) && users == old(users)
      ensures fault.None? ==> r == Ok(()) && users == old(users)[uid := Encode(NewProfile(uid, email, displayName, now))]
    {
      if fault.Some? {
        return Err(Backend(fault.value));
      }
      users := users[uid := Encode(NewProfile(uid, email, displayName, now))];
      r := Ok(());
    }

    /**
     * `createOrUpdateUserProfile`: `getDocument`, then `updateData` on an existing
     * profile or `createUserProfile`. `fault` is the error the first call to throw
     * gives; every write is the last call, so a throw writes nothing.
     */
    method CreateOrUpdateUserProfile(uid: string, email: string, displayName: string, now: nat, fault: Option<string>)
      returns (r: Result<(), ProfileError>)
      modifies this
      ensures fault.Some? ==> r == Err(Backend(fault.value)) && users == old(users)
      ensures fault.None? && uid in old(users) ==>
                r == Ok(()) && users == old(users)[uid := Merge(old(users)[uid], SignInFields(email, displayName, now))]
      ensures fault.None? && uid !in old(users) ==>
                r == Ok(()) && users == old(users)[uid := Encode(NewProfile(uid, email, displayName, now))]
    {
      if fault.Some? {
        return Err(Backend(fault.value));
      }
      if uid in users {
        users := users[uid := Merge(users[uid], SignInFields(email, displayName, now))];
        r := Ok(());
      } else {
        r := CreateUserProfile(uid, email, displayName, now, None);
      }
    }

    /**
     * `updateUserProfile`: `updateData` fails on a missing document, and `fault`
     * is the description of any other error it throws.
     */
    method UpdateUserProfile(uid: string, updates: Document, now: nat, fault: Option<string>) returns (r: Result<(), ProfileError>)
      modifies this
      ensures fault.Some? ==> r == Err(Backend(fault.value)) && users == old(users)
      ensures fault.None? && uid !in old(users) ==> r == Err(NotFound) && users == old(users)
      ensures fault.None? && uid in old(users) ==>
                r == Ok(()) && users == old(users)[uid := Merge(old(users)[uid], Stamped(updates, now))]
    {
      if fault.Some? {
        return Err(Backend(fault.value));
      }
      if uid !in users {
        return Err(NotFound);
      }
      users := users[uid := Merge(users[uid], Stamped(updates, now))];
      r := Ok(());
    }

    /**
     * `uploadProfileImage`: `uploaded` is the download URL the storage upload gave
     * (or its failure); the URL and the path are then written into the profile,
     * a write that can throw (`fault`).
     */
    method UploadProfileImage(uid: string, uploaded: Result<string, ProfileError>, now: nat, fault: Option<string>)
      returns (r: Result<string, ProfileError>)
      modifies this
      ensures uploaded.Err? ==> r == uploaded && users == old(users)
      ensures uploaded.Ok? && fault.Some? ==> r == Err(Backend(fault.value)) && users == old(users)
      ensures uploaded.Ok? && fault.None? && uid !in old(users) ==> r == Err(NotFound) && users == old(users)
      ensures uploaded.Ok? && fault.None? && uid in old(users) ==>
                r == uploaded &&
                users == old(users)[uid := Merge(old(users)[uid], Stamped(ProfileImageFields(uid, uploaded.value), now))]
    {
      if uploaded.Err? {
        return uploaded;
      }
      var written := UpdateUserProfile(uid, ProfileImageFields(uid, uploaded.value), now, fault);
      if written.Err? {
        return Err(written.error);
      }
      r := uploaded;
    }
  }

  /** The two fields recorded after a profile picture upload. */
  function ProfileImageFields(uid: string, url: string): (r: Document)
    ensures r.Keys == {ProfileImageURL, ProfileImagePath}
    ensures r[ProfileImageURL] == Str(url) && r[ProfileImagePath] == Str("profiles/" + uid + "/profile.jpg")
  {
    map[ProfileImageURL := Str(url), ProfileImagePath := Str(StorageService.ProfileImagePath(uid))]
  }

  /** A freshly created profile reads back as the new profile: optional fields nil, default preferences. */
  lemma CreateThenFetch(users: map<string, Document>, uid: string, email: string, displayName: string, now: nat)
    ensures FetchUserProfile(users[uid := Encode(NewProfile(uid, email, displayName, now))], uid) ==
            Ok(Some(NewProfile(uid, email, displayName, now)))
  {
    DecodeEncode(NewProfile(uid, email, displayName, now));
  }

  /** After `updateUserProfile`, `updatedAt` is the call's time even if the caller supplied one. */
  lemma UpdateStampsUpdatedAt(doc: Document, updates: Document, now: nat)
    requires UpdatedAt in updates
    ensures Merge(doc, Stamped(updates, now))[UpdatedAt] == Time(now)
  {
  }

  /** After a profile picture upload, the profile reads back with its URL and path set and the rest unchanged. */
  lemma UploadedImageReadsBack(uid: string, doc: Document, url: string, now: nat)
    ensures var m := Merge(doc, Stamped(ProfileImageFields(uid, url), now));
            (Decodable(doc) ==> Decodable(m)) &&
            Build(uid, m) ==
              Build(uid, doc).(profileImageURL := Some(url), profileImagePath := Some(StorageService.ProfileImagePath(uid)),
                               updatedAt := now)
  {
    var u := Stamped(ProfileImageFields(uid, url), now);
    assert u.Keys == {ProfileImageURL, ProfileImagePath, UpdatedAt};
    ImageFieldsKeepDecodable(doc, u);
    var m := Merge(doc, u);
    MergeKeepsCommonFields(uid, doc, u);
    MergeKeepsGetters(doc, u, Email);
    MergeKeepsGetters(doc, u, DisplayName);
    assert GetStr(m, ProfileImageURL) == Some(url);
    assert GetStr(m, ProfileImagePath) == Some(StorageService.ProfileImagePath(uid));
    assert GetTime(m, UpdatedAt) == Some(now);
    OnlyImageFieldsDiffer(Build(uid, doc), Build(uid, m));
  }

  lemma ImageFieldsKeepDecodable(doc: Document, u: Document)
    requires u.Keys == {ProfileImageURL, ProfileImagePath, UpdatedAt}
    requires u[ProfileImageURL].Str? && u[ProfileImagePath].Str? && u[UpdatedAt].Time?
    ensures Decodable(doc) ==> Decodable(Merge(doc, u))
  {
    if Decodable(doc) {
      MergeKeepsDecodable(doc, u);
    }
  }

  /** Two profiles that agree on everything but the picture and `updatedAt`, compared as values. */
  lemma OnlyImageFieldsDiffer(p: UserProfile, q: UserProfile)
    requires q.id == p.id && q.email == p.email && q.displayName == p.displayName
    requires q.firstName == p.firstName && q.lastName == p.lastName && q.artistName == p.artistName &&
             q.dateOfBirth == p.dateOfBirth && q.bio == p.bio && q.location == p.location &&
             q.profession == p.profession && q.portfolioURL == p.portfolioURL &&
             q.portfolioURLs == p.portfolioURLs && q.portfolioPaths == p.portfolioPaths &&
             q.hasCompletedOnboarding == p.hasCompletedOnboarding && q.preferences == p.preferences &&
             q.createdAt == p.createdAt
    ensures q == p.(profileImageURL := q.profileImageURL, profileImagePath := q.profileImagePath, updatedAt := q.updatedAt)
  {
  }
}

/**
 * The sign-up and onboarding flow: the form checks, the Google name split,
 * the category and bio fields, and `completeOnboarding`, which uploads the
 * pictures (failures skipped), makes sure a profile exists and writes all
 * onboarding fields in one update. Uploads and provider answers are parameters.
 */
module CreateAccountFlow {
  import opened Wrappers
  import opened Strings
  import ProfanityFilter
  import StorageService
  import UPS = UserProfileService
  import AuthService

  datatype OnboardingStep = AuthMethod | EmailPasswordStep | VerifyNameInfo | NameInfo | DesignerCategory
                          | UploadWorks | ProfilePicture | BioStep | LocationStep | Ready | Tutorial

  const BioLimit: nat := 200

  const DesignerCategories: seq<string> := [
    "Graphic Designer", "UI/UX Designer", "Product Designer", "Fashion Designer",
    "Interior Designer", "Web Designer", "Motion Designer", "Illustrator",
    "Art Director", "Brand Designer", "Type Designer", "Packaging Designer"]

  /** `isValidEmailForm`. */
  predicate IsValidEmailForm(email: string, password: string, confirmPassword: string) {
    email != "" && Contains(email, "@") && |password| >= 6 && password == confirmPassword
  }

  /** A form that passes has an `@` somewhere in the address, a password of six or more, and a matching confirmation. */
  lemma ValidFormMeans(email: string, password: string, confirmPassword: string)
    ensures IsValidEmailForm(email, password, confirmPassword) <==>
              (exists i :: 0 <= i < |email| && email[i] == '@') && |password| >= 6 && password == confirmPassword
  {
    ContainsIffOccurs(email, "@");
    if i :| 0 <= i < |email| && email[i] == '@' {
      assert email[i..i + 1] == "@";
      assert OccursAt(email, "@", i);
    }
    if i :| OccursAt(email, "@", i) {
      assert email[i] == email[i..i + 1][0];
    }
  }

  /** The bio editor's `onChange`: anything over 200 characters is cut to its first 200. */
  function LimitBio(newValue: string): (bio: string)
    ensures |bio| <= BioLimit && |bio| <= |newValue| && bio == newValue[..|bio|]
    ensures |newValue| <= BioLimit ==> bio == newValue
    ensures |newValue| > BioLimit ==> |bio| == BioLimit
  {
    if |newValue| > BioLimit then newValue[..BioLimit] else newValue
  }

  /** Cutting twice is cutting once. */
  lemma LimitBioIdempotent(newValue: string)
    ensures LimitBio(LimitBio(newValue)) == LimitBio(newValue)
  {
  }

  // ---------------------------------------------------------------------------
  // Google sign-in: the account name becomes first and last name.

  /** The first space-separated component, and the remaining components joined by a space. */
  function SplitGoogleName(displayName: string): (r: (string, string))
  {
    var parts := Components(displayName, IsSpace);
    (parts[0], Join(parts[1..], " "))
  }

  /** The first name never holds a space. */
  lemma FirstNameHasNoSpace(displayName: string)
    ensures forall j :: 0 <= j < |SplitGoogleName(displayName).0| ==> SplitGoogleName(displayName).0[j] != ' '
  {
    forall j | 0 <= j < |SplitGoogleName(displayName).0|
      ensures SplitGoogleName(displayName).0[j] != ' '
    {
      ComponentsHaveNoSeparator(displayName, IsSpace, 0, j);
    }
  }

  /** First name, a space and last name give the account name back (the space only when there was one). */
  lemma SplitGoogleNameRejoins(displayName: string)
    ensures var (first, last) := SplitGoogleName(displayName);
            (displayName == first && last == "") || displayName == first + " " + last
  {
    var parts := Components(displayName, IsSpace);
    JoinComponentsOnChar(displayName, IsSpace, ' ');
    if |parts| > 1 {
      assert parts == [parts[0]] + parts[1..];
    }
  }

  /** The step after a successful Google sign-in: confirm a provided name, or ask for one. */
  function StepAfterGoogleSignIn(firstName: string): (step: OnboardingStep)
    ensures step == VerifyNameInfo <==> firstName != ""
    ensures step == VerifyNameInfo || step == NameInfo
  {
    if firstName != "" then VerifyNameInfo else NameInfo
  }

  /** A Google account without a name is asked for one. */
  lemma NamelessAccountAskedForName()
    ensures StepAfterGoogleSignIn(SplitGoogleName("").0) == NameInfo
  {
    assert Components("", IsSpace) == [""];
  }

  // ---------------------------------------------------------------------------
  // completeOnboarding: the display name, the uploads and the update map.

  /** The name written on completion: the trimmed "first last", or the artist name. */
  function OnboardingDisplayName(useRealName: bool, firstName: string, lastName: string, artistName: string): string {
    if useRealName then Trim(firstName + " " + lastName, IsWhitespace) else artistName
  }

  /** With names that do not start or end in blanks, the real name is "first last", or just "first" without a last name. */
  lemma RealNameIsFirstSpaceLast(firstName: string, lastName: string, artistName: string)
    requires firstName != [] && !IsWhitespace(firstName[0]) && !IsWhitespace(firstName[|firstName| - 1])
    requires lastName == [] || (!IsWhitespace(lastName[0]) && !IsWhitespace(lastName[|lastName| - 1]))
    ensures lastName != [] ==> OnboardingDisplayName(true, firstName, lastName, artistName) == firstName + " " + lastName
    ensures lastName == [] ==> OnboardingDisplayName(true, firstName, lastName, artistName) == firstName
  {
    var joined := firstName + " " + lastName;
    assert joined[0] == firstName[0];
    assert TrimStart(joined, IsWhitespace) == joined;
    if lastName != [] {
      assert joined[|joined| - 1] == lastName[|lastName| - 1];
    } else {
      assert joined[..|joined| - 1] == firstName;
      assert TrimEnd(joined[..|joined| - 1], IsWhitespace) == firstName;
    }
  }

  /** Blank first and last names give an empty display name, which stops the onboarding. */
  lemma BlankNamesGiveEmptyDisplayName(firstName: string, lastName: string, artistName: string)
    requires forall i :: 0 <= i < |firstName| ==> IsWhitespace(firstName[i])
    requires forall i :: 0 <= i < |lastName| ==> IsWhitespace(lastName[i])
    ensures OnboardingDisplayName(true, firstName, lastName, artistName) == ""
  {
    var joined := firstName + " " + lastName;
    assert forall i :: 0 <= i < |joined| ==> IsWhitespace(joined[i]);
  }

  /** The works that uploaded, by their index among the selected works, in order. */
  function UploadedIndices(outcomes: seq<Option<string>>): (idx: seq<nat>)
    ensures forall k :: 0 <= k < |idx| ==> idx[k] < |outcomes| && outcomes[idx[k]].Some?
    ensures forall k, l :: 0 <= k < l < |idx| ==> idx[k] < idx[l]
    ensures (forall i :: 0 <= i < |outcomes| ==> outcomes[i].Some?) ==> |idx| == |outcomes|
    decreases |outcomes|
  {
    if outcomes == [] then []
    else
      var before := UploadedIndices(outcomes[..|outcomes| - 1]);
      if outcomes[|outcomes| - 1].Some? then before + [|outcomes| - 1] else before
  }

  /** `workURLs` after the loop: the URL of each uploaded work. */
  function WorkURLs(outcomes: seq<Option<string>>): (urls: seq<string>)
    ensures |urls| == |UploadedIndices(outcomes)|
  {
    var idx := UploadedIndices(outcomes);
    seq(|idx|, k requires 0 <= k < |idx| => outcomes[idx[k]].value)
  }

  /** `workPaths` after the loop: each uploaded work's storage path, numbered by its selection index. */
  function WorkPaths(uid: string, outcomes: seq<Option<string>>): (paths: seq<string>)
    ensures |paths| == |UploadedIndices(outcomes)|
  {
    var idx := UploadedIndices(outcomes);
    seq(|idx|, k requires 0 <= k < |idx| => StorageService.PortfolioImagePath(uid, idx[k]))
  }

  /**
   * The upload loop of `completeOnboarding`: `outcomes[i]` is the URL work `i`
   * uploaded to, or nothing when its upload threw; a failed work is skipped.
   */
  method UploadSelectedWorks(uid: string, outcomes: seq<Option<string>>) returns (workURLs: seq<string>, workPaths: seq<string>)
    ensures workURLs == WorkURLs(outcomes) && workPaths == WorkPaths(uid, outcomes)
  {
    workURLs, workPaths := [], [];
    for index := 0 to |outcomes|
      invariant workURLs == WorkURLs(outcomes[..index])
      invariant workPaths == WorkPaths(uid, outcomes[..index])
    {
      ghost var before := UploadedIndices(outcomes[..index]);
      assert outcomes[..index + 1][..index] == outcomes[..index];
      assert forall i :: 0 <= i < index ==> outcomes[..index + 1][i] == outcomes[..index][i];
      if outcomes[index].Some? {
        var workPath := StorageService.PortfolioImagePath(uid, index);
        workURLs := workURLs + [outcomes[index].value];
        workPaths := workPaths + [workPath];
      }
    }
    assert outcomes[..|outcomes|] == outcomes;
  }

  /** The two lists grow together, and every path belongs to a work whose upload succeeded. */
  lemma WorkListsInLockStep(uid: string, outcomes: seq<Option<string>>)
    ensures |WorkURLs(outcomes)| == |WorkPaths(uid, outcomes)|
    ensures forall k :: 0 <= k < |WorkPaths(uid, outcomes)| ==>
              exists i :: 0 <= i < |outcomes| && outcomes[i] == Some(WorkURLs(outcomes)[k]) &&
                          WorkPaths(uid, outcomes)[k] == StorageService.PortfolioImagePath(uid, i)
  {
    var idx := UploadedIndices(outcomes);
    forall k | 0 <= k < |WorkPaths(uid, outcomes)|
      ensures exists i :: 0 <= i < |outcomes| && outcomes[i] == Some(WorkURLs(outcomes)[k]) &&
                          WorkPaths(uid, outcomes)[k] == StorageService.PortfolioImagePath(uid, i)
    {
      assert outcomes[idx[k]] == Some(WorkURLs(outcomes)[k]);
    }
  }

  /** No two uploaded works share a storage path. */
  lemma WorkPathsDistinct(uid: string, outcomes: seq<Option<string>>)
    ensures forall k, l :: 0 <= k < l < |WorkPaths(uid, outcomes)| ==> WorkPaths(uid, outcomes)[k] != WorkPaths(uid, outcomes)[l]
  {
    var idx := UploadedIndices(outcomes);
    forall k, l | 0 <= k < l < |WorkPaths(uid, outcomes)|
      ensures WorkPaths(uid, outcomes)[k] != WorkPaths(uid, outcomes)[l]
    {
      StorageService.PortfolioPathsDistinct(uid, idx[k], idx[l]);
    }
  }

  /** When every upload succeeds, work `k` is stored as `image_k`. */
  lemma AllUploadedNumberedInOrder(uid: string, outcomes: seq<Option<string>>)
    requires forall i :: 0 <= i < |outcomes| ==> outcomes[i].Some?
    ensures |WorkPaths(uid, outcomes)| == |outcomes|
    ensures forall k :: 0 <= k < |outcomes| ==> WorkPaths(uid, outcomes)[k] == StorageService.PortfolioImagePath(uid, k)
  {
    var idx := UploadedIndices(outcomes);
    IncreasingIndicesAreIdentity(idx, |outcomes|);
  }

  lemma {:induction false} IncreasingIndicesAreIdentity(idx: seq<nat>, n: nat)
    requires |idx| == n && forall k :: 0 <= k < n ==> idx[k] < n
    requires forall k, l :: 0 <= k < l < n ==> idx[k] < idx[l]
    ensures forall k :: 0 <= k < n ==> idx[k] == k
  {
    forall k | 0 <= k < n
      ensures idx[k] == k
    {
      BelowIndex(idx, n, k);
      AboveIndex(idx, n, k);
    }
  }

  lemma {:induction false} BelowIndex(idx: seq<nat>, n: nat, k: nat)
    requires |idx| == n && k < n
    requires forall k, l :: 0 <= k < l < n ==> idx[k] < idx[l]
    ensures idx[k] >= k
    decreases k
  {
    if k > 0 {
      BelowIndex(idx, n, k - 1);
    }
  }

  lemma {:induction false} AboveIndex(idx: seq<nat>, n: nat, k: nat)
    requires |idx| == n && k < n && forall j :: 0 <= j < n ==> idx[j] < n
    requires forall k, l :: 0 <= k < l < n ==> idx[k] < idx[l]
    ensures idx[k] <= k
    decreases n - k
  {
    if k < n - 1 {
      AboveIndex(idx, n, k + 1);
    }
  }

  /** What the onboarding form holds when it is completed. */
  datatype OnboardingForm = OnboardingForm(
    useRealName: bool, firstName: string, lastName: string, artistName: string,
    selectedCategory: string, bio: string, location: string, dateOfBirth: nat)

  function NullIfEmpty(s: string): (v: UPS.Value)
    ensures v == (if s == "" then UPS.Null else UPS.Str(s))
  {
    if s == "" then UPS.Null else UPS.Str(s)
  }

  /**
   * The value `completeOnboarding` writes into a field, or nothing when it leaves
   * the field alone; `image` is the uploaded profile picture's URL and path.
   */
  function OnboardingValue(form: OnboardingForm, displayName: string, image: Option<(string, string)>,
                           workURLs: seq<string>, workPaths: seq<string>, f: UPS.Field): Option<UPS.Value>
  {
    match f
    case DisplayName => Some(UPS.Str(displayName))
    case Profession => Some(NullIfEmpty(form.selectedCategory))
    case Bio => Some(NullIfEmpty(form.bio))
    case DateOfBirth => Some(UPS.Time(form.dateOfBirth))
    case HasCompletedOnboarding => Some(UPS.Flag(true))
    case Location => if form.location != "" then Some(UPS.Str(form.location)) else None
    case ProfileImageURL => if image.Some? then Some(UPS.Str(image.value.0)) else None
    case ProfileImagePath => if image.Some? then Some(UPS.Str(image.value.1)) else None
    case PortfolioURLs => if workURLs != [] then Some(UPS.List(workURLs)) else None
    case PortfolioPaths => if workURLs != [] then Some(UPS.List(workPaths)) else Some(UPS.Null)
    case FirstName => Some(if form.useRealName then UPS.Str(form.firstName) else UPS.Null)
    case LastName => Some(if form.useRealName then UPS.Str(form.lastName) else UPS.Null)
    case ArtistName => Some(if form.useRealName then UPS.Null else UPS.Str(form.artistName))
    case _ => None
  }

  /** The `updates` map of `completeOnboarding`. */
  function OnboardingUpdates(form: OnboardingForm, displayName: string, image: Option<(string, string)>,
                             workURLs: seq<string>, workPaths: seq<string>): (u: UPS.Document)
    ensures forall f :: f in u <==> OnboardingValue(form, displayName, image, workURLs, workPaths, f).Some?
    ensures forall f :: f in u ==> u[f] == OnboardingValue(form, displayName, image, workURLs, workPaths, f).value
  {
    UPS.AllFieldsComplete();
    map f | f in UPS.AllFields && OnboardingValue(form, displayName, image, workURLs, workPaths, f).Some? ::
      OnboardingValue(form, displayName, image, workURLs, workPaths, f).value
  }

  /** The always-written fields: the name, the date of birth and the completion flag. */
  lemma OnboardingUpdatesAnswers(form: OnboardingForm, displayName: string, image: Option<(string, string)>,
                                 workURLs: seq<string>, workPaths: seq<string>)
    ensures var u := OnboardingUpdates(form, displayName, image, workURLs, workPaths);
            UPS.DisplayName in u && u[UPS.DisplayName] == UPS.Str(displayName) &&
            UPS.HasCompletedOnboarding in u && u[UPS.HasCompletedOnboarding] == UPS.Flag(true) &&
            UPS.DateOfBirth in u && u[UPS.DateOfBirth] == UPS.Time(form.dateOfBirth)
  {
    assert OnboardingValue(form, displayName, image, workURLs, workPaths, UPS.DisplayName).Some?;
    assert OnboardingValue(form, displayName, image, workURLs, workPaths, UPS.HasCompletedOnboarding).Some?;
    assert OnboardingValue(form, displayName, image, workURLs, workPaths, UPS.DateOfBirth).Some?;
  }

  /** Profession and bio are written, as null when empty; the location only when given; account fields never. */
  lemma OnboardingUpdatesProfile(form: OnboardingForm, displayName: string, image: Option<(string, string)>,
                                 workURLs: seq<string>, workPaths: seq<string>)
    ensures var u := OnboardingUpdates(form, displayName, image, workURLs, workPaths);
            UPS.Profession in u && u[UPS.Profession] == NullIfEmpty(form.selectedCategory) &&
            UPS.Bio in u && u[UPS.Bio] == NullIfEmpty(form.bio) &&
            (UPS.Location in u <==> form.location != "") &&
            UPS.Email !in u && UPS.CreatedAt !in u && UPS.UpdatedAt !in u &&
            UPS.PreferencesField !in u && UPS.PortfolioURL !in u
  {
    var u := OnboardingUpdates(form, displayName, image, workURLs, workPaths);
    assert OnboardingValue(form, displayName, image, workURLs, workPaths, UPS.Profession).Some?;
    assert OnboardingValue(form, displayName, image, workURLs, workPaths, UPS.Bio).Some?;
    assert OnboardingValue(form, displayName, image, workURLs, workPaths, UPS.Location).Some? <==> form.location != "";
    assert UPS.Email !in u && UPS.CreatedAt !in u && UPS.UpdatedAt !in u by {
      assert OnboardingValue(form, displayName, image, workURLs, workPaths, UPS.Email).None?;
      assert OnboardingValue(form, displayName, image, workURLs, workPaths, UPS.CreatedAt).None?;
      assert OnboardingValue(form, displayName, image, workURLs, workPaths, UPS.UpdatedAt).None?;
    }
    assert UPS.PreferencesField !in u && UPS.PortfolioURL !in u by {
      assert OnboardingValue(form, displayName, image, workURLs, workPaths, UPS.PreferencesField).None?;
      assert OnboardingValue(form, displayName, image, workURLs, workPaths, UPS.PortfolioURL).None?;
    }
  }

  /** Real name: first and last written, artist name nulled; artist name: the other way round. */
  lemma OnboardingUpdatesNames(form: OnboardingForm, displayName: string, image: Option<(string, string)>,
                               workURLs: seq<string>, workPaths: seq<string>)
    ensures var u := OnboardingUpdates(form, displayName, image, workURLs, workPaths);
            UPS.FirstName in u && UPS.LastName in u && UPS.ArtistName in u &&
            (form.useRealName ==>
               (u[UPS.FirstName] == UPS.Str(form.firstName) && u[UPS.LastName] == UPS.Str(form.lastName) &&
                u[UPS.ArtistName] == UPS.Null)) &&
            (!form.useRealName ==>
               (u[UPS.ArtistName] == UPS.Str(form.artistName) && u[UPS.FirstName] == UPS.Null &&
                u[UPS.LastName] == UPS.Null))
  {
    assert OnboardingValue(form, displayName, image, workURLs, workPaths, UPS.FirstName).Some?;
    assert OnboardingValue(form, displayName, image, workURLs, workPaths, UPS.LastName).Some?;
    assert OnboardingValue(form, displayName, image, workURLs, workPaths, UPS.ArtistName).Some?;
  }

  /** The picture fields only after an upload; no works: no URL list and a null path list. */
  lemma OnboardingUpdatesMedia(form: OnboardingForm, displayName: string, image: Option<(string, string)>,
                               workURLs: seq<string>, workPaths: seq<string>)
    ensures var u := OnboardingUpdates(form, displayName, image, workURLs, workPaths);
            (UPS.ProfileImageURL in u <==> image.Some?) && (UPS.ProfileImagePath in u <==> image.Some?) &&
            (image.Some? ==> u[UPS.ProfileImageURL] == UPS.Str(image.value.0) && u[UPS.ProfileImagePath] == UPS.Str(image.value.1)) &&
            UPS.PortfolioPaths in u &&
            (workURLs == [] ==> UPS.PortfolioURLs !in u && u[UPS.PortfolioPaths] == UPS.Null) &&
            (workURLs != [] ==> UPS.PortfolioURLs in u && u[UPS.PortfolioURLs] == UPS.List(workURLs) &&
                                u[UPS.PortfolioPaths] == UPS.List(workPaths))
  {
    assert OnboardingValue(form, displayName, image, workURLs, workPaths, UPS.PortfolioPaths).Some?;
  }

  /** Every value of the update map has its field's kind, or is a null for an optional field. */
  lemma OnboardingUpdatesWellKinded(form: OnboardingForm, displayName: string, image: Option<(string, string)>,
                                    workURLs: seq<string>, workPaths: seq<string>)
    ensures var u := OnboardingUpdates(form, displayName, image, workURLs, workPaths);
            forall f :: f in u ==> UPS.HasKind(u[f], UPS.KindOf(f)) || (u[f].Null? && !UPS.Required(f))
  {
  }

  /**
   * The document `completeOnboarding` leaves for `uid`: the onboarding fields
   * merged into the existing profile, or into the one it creates when the fetch
   * found none or failed.
   */
  function OnboardedDocument(users: map<string, UPS.Document>, uid: string, email: string, name: string,
                             form: OnboardingForm, image: Option<(string, string)>,
                             workUploads: seq<Option<string>>, now: nat): UPS.Document
  {
    UPS.Merge(BaseDocument(users, uid, email, name, now),
              UPS.Stamped(OnboardingUpdates(form, name, image, WorkURLs(workUploads), WorkPaths(uid, workUploads)), now))
  }

  /** The document the onboarding fields are merged into: the stored one when it reads back, else a new profile. */
  function BaseDocument(users: map<string, UPS.Document>, uid: string, email: string, name: string, now: nat): UPS.Document {
    if !NeedsCreate(users, uid) then users[uid]
    else UPS.Encode(UPS.NewProfile(uid, email, name, now))
  }

  /**
   * Whatever was stored before, the saved profile reads back as onboarded, with
   * the new display name, and the auth listener reports it as onboarded.
   */
  lemma SavedProfileIsOnboarded(users: map<string, UPS.Document>, uid: string, email: string, name: string,
                                form: OnboardingForm, image: Option<(string, string)>,
                                workUploads: seq<Option<string>>, now: nat)
    ensures var saved := OnboardedDocument(users, uid, email, name, form, image, workUploads, now);
            var fetched := UPS.FetchUserProfile(users[uid := saved], uid);
            fetched.Ok? && fetched.value.Some? &&
            fetched.value.value.hasCompletedOnboarding == Some(true) &&
            fetched.value.value.displayName == name &&
            AuthService.OnboardingComplete(fetched)
  {
    var saved := OnboardedDocument(users, uid, email, name, form, image, workUploads, now);
    OnboardedDocumentDecodes(users, uid, email, name, form, image, workUploads, now);
    OnboardedReadsBack(users, uid, saved, name);
  }

  /** The merged onboarding document reads back, with the flag set and the display name written. */
  lemma OnboardedDocumentDecodes(users: map<string, UPS.Document>, uid: string, email: string, name: string,
                                 form: OnboardingForm, image: Option<(string, string)>,
                                 workUploads: seq<Option<string>>, now: nat)
    ensures var saved := OnboardedDocument(users, uid, email, name, form, image, workUploads, now);
            UPS.Decodable(saved) &&
            UPS.HasCompletedOnboarding in saved && saved[UPS.HasCompletedOnboarding] == UPS.Flag(true) &&
            saved[UPS.DisplayName] == UPS.Str(name)
  {
    var doc := BaseDocument(users, uid, email, name, now);
    BaseDocumentDecodes(users, uid, email, name, now);
    var plain := OnboardingUpdates(form, name, image, WorkURLs(workUploads), WorkPaths(uid, workUploads));
    OnboardingUpdatesWellKinded(form, name, image, WorkURLs(workUploads), WorkPaths(uid, workUploads));
    OnboardingUpdatesAnswers(form, name, image, WorkURLs(workUploads), WorkPaths(uid, workUploads));
    var u := UPS.Stamped(plain, now);
    assert forall f :: f in u ==> UPS.HasKind(u[f], UPS.KindOf(f)) || (u[f].Null? && !UPS.Required(f)) by {
      UPS.StampedKeepsKinds(plain, now);
    }
    UPS.MergeKeepsDecodable(doc, u);
  }

  /** The document the fields are merged into reads back: the stored profile, or a freshly encoded one. */
  lemma BaseDocumentDecodes(users: map<string, UPS.Document>, uid: string, email: string, name: string, now: nat)
    ensures UPS.Decodable(BaseDocument(users, uid, email, name, now))
  {
    if NeedsCreate(users, uid) {
      UPS.EncodeDecodable(UPS.NewProfile(uid, email, name, now));
    }
  }

  /** A decodable document with the flag set and the name reads back as an onboarded profile of that name. */
  lemma OnboardedReadsBack(users: map<string, UPS.Document>, uid: string, saved: UPS.Document, name: string)
    requires UPS.Decodable(saved)
    requires UPS.HasCompletedOnboarding in saved && saved[UPS.HasCompletedOnboarding] == UPS.Flag(true)
    requires saved[UPS.DisplayName] == UPS.Str(name)
    ensures var fetched := UPS.FetchUserProfile(users[uid := saved], uid);
            fetched.Ok? && fetched.value.Some? &&
            fetched.value.value.hasCompletedOnboarding == Some(true) &&
            fetched.value.value.displayName == name &&
            AuthService.OnboardingComplete(fetched)
  {
    var fetched := UPS.FetchUserProfile(users[uid := saved], uid);
    assert fetched.value.value == UPS.Build(uid, saved);
  }

  /** The messages the flow shows. */
  const NotAuthenticatedMessage := "User not authenticated"
  const EnterNameMessage := "Please enter your name"
  const FormInvalidMessage := "Please fill all fields correctly"

  /** The view's state that the decisions read and change. */
  class CreateAccountFlow {
    var currentStep: OnboardingStep
    var firstName: string
    var lastName: string
    var useRealName: bool
    var artistName: string
    var selectedCategory: string
    var customCategory: string
    var bio: string
    var location: string
    var dateOfBirth: nat
    var isLoading: bool
    var errorMessage: Option<string>

    constructor(today: nat)
      ensures currentStep == AuthMethod && firstName == "" && lastName == "" && useRealName && artistName == ""
      ensures selectedCategory == "" && customCategory == "" && bio == "" && location == "" && dateOfBirth == today
      ensures !isLoading && errorMessage == None
    {
      currentStep := AuthMethod;
      firstName, lastName, useRealName, artistName := "", "", true, "";
      selectedCategory, customCategory, bio, location := "", "", "", "";
      dateOfBirth := today;
      isLoading, errorMessage := false, None;
    }

    function Form(): OnboardingForm
      reads this
    {
      OnboardingForm(useRealName, firstName, lastName, artistName, selectedCategory, bio, location, dateOfBirth)
    }

    /** `onAppear`: a signed-in user who is not onboarded skips the sign-up choice. */
    method Appear(isAuthenticated: bool)
      modifies this
      ensures currentStep == (if isAuthenticated && old(currentStep) == AuthMethod then NameInfo else old(currentStep))
      ensures Form() == old(Form()) && customCategory == old(customCategory)
      ensures isLoading == old(isLoading) && errorMessage == old(errorMessage)
    {
      if isAuthenticated && currentStep == AuthMethod {
        currentStep := NameInfo;
      }
    }

    /** Tapping a preset category clears the custom text. */
    method PickCategory(category: string)
      modifies this
      ensures selectedCategory == category && customCategory == ""
      ensures Form() == old(Form()).(selectedCategory := category)
      ensures currentStep == old(currentStep) && isLoading == old(isLoading) && errorMessage == old(errorMessage)
    {
      selectedCategory := category;
      customCategory := "";
    }

    /** Typing a custom category clears the preset. */
    method EditCustomCategory(newValue: string)
      modifies this
      ensures customCategory == newValue
      ensures selectedCategory == (if newValue != "" then "" else old(selectedCategory))
      ensures Form() == old(Form()).(selectedCategory := selectedCategory)
      ensures currentStep == old(currentStep) && isLoading == old(isLoading) && errorMessage == old(errorMessage)
    {
      customCategory := newValue;
      if newValue != "" {
        selectedCategory := "";
      }
    }

    /** Whether the category step's Continue button is enabled. */
    predicate CategoryContinueEnabled()
      reads this
    {
      !(selectedCategory == "" && customCategory == "")
    }

    /**
     * The category step's Continue: a disabled button does nothing; otherwise a
     * non-empty custom category without profanity is adopted, and the flow moves on.
     */
    method ContinueFromCategory() returns (pressed: bool)
      modifies this
      ensures pressed == old(CategoryContinueEnabled())
      ensures !pressed ==> currentStep == old(currentStep) && selectedCategory == old(selectedCategory)
      ensures pressed ==>
                (currentStep == UploadWorks &&
                 selectedCategory == (if old(customCategory) != "" && !ProfanityFilter.HasProfaneToken(old(customCategory))
                                      then old(customCategory) else old(selectedCategory)))
      ensures Form() == old(Form()).(selectedCategory := selectedCategory) && customCategory == old(customCategory)
      ensures isLoading == old(isLoading) && errorMessage == old(errorMessage)
    {
      if !CategoryContinueEnabled() {
        return false;
      }
      if customCategory != "" {
        var profane := ProfanityFilter.ContainsProfanity(customCategory);
        if !profane {
          selectedCategory := customCategory;
        }
      }
      currentStep := UploadWorks;
      pressed := true;
    }

    /** The bio editor. */
    method EditBio(newValue: string)
      modifies this
      ensures bio == LimitBio(newValue)
      ensures Form() == old(Form()).(bio := bio)
      ensures currentStep == old(currentStep) && customCategory == old(customCategory)
      ensures isLoading == old(isLoading) && errorMessage == old(errorMessage)
    {
      bio := newValue;
      if |newValue| > BioLimit {
        bio := newValue[..BioLimit];
      }
    }

    /**
     * `handleEmailSignUp`: the form guard, then the account with an empty display
     * name; any error of the sign-up (`writeFault` is the profile write's) is shown.
     */
    method HandleEmailSignUp(email: string, password: string, confirmPassword: string,
                             created: Result<string, string>, committed: Result<(), string>,
                             now: nat, writeFault: Option<string>, store: UPS.UserStore)
      modifies this, store
      ensures !IsValidEmailForm(email, password, confirmPassword) ==>
                errorMessage == Some(FormInvalidMessage) && currentStep == old(currentStep) && store.users == old(store.users) &&
                isLoading == old(isLoading)
      ensures Form() == old(Form()) && customCategory == old(customCategory)
      ensures IsValidEmailForm(email, password, confirmPassword) && created.Ok? && committed.Ok? && writeFault.None? ==>
                currentStep == NameInfo && !isLoading && errorMessage == None &&
                store.users == old(store.users)[created.value := UPS.Encode(UPS.NewProfile(created.value, email, "", now))]
      ensures IsValidEmailForm(email, password, confirmPassword) && !(created.Ok? && committed.Ok? && writeFault.None?) ==>
                currentStep == old(currentStep) && !isLoading && store.users == old(store.users) &&
                errorMessage == Some(if created.Err? then created.error
                                     else if committed.Err? then committed.error else writeFault.value)
    {
      if !IsValidEmailForm(email, password, confirmPassword) {
        errorMessage := Some(FormInvalidMessage);
        return;
      }
      isLoading := true;
      errorMessage := None;
      var r := AuthService.SignUp(created, committed, email, "", now, writeFault, store);
      if r.Ok? {
        isLoading := false;
        currentStep := NameInfo;
      } else {
        errorMessage := Some(r.error);
        isLoading := false;
      }
    }

    /**
     * `handleGoogleSignIn`: the message is cleared at the start, and the spinner
     * stops once the provider answers. `googleName` is the account's name (missing counts
     * as empty), `signedIn` the provider sign-in result (the view's own guards'
     * failures included) and `writeFault` the error of the profile write, if it
     * throws; every error is shown, and the names are filled only after a
     * successful sign-in.
     */
    method GoogleSignedIn(googleName: Option<string>, signedIn: Result<AuthService.User, string>,
                          now: nat, writeFault: Option<string>, store: UPS.UserStore)
      modifies this, store
      ensures var (first, last) := SplitGoogleName(googleName.GetOr(""));
              var writeFailed := signedIn.Ok? && AuthService.WritesProfile(signedIn.value) && writeFault.Some?;
              (signedIn.Ok? && !writeFailed ==>
                 (currentStep == StepAfterGoogleSignIn(first) && errorMessage == None &&
                  store.users == AuthService.StoreAfterSignIn(old(store.users), signedIn.value, now) &&
                  (first != "" ==> firstName == first && lastName == last) &&
                  (first == "" ==> firstName == old(firstName) && lastName == old(lastName)))) &&
              (signedIn.Err? ==>
                 (currentStep == old(currentStep) && errorMessage == Some(signedIn.error) &&
                  store.users == old(store.users))) &&
              (writeFailed ==>
                 (currentStep == old(currentStep) && errorMessage == Some(writeFault.value) &&
                  store.users == old(store.users))) &&
              (signedIn.Err? || writeFailed ==> firstName == old(firstName) && lastName == old(lastName))
      ensures !isLoading
      ensures Form() == old(Form()).(firstName := firstName, lastName := lastName) && customCategory == old(customCategory)
    {
      errorMessage := None;
      isLoading := false;
      var name := googleName.GetOr("");
      var (first, last) := SplitGoogleName(name);
      var r := AuthService.SignInWithProvider(signedIn, now, writeFault, store);
      if r.Err? {
        errorMessage := Some(r.error);
        return;
      }
      if first != "" {
        firstName := first;
        lastName := last;
        currentStep := VerifyNameInfo;
      } else {
        currentStep := NameInfo;
      }
    }

    /**
     * `completeOnboarding`. `uid` and `email` are the signed-in account's;
     * `imageUpload` is the profile picture's upload (nothing when none was
     * picked, an error when it threw); `workUploads` has one entry per selected
     * work; `createFault` and `updateFault` are the errors of the profile
     * create and update, if they throw. A thrown error is shown and the
     * onboarding flag stays as it was.
     */
    method CompleteOnboarding(uid: Option<string>, email: Option<string>, imageUpload: Option<Result<string, string>>,
                              workUploads: seq<Option<string>>, now: nat,
                              createFault: Option<string>, updateFault: Option<string>,
                              store: UPS.UserStore, auth: AuthService.AuthService)
      modifies this, store, auth
      ensures !isLoading
      ensures Form() == old(Form()) && customCategory == old(customCategory)
      ensures auth.currentUser == old(auth.currentUser) && auth.isAuthenticated == old(auth.isAuthenticated)
      ensures uid.None? ==> errorMessage == Some(NotAuthenticatedMessage) && store.users == old(store.users) &&
                            currentStep == old(currentStep) && auth.hasCompletedOnboarding == old(auth.hasCompletedOnboarding)
      ensures var name := OnboardingDisplayName(old(useRealName), old(firstName), old(lastName), old(artistName));
              uid.Some? && name == "" ==>
                errorMessage == Some(EnterNameMessage) && store.users == old(store.users) &&
                currentStep == old(currentStep) && auth.hasCompletedOnboarding == old(auth.hasCompletedOnboarding)
      ensures uid.Some? && OnboardingDisplayName(old(useRealName), old(firstName), old(lastName), old(artistName)) != "" ==>
                var name := OnboardingDisplayName(old(useRealName), old(firstName), old(lastName), old(artistName));
                var image := if imageUpload.Some? && imageUpload.value.Ok?
                             then Some((imageUpload.value.value, StorageService.ProfileImagePath(uid.value))) else None;
                var outcome := SaveOutcome(old(store.users), uid.value, createFault, updateFault);
                (outcome.Ok? ==>
                   errorMessage == None && currentStep == Ready && auth.hasCompletedOnboarding &&
                   store.users == old(store.users)[uid.value := OnboardedDocument(old(store.users), uid.value, email.GetOr(""),
                                                                                  name, old(Form()), image, workUploads, now)]) &&
                (outcome.Err? ==>
                   errorMessage == Some(outcome.error) && currentStep == old(currentStep) &&
                   auth.hasCompletedOnboarding == old(auth.hasCompletedOnboarding) &&
                   store.users == StoreAfterFailedSave(old(store.users), uid.value, email.GetOr(""), name, createFault, now))
    {
      isLoading := true;
      errorMessage := None;
      if uid.None? {
        errorMessage := Some(NotAuthenticatedMessage);
        isLoading := false;
        return;
      }
      var id := uid.value;
      var name := OnboardingDisplayName(useRealName, firstName, lastName, artistName);
      if name == "" {
        errorMessage := Some(EnterNameMessage);
        isLoading := false;
        return;
      }
      var image: Option<(string, string)> := None;
      if imageUpload.Some? && imageUpload.value.Ok? {
        image := Some((imageUpload.value.value, StorageService.ProfileImagePath(id)));
      }
      SaveAndFinish(id, email.GetOr(""), name, image, workUploads, now, createFault, updateFault, store, auth);
    }

    /**
     * The part of `completeOnboarding` after the guards: the save, then either
     * the ready step with the local flag set, or the error shown.
     */
    method SaveAndFinish(id: string, email: string, name: string, image: Option<(string, string)>,
                         workUploads: seq<Option<string>>, now: nat,
                         createFault: Option<string>, updateFault: Option<string>,
                         store: UPS.UserStore, auth: AuthService.AuthService)
      modifies this, store, auth
      ensures !isLoading
      ensures Form() == old(Form()) && customCategory == old(customCategory)
      ensures auth.currentUser == old(auth.currentUser) && auth.isAuthenticated == old(auth.isAuthenticated)
      ensures var outcome := SaveOutcome(old(store.users), id, createFault, updateFault);
              (outcome.Ok? ==>
                 errorMessage == old(errorMessage) && currentStep == Ready && auth.hasCompletedOnboarding &&
                 store.users == old(store.users)[id := OnboardedDocument(old(store.users), id, email, name, old(Form()),
                                                                         image, workUploads, now)]) &&
              (outcome.Err? ==>
                 errorMessage == Some(outcome.error) && currentStep == old(currentStep) &&
                 auth.hasCompletedOnboarding == old(auth.hasCompletedOnboarding) &&
                 store.users == StoreAfterFailedSave(old(store.users), id, email, name, createFault, now))
    {
      var saved := SaveOnboarding(id, email, name, Form(), image, workUploads, now, createFault, updateFault, store);
      if saved.Err? {
        errorMessage := Some(saved.error);
        isLoading := false;
        return;
      }
      auth.hasCompletedOnboarding := true;
      currentStep := Ready;
      isLoading := false;
    }
  }

  /** Whether the save creates a profile first: `try?` of the fetch gives nil (no profile, or one that does not read back). */
  predicate NeedsCreate(users: map<string, UPS.Document>, uid: string) {
    var existing := UPS.FetchUserProfile(users, uid);
    !(existing.Ok? && existing.value.Some?)
  }

  /**
   * The outcome of the save's two writes: the create's error when the create is
   * made and throws, else the update's error when it throws, else success.
   */
  function SaveOutcome(users: map<string, UPS.Document>, uid: string,
                       createFault: Option<string>, updateFault: Option<string>): (r: Result<(), string>)
    ensures r.Ok? <==> !(NeedsCreate(users, uid) && createFault.Some?) && updateFault.None?
  {
    if NeedsCreate(users, uid) && createFault.Some? then Err(createFault.value)
    else if updateFault.Some? then Err(updateFault.value)
    else Ok(())
  }

  /**
   * The store after a save that threw: untouched when the create threw or was
   * not needed, and holding the newly created profile when only the update threw.
   */
  function StoreAfterFailedSave(users: map<string, UPS.Document>, uid: string, email: string, name: string,
                                createFault: Option<string>, now: nat): map<string, UPS.Document>
  {
    if NeedsCreate(users, uid) && createFault.None? then users[uid := UPS.Encode(UPS.NewProfile(uid, email, name, now))]
    else users
  }

  /**
   * The write at the end of `completeOnboarding`: the works are uploaded, a
   * profile is created when the fetch finds none (or fails), and the
   * onboarding fields are merged in; the first write to throw ends the save.
   */
  method SaveOnboarding(uid: string, email: string, name: string, form: OnboardingForm,
                        image: Option<(string, string)>, workUploads: seq<Option<string>>, now: nat,
                        createFault: Option<string>, updateFault: Option<string>, store: UPS.UserStore)
    returns (r: Result<(), string>)
    modifies store
    ensures r == SaveOutcome(old(store.users), uid, createFault, updateFault)
    ensures r.Ok? ==>
              store.users == old(store.users)[uid := OnboardedDocument(old(store.users), uid, email, name, form, image, workUploads, now)]
    ensures r.Err? ==> store.users == StoreAfterFailedSave(old(store.users), uid, email, name, createFault, now)
  {
    var workURLs, workPaths := UploadSelectedWorks(uid, workUploads);
    ghost var before := store.users;
    ghost var base := BaseDocument(before, uid, email, name, now);
    var existing := UPS.FetchUserProfile(store.users, uid);
    if !(existing.Ok? && existing.value.Some?) {
      var created := store.CreateUserProfile(uid, email, name, now, createFault);
      if created.Err? {
        return Err(createFault.value);
      }
    } else {
      assert store.users == before[uid := base];
    }
    assert store.users == before[uid := base];
    var updates := OnboardingUpdates(form, name, image, workURLs, workPaths);
    var written := store.UpdateUserProfile(uid, updates, now, updateFault);
    if written.Err? {
      return Err(updateFault.value);
    }
    r := Ok(());
  }

  /**
   * When only the update throws after the create, the new profile stays behind
   * without the onboarding fields, and the listener reads it as not onboarded.
   */
  lemma FailedUpdateLeavesProfileNotOnboarded(users: map<string, UPS.Document>, uid: string, email: string, name: string, now: nat)
    requires NeedsCreate(users, uid)
    ensures var after := StoreAfterFailedSave(users, uid, email, name, None, now);
            uid in after && !AuthService.OnboardingComplete(UPS.FetchUserProfile(after, uid))
  {
    AuthService.NewAccountNotOnboarded(users, uid, email, name, now);
  }

  /** A profane custom category is not adopted: the profession stays empty. */
  method ProfaneCategoryScenario() returns (step: OnboardingStep, profession: string)
    ensures step == UploadWorks && profession == ""
  {
    var flow := new CreateAccountFlow(0);
    flow.PickCategory("Illustrator");
    flow.EditCustomCategory("swear");
    ProfanityFilter.SingleWordFlaggedIffListed("swear");
    assert Lower("swear") == "swear";
    var pressed := flow.ContinueFromCategory();
    step, profession := flow.currentStep, flow.selectedCategory;
  }
}

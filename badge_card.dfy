/**
 * The badge card's derived values: the name it shows, the profile picture
 * and portfolio sources it hands to the image loader, and which information
 * rows appear. `URL(string:)` is the parameter `parse`.
 */
module BadgeCard {
  import opened Wrappers
  import opened Strings
  import UPS = UserProfileService
  import CachedAsyncImage
  import CreateAccountFlow

  type Url = CachedAsyncImage.Url

  /** What the card passes to `CachedAsyncImage`: a URL, a storage path, or both. */
  datatype MediaSource = MediaSource(url: Option<Url>, path: Option<string>)

  /** The rows under "About": the name, the artist name, the birth date and the email. */
  datatype InfoRow = NameRow(name: string) | ArtistRow(artistName: string) | BirthDateRow(date: nat) | EmailRow(email: string)

  /**
   * `displayName`: a non-empty artist name wins, then "first last" when both
   * names are present, and only then the stored display name.
   */
  function BadgeDisplayName(p: UPS.UserProfile): (name: string)
    ensures p.artistName.Some? && p.artistName.value != "" ==> name == p.artistName.value
    ensures !(p.artistName.Some? && p.artistName.value != "") && p.firstName.Some? && p.lastName.Some? ==>
              name == p.firstName.value + " " + p.lastName.value
    ensures !(p.artistName.Some? && p.artistName.value != "") && !(p.firstName.Some? && p.lastName.Some?) ==>
              name == p.displayName
  {
    if p.artistName.Some? && p.artistName.value != "" then p.artistName.value
    else if p.firstName.Some? && p.lastName.Some? then p.firstName.value + " " + p.lastName.value
    else p.displayName
  }

  /**
   * A profile onboarded with a real name of blank-free first and last names
   * shows on the badge exactly the display name onboarding stored.
   */
  lemma BadgeShowsOnboardingName(p: UPS.UserProfile)
    requires p.artistName.None? && p.firstName.Some? && p.lastName.Some?
    requires var f, l := p.firstName.value, p.lastName.value;
             f != [] && !IsWhitespace(f[0]) && !IsWhitespace(f[|f| - 1]) &&
             l != [] && !IsWhitespace(l[0]) && !IsWhitespace(l[|l| - 1])
    requires p.displayName == CreateAccountFlow.OnboardingDisplayName(true, p.firstName.value, p.lastName.value, "")
    ensures BadgeDisplayName(p) == p.displayName
  {
    CreateAccountFlow.RealNameIsFirstSpaceLast(p.firstName.value, p.lastName.value, "");
  }

  /** A stored artist name hides any other display name, whatever the profile editor saved. */
  lemma ArtistNameHidesDisplayName(p: UPS.UserProfile, saved: string)
    requires p.artistName.Some? && p.artistName.value != ""
    ensures BadgeDisplayName(p.(displayName := saved)) == p.artistName.value
  {
  }

  /** `profileImageSource`: nothing only when there is no path and no URL that parses. */
  function ProfileImageSource(p: UPS.UserProfile, parse: string -> Option<Url>): (source: Option<MediaSource>)
    ensures source.None? <==> p.profileImagePath.None? && (p.profileImageURL.None? || parse(p.profileImageURL.value).None?)
    ensures source.Some? ==> source.value.path == p.profileImagePath &&
                             source.value.url == (if p.profileImageURL.Some? then parse(p.profileImageURL.value) else None)
  {
    var path := p.profileImagePath;
    var url := if p.profileImageURL.Some? then parse(p.profileImageURL.value) else None;
    if path.None? && url.None? then None else Some(MediaSource(url, path))
  }

  /**
   * `portfolioMedia`: one entry per index up to the longer list; entry `i`
   * pairs URL `i` with path `i`, each missing past its list's end.
   */
  function PortfolioMedia(p: UPS.UserProfile, parse: string -> Option<Url>): (media: seq<MediaSource>)
    ensures var urls, paths := p.portfolioURLs.GetOr([]), p.portfolioPaths.GetOr([]);
            |media| == (if |urls| >= |paths| then |urls| else |paths|) &&
            forall i :: 0 <= i < |media| ==>
              media[i].url == (if i < |urls| then parse(urls[i]) else None) &&
              media[i].path == (if i < |paths| then Some(paths[i]) else None)
  {
    var urls, paths := p.portfolioURLs.GetOr([]), p.portfolioPaths.GetOr([]);
    var count := if |urls| >= |paths| then |urls| else |paths|;
    seq(count, i requires 0 <= i < count => MediaSource(if i < |urls| then parse(urls[i]) else None, if i < |paths| then Some(paths[i]) else None))
  }

  /** With lists of equal length every entry has its path, and the same index of both lists. */
  lemma MediaInLockStep(p: UPS.UserProfile, parse: string -> Option<Url>)
    requires |p.portfolioURLs.GetOr([])| == |p.portfolioPaths.GetOr([])|
    ensures var media := PortfolioMedia(p, parse);
            |media| == |p.portfolioPaths.GetOr([])| &&
            forall i :: 0 <= i < |media| ==>
              media[i].path == Some(p.portfolioPaths.GetOr([])[i]) && media[i].url == parse(p.portfolioURLs.GetOr([])[i])
  {
  }

  /** A work listed only by URL (a longer URL list) still gets an entry, with no path. */
  lemma UrlOnlyWorkHasNoPath(p: UPS.UserProfile, parse: string -> Option<Url>, i: nat)
    requires |p.portfolioPaths.GetOr([])| <= i < |p.portfolioURLs.GetOr([])|
    ensures i < |PortfolioMedia(p, parse)| && PortfolioMedia(p, parse)[i].path.None?
  {
  }

  /** `firstPortfolioItem`: nothing iff both lists are empty or absent, otherwise entry 0. */
  function FirstPortfolioItem(p: UPS.UserProfile, parse: string -> Option<Url>): (item: Option<MediaSource>)
    ensures item.None? <==> p.portfolioURLs.GetOr([]) == [] && p.portfolioPaths.GetOr([]) == []
    ensures item.Some? ==> item.value == PortfolioMedia(p, parse)[0]
  {
    var media := PortfolioMedia(p, parse);
    if media == [] then None else Some(media[0])
  }

  /** The position of a row kind in the card: Name, Artist Name, Date of Birth, Email. */
  function RowRank(r: InfoRow): nat {
    match r
    case NameRow(_) => 0
    case ArtistRow(_) => 1
    case BirthDateRow(_) => 2
    case EmailRow(_) => 3
  }

  /**
   * The information rows: each kind at most once, in the card's order, the
   * email row always last, and each row holding the profile's value.
   */
  function InfoRows(p: UPS.UserProfile): (rows: seq<InfoRow>)
    ensures |rows| >= 1 && rows[|rows| - 1] == EmailRow(p.email)
    ensures forall i, j :: 0 <= i < j < |rows| ==> RowRank(rows[i]) < RowRank(rows[j])
    ensures (exists i :: 0 <= i < |rows| && rows[i].NameRow?) <==> p.firstName.Some? && p.lastName.Some?
    ensures (exists i :: 0 <= i < |rows| && rows[i].ArtistRow?) <==> p.artistName.Some? && p.artistName.value != ""
    ensures (exists i :: 0 <= i < |rows| && rows[i].BirthDateRow?) <==> p.dateOfBirth.Some?
    ensures forall i :: 0 <= i < |rows| && rows[i].NameRow? ==> rows[i].name == p.firstName.value + " " + p.lastName.value
    ensures forall i :: 0 <= i < |rows| && rows[i].ArtistRow? ==> p.artistName == Some(rows[i].artistName)
    ensures forall i :: 0 <= i < |rows| && rows[i].BirthDateRow? ==> p.dateOfBirth == Some(rows[i].date)
  {
    var name := if p.firstName.Some? && p.lastName.Some? then [NameRow(p.firstName.value + " " + p.lastName.value)] else [];
    var artist := if p.artistName.Some? && p.artistName.value != "" then [ArtistRow(p.artistName.value)] else [];
    var born := if p.dateOfBirth.Some? then [BirthDateRow(p.dateOfBirth.value)] else [];
    var rows := name + artist + born + [EmailRow(p.email)];
    assert name != [] ==> rows[0] == name[0];
    assert artist != [] ==> rows[|name|] == artist[0];
    assert born != [] ==> rows[|name| + |artist|] == born[0];
    rows
  }

  /** A profile written by onboarding with a real name shows the Name row and no Artist row. */
  lemma RealNameProfileRows(p: UPS.UserProfile)
    requires p.firstName.Some? && p.lastName.Some? && p.artistName.None?
    ensures NameRow(p.firstName.value + " " + p.lastName.value) in InfoRows(p)
    ensures forall r :: r in InfoRows(p) ==> !r.ArtistRow?
  {
    var rows := InfoRows(p);
    var i :| 0 <= i < |rows| && rows[i].NameRow?;
    assert rows[i] == NameRow(p.firstName.value + " " + p.lastName.value);
  }
}

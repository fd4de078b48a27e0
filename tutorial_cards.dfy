/**
 * The tutorial shown after onboarding: four cards walked through with the
 * Previous/Next buttons or a drag, and a "Get Started" action that saves the
 * onboarding flag and sets it locally.
 */
module TutorialCards {
  import opened Wrappers
  import UPS = UserProfileService
  import AuthService

  datatype TutorialCard = TutorialCard(icon: string, title: string, description: string)

  /** The four cards, in order. */
  function Cards(): seq<TutorialCard> {
    [ TutorialCard("person.2.fill", "Connect",
        "Swipe right to like, left to pass. Find creative professionals that match your style and interests."),
      TutorialCard("link", "Links",
        "View your matches, chat with connections, and manage your network of creative professionals."),
      TutorialCard("calendar", "Events",
        "Discover and join events for creatives. Network, learn, and grow your creative community."),
      TutorialCard("person.fill", "Profile",
        "Manage your profile, showcase your work, and control your visibility in the Lymbo community.") ]
  }

  const CardCount: nat := 4
  /** How far, in points, a drag must go before it turns the card. */
  const DragThreshold: int := 100
  const NextLabel := "Next"
  const GetStartedLabel := "Get Started"

  /** The two moves that change the card. */
  datatype Move = Forward | Back

  /** The index after one move: `goToNext` and `goToPrevious` stop at the ends. */
  function Step(index: nat, m: Move): (r: nat)
    ensures m == Forward ==> r == (if index < CardCount - 1 then index + 1 else index)
    ensures m == Back ==> r == (if index > 0 then index - 1 else index)
  {
    match m
    case Forward => if index < CardCount - 1 then index + 1 else index
    case Back => if index > 0 then index - 1 else index
  }

  /** The index after a series of moves. */
  function IndexAfter(index: nat, moves: seq<Move>): nat
    decreases |moves|
  {
    if moves == [] then index else IndexAfter(Step(index, moves[0]), moves[1..])
  }

  /** Whatever moves are made from a card, the index names a card. */
  lemma {:induction false} MovesStayInRange(index: nat, moves: seq<Move>)
    requires index < CardCount
    ensures IndexAfter(index, moves) < CardCount
    decreases |moves|
  {
    if moves != [] {
      MovesStayInRange(Step(index, moves[0]), moves[1..]);
    }
  }

  function Forwards(k: nat): (r: seq<Move>)
    ensures |r| == k && forall i :: 0 <= i < k ==> r[i] == Forward
  {
    if k == 0 then [] else [Forward] + Forwards(k - 1)
  }

  /** Moving forward `k` times advances `k` cards, stopping at the last. */
  lemma {:induction false} ForwardsReachLast(index: nat, k: nat)
    requires index < CardCount
    ensures IndexAfter(index, Forwards(k)) == if index + k < CardCount - 1 then index + k else CardCount - 1
    decreases k
  {
    if k > 0 {
      assert Forwards(k)[1..] == Forwards(k - 1);
      ForwardsReachLast(Step(index, Forward), k - 1);
    }
  }

  /** The cards rendered: the current one and the one after it, when there is one. */
  function VisibleCards(currentIndex: nat): (r: seq<nat>)
    ensures forall i: nat :: i in r <==> i < CardCount && currentIndex <= i < currentIndex + 2
    ensures currentIndex < CardCount ==> |r| >= 1 && r[0] == currentIndex
    ensures currentIndex < CardCount - 1 ==> |r| == 2
  {
    if currentIndex >= CardCount then []
    else if currentIndex == CardCount - 1 then [currentIndex]
    else [currentIndex, currentIndex + 1]
  }

  /** The last card's own "Get Started" button is on screen only from the last two cards. */
  lemma GetStartedCardVisible(currentIndex: nat)
    requires currentIndex < CardCount
    ensures CardCount - 1 in VisibleCards(currentIndex) <==> currentIndex >= CardCount - 2
  {
  }

  /** The bottom button's label: "Next" before the last card, then "Get Started". */
  function NextButtonLabel(currentIndex: nat): (text: string)
    ensures text == GetStartedLabel <==> currentIndex >= CardCount - 1
    ensures text == NextLabel <==> currentIndex < CardCount - 1
  {
    if currentIndex < CardCount - 1 then NextLabel else GetStartedLabel
  }

  class TutorialCardsView {
    var currentIndex: nat
    var dragOffset: int
    var isCompleting: bool

    predicate Valid()
      reads this
    {
      currentIndex < CardCount
    }

    constructor()
      ensures currentIndex == 0 && dragOffset == 0 && !isCompleting && Valid()
    {
      currentIndex, dragOffset, isCompleting := 0, 0, false;
    }

    /** `goToNext`. */
    method GoToNext()
      modifies this
      ensures currentIndex == Step(old(currentIndex), Forward)
      ensures old(currentIndex) < CardCount - 1 ==> dragOffset == 0
      ensures old(currentIndex) >= CardCount - 1 ==> dragOffset == old(dragOffset)
      ensures isCompleting == old(isCompleting)
      ensures old(Valid()) ==> Valid()
    {
      if currentIndex < CardCount - 1 {
        currentIndex := currentIndex + 1;
        dragOffset := 0;
      }
    }

    /** `goToPrevious`. */
    method GoToPrevious()
      modifies this
      ensures currentIndex == Step(old(currentIndex), Back)
      ensures old(currentIndex) > 0 ==> dragOffset == 0
      ensures old(currentIndex) == 0 ==> dragOffset == old(dragOffset)
      ensures isCompleting == old(isCompleting)
      ensures old(Valid()) ==> Valid()
    {
      if currentIndex > 0 {
        currentIndex := currentIndex - 1;
        dragOffset := 0;
      }
    }

    /** The drag's `onChanged` on the current card: the card follows the finger. */
    method DragChanged(width: int)
      modifies this
      ensures dragOffset == width && currentIndex == old(currentIndex) && isCompleting == old(isCompleting)
    {
      dragOffset := width;
    }

    /** The drag's `onEnded`: past the threshold to the right goes on, to the left goes back, else it snaps back. */
    method DragEnded(width: int)
      modifies this
      ensures width > DragThreshold ==> currentIndex == Step(old(currentIndex), Forward)
      ensures width < -DragThreshold ==> currentIndex == Step(old(currentIndex), Back)
      ensures width > DragThreshold ==> dragOffset == (if old(currentIndex) < CardCount - 1 then 0 else old(dragOffset))
      ensures width < -DragThreshold ==> dragOffset == (if old(currentIndex) > 0 then 0 else old(dragOffset))
      ensures -DragThreshold <= width <= DragThreshold ==> currentIndex == old(currentIndex) && dragOffset == 0
      ensures isCompleting == old(isCompleting)
      ensures old(Valid()) ==> Valid()
    {
      if width > DragThreshold {
        GoToNext();
      } else if width < -DragThreshold {
        GoToPrevious();
      } else {
        dragOffset := 0;
      }
    }

    /**
     * `completeTutorial`: without a signed-in user only the spinner stops;
     * otherwise the flag is written to the profile, and the local flag is set
     * whether or not that write succeeds (`writeFault` is its error, if it throws).
     */
    method CompleteTutorial(auth: AuthService.AuthService, store: UPS.UserStore, now: nat, writeFault: Option<string>)
      modifies this, auth, store
      ensures !isCompleting && currentIndex == old(currentIndex) && dragOffset == old(dragOffset)
      ensures auth.currentUser == old(auth.currentUser) && auth.isAuthenticated == old(auth.isAuthenticated)
      ensures old(auth.currentUser).None? ==>
                store.users == old(store.users) && auth.hasCompletedOnboarding == old(auth.hasCompletedOnboarding)
      ensures old(auth.currentUser).Some? ==>
                auth.hasCompletedOnboarding &&
                var uid := old(auth.currentUser).value.uid;
                store.users == (if writeFault.None? && uid in old(store.users)
                                then old(store.users)[uid := UPS.Merge(old(store.users)[uid], UPS.Stamped(CompletionUpdate(), now))]
                                else old(store.users))
    {
      isCompleting := true;
      if auth.currentUser.None? {
        isCompleting := false;
        return;
      }
      var r := store.UpdateUserProfile(auth.currentUser.value.uid, CompletionUpdate(), now, writeFault);
      auth.hasCompletedOnboarding := true;
      isCompleting := false;
    }

    /** The bottom button: disabled while completing; on the last card it completes, before it it advances. */
    method NextButtonTapped(auth: AuthService.AuthService, store: UPS.UserStore, now: nat, writeFault: Option<string>)
      modifies this, auth, store
      ensures old(isCompleting) ==> currentIndex == old(currentIndex) && store.users == old(store.users) &&
                                    auth.hasCompletedOnboarding == old(auth.hasCompletedOnboarding) &&
                                    isCompleting && dragOffset == old(dragOffset)
      ensures !old(isCompleting) && old(currentIndex) < CardCount - 1 ==>
                currentIndex == old(currentIndex) + 1 && !isCompleting && store.users == old(store.users) &&
                auth.hasCompletedOnboarding == old(auth.hasCompletedOnboarding) && dragOffset == 0
      ensures !old(isCompleting) && old(currentIndex) >= CardCount - 1 ==>
                currentIndex == old(currentIndex) && !isCompleting && dragOffset == old(dragOffset)
      ensures !old(isCompleting) && old(currentIndex) >= CardCount - 1 && old(auth.currentUser).None? ==>
                store.users == old(store.users) && auth.hasCompletedOnboarding == old(auth.hasCompletedOnboarding)
      ensures !old(isCompleting) && old(currentIndex) >= CardCount - 1 && old(auth.currentUser).Some? ==>
                auth.hasCompletedOnboarding &&
                var uid := old(auth.currentUser).value.uid;
                store.users == (if writeFault.None? && uid in old(store.users)
                                then old(store.users)[uid := UPS.Merge(old(store.users)[uid], UPS.Stamped(CompletionUpdate(), now))]
                                else old(store.users))
      ensures auth.currentUser == old(auth.currentUser) && auth.isAuthenticated == old(auth.isAuthenticated)
      ensures old(Valid()) ==> Valid()
    {
      if isCompleting {
        return;
      }
      if currentIndex < CardCount - 1 {
        GoToNext();
      } else {
        CompleteTutorial(auth, store, now, writeFault);
      }
    }
  }

  /** The one field `completeTutorial` writes. */
  function CompletionUpdate(): (u: UPS.Document)
    ensures u.Keys == {UPS.HasCompletedOnboarding} && u[UPS.HasCompletedOnboarding] == UPS.Flag(true)
  {
    map[UPS.HasCompletedOnboarding := UPS.Flag(true)]
  }

  /** After the write succeeds, the next onboarding check of that user reads "done". */
  lemma CompletionIsRemembered(users: map<string, UPS.Document>, uid: string, now: nat)
    requires uid in users && UPS.Decodable(users[uid])
    ensures AuthService.OnboardingComplete(UPS.FetchUserProfile(
              users[uid := UPS.Merge(users[uid], UPS.Stamped(CompletionUpdate(), now))], uid))
  {
    var u := UPS.Stamped(CompletionUpdate(), now);
    UPS.MergeKeepsDecodable(users[uid], u);
  }

  /**
   * The whole walk: three taps on Next reach the last card, whose button reads
   * "Get Started"; the fourth tap saves the flag, and the profile then reads as onboarded.
   */
  method WalkthroughScenario(uid: string, email: string, name: string, now: nat)
    returns (lastIndex: nat, buttonText: string, localFlag: bool, storedFlag: bool)
    ensures lastIndex == CardCount - 1 && buttonText == GetStartedLabel && localFlag && storedFlag
  {
    var store := new UPS.UserStore();
    var created := store.CreateUserProfile(uid, email, name, now, None);
    UPS.CreateThenFetch(map[], uid, email, name, now);
    ghost var stored := store.users;
    assert uid in stored && UPS.Decodable(stored[uid]);
    var auth := new AuthService.AuthService();
    auth.currentUser, auth.isAuthenticated := Some(AuthService.User(uid, Some(email), Some(name))), true;
    var view := new TutorialCardsView();
    view.NextButtonTapped(auth, store, now, None);
    view.NextButtonTapped(auth, store, now, None);
    view.NextButtonTapped(auth, store, now, None);
    lastIndex, buttonText := view.currentIndex, NextButtonLabel(view.currentIndex);
    assert view.currentIndex == CardCount - 1 && !view.isCompleting;
    assert store.users == stored;
    view.NextButtonTapped(auth, store, now, None);
    localFlag := auth.hasCompletedOnboarding;
    CompletionIsRemembered(stored, uid, now);
    storedFlag := AuthService.OnboardingComplete(UPS.FetchUserProfile(store.users, uid));
  }

  /**
   * A signed-in user without a stored profile: the write fails, the local flag
   * is still set, but the next onboarding check reads "not done".
   */
  method MissingProfileScenario(uid: string, now: nat) returns (localFlag: bool, storedFlag: bool)
    ensures localFlag && !storedFlag
  {
    var store := new UPS.UserStore();
    var auth := new AuthService.AuthService();
    auth.currentUser, auth.isAuthenticated := Some(AuthService.User(uid, None, None)), true;
    var view := new TutorialCardsView();
    view.CompleteTutorial(auth, store, now, None);
    localFlag := auth.hasCompletedOnboarding;
    storedFlag := AuthService.OnboardingComplete(UPS.FetchUserProfile(store.users, uid));
  }
}

/**
 * The Connect screen: one creative card at a time from a fixed sample list.
 * A left or right swipe moves to the next creative, stopping at the last one,
 * and shows its first work again; up and down swipes change nothing.
 */
module Connect {
  import opened Wrappers

  datatype Creative = Creative(name: string, kind: string, position: string, guild: Option<string>,
                               profileImage: string, works: seq<string>, description: string)

  datatype SwipeDirection = Left | Right | Up | Down

  /** `sampleCreatives`, the deck the screen shows. */
  function SampleCreatives(): (r: seq<Creative>)
    ensures |r| == 2
  {
    [ Creative("Alex Johnson", "Photographer", "2.5 km away", Some("Visual Arts Collective"), "person.circle.fill",
               ["work1", "work2", "work3", "work4"],
               "Passionate photographer specializing in portrait and street photography."),
      Creative("Sarah Chen", "Video Designer", "5.1 km away", None, "person.circle.fill",
               ["work1", "work2", "work3"],
               "Creative video designer with expertise in motion graphics and animation.") ]
  }

  /** Swift's `min`. */
  function Min(a: nat, b: nat): (m: nat)
    ensures m <= a && m <= b && (m == a || m == b)
  {
    if a <= b then a else b
  }

  /** The creative index after one swipe over a deck of `count`. */
  function SwipedIndex(index: nat, direction: SwipeDirection, count: nat): (r: nat)
    requires count > 0
    ensures direction == Left || direction == Right ==>
              r == (if index + 1 < count - 1 then index + 1 else count - 1)
    ensures direction == Up || direction == Down ==> r == index
  {
    match direction
    case Left => Min(index + 1, count - 1)
    case Right => Min(index + 1, count - 1)
    case Up => index
    case Down => index
  }

  /** The index after a series of swipes. */
  function IndexAfter(index: nat, swipes: seq<SwipeDirection>, count: nat): nat
    requires count > 0
    decreases |swipes|
  {
    if swipes == [] then index else IndexAfter(SwipedIndex(index, swipes[0], count), swipes[1..], count)
  }

  /** How many of the swipes are left or right. */
  function HorizontalCount(swipes: seq<SwipeDirection>): (n: nat)
    ensures n <= |swipes|
  {
    if swipes == [] then 0
    else (if swipes[0] == Left || swipes[0] == Right then 1 else 0) + HorizontalCount(swipes[1..])
  }

  /**
   * From a card of the deck, any series of swipes lands on the card as many
   * places on as there were left or right swipes, or on the last card.
   */
  lemma {:induction false} IndexAfterCountsHorizontal(index: nat, swipes: seq<SwipeDirection>, count: nat)
    requires index < count
    ensures var n := index + HorizontalCount(swipes);
            IndexAfter(index, swipes, count) == if n < count - 1 then n else count - 1
    decreases |swipes|
  {
    if swipes != [] {
      IndexAfterCountsHorizontal(SwipedIndex(index, swipes[0], count), swipes[1..], count);
    }
  }

  /** Swipes never leave the deck, so `sampleCreatives[currentCreativeIndex]` is always defined. */
  lemma SwipesStayInDeck(index: nat, swipes: seq<SwipeDirection>, count: nat)
    requires index < count
    ensures IndexAfter(index, swipes, count) < count
  {
    IndexAfterCountsHorizontal(index, swipes, count);
  }

  class ConnectView {
    var currentCreativeIndex: nat
    var selectedWorkIndex: int
    var showDetails: bool
    var showPreferences: bool

    predicate Valid()
      reads this
    {
      currentCreativeIndex < |SampleCreatives()|
    }

    constructor()
      ensures currentCreativeIndex == 0 && selectedWorkIndex == 0 && !showDetails && !showPreferences && Valid()
    {
      currentCreativeIndex, selectedWorkIndex := 0, 0;
      showDetails, showPreferences := false, false;
    }

    /** The card on screen. */
    function CurrentCreative(): (c: Creative)
      requires Valid()
      reads this
      ensures c in SampleCreatives()
    {
      SampleCreatives()[currentCreativeIndex]
    }

    /** `handleSwipe`: a like or a pass moves on and shows the first work; up and down do nothing. */
    method HandleSwipe(direction: SwipeDirection)
      modifies this
      ensures currentCreativeIndex == SwipedIndex(old(currentCreativeIndex), direction, |SampleCreatives()|)
      ensures direction == Left || direction == Right ==> selectedWorkIndex == 0
      ensures direction == Up || direction == Down ==> selectedWorkIndex == old(selectedWorkIndex)
      ensures showDetails == old(showDetails) && showPreferences == old(showPreferences)
      ensures old(Valid()) || direction == Left || direction == Right ==> Valid()
    {
      match direction {
        case Right =>
          currentCreativeIndex := Min(currentCreativeIndex + 1, |SampleCreatives()| - 1);
          selectedWorkIndex := 0;
        case Left =>
          currentCreativeIndex := Min(currentCreativeIndex + 1, |SampleCreatives()| - 1);
          selectedWorkIndex := 0;
        case Up =>
        case Down =>
      }
    }

    /** A thumbnail tap selects that work. */
    method SelectWork(index: int)
      modifies this
      ensures selectedWorkIndex == index && currentCreativeIndex == old(currentCreativeIndex)
      ensures showDetails == old(showDetails) && showPreferences == old(showPreferences)
    {
      selectedWorkIndex := index;
    }

    /** A tap on the profile image opens or closes the details. */
    method TapImage()
      modifies this
      ensures showDetails == !old(showDetails)
      ensures currentCreativeIndex == old(currentCreativeIndex) && selectedWorkIndex == old(selectedWorkIndex)
      ensures showPreferences == old(showPreferences)
    {
      showDetails := !showDetails;
    }

    /** The header button opens or closes the preferences sheet. */
    method TogglePreferences()
      modifies this
      ensures showPreferences == !old(showPreferences)
      ensures currentCreativeIndex == old(currentCreativeIndex) && selectedWorkIndex == old(selectedWorkIndex)
      ensures showDetails == old(showDetails)
    {
      showPreferences := !showPreferences;
    }

    /** The details screen's back action. */
    method CloseDetails()
      modifies this
      ensures !showDetails
      ensures currentCreativeIndex == old(currentCreativeIndex) && selectedWorkIndex == old(selectedWorkIndex)
      ensures showPreferences == old(showPreferences)
    {
      showDetails := false;
    }
  }

  /**
   * After a like, a pass and another like the deck rests on its last creative,
   * with the first work selected again; an upward swipe keeps a chosen work.
   */
  method SwipeThroughDeckScenario() returns (name: string, work: int, keptWork: int)
    ensures name == "Sarah Chen" && work == 0 && keptWork == 2
  {
    var view := new ConnectView();
    view.SelectWork(3);
    view.HandleSwipe(Right);
    view.HandleSwipe(Left);
    view.HandleSwipe(Right);
    name, work := view.CurrentCreative().name, view.selectedWorkIndex;
    view.SelectWork(2);
    view.HandleSwipe(Up);
    keptWork := view.selectedWorkIndex;
  }
}

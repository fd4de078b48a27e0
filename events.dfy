/**
 * The events screen: the category chips filter a fixed list of sample
 * events, and each card shows up to two avatars of liked people who are
 * going, with a sentence naming them.
 */
module Events {
  import opened Wrappers
  import opened Strings

  datatype EventProfile = EventProfile(name: string, profileImage: string)

  /** `Event`; its `UUID` id is left out, identity here is the value. */
  datatype Event = Event(title: string, category: string, location: string, time: string,
                         attendingCount: int, likesCount: int, likesGoing: seq<EventProfile>)

  const AllCategory := "All"
  const Categories: seq<string> := ["All", "Music", "Art", "Food", "Sports"]
  const MaxAvatars: nat := 2

  function Person(name: string): EventProfile {
    EventProfile(name, "person.circle.fill")
  }

  /** `sampleEvents`, the only events the screen has. */
  function SampleEvents(): seq<Event> {
    [ Event("Jazz Night at Blue Note", "Music", "Blue Note, Downtown", "Tonight, 8:00 PM", 45, 12,
            [Person("Emma"), Person("Alex")]),
      Event("Art Exhibition Opening", "Art", "Modern Art Gallery, City Center", "Tomorrow, 6:00 PM", 32, 8,
            [Person("Sarah")]),
      Event("Food Festival 2025", "Food", "Central Park", "Saturday, 12:00 PM", 120, 25,
            [Person("Marco"), Person("Lisa"), Person("Tom")]),
      Event("Basketball Tournament", "Sports", "Sports Arena", "Sunday, 2:00 PM", 67, 15,
            [Person("Mike"), Person("Anna")]),
      Event("Electronic Music Night", "Music", "Club Neon", "Friday, 10:00 PM", 89, 18,
            [Person("David")]) ]
  }

  /** Swift's `filter { $0.category == category }`. */
  function Filter(events: seq<Event>, category: string): (r: seq<Event>)
    ensures |r| <= |events|
    ensures forall i :: 0 <= i < |r| ==> r[i].category == category
  {
    if events == [] then []
    else (if events[0].category == category then [events[0]] else []) + Filter(events[1..], category)
  }

  /** An event is kept exactly when it is in the list and has the category. */
  lemma {:induction false} FilterMembership(events: seq<Event>, category: string, e: Event)
    ensures e in Filter(events, category) <==> e in events && e.category == category
  {
    if events != [] {
      FilterMembership(events[1..], category, e);
      assert events == [events[0]] + events[1..];
    }
  }

  /** Filtering a concatenation filters each part and keeps them in order. */
  lemma {:induction false} FilterAppend(a: seq<Event>, b: seq<Event>, category: string)
    ensures Filter(a + b, category) == Filter(a, category) + Filter(b, category)
  {
    if a == [] {
      assert a + b == b;
    } else {
      assert (a + b)[1..] == a[1..] + b;
      FilterAppend(a[1..], b, category);
    }
  }

  /** Every kept event keeps its number of occurrences; the others are dropped. */
  lemma {:induction false} FilterCounts(events: seq<Event>, category: string, e: Event)
    ensures multiset(Filter(events, category))[e] == if e.category == category then multiset(events)[e] else 0
  {
    if events != [] {
      FilterCounts(events[1..], category, e);
      assert events == [events[0]] + events[1..];
    }
  }

  /** `filteredEvents`: "All" shows the whole list, any other chip the events of that category. */
  function FilteredEvents(selectedCategory: string, events: seq<Event>): (r: seq<Event>)
    ensures selectedCategory == AllCategory ==> r == events
    ensures selectedCategory != AllCategory ==> forall i :: 0 <= i < |r| ==> r[i].category == selectedCategory
    ensures |r| <= |events|
  {
    if selectedCategory == AllCategory then events else Filter(events, selectedCategory)
  }

  /** The "Music" chip shows the jazz night and the electronic night, in list order. */
  lemma MusicChip()
    ensures FilteredEvents("Music", SampleEvents()) == [SampleEvents()[0], SampleEvents()[4]]
  {
    var s := SampleEvents();
    assert s[1..] == [s[1], s[2], s[3], s[4]];
    assert s[1..][1..] == [s[2], s[3], s[4]];
    assert s[1..][1..][1..] == [s[3], s[4]];
    assert s[1..][1..][1..][1..] == [s[4]];
    assert s[1..][1..][1..][1..][1..] == [];
  }

  /** Every chip other than "All" names a category some sample event has. */
  lemma EveryChipHasAnEvent(c: string)
    requires c in Categories && c != AllCategory
    ensures FilteredEvents(c, SampleEvents()) != []
  {
    var s := SampleEvents();
    var k := if c == "Music" then 0 else if c == "Art" then 1 else if c == "Food" then 2 else 3;
    assert s[k].category == c;
    assert s[k] in s;
    FilterMembership(s, c, s[k]);
  }

  /** The going row is shown only for an event with someone going. */
  predicate ShowsGoing(e: Event) {
    e.likesGoing != []
  }

  /** `likesGoing.prefix(2)`: the first two people, or everyone when fewer. */
  function Avatars(likes: seq<EventProfile>): (r: seq<EventProfile>)
    ensures |r| == if |likes| < MaxAvatars then |likes| else MaxAvatars
    ensures r <= likes
  {
    if |likes| <= MaxAvatars then likes else likes[..MaxAvatars]
  }

  /** The sentence beside the avatars; nothing when no one is going. */
  function GoingSentence(likes: seq<EventProfile>): (r: Option<string>)
    ensures r.None? <==> likes == []
    ensures |likes| == 1 ==> r == Some(likes[0].name + " is going")
    ensures |likes| == 2 ==> r == Some(likes[0].name + " & " + likes[1].name + " are going")
    ensures |likes| >= 3 ==>
              r == Some(likes[0].name + ", " + likes[1].name + " & " + NatToString(|likes| - 2) + " others are going")
  {
    if likes == [] then None
    else if |likes| == 1 then Some(likes[0].name + " is going")
    else if |likes| == 2 then Some(likes[0].name + " & " + likes[1].name + " are going")
    else Some(likes[0].name + ", " + likes[1].name + " & " + NatToString(|likes| - 2) + " others are going")
  }

  /**
   * The sentence names exactly the people pictured, and for a longer list the
   * number it gives is the count of people not pictured.
   */
  lemma SentenceMatchesAvatars(likes: seq<EventProfile>)
    requires likes != []
    ensures var a := Avatars(likes);
            var text := GoingSentence(likes).value;
            StartsWith(text, a[0].name) &&
            (|likes| >= 3 ==>
               (|a| == MaxAvatars &&
                text == a[0].name + ", " + a[1].name + " & " + NatToString(|likes| - |a|) + " others are going"))
  {
    var text := GoingSentence(likes).value;
    assert text[..|likes[0].name|] == likes[0].name;
  }

  /** With the same two people pictured, the sentence tells apart lists of different lengths. */
  lemma SentenceDeterminesCount(a: seq<EventProfile>, b: seq<EventProfile>)
    requires |a| >= 3 && |b| >= 3 && a[0].name == b[0].name && a[1].name == b[1].name
    requires GoingSentence(a) == GoingSentence(b)
    ensures |a| == |b|
  {
    var p := a[0].name + ", " + a[1].name + " & ";
    var q := " others are going";
    assert p + NatToString(|a| - 2) + q == p + NatToString(|b| - 2) + q;
    CancelAround(p, NatToString(|a| - 2), NatToString(|b| - 2), q);
    NatToStringInjective(|a| - 2, |b| - 2);
  }

  /** The food festival card, with three people going, reads "Marco, Lisa & 1 others are going". */
  lemma FoodFestivalSentence()
    ensures GoingSentence(SampleEvents()[2].likesGoing) == Some("Marco, Lisa & 1 others are going")
    ensures Avatars(SampleEvents()[2].likesGoing) == [Person("Marco"), Person("Lisa")]
  {
    assert DigitChar(1) == '1';
    assert NatToString(1) == "1";
    assert "Marco" + ", " + "Lisa" + " & " + "1" + " others are going" == "Marco, Lisa & 1 others are going";
  }
}

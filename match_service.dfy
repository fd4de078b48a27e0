/**
 * The like/match engine of `Services/MatchService.swift`.
 *
 * The `likes` and `matches` Firestore collections are two sequences owned by a
 * `MatchStore`. Documents are never deleted, so a document's position in its
 * collection serves as the identifier Firestore would assign. `Timestamp()` is
 * the caller-supplied `now`.
 */
module MatchService {
  import opened Wrappers

  type UserID = string

  datatype Like = Like(id: nat, fromUserID: UserID, toUserID: UserID, createdAt: nat, isSuperLike: bool)

  datatype Match = Match(id: nat, user1ID: UserID, user2ID: UserID, matchedAt: nat, lastMessageAt: Option<nat>, isActive: bool)
  {
    /** `Match.getOtherUserID(currentUserID:)`. */
    function GetOtherUserID(currentUserID: UserID): UserID {
      if user1ID == currentUserID then user2ID else user1ID
    }

    predicate HasParticipant(u: UserID) {
      u == user1ID || u == user2ID
    }

    /** The unordered pair of participants. */
    function Pair(): set<UserID> {
      {user1ID, user2ID}
    }
  }

  /** The Firestore calls of the service, each of which can throw. */
  datatype MatchCall = LikeQuery | LikeWrite | ReverseQuery | MatchQuery | MatchWrite | UnmatchWrite

  /** `Failed(call)`: the error `call` threw, which the service passes on. */
  datatype MatchError = NotFound | InvalidArgument | Failed(call: MatchCall)

  /** For a participant, `GetOtherUserID` names the other member of the pair. */
  lemma OtherUserIsOtherParticipant(m: Match, u: UserID)
    requires m.HasParticipant(u)
    ensures m.GetOtherUserID(u) in m.Pair()
    ensures {u, m.GetOtherUserID(u)} == m.Pair()
    ensures m.user1ID != m.user2ID ==> m.GetOtherUserID(u) != u
    ensures m.user1ID != m.user2ID ==> m.GetOtherUserID(m.GetOtherUserID(u)) == u
  {
  }

  /** For someone who is not a participant, `GetOtherUserID` still answers `user1ID`. */
  lemma OtherUserOfOutsider(m: Match, u: UserID)
    requires !m.HasParticipant(u)
    ensures m.GetOtherUserID(u) == m.user1ID
  {
  }

  // ---------------------------------------------------------------------------
  // The queries the service sends to Firestore.

  /** The query at lines 45-49 (and 67-71 with the roles swapped) returns a document. */
  predicate HasLike(likes: seq<Like>, from: UserID, to: UserID) {
    exists i :: 0 <= i < |likes| && likes[i].fromUserID == from && likes[i].toUserID == to
  }

  /** The query at lines 83-87: both fields range over `{a, b}`, whatever `isActive` says. */
  predicate MatchQueryHits(matches: seq<Match>, a: UserID, b: UserID) {
    exists i :: 0 <= i < |matches| && matches[i].user1ID in {a, b} && matches[i].user2ID in {a, b}
  }

  /** Some match, active or not, is for the unordered pair `{a, b}`. */
  predicate MatchForPair(matches: seq<Match>, a: UserID, b: UserID) {
    exists i :: 0 <= i < |matches| && matches[i].Pair() == {a, b}
  }

  // ---------------------------------------------------------------------------
  // Invariants of the collections.

  predicate IdsArePositions(likes: seq<Like>, matches: seq<Match>) {
    (forall i :: 0 <= i < |likes| ==> likes[i].id == i) &&
    (forall i :: 0 <= i < |matches| ==> matches[i].id == i)
  }

  /** At most one Like per ordered pair. */
  predicate UniqueLikes(likes: seq<Like>) {
    forall i, j :: 0 <= i < j < |likes| ==>
      !(likes[i].fromUserID == likes[j].fromUserID && likes[i].toUserID == likes[j].toUserID)
  }

  /** At most one Match per unordered pair. */
  predicate UniqueMatches(matches: seq<Match>) {
    forall i, j :: 0 <= i < j < |matches| ==> matches[i].Pair() != matches[j].Pair()
  }

  // ---------------------------------------------------------------------------
  // The effect of each write, as a function of the collections before it.

  /** `likes` after `likeUser(fromUserID:toUserID:isSuperLike:)`. */
  function LikesAfterLike(likes: seq<Like>, from: UserID, to: UserID, isSuperLike: bool, now: nat): seq<Like> {
    if HasLike(likes, from, to) then likes
    else likes + [Like(|likes|, from, to, now, isSuperLike)]
  }

  /** `matches` after `createMatch(user1ID:user2ID:)`. */
  function MatchesAfterCreate(matches: seq<Match>, a: UserID, b: UserID, now: nat): seq<Match> {
    if MatchQueryHits(matches, a, b) then matches
    else matches + [Match(|matches|, a, b, now, None, true)]
  }

  /** `matches` after `likeUser`: a match is attempted only when the reverse like exists after the insert. */
  function MatchesAfterLike(likes: seq<Like>, matches: seq<Match>, from: UserID, to: UserID, isSuperLike: bool, now: nat): seq<Match> {
    if HasLike(likes, from, to) then matches
    else if HasLike(LikesAfterLike(likes, from, to, isSuperLike, now), to, from) then MatchesAfterCreate(matches, from, to, now)
    else matches
  }

  /**
   * Whether `likeUser` makes `call`: each call is made only when the ones before
   * it succeeded and no early return (already liked, no reverse like, match
   * already there) came first.
   */
  predicate LikeReaches(likes: seq<Like>, matches: seq<Match>, from: UserID, to: UserID, isSuperLike: bool, now: nat,
                        call: MatchCall) {
    match call
    case LikeQuery => true
    case LikeWrite => !HasLike(likes, from, to)
    case ReverseQuery => !HasLike(likes, from, to)
    case MatchQuery => !HasLike(likes, from, to) && HasLike(LikesAfterLike(likes, from, to, isSuperLike, now), to, from)
    case MatchWrite =>
      !HasLike(likes, from, to) && HasLike(LikesAfterLike(likes, from, to, isSuperLike, now), to, from) &&
      !MatchQueryHits(matches, from, to)
    case UnmatchWrite => false
  }

  /** Whether `createMatch` makes `call`. */
  predicate CreateReaches(matches: seq<Match>, a: UserID, b: UserID, call: MatchCall) {
    call == MatchQuery || (call == MatchWrite && !MatchQueryHits(matches, a, b))
  }

  /** The calls after the like's own write: a throw there leaves the new Like stored. */
  predicate AfterLikeWrite(call: MatchCall) {
    call == ReverseQuery || call == MatchQuery || call == MatchWrite
  }

  /** `matches` after `unmatch(matchID:)`, or `NotFound` when there is no such document. */
  function MatchesAfterUnmatch(matches: seq<Match>, matchID: nat): Result<seq<Match>, MatchError> {
    if matchID < |matches| then Ok(matches[matchID := matches[matchID].(isActive := false)])
    else Err(NotFound)
  }

  // ---------------------------------------------------------------------------
  // The read queries: filter, then order by a timestamp, most recent first.

  function Filter<T(!new)>(s: seq<T>, keep: T -> bool): (r: seq<T>)
    ensures |r| <= |s|
    ensures forall x :: x in r <==> x in s && keep(x)
    ensures multiset(r) <= multiset(s)
  {
    if s == [] then []
    else
      assert s == [s[0]] + s[1..];
      if keep(s[0]) then [s[0]] + Filter(s[1..], keep) else Filter(s[1..], keep)
  }

  predicate SortedDesc<T>(s: seq<T>, key: T -> nat) {
    forall i, j :: 0 <= i < j < |s| ==> key(s[i]) >= key(s[j])
  }

  function InsertDesc<T(!new)>(x: T, s: seq<T>, key: T -> nat): (r: seq<T>)
    requires SortedDesc(s, key)
    ensures multiset(r) == multiset(s) + multiset{x}
    ensures forall y :: y in r <==> y == x || y in s
    ensures SortedDesc(r, key)
    ensures r[0] == x || (s != [] && r[0] == s[0])
  {
    if s == [] then [x]
    else if key(x) >= key(s[0]) then
      ConsSortedDesc(x, s, key);
      [x] + s
    else
      assert s == [s[0]] + s[1..];
      var t := InsertDesc(x, s[1..], key);
      assert key(s[0]) >= key(t[0]);
      ConsSortedDesc(s[0], t, key);
      [s[0]] + t
  }

  /** A head no smaller than the first key of a descending sequence keeps it descending. */
  lemma ConsSortedDesc<T>(h: T, t: seq<T>, key: T -> nat)
    requires SortedDesc(t, key) && (t != [] ==> key(h) >= key(t[0]))
    ensures SortedDesc([h] + t, key)
  {
    var r := [h] + t;
    forall i, j | 0 <= i < j < |r|
      ensures key(r[i]) >= key(r[j])
    {
      assert r[j] == t[j - 1];
      if i > 0 {
        assert r[i] == t[i - 1];
      } else {
        assert key(t[0]) >= key(t[j - 1]) || j == 1;
      }
    }
  }

  /** Ordering by `key` descending; Firestore leaves the order of equal keys unspecified. */
  function SortDesc<T(!new)>(s: seq<T>, key: T -> nat): (r: seq<T>)
    ensures multiset(r) == multiset(s)
    ensures forall x :: x in r <==> x in s
    ensures SortedDesc(r, key)
  {
    if s == [] then []
    else
      assert s == [s[0]] + s[1..];
      InsertDesc(s[0], SortDesc(s[1..], key), key)
  }

  predicate ActiveFor(m: Match, userID: UserID) {
    m.isActive && m.HasParticipant(userID)
  }

  /** `fetchMatches(for:)`. */
  function FetchMatches(matches: seq<Match>, userID: UserID): (r: seq<Match>)
    ensures forall m :: m in r <==> m in matches && ActiveFor(m, userID)
    ensures multiset(r) == multiset(Filter(matches, m => ActiveFor(m, userID)))
    ensures SortedDesc(r, (m: Match) => m.matchedAt)
  {
    SortDesc(Filter(matches, m => ActiveFor(m, userID)), (m: Match) => m.matchedAt)
  }

  /** `fetchReceivedLikes(for:)`. */
  function FetchReceivedLikes(likes: seq<Like>, userID: UserID): (r: seq<Like>)
    ensures forall l :: l in r <==> l in likes && l.toUserID == userID
    ensures multiset(r) == multiset(Filter(likes, (l: Like) => l.toUserID == userID))
    ensures SortedDesc(r, (l: Like) => l.createdAt)
  {
    SortDesc(Filter(likes, (l: Like) => l.toUserID == userID), (l: Like) => l.createdAt)
  }

  /** `fetchSentLikes(for:)`. */
  function FetchSentLikes(likes: seq<Like>, userID: UserID): (r: seq<Like>)
    ensures forall l :: l in r <==> l in likes && l.fromUserID == userID
    ensures multiset(r) == multiset(Filter(likes, (l: Like) => l.fromUserID == userID))
    ensures SortedDesc(r, (l: Like) => l.createdAt)
  {
    SortDesc(Filter(likes, (l: Like) => l.fromUserID == userID), (l: Like) => l.createdAt)
  }

  // ---------------------------------------------------------------------------
  // The service object.

  class MatchStore {
    var likes: seq<Like>
    var matches: seq<Match>

    ghost predicate Valid()
      reads this
    {
      IdsArePositions(likes, matches) && UniqueLikes(likes) && UniqueMatches(matches)
    }

    constructor ()
      ensures Valid() && likes == [] && matches == []
    {
      likes := [];
      matches := [];
    }

    /**
     * `createMatch(user1ID:user2ID:)`. `fault` is the call that throws, if any;
     * a query that finds a match returns before the write is attempted.
     */
    method CreateMatch(user1ID: UserID, user2ID: UserID, now: nat, fault: Option<MatchCall>) returns (r: Result<(), MatchError>)
      requires Valid()
      modifies this
      ensures Valid()
      ensures likes == old(likes)
      ensures fault.Some? && CreateReaches(old(matches), user1ID, user2ID, fault.value) ==>
                r == Err(Failed(fault.value)) && matches == old(matches)
      ensures !(fault.Some? && CreateReaches(old(matches), user1ID, user2ID, fault.value)) ==>
                r == Ok(()) && matches == MatchesAfterCreate(old(matches), user1ID, user2ID, now)
    {
      if fault == Some(MatchQuery) {
        return Err(Failed(MatchQuery));
      }
      if MatchQueryHits(matches, user1ID, user2ID) {
        return Ok(());
      }
      if fault == Some(MatchWrite) {
        return Err(Failed(MatchWrite));
      }
      CreateKeepsUniqueMatches(matches, user1ID, user2ID, now);
      matches := matches + [Match(|matches|, user1ID, user2ID, now, None, true)];
      r := Ok(());
    }

    /**
     * `likeUser(fromUserID:toUserID:isSuperLike:)`, as written: there is no
     * self-like guard. `fault` is the Firestore call that throws, if any: a throw
     * before the like's write changes nothing, a throw after it keeps the new Like
     * and creates no Match.
     */
    method LikeUser(fromUserID: UserID, toUserID: UserID, isSuperLike: bool, now: nat, fault: Option<MatchCall>)
      returns (r: Result<(), MatchError>)
      requires Valid()
      modifies this
      ensures Valid()
      ensures var failed := fault.Some? && LikeReaches(old(likes), old(matches), fromUserID, toUserID, isSuperLike, now, fault.value);
              (failed ==>
                 r == Err(Failed(fault.value)) && matches == old(matches) &&
                 likes == if AfterLikeWrite(fault.value) then LikesAfterLike(old(likes), fromUserID, toUserID, isSuperLike, now)
                          else old(likes)) &&
              (!failed ==>
                 r == Ok(()) && likes == LikesAfterLike(old(likes), fromUserID, toUserID, isSuperLike, now) &&
                 matches == MatchesAfterLike(old(likes), old(matches), fromUserID, toUserID, isSuperLike, now))
    {
      if fault == Some(LikeQuery) {
        return Err(Failed(LikeQuery));
      }
      if HasLike(likes, fromUserID, toUserID) {
        return Ok(());
      }
      if fault == Some(LikeWrite) {
        return Err(Failed(LikeWrite));
      }
      LikeKeepsUniqueLikes(likes, fromUserID, toUserID, isSuperLike, now);
      likes := likes + [Like(|likes|, fromUserID, toUserID, now, isSuperLike)];
      if fault == Some(ReverseQuery) {
        return Err(Failed(ReverseQuery));
      }
      if HasLike(likes, toUserID, fromUserID) {
        r := CreateMatch(fromUserID, toUserID, now, fault);
      } else {
        r := Ok(());
      }
    }

    /**
     * `unmatch(matchID:)`: only `isActive` of that one document changes; a
     * missing document, or an `updateData` that throws (`fails`), changes nothing.
     */
    method Unmatch(matchID: nat, fails: bool) returns (r: Result<(), MatchError>)
      requires Valid()
      modifies this
      ensures Valid()
      ensures likes == old(likes)
      ensures fails ==> r == Err(Failed(UnmatchWrite)) && matches == old(matches)
      ensures !fails && MatchesAfterUnmatch(old(matches), matchID).Ok? ==>
                r == Ok(()) && matches == MatchesAfterUnmatch(old(matches), matchID).value
      ensures !fails && MatchesAfterUnmatch(old(matches), matchID).Err? ==> r == Err(NotFound) && matches == old(matches)
    {
      if fails {
        return Err(Failed(UnmatchWrite));
      }
      if matchID >= |matches| {
        return Err(NotFound);
      }
      UnmatchKeepsUniqueMatches(matches, matchID);
      matches := matches[matchID := matches[matchID].(isActive := false)];
      r := Ok(());
    }

    /** `likeUser` with a self-like guard: `like(A, A)` is rejected and changes nothing. */
    method LikeUserRejectingSelf(fromUserID: UserID, toUserID: UserID, isSuperLike: bool, now: nat, fault: Option<MatchCall>)
      returns (r: Result<(), MatchError>)
      requires Valid()
      modifies this
      ensures Valid()
      ensures fromUserID == toUserID ==> r == Err(InvalidArgument) && likes == old(likes) && matches == old(matches)
      ensures fromUserID != toUserID ==>
                var failed := fault.Some? && LikeReaches(old(likes), old(matches), fromUserID, toUserID, isSuperLike, now, fault.value);
                (failed ==>
                   r == Err(Failed(fault.value)) && matches == old(matches) &&
                   likes == if AfterLikeWrite(fault.value) then LikesAfterLike(old(likes), fromUserID, toUserID, isSuperLike, now)
                            else old(likes)) &&
                (!failed ==>
                   r == Ok(()) && likes == LikesAfterLike(old(likes), fromUserID, toUserID, isSuperLike, now) &&
                   matches == MatchesAfterLike(old(likes), old(matches), fromUserID, toUserID, isSuperLike, now))
    {
      if fromUserID == toUserID {
        return Err(InvalidArgument);
      }
      r := LikeUser(fromUserID, toUserID, isSuperLike, now, fault);
    }
  }

  // ---------------------------------------------------------------------------
  // Properties of the writes.

  lemma LikeKeepsUniqueLikes(likes: seq<Like>, from: UserID, to: UserID, isSuperLike: bool, now: nat)
    requires UniqueLikes(likes)
    ensures UniqueLikes(LikesAfterLike(likes, from, to, isSuperLike, now))
  {
  }

  lemma CreateKeepsUniqueMatches(matches: seq<Match>, a: UserID, b: UserID, now: nat)
    requires UniqueMatches(matches)
    ensures UniqueMatches(MatchesAfterCreate(matches, a, b, now))
  {
    if !MatchQueryHits(matches, a, b) {
      var r := MatchesAfterCreate(matches, a, b, now);
      forall i | 0 <= i < |matches|
        ensures matches[i].Pair() != {a, b}
      {
        assert !(matches[i].user1ID in {a, b} && matches[i].user2ID in {a, b});
        assert matches[i].user1ID in matches[i].Pair() && matches[i].user2ID in matches[i].Pair();
      }
      assert r[|matches|].Pair() == {a, b};
    }
  }

  lemma UnmatchKeepsUniqueMatches(matches: seq<Match>, matchID: nat)
    requires UniqueMatches(matches) && matchID < |matches|
    ensures UniqueMatches(MatchesAfterUnmatch(matches, matchID).value)
  {
    var r := MatchesAfterUnmatch(matches, matchID).value;
    assert forall i :: 0 <= i < |r| ==> r[i].Pair() == matches[i].Pair();
  }

  /** Liking the same user again, after a first like, adds no Like and no Match (and at most one Like per ordered pair remains). */
  lemma {:induction false} LikeTwiceIsLikeOnce(likes: seq<Like>, matches: seq<Match>, a: UserID, b: UserID,
                                               s1: bool, t1: nat, s2: bool, t2: nat)
    requires UniqueLikes(likes)
    ensures var l1 := LikesAfterLike(likes, a, b, s1, t1);
            var m1 := MatchesAfterLike(likes, matches, a, b, s1, t1);
            HasLike(l1, a, b) && UniqueLikes(l1) &&
            LikesAfterLike(l1, a, b, s2, t2) == l1 &&
            MatchesAfterLike(l1, m1, a, b, s2, t2) == m1
  {
    var l1 := LikesAfterLike(likes, a, b, s1, t1);
    if !HasLike(likes, a, b) {
      assert l1[|likes|].fromUserID == a && l1[|likes|].toUserID == b;
    }
    assert HasLike(l1, a, b);
    LikeKeepsUniqueLikes(likes, a, b, s1, t1);
  }

  /** A like with no reverse like (and not a self-like) creates no match. */
  lemma {:induction false} NoMatchWithoutReverseLike(likes: seq<Like>, matches: seq<Match>, a: UserID, b: UserID, s: bool, now: nat)
    requires a != b && !HasLike(likes, b, a)
    ensures MatchesAfterLike(likes, matches, a, b, s, now) == matches
  {
  }

  /** The second like of a mutual pair creates exactly one new, active match with no last message. */
  lemma {:induction false} MutualLikeCreatesMatch(likes: seq<Like>, matches: seq<Match>, a: UserID, b: UserID, s: bool, now: nat)
    requires HasLike(likes, b, a) && !HasLike(likes, a, b) && !MatchQueryHits(matches, a, b)
    ensures var m1 := MatchesAfterLike(likes, matches, a, b, s, now);
            var m := Match(|matches|, a, b, now, None, true);
            m1 == matches + [m] && m in FetchMatches(m1, a) && m in FetchMatches(m1, b)
  {
    var i :| 0 <= i < |likes| && likes[i].fromUserID == b && likes[i].toUserID == a;
    var l1 := LikesAfterLike(likes, a, b, s, now);
    assert l1[i] == likes[i];
    assert HasLike(l1, b, a);
    var m := Match(|matches|, a, b, now, None, true);
    var m1 := matches + [m];
    assert MatchesAfterLike(likes, matches, a, b, s, now) == m1;
    assert m1[|matches|] == m;
    assert ActiveFor(m, a) && ActiveFor(m, b);
  }

  /** An already matched pair (or a pair the broad query catches) gets no second match. */
  lemma {:induction false} ExistingMatchBlocksCreate(matches: seq<Match>, a: UserID, b: UserID, now: nat, i: nat)
    requires i < |matches| && matches[i].Pair() == {a, b}
    ensures MatchesAfterCreate(matches, a, b, now) == matches
    ensures MatchesAfterCreate(matches, b, a, now) == matches
  {
    assert matches[i].user1ID in {a, b} && matches[i].user2ID in {a, b};
    assert matches[i].user1ID in {b, a} && matches[i].user2ID in {b, a};
  }

  /** After `unmatch(id)` a user's match list is the old list without that match; the array keeps its length. */
  lemma UnmatchHidesOnlyThatMatch(matches: seq<Match>, matchID: nat, u: UserID)
    requires forall i :: 0 <= i < |matches| ==> matches[i].id == i
    requires matchID < |matches|
    ensures var m1 := MatchesAfterUnmatch(matches, matchID).value;
            |m1| == |matches| &&
            forall m :: m in FetchMatches(m1, u) <==> m in FetchMatches(matches, u) && m.id != matchID
  {
    var m1 := MatchesAfterUnmatch(matches, matchID).value;
    forall m
      ensures m in m1 && ActiveFor(m, u) <==> m in matches && ActiveFor(m, u) && m.id != matchID
    {
      UnmatchedActiveMatch(matches, matchID, u, m);
    }
  }

  /** The active matches of a user after soft-deleting one: the same, less the deleted one. */
  lemma UnmatchedActiveMatch(matches: seq<Match>, matchID: nat, u: UserID, m: Match)
    requires forall i :: 0 <= i < |matches| ==> matches[i].id == i
    requires matchID < |matches|
    ensures var m1 := matches[matchID := matches[matchID].(isActive := false)];
            m in m1 && ActiveFor(m, u) <==> m in matches && ActiveFor(m, u) && m.id != matchID
  {
    var m1 := matches[matchID := matches[matchID].(isActive := false)];
    if m in matches && ActiveFor(m, u) && m.id != matchID {
      var k :| 0 <= k < |matches| && matches[k] == m;
      assert m1[k] == m;
    }
    if m in m1 && ActiveFor(m, u) {
      var k :| 0 <= k < |m1| && m1[k] == m;
      assert k != matchID;
      assert m == matches[k];
    }
  }

  /** On an empty store, like(u1, u2) then like(u2, u1) stores two likes and one match. */
  lemma ConcreteMutualLikes()
    ensures var l1 := LikesAfterLike([], "u1", "u2", false, 1);
            LikesAfterLike(l1, "u2", "u1", false, 2) == [Like(0, "u1", "u2", 1, false), Like(1, "u2", "u1", 2, false)] &&
            MatchesAfterLike([], [], "u1", "u2", false, 1) == [] &&
            MatchesAfterLike(l1, [], "u2", "u1", false, 2) == [Match(0, "u2", "u1", 2, None, true)]
  {
    var l1 := LikesAfterLike([], "u1", "u2", false, 1);
    assert l1 == [Like(0, "u1", "u2", 1, false)];
    assert !HasLike(l1, "u2", "u1");
    var l2 := LikesAfterLike(l1, "u2", "u1", false, 2);
    assert HasLike(l2, "u1", "u2") by { assert l2[0].fromUserID == "u1" && l2[0].toUserID == "u2"; }
  }

  /** Sorting a single element returns it. */
  lemma SortDescSingleton<T(!new)>(x: T, key: T -> nat)
    ensures SortDesc([x], key) == [x]
  {
    assert [x][1..] == [];
  }

  /** The single match of the concrete scenario is listed for both participants, and disappears after unmatch. */
  lemma ConcreteFetchAndUnmatch()
    ensures var m2 := [Match(0, "u2", "u1", 2, None, true)];
            var m3 := MatchesAfterUnmatch(m2, 0);
            FetchMatches(m2, "u1") == m2 && FetchMatches(m2, "u2") == m2 &&
            m3.Ok? && FetchMatches(m3.value, "u1") == [] && FetchMatches(m3.value, "u2") == []
  {
    var m2 := [Match(0, "u2", "u1", 2, None, true)];
    assert Filter(m2, m => ActiveFor(m, "u1")) == m2;
    assert Filter(m2, m => ActiveFor(m, "u2")) == m2;
    SortDescSingleton(m2[0], (m: Match) => m.matchedAt);
    var m3 := MatchesAfterUnmatch(m2, 0).value;
    assert m3 == [Match(0, "u2", "u1", 2, None, false)];
    assert Filter(m3, m => ActiveFor(m, "u1")) == [];
    assert Filter(m3, m => ActiveFor(m, "u2")) == [];
  }

  /** In the concrete scenario, u1 has sent the first like and received the second. */
  lemma ConcreteLikeLists()
    ensures var l2 := [Like(0, "u1", "u2", 1, false), Like(1, "u2", "u1", 2, false)];
            FetchSentLikes(l2, "u1") == [l2[0]] && FetchReceivedLikes(l2, "u1") == [l2[1]]
  {
    var l2 := [Like(0, "u1", "u2", 1, false), Like(1, "u2", "u1", 2, false)];
    assert Filter(l2, (l: Like) => l.fromUserID == "u1") == [l2[0]];
    assert Filter(l2, (l: Like) => l.toUserID == "u1") == [l2[1]];
    SortDescSingleton(l2[0], (l: Like) => l.createdAt);
    SortDescSingleton(l2[1], (l: Like) => l.createdAt);
  }

  /** With no self-like guard, `like(A, A)` on an empty store stores Like(A→A) and Match(A, A). */
  lemma SelfLikeMatchesItself(a: UserID, s: bool, now: nat)
    ensures LikesAfterLike([], a, a, s, now) == [Like(0, a, a, now, s)]
    ensures MatchesAfterLike([], [], a, a, s, now) == [Match(0, a, a, now, None, true)]
  {
    var l1 := LikesAfterLike([], a, a, s, now);
    assert l1[0].fromUserID == a && l1[0].toUserID == a;
    assert HasLike(l1, a, a);
  }

  // ---------------------------------------------------------------------------
  // Every mutual pair of likes has its match: true once self-likes are rejected.

  predicate NoSelfPairs(likes: seq<Like>, matches: seq<Match>) {
    (forall i :: 0 <= i < |likes| ==> likes[i].fromUserID != likes[i].toUserID) &&
    (forall i :: 0 <= i < |matches| ==> matches[i].user1ID != matches[i].user2ID)
  }

  predicate MutualLikesMatched(likes: seq<Like>, matches: seq<Match>) {
    forall i, j :: (0 <= i < |likes| && 0 <= j < |likes| &&
      likes[i].fromUserID == likes[j].toUserID && likes[i].toUserID == likes[j].fromUserID) ==>
      MatchForPair(matches, likes[i].fromUserID, likes[i].toUserID)
  }

  /**
   * As written, a self-like blocks the pair: after like(A, A), like(A, B) and like(B, A),
   * A and B have liked each other but no match exists for {A, B}.
   */
  lemma {:induction false} SelfLikeBlocksLaterMatch(a: UserID, b: UserID)
    requires a != b
    ensures var l1 := LikesAfterLike([], a, a, false, 0);
            var m1 := MatchesAfterLike([], [], a, a, false, 0);
            var l2 := LikesAfterLike(l1, a, b, false, 1);
            var m2 := MatchesAfterLike(l1, m1, a, b, false, 1);
            var l3 := LikesAfterLike(l2, b, a, false, 2);
            var m3 := MatchesAfterLike(l2, m2, b, a, false, 2);
            HasLike(l3, a, b) && HasLike(l3, b, a) && !MatchForPair(m3, a, b) && !MutualLikesMatched(l3, m3)
  {
    SelfLikeMatchesItself(a, false, 0);
    var l1 := [Like(0, a, a, 0, false)];
    var m1 := [Match(0, a, a, 0, None, true)];
    assert !HasLike(l1, a, b);
    var l2 := LikesAfterLike(l1, a, b, false, 1);
    assert l2 == l1 + [Like(1, a, b, 1, false)];
    assert !HasLike(l2, b, a);
    var m2 := MatchesAfterLike(l1, m1, a, b, false, 1);
    assert m2 == m1;
    var l3 := LikesAfterLike(l2, b, a, false, 2);
    assert l3 == l2 + [Like(2, b, a, 2, false)];
    assert HasLike(l3, a, b) by { assert l3[1].fromUserID == a && l3[1].toUserID == b; }
    assert HasLike(l3, b, a) by { assert l3[2].fromUserID == b && l3[2].toUserID == a; }
    assert MatchQueryHits(m1, b, a) by { assert m1[0].user1ID in {b, a} && m1[0].user2ID in {b, a}; }
    var m3 := MatchesAfterLike(l2, m2, b, a, false, 2);
    assert m3 == m1;
    assert m1[0].Pair() == {a} != {a, b} by { assert b in {a, b}; }
    assert !MatchForPair(m3, a, b);
    assert l3[1].fromUserID == l3[2].toUserID && l3[1].toUserID == l3[2].fromUserID;
  }

  /** With self-likes rejected, every like keeps "each mutual pair of likes has a match". */
  lemma {:induction false} GuardedLikeMatchesEveryMutualPair(likes: seq<Like>, matches: seq<Match>, a: UserID, b: UserID, s: bool, now: nat)
    requires a != b
    requires NoSelfPairs(likes, matches) && MutualLikesMatched(likes, matches)
    ensures var l1 := LikesAfterLike(likes, a, b, s, now);
            var m1 := MatchesAfterLike(likes, matches, a, b, s, now);
            NoSelfPairs(l1, m1) && MutualLikesMatched(l1, m1)
  {
    if !HasLike(likes, a, b) {
      var l1 := LikesAfterLike(likes, a, b, s, now);
      var m1 := MatchesAfterLike(likes, matches, a, b, s, now);
      assert |m1| >= |matches| && m1[..|matches|] == matches;
      if HasLike(l1, b, a) {
        assert m1 == MatchesAfterCreate(matches, a, b, now);
        if MatchQueryHits(matches, a, b) {
          var k :| 0 <= k < |matches| && matches[k].user1ID in {a, b} && matches[k].user2ID in {a, b};
          assert matches[k].Pair() == {a, b};
          assert MatchForPair(m1, a, b);
        } else {
          assert m1[|matches|].Pair() == {a, b};
          assert MatchForPair(m1, a, b);
        }
        assert {b, a} == {a, b};
      }
      forall i, j | 0 <= i < |l1| && 0 <= j < |l1| &&
        l1[i].fromUserID == l1[j].toUserID && l1[i].toUserID == l1[j].fromUserID
        ensures MatchForPair(m1, l1[i].fromUserID, l1[i].toUserID)
      {
        if i < |likes| && j < |likes| {
          var k :| 0 <= k < |matches| && matches[k].Pair() == {likes[i].fromUserID, likes[i].toUserID};
          assert m1[k] == matches[k];
        } else if i == |likes| {
          assert j < |likes|;
          assert l1[j] == likes[j] && likes[j].fromUserID == b && likes[j].toUserID == a;
          assert HasLike(l1, b, a);
        } else {
          assert l1[i] == likes[i] && likes[i].fromUserID == b && likes[i].toUserID == a;
          assert HasLike(l1, b, a);
          assert {b, a} == {a, b};
        }
      }
    }
  }

  /** Unmatching keeps the property: a soft-deleted match still exists for its pair. */
  lemma {:induction false} UnmatchKeepsMutualLikesMatched(likes: seq<Like>, matches: seq<Match>, matchID: nat)
    requires matchID < |matches| && MutualLikesMatched(likes, matches)
    ensures MutualLikesMatched(likes, MatchesAfterUnmatch(matches, matchID).value)
  {
    var m1 := MatchesAfterUnmatch(matches, matchID).value;
    forall i, j | 0 <= i < |likes| && 0 <= j < |likes| &&
      likes[i].fromUserID == likes[j].toUserID && likes[i].toUserID == likes[j].fromUserID
      ensures MatchForPair(m1, likes[i].fromUserID, likes[i].toUserID)
    {
      var k :| 0 <= k < |matches| && matches[k].Pair() == {likes[i].fromUserID, likes[i].toUserID};
      assert m1[k].Pair() == matches[k].Pair();
    }
  }

  /**
   * A partial failure strands a pair for good: when the second like of a mutual
   * pair is stored but the reverse query or the match's creation throws, the two
   * likes exist without a match, and every later like between the two, in either
   * direction, returns early at the already-liked check.
   */
  lemma {:induction false} PartialLikeFailureStrandsPair(likes: seq<Like>, matches: seq<Match>, a: UserID, b: UserID,
                                                         s: bool, now: nat, call: MatchCall,
                                                         s2: bool, t2: nat, s3: bool, t3: nat)
    requires a != b && HasLike(likes, b, a) && !HasLike(likes, a, b) && !MatchQueryHits(matches, a, b)
    requires AfterLikeWrite(call)
    ensures LikeReaches(likes, matches, a, b, s, now, call)
    ensures var l1 := LikesAfterLike(likes, a, b, s, now);
            HasLike(l1, a, b) && HasLike(l1, b, a) && !MatchForPair(matches, a, b) && !MutualLikesMatched(l1, matches) &&
            LikesAfterLike(l1, a, b, s2, t2) == l1 && MatchesAfterLike(l1, matches, a, b, s2, t2) == matches &&
            LikesAfterLike(l1, b, a, s3, t3) == l1 && MatchesAfterLike(l1, matches, b, a, s3, t3) == matches
  {
    var l1 := LikesAfterLike(likes, a, b, s, now);
    var i :| 0 <= i < |likes| && likes[i].fromUserID == b && likes[i].toUserID == a;
    assert l1[i] == likes[i];
    assert l1[|likes|].fromUserID == a && l1[|likes|].toUserID == b;
    assert HasLike(l1, a, b) && HasLike(l1, b, a);
    assert l1[|likes|].fromUserID == l1[i].toUserID && l1[|likes|].toUserID == l1[i].fromUserID;
  }
}

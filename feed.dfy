/**
 * An in-memory social-feed store: an id counter, a table of user records keyed
 * by id, and an append-only log of tweets.  Five request handlers act on it
 * one at a time: sign-up, tweet, follow, unfollow and timeline.
 *
 * Each user record may carry a set of followed ids.  The set is absent until
 * the first follow or unfollow creates it (Python's `dict.setdefault`), which
 * is why `User.follow` is an `Option`.  A timeline request reads that set and,
 * when it exists, adds the user's own id to it in place.
 */
module Feed {

  datatype Option<T> = None | Some(value: T)

  /** The three failure answers of the handlers; `Message` gives their text. */
  datatype Error = UserNotExist | Over300 | NotExistUser

  function Message(e: Error): (m: string)
    ensures m == "User not exist" <==> e == UserNotExist
    ensures m == "Over 300" <==> e == Over300
    ensures m == "Not exist User" <==> e == NotExistUser
  {
    match e
    case UserNotExist => "User not exist"
    case Over300 => "Over 300"
    case NotExistUser => "Not exist User"
  }

  datatype Result<T> = Ok(value: T) | Err(error: Error)

  /** The fields of a sign-up request other than the id: stored as given. */
  datatype Profile = Profile(name: string, email: string, profile: string, password: string)

  datatype User = User(id: int, info: Profile, follow: Option<set<int>>)

  datatype Tweet = Tweet(userId: int, text: string)

  /** The answer of a successful timeline request. */
  datatype TimelineView = TimelineView(userId: int, timeline: seq<Tweet>)

  /** Longest tweet text accepted, in characters. */
  const MaxTweetLength := 300

  // ---------------------------------------------------------------------------
  // Follow sets
  //
  // The store's Follow, Unfollow and Timeline methods are proved to replace the
  // user's record by Followed, Unfollowed and SeenByTimeline respectively, so
  // the lemmas below about those functions hold of the store's handlers too.

  /** The followed ids of a record, the empty set while none is stored. */
  function FollowSet(u: User): (s: set<int>)
    ensures u.follow.None? ==> s == {}
    ensures u.follow.Some? ==> s == u.follow.value
  {
    match u.follow
    case None => {}
    case Some(s) => s
  }

  /** The ids whose tweets the timeline of user `self` shows. */
  function Audience(u: User, self: int): (a: set<int>)
    ensures self in a
    ensures FollowSet(u) <= a
    ensures a - {self} <= FollowSet(u)
  {
    FollowSet(u) + {self}
  }

  /** The record after `setdefault('follow', set()).add(target)`. */
  function Followed(u: User, target: int): (r: User)
    ensures r.id == u.id && r.info == u.info
    ensures r.follow.Some?
    ensures FollowSet(r) == FollowSet(u) + {target}
  {
    u.(follow := Some(FollowSet(u) + {target}))
  }

  /** The record after `setdefault('follow', set()).discard(target)`. */
  function Unfollowed(u: User, target: int): (r: User)
    ensures r.id == u.id && r.info == u.info
    ensures r.follow.Some?
    ensures FollowSet(r) == FollowSet(u) - {target}
  {
    u.(follow := Some(FollowSet(u) - {target}))
  }

  /**
   * The record after a timeline request for `self`: a stored follow set is
   * the very set the request adds `self` to; a missing one stays missing.
   */
  function SeenByTimeline(u: User, self: int): (r: User)
    ensures r.id == u.id && r.info == u.info
    ensures r.follow.Some? <==> u.follow.Some?
    ensures u.follow.Some? ==> self in FollowSet(r) && FollowSet(r) == Audience(u, self)
    ensures u.follow.None? ==> r == u
    ensures Audience(r, self) == Audience(u, self)
  {
    match u.follow
    case None => u
    case Some(s) => u.(follow := Some(s + {self}))
  }

  /** Following twice is following once. */
  lemma FollowIdempotent(u: User, target: int)
    ensures Followed(Followed(u, target), target) == Followed(u, target)
  {
  }

  /** Unfollowing an id that is not followed leaves the followed ids as they were. */
  lemma UnfollowAbsentKeepsContents(u: User, target: int)
    requires target !in FollowSet(u)
    ensures FollowSet(Unfollowed(u, target)) == FollowSet(u)
    ensures u.follow.Some? ==> Unfollowed(u, target) == u
  {
  }

  /**
   * Unfollow undoes a follow of an id that was not followed before: the
   * followed ids are restored, though the set is now stored even if it was not.
   */
  lemma FollowThenUnfollow(u: User, target: int)
    requires target !in FollowSet(u)
    ensures FollowSet(Unfollowed(Followed(u, target), target)) == FollowSet(u)
    ensures Unfollowed(Followed(u, target), target) == u.(follow := Some(FollowSet(u)))
  {
  }

  /** Following oneself does not change whose tweets one's timeline shows. */
  lemma SelfFollowInvisible(u: User, self: int)
    ensures Audience(Followed(u, self), self) == Audience(u, self)
  {
  }

  /** A second timeline request leaves the record as the first one did. */
  lemma TimelineTwice(u: User, self: int)
    ensures SeenByTimeline(SeenByTimeline(u, self), self) == SeenByTimeline(u, self)
  {
  }

  // ---------------------------------------------------------------------------
  // The timeline filter

  /** The tweets of `log` whose author is in `audience`, in log order. */
  function Filter(log: seq<Tweet>, audience: set<int>): (r: seq<Tweet>)
    ensures |r| <= |log|
    ensures forall t :: t in r <==> t in log && t.userId in audience
  {
    if log == [] then []
    else (if log[0].userId in audience then [log[0]] else []) + Filter(log[1..], audience)
  }

  /** Filtering two stretches of the log separately and joining them is filtering the whole. */
  lemma {:induction false} FilterConcat(x: seq<Tweet>, y: seq<Tweet>, audience: set<int>)
    ensures Filter(x + y, audience) == Filter(x, audience) + Filter(y, audience)
  {
    if x == [] {
      assert x + y == y;
    } else {
      assert (x + y)[0] == x[0];
      assert (x + y)[1..] == x[1..] + y;
      FilterConcat(x[1..], y, audience);
    }
  }

  /** A new tweet appears at the end of a filtered view exactly when its author is in the audience. */
  lemma FilterAppend(log: seq<Tweet>, t: Tweet, audience: set<int>)
    ensures t.userId in audience ==> Filter(log + [t], audience) == Filter(log, audience) + [t]
    ensures t.userId !in audience ==> Filter(log + [t], audience) == Filter(log, audience)
  {
    FilterConcat(log, [t], audience);
    assert [t][1..] == [];
  }

  /**
   * Order: a selected tweet `log[i]` sits in the filtered view right after the
   * selected tweets that precede it in the log.
   */
  lemma FilterPosition(log: seq<Tweet>, i: nat, audience: set<int>)
    requires i < |log| && log[i].userId in audience
    ensures |Filter(log[..i], audience)| < |Filter(log, audience)|
    ensures Filter(log, audience)[|Filter(log[..i], audience)|] == log[i]
  {
    assert log == log[..i] + [log[i]] + log[i + 1..];
    FilterConcat(log[..i] + [log[i]], log[i + 1..], audience);
    FilterAppend(log[..i], log[i], audience);
  }

  /** Filtering a view by a smaller audience is filtering the log by that audience. */
  lemma {:induction false} FilterNarrow(log: seq<Tweet>, small: set<int>, large: set<int>)
    requires small <= large
    ensures Filter(Filter(log, large), small) == Filter(log, small)
  {
    if log != [] {
      var head := if log[0].userId in large then [log[0]] else [];
      FilterConcat(head, Filter(log[1..], large), small);
      if log[0].userId in large {
        assert head[1..] == [];
      }
      FilterNarrow(log[1..], small, large);
    }
  }

  /**
   * A user's timeline holds all of that user's own tweets, in log order,
   * whatever the follow set is, including when none is stored.
   */
  lemma OwnTweetsInTimeline(log: seq<Tweet>, u: User, self: int)
    ensures Filter(Filter(log, Audience(u, self)), {self}) == Filter(log, {self})
    ensures forall t :: t in log && t.userId == self ==> t in Filter(log, Audience(u, self))
  {
    FilterNarrow(log, {self}, Audience(u, self));
  }

  // ---------------------------------------------------------------------------
  // The store

  class Store {
    var idCount: int
    var users: map<int, User>
    var tweets: seq<Tweet>

    /**
     * Ids 1 up to idCount - 1 are exactly the signed-up users, each record
     * carries its own key, and every follow edge and tweet refers to a user.
     */
    ghost predicate Valid()
      reads this
    {
      && idCount >= 1
      && (forall k :: k in users <==> 1 <= k < idCount)
      && (forall k :: k in users ==> users[k].id == k)
      && (forall k, f :: k in users && f in FollowSet(users[k]) ==> f in users)
      && (forall i :: 0 <= i < |tweets| ==> tweets[i].userId in users)
    }

    constructor ()
      ensures Valid()
      ensures idCount == 1 && users == map[] && tweets == []
    {
      idCount := 1;
      users := map[];
      tweets := [];
    }

    /** Stores a new user under the next id and advances the counter by one. */
    method SignUp(info: Profile) returns (user: User)
      requires Valid()
      modifies this
      ensures Valid()
      ensures user == User(old(idCount), info, None)
      ensures old(idCount) !in old(users)
      ensures forall k :: k in old(users) ==> k < user.id
      ensures users == old(users)[user.id := user]
      ensures idCount == old(idCount) + 1
      ensures tweets == old(tweets)
    {
      user := User(idCount, info, None);
      users := users[idCount := user];
      idCount := idCount + 1;
    }

    /**
     * Appends a tweet of a known user; the author is checked before the
     * length, and a failed request leaves the log as it was.
     */
    method PostTweet(userId: int, text: string) returns (r: Result<()>)
      requires Valid()
      modifies this
      ensures Valid()
      ensures users == old(users) && idCount == old(idCount)
      ensures userId !in users ==> r == Err(UserNotExist) && tweets == old(tweets)
      ensures userId in users && |text| > MaxTweetLength ==>
                r == Err(Over300) && tweets == old(tweets)
      ensures userId in users && |text| <= MaxTweetLength ==>
                r == Ok(()) && tweets == old(tweets) + [Tweet(userId, text)]
    {
      if userId !in users {
        return Err(UserNotExist);
      }
      if |text| > MaxTweetLength {
        return Err(Over300);
      }
      tweets := tweets + [Tweet(userId, text)];
      r := Ok(());
    }

    /** Adds `target` to the follow set of `userId`; returns the updated record. */
    method Follow(userId: int, target: int) returns (r: Result<User>)
      requires Valid()
      modifies this
      ensures Valid()
      ensures idCount == old(idCount) && tweets == old(tweets)
      ensures userId !in old(users) || target !in old(users) ==>
                r == Err(NotExistUser) && users == old(users)
      ensures userId in old(users) && target in old(users) ==>
                && r == Ok(Followed(old(users)[userId], target))
                && users == old(users)[userId := r.value]
    {
      if userId !in users || target !in users {
        return Err(NotExistUser);
      }
      var user := Followed(users[userId], target);
      users := users[userId := user];
      r := Ok(user);
    }

    /** Removes `target` from the follow set of `userId`; returns the updated record. */
    method Unfollow(userId: int, target: int) returns (r: Result<User>)
      requires Valid()
      modifies this
      ensures Valid()
      ensures idCount == old(idCount) && tweets == old(tweets)
      ensures userId !in old(users) || target !in old(users) ==>
                r == Err(NotExistUser) && users == old(users)
      ensures userId in old(users) && target in old(users) ==>
                && r == Ok(Unfollowed(old(users)[userId], target))
                && users == old(users)[userId := r.value]
    {
      if userId !in users || target !in users {
        return Err(NotExistUser);
      }
      var user := Unfollowed(users[userId], target);
      users := users[userId := user];
      r := Ok(user);
    }

    /**
     * The tweets of the user and of everyone the user follows, in log order.
     * A stored follow set gains the user's own id as a side effect.
     */
    method Timeline(userId: int) returns (r: Result<TimelineView>)
      requires Valid()
      modifies this
      ensures Valid()
      ensures idCount == old(idCount) && tweets == old(tweets)
      ensures userId !in old(users) ==> r == Err(NotExistUser) && users == old(users)
      ensures userId in old(users) ==>
                && r == Ok(TimelineView(userId, Filter(tweets, Audience(old(users)[userId], userId))))
                && users == old(users)[userId := SeenByTimeline(old(users)[userId], userId)]
    {
      if userId !in users {
        return Err(NotExistUser);
      }
      var user := users[userId];
      var audience := Audience(user, userId);
      if user.follow.Some? {
        users := users[userId := user.(follow := Some(audience))];
      }
      r := Ok(TimelineView(userId, Filter(tweets, audience)));
    }
  }

  /** The two views the scenario below expects of its two-tweet log. */
  lemma ScenarioViews()
    ensures Filter([Tweet(1, "hello"), Tweet(2, "world")], {1, 2}) == [Tweet(1, "hello"), Tweet(2, "world")]
    ensures Filter([Tweet(1, "hello"), Tweet(2, "world")], {2}) == [Tweet(2, "world")]
  {
  }

  /**
   * Two users, two tweets, one follow: the first user's timeline shows both
   * tweets in posting order, the second user's only its own.
   */
  method TwoUserScenario(a: Profile, b: Profile)
  {
    var store := new Store();
    var ua := store.SignUp(a);
    var ub := store.SignUp(b);
    assert ua.id == 1 && ub.id == 2;

    var posted := store.PostTweet(1, "hello");
    assert posted == Ok(());
    posted := store.PostTweet(2, "world");
    assert posted == Ok(());
    posted := store.PostTweet(3, "nobody");
    assert posted == Err(UserNotExist) && |store.tweets| == 2;

    var followed := store.Follow(1, 2);
    assert followed.Ok?;

    assert store.tweets == [Tweet(1, "hello"), Tweet(2, "world")];
    assert FollowSet(store.users[1]) + {1} == {1, 2};
    assert FollowSet(store.users[2]) + {2} == {2};
    ScenarioViews();

    var view := store.Timeline(1);
    assert view == Ok(TimelineView(1, [Tweet(1, "hello"), Tweet(2, "world")]));
    view := store.Timeline(2);
    assert view == Ok(TimelineView(2, [Tweet(2, "world")]));
  }

  /**
   * The length limit is inclusive: 300 characters are accepted, 301 are not.
   * Unfollowing a user who was never followed is accepted and keeps the
   * followed ids as they were.
   */
  method LimitScenario(a: Profile, b: Profile)
  {
    var store := new Store();
    var ua := store.SignUp(a);
    var ub := store.SignUp(b);

    var posted := store.PostTweet(1, seq(301, _ => 'x'));
    assert posted == Err(Over300) && store.tweets == [];
    posted := store.PostTweet(1, seq(300, _ => 'x'));
    assert posted == Ok(()) && |store.tweets| == 1;
    posted := store.PostTweet(1, "");
    assert posted == Ok(()) && |store.tweets| == 2;

    var dropped := store.Unfollow(1, 2);
    assert dropped.Ok? && FollowSet(store.users[1]) == {};
  }
}

# Social-feed store, modelled in Dafny

`app.py` is a small Flask service that keeps an in-memory social feed in three
globals: an id counter starting at 1, a dictionary of user records keyed by id,
and an append-only list of tweets. Each user record may hold a set of
followed ids. Python's `setdefault` creates that set on the first follow or
unfollow, so before that the set is absent. Five handlers change or read this
state, one request at a time:

- `sign_up` stores the request's fields under the next id and advances the counter;
- `tweet` checks that the author exists, then that the text has at most 300
  characters, then appends `{user_id, tweet}` to the log;
- `follow` / `unfollow` check that both ids exist, then add or discard the edge;
- `timeline` returns, in log order, the tweets whose author is the user or
  someone the user follows. When a follow set is stored, the request also adds
  the user's own id to it in place, because it works on the stored set itself
  and not on a copy.

`feed.dfy` (module `Feed`) holds the model:

- the store is the class `Feed.Store`. Its fields are `idCount`, `users` and
  `tweets`. `Valid()` states its invariant: ids `1 .. idCount-1` are exactly
  the signed-up users, each record carries its own key, and every follow edge
  and every tweet author is a signed-up user;
- the handlers are methods of the store. They return `Result<T>`: `Ok(...)` on
  success, or `Err(...)` with `UserNotExist`, `Over300` or `NotExistUser`
  (texts "User not exist", "Over 300" and "Not exist User");
- the record updates are pure functions on `User`: `Followed`, `Unfollowed` and
  `SeenByTimeline`;
- the list comprehension of the timeline is the function `Filter`.

Two client methods replay two concrete scenarios. `TwoUserScenario` signs up
two users, posts two tweets, makes one follow and checks both timelines.
`LimitScenario` checks the 300/301-character limit, an empty tweet, and an
unfollow of an edge that was never there.

The model follows the code, including where a reader might expect otherwise:

- the sign-up answer carries every field of the request, the password included;
- an empty tweet is accepted;
- `unfollow` by a user with no stored follow set creates an empty one, even when the edge was absent;
- `timeline` changes the stored follow set.

## Model

| member | source | states |
|---|---|---|
| `Feed.Store.constructor` | app.py:19-21 | the counter starts at 1, with no users and an empty log; the invariant holds |
| `Feed.Store.SignUp` | app.py:30-36 | the new record gets the current counter as id and no follow set. The id was not a key before and is above every existing key, so nothing is overwritten and successive ids strictly increase. The counter grows by exactly one; the log is unchanged; the invariant is kept |
| `Feed.Store.PostTweet` | app.py:39-56 | an unknown author gives `UserNotExist` whatever the length, because that check comes first. A known author with more than 300 characters gives `Over300`. Either error leaves the log unchanged. Otherwise, including the empty text, `{userId, text}` is appended at the end and earlier entries stay as they were. Users and counter never change |
| `Feed.Store.Follow` | app.py:59-70 | if either id is unknown: `NotExistUser` and no change. Otherwise only the user's record is replaced, by `Followed`, and that record is returned |
| `Feed.Store.Unfollow` | app.py:73-84 | the same checks as follow. On success only the user's record is replaced, by `Unfollowed`, and that record is returned |
| `Feed.Store.Timeline` | app.py:88-99 | an unknown user gives `NotExistUser` and no change. Otherwise the answer is the user id with `Filter(log, follow set ∪ {self})`. The log and counter are unchanged, and only the user's own record changes, as `SeenByTimeline` says |
| `Feed.Message` | app.py:45-90 | each error kind has its own answer text: "User not exist" for an unknown tweet author, "Over 300" for an over-long tweet, "Not exist User" for an unknown id in follow, unfollow or timeline; no two kinds share a text |
| `Feed.FollowSet` | app.py:68-92 | the followed ids of a record: the stored set, or the empty set when none is stored, as the `set()` default of `setdefault` and `get` gives |
| `Feed.Audience` | app.py:92-93 | the timeline audience contains the user's own id and every followed id, and nothing else |
| `Feed.Followed` | app.py:67-68 | the follow set is now stored and equals the old one (empty if absent) plus the target; id and payload are unchanged |
| `Feed.Unfollowed` | app.py:81-82 | the follow set is now stored, even where none was, and equals the old one minus the target; id and payload are unchanged |
| `Feed.SeenByTimeline` | app.py:92-93 | a stored follow set becomes the whole audience, own id included. A missing one stays missing and the record is unchanged. Either way the audience itself is unchanged |
| `Feed.Filter` | app.py:94 | a tweet is in the result if and only if it is in the log and its author is in the audience; the result is no longer than the log |
| `Feed.FilterConcat` | app.py:94 | filtering two stretches of the log and joining the results equals filtering the joined log, so the log's order is kept |
| `Feed.FilterAppend` | app.py:51-54 | a newly appended tweet appears at the end of a view exactly when its author is in the audience; otherwise the view is unchanged |
| `Feed.FilterPosition` | app.py:94 | a selected tweet `log[i]` sits in the view right after the selected tweets that come before `i` |
| `Feed.FilterNarrow` | app.py:94 | filtering a view again by a smaller audience equals filtering the log by that audience |
| `Feed.OwnTweetsInTimeline` | app.py:92-94 | a timeline contains all of the user's own tweets, in log order, whatever the follow set is, including when none is stored |
| `Feed.FollowIdempotent` | app.py:68 | following twice gives the same record as following once |
| `Feed.UnfollowAbsentKeepsContents` | app.py:82 | unfollowing an id that is not followed keeps the followed ids. If a set was stored, the record is unchanged |
| `Feed.FollowThenUnfollow` | app.py:68-82 | follow then unfollow of an id that was not followed restores the followed ids. The only trace left is that the set is now stored |
| `Feed.SelfFollowInvisible` | app.py:68-94 | following oneself does not change the timeline's audience |
| `Feed.TimelineTwice` | app.py:92-93 | a second timeline request leaves the record as the first one left it |
| `Feed.ScenarioViews` | app.py:94 | for the log `[(1,"hello"), (2,"world")]`: audience {1,2} sees both tweets in that order, and audience {2} sees only `(2,"world")` |

## Left out

- Flask routing, parsing of the JSON body, the `int(...)` conversion of ids
  and its failure, `jsonify`, and the HTTP status codes: the handlers take
  typed arguments and return a `Result`.
- `CustomJSONEncoder`: it only turns sets into lists for the JSON library.
- `/ping`: a liveness answer with no state.
- The non-id user fields are an opaque `Profile` (name, email, profile,
  password) and are stored as given. A sign-up body that already carries a
  `follow` key is not modelled: the new record always starts with no follow set.
- Concurrent requests on the shared globals: the model runs one handler call
  at a time.
- Tweet length is the number of Dafny characters, that is Unicode scalar
  values. This matches Python's `len` on text without lone surrogates.

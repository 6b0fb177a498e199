# Twitter timeline facade, modelled in Dafny

This project models the core of a hybrid push/pull timeline service. When a
user posts, the service looks at the author:

- A **celebrity** has more followers than a threshold. Their post is written
  once, to their own capped post list (pull).
- Any other author's post is pushed onto the capped recommendation list of
  every follower who has logged in recently enough (push).

Reading a timeline joins two sources and shuffles the result:

- the reader's own recommendation list, and
- the post lists of the celebrities the reader follows.

The model covers five parts:

- the decision engine (`TwitterTimelineFacade`, index.js);
- the capped-list feed store (`RecommendationRepo`, recommendation.js);
- the follower-graph reads and the last-login day arithmetic (`FollowerRepo`,
  follower.js);
- the in-memory test doubles and the scenarios the facade tests run against
  them (test/timeline.test.js);
- the store-key namespaces shared by both repositories.

Modules, one per file:

| file | module | models |
|---|---|---|
| common.dfy | `Common` | ids, `Option`, the `??` default, `Array.prototype.filter` and its laws |
| keys.dfy | `Keys` | the five key namespaces `timeline.post.`, `timeline.recommendation.`, `timeline.follower.`, `timeline.last.login.` and `timeline.followee.` |
| graph.dfy | `SocialGraph` | the four queries the facade puts to a follower repository, as one value |
| recommendation.dfy | `Recommendation` | the list store: list-or-other-type values, LTRIM, the append transaction, the batched read, and the repository class |
| follower.dfy | `Follower` | the set and timestamp store, floor-day arithmetic, and the repository as the facade sees it |
| timeline.dfy | `Timeline` | configuration defaults, the celebrity and activity tests, Fisher–Yates, and the facade class with `Post` and `Retrieve` |
| mocks.dfy | `MockRepos` | the two test doubles, the delete fan-out the tests expect, and the double-based scenarios |
| scenarios.dfy | `TimelineScenarios` | the facade scenarios, run against the list store with the follower double as the graph |

How the main operations are modelled:

- **Imperative code becomes imperative Dafny.**
  - `shuffle` is a `while` loop over an `array`. Each random index is a choice
    from `[0, currentIndex)`.
  - `post` is a loop of appends on the repository object.
  - The append transaction, `getPosts` and the doubles' loops are methods
    with loop invariants.
  - Each method is proved against a specification function: `PostEffect`,
    `AfterAppend`, `PostsOf` or `Concat`.
- **The store** is a `map<string, Value>`. A key holds a list of
  `Record(postId, postMeta)`, or a value of another type. Reading or
  appending to such a key is the error path.
  - An append pushes the record, then trims with `LTRIM key -limit -1`. The
    trim follows the store's index rules exactly.
  - A list that becomes empty disappears, as it does in the store.
- **The follower graph** is one value of four total functions. Both the
  store-backed repository (`Follower.View(db, now)`) and the double
  (`MockFollowerRepo.View()`) produce one.

## Model

| member | source | states |
|---|---|---|
| Common.Filter | index.js:52-57 | every kept element is from the input and satisfies the test; every input element that satisfies it is kept; the result is never longer |
| Common.FilterConcat | index.js:54-56 | filtering distributes over concatenation, so the kept elements keep their relative order |
| Common.FilterMultiset | index.js:54-56 | a kept element occurs exactly as often as in the input; a dropped one never occurs |
| Common.FilterNoDuplicates | index.js:54-56 | filtering a list without repeats gives a list without repeats |
| Common.DistinctCard | follower.js:37-41 | a member list without repeats is as long as the set it enumerates |
| Keys.PostKey | recommendation.js:29-31 | an author's post list lives under `timeline.post.` followed by the id |
| Keys.RecommendationKey | recommendation.js:32-34 | a follower's recommendation list lives under `timeline.recommendation.` followed by the id |
| Keys.FollowerKey | follower.js:28-30 | a user's follower set lives under `timeline.follower.` followed by the id |
| Keys.LastLoginKey | follower.js:31-33 | a user's last-login timestamp lives under `timeline.last.login.` followed by the id |
| Keys.FolloweeKey | follower.js:34-36 | a user's followee set lives under `timeline.followee.` followed by the id |
| Keys.IdOf | recommendation.js:29-34 | a key splits into a prefix and an id exactly when it lies in that namespace |
| Keys.IdOfKey | recommendation.js:29-34 | reading the id back out of a built key gives the id again |
| Keys.KeysInjective | recommendation.js:29-34 | each key constructor is injective: different users never share a key |
| Keys.KeysDisjoint | follower.js:28-36 | keys from two different constructors never collide, for any two ids |
| Recommendation.Lrange | recommendation.js:79-83 | reading a whole list fails exactly on a key of another type; otherwise it returns the key's list, and [] for an absent key |
| Recommendation.Window | recommendation.js:44 | `LTRIM -limit -1` keeps the newest `limit` records for a positive limit, everything for limit 0, and drops the oldest `-limit` for a negative one |
| Recommendation.RecommendationRepo.constructor | recommendation.js:14-27 | the repository starts on the given store contents |
| Recommendation.RecommendationRepo.AppendData | recommendation.js:36-51 | the store becomes the push-then-trim result on that key; the call reports failure exactly when the key holds another type, and then nothing changes |
| Recommendation.RecommendationRepo.AppendPost | recommendation.js:53-56 | the append goes to `timeline.post.<author>`; the outcome is not returned |
| Recommendation.RecommendationRepo.AppendRecommendation | recommendation.js:75-78 | the append goes to `timeline.recommendation.<follower>`; the outcome is not returned |
| Recommendation.RecommendationRepo.GetPosts | recommendation.js:57-74 | the loop returns the authors' lists concatenated in argument order, or the failure of the batched read |
| Recommendation.RecommendationRepo.GetRecommendations | recommendation.js:79-83 | returns the whole recommendation list of the user |
| Recommendation.PostsOfOk | recommendation.js:66-69 | the batched read succeeds iff no listed author's key holds another type; a failure is always `GetPostsFailed` |
| Recommendation.PostsOfFailsOnce | recommendation.js:66-69 | one unreadable key fails the whole batched read, with no partial result |
| Recommendation.PostsOfConcat | recommendation.js:57-74 | reading `a + b` is reading `a`, then `b`, with the first failure winning |
| Recommendation.AbsentAuthorAddsNothing | recommendation.js:57-74 | an author with no post list contributes nothing to the batched read |
| Recommendation.PostsOfMembers | recommendation.js:57-74 | a record is in a successful batched read iff it is on a listed author's list |
| Recommendation.PostsOfReadsOnly | recommendation.js:57-62 | the batched read depends only on the listed authors' keys |
| Recommendation.AppendEffect | recommendation.js:36-51 | an append changes no other key, keeps the key's type, and leaves the window of old list plus record under the key |
| Recommendation.AppendOtherKey | recommendation.js:36-51 | every key other than the appended one reads the same after the append |
| Recommendation.AppendLocal | recommendation.js:36-51 | what an append leaves under its key depends only on what the key held |
| Recommendation.NewestSurvives | recommendation.js:41-45 | with a positive limit, the new record is the last element and the length is min(limit, old length + 1) |
| Recommendation.AppendedPostReadsBack | recommendation.js:36-74 | an appended record reads back through `getPosts` as the same pair, in the newest position, and the list has length min(limit, old + 1) |
| Recommendation.SlidingWindow | recommendation.js:41-45 | repeated appends to a list within a positive limit leave exactly the newest `limit` of everything appended, in insertion order |
| Recommendation.EvictsOldest | test/recommendation.test.js:45-59 | with limit 2, appending r1, r2 and r3 to an empty key leaves [r2, r3] |
| Recommendation.AfterFanOut | index.js:75-82 | the store after one append per follower, in follower order; its frame and per-recipient effect are `FanOutFrame` and `FanOutAt` |
| Recommendation.FanOutFrame | index.js:72-83 | a fan-out writes no key outside the recipients' recommendation keys |
| Recommendation.FanOutAt | index.js:72-83 | with distinct recipients, each recipient's list receives exactly one append |
| Follower.CountFollowers | follower.js:37-41 | the number of members of the user's follower set, 0 when there is none; stated by `CountIsCardinality` |
| Follower.GetFollowers | follower.js:42-46 | the members of the user's follower set in the store's order, [] when there is none |
| Follower.GetFollowees | follower.js:53-57 | the members of the user's followee set in the store's order, [] when there is none |
| Follower.GetLastLoginDays | follower.js:47-52 | the floored day count since the stored login; a user without a stored timestamp counts from time 0 |
| Follower.LastLoginDays | follower.js:47-52 | the result is the floor of the elapsed milliseconds over a day: days * 86400000 <= now - lastLogin < (days + 1) * 86400000 |
| Follower.CountIsCardinality | follower.js:37-41 | the follower count is the number of members of the follower set, and 0 when the set is absent |
| Follower.ViewFollowers | follower.js:42-46 | the repository hands the facade repeat-free follower lists whose length is the follower count |
| Follower.DaysAreFloored | follower.js:51 | a future login gives a negative count; a past one a non-negative count; one millisecond ahead gives -1 |
| Follower.LoginExamples | test/follower.test.js:81-95 | logins now, 1.5 days ago, 1.5 days ahead and 100 ms ago give 0, 1, -2 and 0 days |
| Follower.MissingLoginIsAncient | follower.js:47-52 | a user without a stored login counts from time 0, which gives more than 999 days once the clock is past 1000 days |
| Follower.DaysGrowWithTime | follower.js:47-52 | the day count never decreases as the clock advances |
| Timeline.Configure | index.js:28-32 | each setting is the given value, or its default 800, 1000 or 7 when missing; stated by `ConfigurationDefaults` |
| Timeline.IsCelebrity | index.js:38-44 | an author is a celebrity when their follower count is strictly above the threshold; stated by `CelebrityBoundary` |
| Timeline.IsInactiveUser | index.js:46-50 | a user is inactive when their day count is strictly above the threshold |
| Timeline.ActiveFollowers | index.js:52-57 | the followers that are not inactive, in follower order; stated by `ActiveFollowersExactly` |
| Timeline.CelebrityFollowees | index.js:87-90 | the followees that are celebrities, in followee order; used by `TimelineMembers` and `TimelineReadable` |
| Timeline.Shuffle | index.js:3-21 | the loop terminates, and the array ends up a permutation of its initial contents |
| Timeline.AssembleTimeline | index.js:59-61 | the timeline has every entry of both sources exactly as often as they do, and no other |
| Timeline.TwitterTimelineFacade.constructor | index.js:28-36 | the facade keeps the given repository and the settings computed from the configuration |
| Timeline.TwitterTimelineFacade.Post | index.js:63-84 | the store becomes one append to the author's post list for a celebrity, or the in-order fan-out to the active followers otherwise |
| Timeline.TwitterTimelineFacade.Retrieve | index.js:86-94 | the result fails exactly when the unshuffled timeline does, with the same error; otherwise it is a permutation of it |
| Timeline.ConfigurationDefaults | index.js:28-36 | defaults 800, 1000 and 7 apply only when the configuration or a field of it is missing; a given 0 is kept |
| Timeline.CelebrityBoundary | index.js:38-44 | a follower count equal to the threshold is not a celebrity; one more is |
| Timeline.ActiveFollowersExactly | index.js:46-57 | the active followers are exactly those within the day threshold, each as often as among all followers, in their original order |
| Timeline.SingleFollower | index.js:52-57 | an author with one follower fans out to that follower exactly when the follower is active |
| Timeline.SingleFollowee | index.js:87-90 | a reader with one followee reads that followee's post list exactly when the followee is a celebrity |
| Timeline.PostFrame | index.js:63-84 | a post writes no key outside the author's post key (celebrity) or the active followers' recommendation keys |
| Timeline.CelebrityPost | index.js:64-71 | a celebrity's post changes the author's post list by one append, and changes no recommendation list and no other author's post list |
| Timeline.OrdinaryPost | index.js:72-83 | an ordinary author's post leaves every post list alone and every non-recipient's recommendation list alone; with distinct followers, each active follower's list gets one append |
| Timeline.TimelineReadable | index.js:86-94 | a timeline can be read iff the reader's recommendation key and every celebrity followee's post key hold lists |
| Timeline.TimelineMembers | index.js:86-94 | a record is on a readable timeline iff it is on the reader's recommendation list or on a followed celebrity's post list |
| Timeline.TimelineReadsOnly | index.js:86-94 | a timeline depends only on the reader's recommendation list and the celebrity followees' post lists |
| MockRepos.MockRecommendationRepo.constructor | test/timeline.test.js:8-13 | the double starts with no post lists and no recommendation lists |
| MockRepos.MockRecommendationRepo.AppendPost | test/timeline.test.js:15-20 | the id is pushed onto the author's list, which is created if absent; the limit is ignored and nothing else changes |
| MockRepos.MockRecommendationRepo.AppendRecommendation | test/timeline.test.js:21-26 | the id is pushed onto the follower's list, which is created if absent; the limit is ignored and nothing else changes |
| MockRepos.MockRecommendationRepo.GetPosts | test/timeline.test.js:30-36 | the loop returns the listed users' lists concatenated in argument order |
| MockRepos.MockRecommendationRepo.GetRecommendations | test/timeline.test.js:27-29 | the user's recommendation list, [] for an unknown user |
| MockRepos.MockRecommendationRepo.DeletePost | test/timeline.test.js:37-43 | the id is filtered out of that one user's post list, if the user has one; nothing else changes |
| MockRepos.MockRecommendationRepo.DeleteRecommendation | test/timeline.test.js:44-52 | the id is filtered out of that one user's recommendation list, if the user has one; nothing else changes |
| MockRepos.MockFollowerRepo.CountFollowers | test/timeline.test.js:129-134 | the length of the user's follower list, 0 without a follower dictionary or a list; stated by `MockCountMatchesFollowers` |
| MockRepos.MockFollowerRepo.GetFollowers | test/timeline.test.js:135-140 | the user's follower list, [] without a follower dictionary or a list |
| MockRepos.MockFollowerRepo.GetFollowees | test/timeline.test.js:152-157 | the user's followee list, [] without a followee dictionary or a list |
| MockRepos.MockFollowerRepo.LastLoginDays | test/timeline.test.js:141-149 | the recorded day count of one user, 999 without a login dictionary or an entry |
| MockRepos.MockFollowerRepo.ListLastLoginDays | test/timeline.test.js:141-151 | the loop gives every requested id an entry: the recorded day count, or 999 |
| MockRepos.WithoutRemovesOnlyTheId | test/timeline.test.js:37-43 | the filter removes every occurrence of the id, keeps every other element as often as before, and changes nothing when the id is absent |
| MockRepos.WithoutAbsent | test/timeline.test.js:37-43 | filtering out an id that is not there returns the list unchanged |
| MockRepos.ConcatAppend | test/timeline.test.js:30-36 | reading `a + b` is reading `a`, then `b` |
| MockRepos.ConcatMembers | test/timeline.test.js:30-36 | an id is read iff it is on a listed user's list; unknown users contribute nothing |
| MockRepos.MockCountMatchesFollowers | test/timeline.test.js:129-134 | the double's follower count is the length of its follower list, and 0 without one |
| MockRepos.Post | index.js:63-84 | against the recommendation double: a celebrity's post is pushed onto their own list and nothing else changes; an ordinary author's post is pushed onto each active follower's list in order and the post lists stay as they were |
| MockRepos.PushedAllAt | index.js:75-82 | after a fan-out each user's list is their old list followed by the post once per occurrence among the recipients; a non-recipient's list is unchanged |
| MockRepos.DeletePost | test/timeline.test.js:309-313 | a celebrity's delete filters the author's post list only; an ordinary author's delete filters the recommendation list of every follower, active or not |
| MockRepos.DeletedAllAt | test/timeline.test.js:309-317 | after a delete fan-out each recipient's list has lost the id and kept the rest; other lists and the set of users with lists are unchanged |
| MockRepos.DeleteReachesAllFollowers | test/timeline.test.js:309-317 | after an ordinary author's delete, no follower's recommendation list holds the post |
| MockRepos.SeedPostLists | test/timeline.test.js:95-99 | appending p1 for one author and p2, p3 for another leaves [p1] and [p2, p3] on their lists |
| MockRepos.DeleteFromPostLists | test/timeline.test.js:94-105 | for any two authors and posts p2 != p3: appending p1 for the first and p2, p3 for the second, deleting p1 and p2, and reading both authors gives [p3] |
| MockRepos.LastLoginDefaults | test/timeline.test.js:186-195 | the recorded users get 7 and 99 days; the unrecorded one gets 999 |
| MockRepos.DeleteScenarioRoles | test/timeline.test.js:276-288 | the delete scenario's graph gives users 1, 2 and 3 three, one and one followers, and the follower and followee lists the test sets up |
| MockRepos.DeleteScenarioDecisions | test/timeline.test.js:276-291 | under threshold 1 on that graph, user 1 is a celebrity, users 2 and 3 are not, and their only followers 5 and 6 are active |
| MockRepos.SeedDeleteScenario | test/timeline.test.js:298-307 | the three posts, made through the facade's post on a fresh double, leave p1 on the celebrity's list, p2 on user 5's recommendation list and p3 on user 6's; user 2's recommendation list is empty |
| MockRepos.DeleteOwnPost | test/timeline.test.js:309 | a celebrity deleting the only post on their list empties it and leaves the recommendation lists alone |
| MockRepos.DeleteFromOnlyFollower | test/timeline.test.js:310-313 | an ordinary author's delete empties their single follower's one-post list, leaves the post lists alone and leaves other users' recommendation lists unchanged |
| MockRepos.EmptyTimeline | test/timeline.test.js:314-317 | a reader with an empty recommendation list and one followee, whose post list is empty if that followee is a celebrity, reads an empty timeline |
| MockRepos.DeleteFanOutScenario | test/timeline.test.js:274-318 | after the three posts and their deletes, users 2, 5 and 6 all read empty timelines, including the follower who became inactive before the delete |
| TimelineScenarios.ProcessRoles | test/timeline.test.js:201-215 | under threshold 1, user 1 is a celebrity and 2 and 3 are not; user 2's follower is active and user 3's is not; user 2 reads user 1's posts and user 5 reads no celebrity |
| TimelineScenarios.ProcessStores | test/timeline.test.js:225-240 | with threshold 1, the celebrity's post lands only on its own list; the ordinary author's post reaches its active follower; the post whose only follower is inactive changes nothing |
| TimelineScenarios.ProcessFirstTimeline | test/timeline.test.js:224-227 | the celebrity's follower reads exactly the celebrity's post |
| TimelineScenarios.ProcessSecondTimeline | test/timeline.test.js:230-234 | the active follower reads exactly the pushed post |
| TimelineScenarios.ProcessUntouched | test/timeline.test.js:229-240 | the ordinary authors' post lists and the inactive follower's recommendation list stay absent |
| TimelineScenarios.ProcessNormal | test/timeline.test.js:199-241 | run through the facade, the scenario yields exactly the lists and timelines the test expects |
| TimelineScenarios.AssembleRoles | test/timeline.test.js:245-257 | under threshold 1, user 1 is a celebrity and user 2 is not; user 2's only follower 3 is active; user 3 reads user 1's posts only |
| TimelineScenarios.AssembleFirstStore | test/timeline.test.js:264-265 | the celebrity's post lands on their own list only |
| TimelineScenarios.AssembleSecondStore | test/timeline.test.js:266-267 | the ordinary author's post lands on their one follower's recommendation list only |
| TimelineScenarios.AssembleTimelineRead | test/timeline.test.js:269-271 | the unshuffled timeline of that follower is the pushed post, then the celebrity's |
| TimelineScenarios.AssemblePosts | test/timeline.test.js:243-268 | through a fresh facade, the two posts leave exactly those two lists in the store |
| TimelineScenarios.AssembleResult | test/timeline.test.js:243-272 | the retrieved timeline succeeds and holds exactly the two posts, each once |
| TimelineScenarios.StoredLoginActivity | index.js:46-50 | with the store-backed graph and default settings, a user with no stored login is inactive exactly when the clock has passed eight days, and a future login is always active |

## Left out

- Redis client construction, host and port configuration, and the
  `multi`/`pipeline`/`exec` transport (recommendation.js:14-27, follower.js:12-26).
  The store is an in-memory map. A transaction is one atomic step.
- `async`/`await`. The facade calls the asynchronous repositories without
  awaiting them (index.js:39, :53, :87). Against the store-backed
  repositories, a `Promise` compared with a number is false, and `.filter`
  on a `Promise` throws. Every call is modelled as synchronous.
  `appendPost`/`appendRecommendation` do not await the append
  (recommendation.js:55, :77), so its failure never reaches the caller. The
  model discards the outcome in the same way.
- JSON encoding of the stored record (recommendation.js:37-40, :70). A record
  is the pair `Record(postId, postMeta)`, and `postMeta` is an opaque string.
- `Math.random` (index.js:10). Each random index is an unconstrained choice
  in `[0, currentIndex)`.
- Timeline.Shuffle: its contract states a permutation only, not that every
  permutation is equally likely, because probability is not expressible
  here.
- `Date.now()` (follower.js:50) is the parameter `now`.
- Follower.LastLoginDays: computed with exact integer floor division. The
  source divides in floating point twice (`/ 1000 / 86400`), and its
  rounding is not modelled.
- The stored timestamp is a number. A non-numeric stored value, which the
  source's coercion turns into `NaN`, is not modelled.
- The store's set enumeration order (`smembers`) is unspecified. The
  snapshot fixes one order per set.
- The limit is an integer. A fractional limit is not modelled.
- Only two kinds of store value are distinguished: a list, and any other
  type.
- error.js is an exception class hierarchy. Failures are the `Error`
  datatype.
- `RecommendationPostError` (recommendation.js:68) is not defined anywhere,
  so the source actually throws a reference error at that point. The model
  reports the failure `GetPostsFailed`.
- The facade defines no `deletePost`, but test/timeline.test.js:309-313
  calls one. `MockRepos.DeletePost` is the delete the test expects of it:
  - a celebrity's delete goes to their own post list;
  - any other author's delete goes to every follower, active or not.
- The follower double has no `getLastLoginDays`, which index.js:48 calls.
  Its graph view reports the day count its `listLastLoginDays` gives.
  Likewise, test/follower.test.js:89 calls a `listLastLoginDays` that
  follower.js does not define. `Follower.LoginExamples` states its expected
  values through `getLastLoginDays`.
- The doubles' ids are numbers in the tests and strings (`"1"`) here. Arrays
  the double returns alias its stored arrays; the model returns values.
- The double's `getRecommendations` (test/timeline.test.js:27-29) is the
  function `MockRecommendationRepo.GetRecommendations`. It has no contract
  of its own, since it is a single lookup.
- test/integration.test.js and the remaining store-backed tests are used as
  evidence only.
- Feeds are plain insertion-order lists. Nothing ranks them by creation
  time.
- Activity is asked per follower through `getLastLoginDays` (index.js:48).
  No batched login lookup is made.
- A missing timestamp counts from time 0 (follower.js:49-51). Under the
  default threshold of 7, such a user is inactive once the clock has passed
  its first eight days.
- The facade's constructor takes no follower repository, although index.js:28
  and :35 store one. `Post` and `Retrieve` take the follower graph on every
  call instead. The test's change to a login dictionary between two deletes
  (test/timeline.test.js:312) is a new graph value passed to the last delete.
- The facade is bound to the store-backed repository. Against the
  recommendation double, its post, delete and read are `MockRepos.Post`,
  `MockRepos.DeletePost` and `MockRepos.TimelineOf`.
- The doubles' dictionaries are plain JavaScript objects. An id naming an
  `Object.prototype` member (`toString`, `constructor`) is already "in" them,
  so there `appendPost` throws and `countFollowers` returns 1. The model's
  maps have no inherited entries, so this case is not modelled.

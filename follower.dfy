/** The store-backed follower repository: read-only lookups of the follower
    and followee sets and of the last-login timestamps, plus the conversion of
    a timestamp into whole days since that login. */
module Follower {
  import opened Common
  import opened Keys
  import opened SocialGraph

  /** One day in milliseconds, the unit of the stored timestamps. */
  const MillisPerDay: int := 1000 * 86400

  /** The part of the store the repository reads: sets of user ids, each
      given in the order the store enumerates its members, and last-login
      timestamps in milliseconds. */
  datatype Snapshot = Snapshot(sets: map<string, seq<UserId>>, lastLogin: map<string, int>)

  /** Every enumerated set lists each member once. */
  predicate WellFormed(db: Snapshot)
  {
    forall key :: key in db.sets ==> NoDuplicates(db.sets[key])
  }

  /** The members of the set under `key`; an absent set has none. */
  function Members(db: Snapshot, key: string): seq<UserId>
  {
    if key in db.sets then db.sets[key] else []
  }

  function CountFollowers(db: Snapshot, userId: UserId): nat
  {
    |Members(db, FollowerKey(userId))|
  }

  function GetFollowers(db: Snapshot, userId: UserId): seq<UserId>
  {
    Members(db, FollowerKey(userId))
  }

  function GetFollowees(db: Snapshot, userId: UserId): seq<UserId>
  {
    Members(db, FolloweeKey(userId))
  }

  /** Whole days elapsed between a login at `lastLogin` and `now`, rounded
      down: a login in the future gives a negative count. */
  function LastLoginDays(now: int, lastLogin: int): (days: int)
    ensures days * MillisPerDay <= now - lastLogin < (days + 1) * MillisPerDay
  {
    (now - lastLogin) / MillisPerDay
  }

  /** The day count of one user; a user without a stored timestamp counts
      as having logged in at time 0. */
  function GetLastLoginDays(db: Snapshot, now: int, follower: UserId): int
  {
    var key := LastLoginKey(follower);
    LastLoginDays(now, if key in db.lastLogin then db.lastLogin[key] else 0)
  }

  /** The repository as the facade sees it at instant `now`. */
  function View(db: Snapshot, now: int): Graph
  {
    Graph(
      u => CountFollowers(db, u),
      u => GetFollowers(db, u),
      u => GetFollowees(db, u),
      u => GetLastLoginDays(db, now, u))
  }

  /** The follower count is the number of members of the follower set, and 0
      when there is no such set. */
  lemma CountIsCardinality(db: Snapshot, userId: UserId)
    requires WellFormed(db)
    ensures CountFollowers(db, userId) == |set u | u in GetFollowers(db, userId)|
    ensures FollowerKey(userId) !in db.sets ==> CountFollowers(db, userId) == 0
  {
    DistinctCard(GetFollowers(db, userId));
  }

  /** The view hands the facade duplicate-free follower lists whose length
      is the follower count. */
  lemma ViewFollowers(db: Snapshot, now: int, userId: UserId)
    requires WellFormed(db)
    ensures NoDuplicates(View(db, now).followers(userId))
    ensures View(db, now).countFollowers(userId) == |View(db, now).followers(userId)|
  {
  }

  /** The count is the floor of the elapsed time in days, not its
      truncation: it is negative exactly when the login lies in the future,
      and a login one millisecond ahead already counts as -1 day. */
  lemma DaysAreFloored(now: int, lastLogin: int)
    ensures now - lastLogin < 0 ==> LastLoginDays(now, lastLogin) < 0
    ensures 0 <= now - lastLogin ==> 0 <= LastLoginDays(now, lastLogin)
    ensures now - lastLogin == -1 ==> LastLoginDays(now, lastLogin) == -1
  {
  }

  /** The day counts at the four timestamps of the repository's tests: now,
      a day and a half ago, a day and a half ahead, and 100 ms ago. */
  lemma LoginExamples(now: int)
    ensures LastLoginDays(now, now) == 0
    ensures LastLoginDays(now, now - 129600000) == 1
    ensures LastLoginDays(now, now + 129600000) == -2
    ensures LastLoginDays(now, now - 100) == 0
  {
  }

  /** A user without a stored timestamp is reported as having been away for
      more than 999 days at any instant after the first 1000 days of the
      clock. */
  lemma MissingLoginIsAncient(db: Snapshot, now: int, u: UserId)
    requires LastLoginKey(u) !in db.lastLogin
    requires now >= 1000 * MillisPerDay
    ensures GetLastLoginDays(db, now, u) > 999
  {
  }

  /** The later the instant, the larger the day count. */
  lemma DaysGrowWithTime(now1: int, now2: int, lastLogin: int)
    requires now1 <= now2
    ensures LastLoginDays(now1, lastLogin) <= LastLoginDays(now2, lastLogin)
  {
  }
}

/** The capped-list feed store. Each author's own posts live under
    `timeline.post.<author>` and each follower's pushed recommendations under
    `timeline.recommendation.<follower>`; both are lists of `{postId,
    postMeta}` records, oldest first. An append is one transaction: push the
    record on the right, then trim the list to its newest `limit` entries. */
module Recommendation {
  import opened Common
  import opened Keys

  /** One stored entry. The store keeps it serialized; here it is the pair
      itself. */
  datatype Record = Record(postId: PostId, postMeta: PostMeta)

  /** What the store holds under one key: a list of records, or a value of
      another kind, on which every list command fails. */
  datatype Value = RList(records: seq<Record>) | WrongType

  datatype Error =
    | AppendDataFailed   // a command of the append transaction failed
    | GetPostsFailed     // one of the batched post-list reads failed
    | WrongTypeReply     // a single list read was refused by the store

  datatype Result<T> = Ok(value: T) | Err(error: Error)

  datatype Outcome = Pass | Fail(error: Error)

  /** The store's contents: every key it holds, with its value. */
  type Db = map<string, Value>

  function Min(a: int, b: int): int { if a <= b then a else b }

  function Lookup(db: Db, key: string): Option<Value>
  {
    if key in db then Some(db[key]) else None
  }

  predicate WrongTypeAt(db: Db, key: string)
  {
    key in db && db[key].WrongType?
  }

  /** The list under `key`; an absent key reads as the empty list. */
  function Items(db: Db, key: string): seq<Record>
  {
    if key in db && db[key].RList? then db[key].records else []
  }

  /** Reading a whole list (range 0 to -1). */
  function Lrange(db: Db, key: string): (r: Result<seq<Record>>)
    ensures r.Ok? <==> !WrongTypeAt(db, key)
    ensures r.Ok? ==> r.value == Items(db, key)
    ensures key !in db ==> r == Ok([])
  {
    if WrongTypeAt(db, key) then Err(WrongTypeReply) else Ok(Items(db, key))
  }

  /** The store's list trim: keep the elements from `start` to `stop`
      inclusive, where a negative index counts from the end, the start is
      clamped at 0 and the stop at the last element, and an empty range
      empties the list. */
  function LTrim<T>(s: seq<T>, start: int, stop: int): seq<T>
  {
    var n := |s|;
    var from := if start < 0 then n + start else start;
    var to := if stop < 0 then n + stop else stop;
    var first := if from < 0 then 0 else from;
    if first > to || first >= n then [] else s[first .. if to >= n then n else to + 1]
  }

  /** The trim an append issues, `LTrim(s, -limit, -1)`. For a positive limit
      it keeps the newest `limit` elements in their order. A limit of 0 asks
      for the range 0..-1, which keeps everything, and a negative limit drops
      the oldest `-limit` elements instead. */
  function Window<T>(s: seq<T>, limit: int): (r: seq<T>)
    ensures 1 <= limit ==> r == s[|s| - Min(limit, |s|)..]
    ensures limit == 0 ==> r == s
    ensures limit < 0 ==> r == s[Min(-limit, |s|)..]
  {
    LTrim(s, -limit, -1)
  }

  /** Stores a list under `key`; an empty list removes the key, as the
      store does. */
  function Put(db: Db, key: string, s: seq<Record>): Db
  {
    if s == [] then db - {key} else db[key := RList(s)]
  }

  /** The list an append leaves under its key: the old list followed by the
      record, trimmed; unchanged when the key holds a value of another kind. */
  function Appended(db: Db, key: string, rec: Record, limit: int): seq<Record>
  {
    if WrongTypeAt(db, key) then Items(db, key) else Window(Items(db, key) + [rec], limit)
  }

  /** The store after one append transaction on `key`. When the key holds a
      value of another kind both commands fail and nothing changes. */
  function AfterAppend(db: Db, key: string, rec: Record, limit: int): Db
  {
    if WrongTypeAt(db, key) then db
    else Put(db, key, Window(Items(db, key) + [rec], limit))
  }

  /** The store after appending `rec` to the recommendation list of each of
      `followers`, in order. */
  function AfterFanOut(db: Db, followers: seq<UserId>, rec: Record, limit: int): Db
  {
    if followers == [] then db
    else
      var n := |followers| - 1;
      AfterAppend(AfterFanOut(db, followers[..n], rec, limit), RecommendationKey(followers[n]), rec, limit)
  }

  /** Joins two batched reads: the first failure wins, otherwise the lists
      are concatenated. */
  function Join(a: Result<seq<Record>>, b: Result<seq<Record>>): Result<seq<Record>>
  {
    if a.Err? then a else if b.Err? then b else Ok(a.value + b.value)
  }

  /** The batched read of the post lists of `authors`: their lists
      concatenated in argument order, or a failure if any read fails. */
  function PostsOf(db: Db, authors: seq<UserId>): Result<seq<Record>>
  {
    if authors == [] then Ok([])
    else
      var n := |authors| - 1;
      var last := Lrange(db, PostKey(authors[n]));
      Join(PostsOf(db, authors[..n]), if last.Err? then Err(GetPostsFailed) else last)
  }

  class RecommendationRepo {
    var db: Db

    /** Connects to a store holding `db`. */
    constructor(db: Db)
      ensures this.db == db
    {
      this.db := db;
    }

    /** Pushes the record onto the list under `key` and trims it to its
        newest `limit` records, as one transaction; a failed command turns
        into a reported failure. */
    method AppendData(key: string, postId: PostId, postMeta: PostMeta, limit: int)
      returns (outcome: Outcome)
      modifies this
      ensures db == AfterAppend(old(db), key, Record(postId, postMeta), limit)
      ensures outcome == if WrongTypeAt(old(db), key) then Fail(AppendDataFailed) else Pass
    {
      if WrongTypeAt(db, key) {
        // both queued commands are refused, and the first refusal is reported
        outcome := Fail(AppendDataFailed);
      } else {
        var list := Items(db, key) + [Record(postId, postMeta)];
        ghost var before := db;
        db := db[key := RList(list)];
        db := Put(db, key, LTrim(list, -limit, -1));
        assert db == Put(before, key, Window(list, limit));
        outcome := Pass;
      }
    }

    /** Appends to the author's own post list. The outcome of the append is
        not passed back to the caller. */
    method AppendPost(authorId: UserId, postId: PostId, postMeta: PostMeta, limit: int)
      modifies this
      ensures db == AfterAppend(old(db), PostKey(authorId), Record(postId, postMeta), limit)
    {
      var _ := AppendData(PostKey(authorId), postId, postMeta, limit);
    }

    /** Appends to a follower's recommendation list; as with `AppendPost`,
        the outcome is not passed back. */
    method AppendRecommendation(follower: UserId, postId: PostId, postMeta: PostMeta, limit: int)
      modifies this
      ensures db == AfterAppend(old(db), RecommendationKey(follower), Record(postId, postMeta), limit)
    {
      var _ := AppendData(RecommendationKey(follower), postId, postMeta, limit);
    }

    /** Reads the post lists of `celebrities` in one batch and concatenates
        them in argument order; any failed read fails the whole call. */
    method GetPosts(celebrities: seq<UserId>) returns (r: Result<seq<Record>>)
      ensures r == PostsOf(db, celebrities)
    {
      var ret := [];
      var i := 0;
      while i < |celebrities|
        invariant 0 <= i <= |celebrities|
        invariant PostsOf(db, celebrities[..i]) == Ok(ret)
      {
        var result := Lrange(db, PostKey(celebrities[i]));
        assert celebrities[..i + 1][..i] == celebrities[..i];
        if result.Err? {
          PostsOfFailsOnce(db, celebrities, i);
          return Err(GetPostsFailed);
        }
        ret := ret + result.value;
        i := i + 1;
      }
      assert celebrities[..i] == celebrities;
      r := Ok(ret);
    }

    /** Reads the user's own recommendation list. */
    method GetRecommendations(userId: UserId) returns (r: Result<seq<Record>>)
      ensures r == Lrange(db, RecommendationKey(userId))
    {
      r := Lrange(db, RecommendationKey(userId));
    }
  }

  /** The batched read succeeds exactly when every listed author's key holds
      a list; it then fails with `GetPostsFailed`. */
  lemma {:induction false} PostsOfOk(db: Db, authors: seq<UserId>)
    ensures PostsOf(db, authors).Ok? <==>
      forall i :: 0 <= i < |authors| ==> !WrongTypeAt(db, PostKey(authors[i]))
    ensures PostsOf(db, authors).Err? ==> PostsOf(db, authors).error == GetPostsFailed
  {
    if authors != [] {
      var n := |authors| - 1;
      PostsOfOk(db, authors[..n]);
      assert forall i :: 0 <= i < n ==> authors[..n][i] == authors[i];
    }
  }

  lemma PostsOfFailsOnce(db: Db, authors: seq<UserId>, i: nat)
    requires i < |authors| && WrongTypeAt(db, PostKey(authors[i]))
    ensures PostsOf(db, authors) == Err(GetPostsFailed)
  {
    PostsOfOk(db, authors);
  }

  /** Reading `a + b` in one batch is reading `a`, then `b`: the results
      come in argument order. */
  lemma {:induction false} PostsOfConcat(db: Db, a: seq<UserId>, b: seq<UserId>)
    ensures PostsOf(db, a + b) == Join(PostsOf(db, a), PostsOf(db, b))
  {
    if b == [] {
      assert a + b == a;
      JoinEmpty(PostsOf(db, a));
    } else {
      var n := |b| - 1;
      assert (a + b)[..|a + b| - 1] == a + b[..n];
      PostsOfConcat(db, a, b[..n]);
      var last := Lrange(db, PostKey(b[n]));
      JoinAssociative(PostsOf(db, a), PostsOf(db, b[..n]), if last.Err? then Err(GetPostsFailed) else last);
    }
  }

  lemma JoinEmpty(a: Result<seq<Record>>)
    ensures Join(a, Ok([])) == a
  {
    if a.Ok? {
      assert a.value + [] == a.value;
    }
  }

  lemma JoinAssociative(a: Result<seq<Record>>, b: Result<seq<Record>>, c: Result<seq<Record>>)
    ensures Join(Join(a, b), c) == Join(a, Join(b, c))
  {
    if a.Ok? && b.Ok? && c.Ok? {
      assert (a.value + b.value) + c.value == a.value + (b.value + c.value);
    }
  }

  /** An author without a post list adds nothing to a batched read. */
  lemma AbsentAuthorAddsNothing(db: Db, authors: seq<UserId>, absent: UserId)
    requires PostKey(absent) !in db
    ensures PostsOf(db, authors + [absent]) == PostsOf(db, authors)
  {
    assert (authors + [absent])[..|authors|] == authors;
    JoinEmpty(PostsOf(db, authors));
  }

  /** A record comes back from a successful batched read exactly when it is
      on the post list of one of the listed authors. */
  lemma {:induction false} PostsOfMembers(db: Db, authors: seq<UserId>, rec: Record)
    requires PostsOf(db, authors).Ok?
    ensures rec in PostsOf(db, authors).value <==>
      exists i :: 0 <= i < |authors| && rec in Items(db, PostKey(authors[i]))
  {
    if authors != [] {
      var n := |authors| - 1;
      PostsOfOk(db, authors[..n]);
      PostsOfMembers(db, authors[..n], rec);
      if rec in Items(db, PostKey(authors[n])) {
        assert rec in PostsOf(db, authors).value;
      }
      if exists i :: 0 <= i < n && rec in Items(db, PostKey(authors[..n][i])) {
        var i :| 0 <= i < n && rec in Items(db, PostKey(authors[..n][i]));
        assert authors[..n][i] == authors[i];
      }
      if exists i :: 0 <= i < |authors| && rec in Items(db, PostKey(authors[i])) {
        var i :| 0 <= i < |authors| && rec in Items(db, PostKey(authors[i]));
        if i < n {
          assert authors[..n][i] == authors[i];
        }
      }
    }
  }

  /** A batched read looks at nothing but the listed authors' keys. */
  lemma {:induction false} PostsOfReadsOnly(db1: Db, db2: Db, authors: seq<UserId>)
    requires forall a :: a in authors ==> Lookup(db1, PostKey(a)) == Lookup(db2, PostKey(a))
    ensures PostsOf(db1, authors) == PostsOf(db2, authors)
  {
    if authors != [] {
      var n := |authors| - 1;
      PostsOfReadsOnly(db1, db2, authors[..n]);
      var k := PostKey(authors[n]);
      assert Lookup(db1, k) == Lookup(db2, k);
      assert Lrange(db1, k) == Lrange(db2, k);
    }
  }

  /** An append on `key` leaves every other key as it was, and its list
      becomes the window of the old list followed by the new record. */
  lemma AppendEffect(db: Db, key: string, rec: Record, limit: int)
    ensures AfterAppend(db, key, rec, limit) - {key} == db - {key}
    ensures WrongTypeAt(AfterAppend(db, key, rec, limit), key) == WrongTypeAt(db, key)
    ensures Items(AfterAppend(db, key, rec, limit), key) == Appended(db, key, rec, limit)
  {
  }

  lemma AppendOtherKey(db: Db, key: string, rec: Record, limit: int, other: string)
    requires other != key
    ensures Lookup(AfterAppend(db, key, rec, limit), other) == Lookup(db, other)
  {
    AppendEffect(db, key, rec, limit);
    assert other in db - {key} <==> other in db;
  }

  /** What an append leaves under its own key depends only on what the key
      held before. */
  lemma AppendLocal(db1: Db, db2: Db, key: string, rec: Record, limit: int)
    requires Lookup(db1, key) == Lookup(db2, key)
    ensures Lookup(AfterAppend(db1, key, rec, limit), key) == Lookup(AfterAppend(db2, key, rec, limit), key)
  {
    assert WrongTypeAt(db1, key) == WrongTypeAt(db2, key);
    assert Items(db1, key) == Items(db2, key);
  }

  /** With a positive limit the new record is always the newest survivor,
      the list never exceeds the limit, and it grows by one until it is
      full. */
  lemma NewestSurvives(s: seq<Record>, rec: Record, limit: int)
    requires 1 <= limit
    ensures |Window(s + [rec], limit)| == Min(limit, |s| + 1)
    ensures Window(s + [rec], limit)[|Window(s + [rec], limit)| - 1] == rec
  {
  }

  /** A record appended with a positive limit reads back, as the same pair,
      as the newest entry of its author's list. */
  lemma AppendedPostReadsBack(db: Db, authorId: UserId, postId: PostId, postMeta: PostMeta, limit: int)
    requires 1 <= limit && !WrongTypeAt(db, PostKey(authorId))
    ensures var r := PostsOf(AfterAppend(db, PostKey(authorId), Record(postId, postMeta), limit), [authorId]);
      r.Ok? && |r.value| == Min(limit, |Items(db, PostKey(authorId))| + 1) &&
      r.value[|r.value| - 1] == Record(postId, postMeta)
  {
    var key := PostKey(authorId);
    var rec := Record(postId, postMeta);
    var db' := AfterAppend(db, key, rec, limit);
    AppendEffect(db, key, rec, limit);
    NewestSurvives(Items(db, key), rec, limit);
    assert [authorId][..0] == [];
    assert PostsOf(db', [authorId]) == Join(Ok([]), Lrange(db', key));
    assert [] + Items(db', key) == Items(db', key);
  }

  /** The list of one key after a run of appends, starting from a list
      already within the limit. */
  function AppendAll(s: seq<Record>, recs: seq<Record>, limit: int): seq<Record>
  {
    if recs == [] then s
    else
      var n := |recs| - 1;
      Window(AppendAll(s, recs[..n], limit) + [recs[n]], limit)
  }

  /** Trimming at each append gives the same list as trimming once at the
      end: after any run of appends the list holds exactly the newest
      `limit` records ever appended, oldest first. */
  lemma {:induction false} SlidingWindow(s: seq<Record>, recs: seq<Record>, limit: int)
    requires 1 <= limit && |s| <= limit
    ensures AppendAll(s, recs, limit) == Window(s + recs, limit)
    ensures |AppendAll(s, recs, limit)| == Min(limit, |s| + |recs|)
  {
    if recs == [] {
      assert s + recs == s;
    } else {
      var n := |recs| - 1;
      var before := s + recs[..n];
      SlidingWindow(s, recs[..n], limit);
      assert AppendAll(s, recs, limit) == Window(Window(before, limit) + [recs[n]], limit);
      WindowAbsorbs(before, recs[n], limit);
      assert s + recs == before + [recs[n]];
    }
    var w := Window(s + recs, limit);
    assert |w| == Min(limit, |s + recs|);
  }

  /** Trimming before an append loses nothing the trim after it keeps. */
  lemma WindowAbsorbs(before: seq<Record>, x: Record, limit: int)
    requires 1 <= limit
    ensures Window(Window(before, limit) + [x], limit) == Window(before + [x], limit)
  {
    var w := Window(before, limit);
    var a := Window(w + [x], limit);
    var b := Window(before + [x], limit);
    assert |a| == |b|;
    forall i | 0 <= i < |a|
      ensures a[i] == b[i]
    {
      var j := |w| + 1 - |a| + i;
      if j < |w| {
        assert a[i] == w[j];
        assert b[i] == before[|before| - |w| + j];
      }
    }
  }

  /** With room for two, appending three records to an empty list leaves
      the second and the third, in that order. */
  lemma EvictsOldest(db: Db, key: string, r1: Record, r2: Record, r3: Record)
    requires key !in db
    ensures Items(AfterAppend(AfterAppend(AfterAppend(db, key, r1, 2), key, r2, 2), key, r3, 2), key) == [r2, r3]
  {
    var db1 := AfterAppend(db, key, r1, 2);
    assert Items(db1, key) == [r1];
    var db2 := AfterAppend(db1, key, r2, 2);
    assert Items(db2, key) == [r1, r2];
  }

  /** A fan-out touches no key other than the followers' recommendation
      lists. */
  lemma {:induction false} FanOutFrame(db: Db, followers: seq<UserId>, rec: Record, limit: int, key: string)
    requires forall f :: f in followers ==> key != RecommendationKey(f)
    ensures Lookup(AfterFanOut(db, followers, rec, limit), key) == Lookup(db, key)
  {
    if followers != [] {
      var n := |followers| - 1;
      FanOutFrame(db, followers[..n], rec, limit, key);
      AppendOtherKey(AfterFanOut(db, followers[..n], rec, limit), RecommendationKey(followers[n]), rec, limit, key);
    }
  }

  /** With distinct followers, each follower's list receives the record
      exactly once: it ends as a single append would leave it. */
  lemma {:induction false} FanOutAt(db: Db, followers: seq<UserId>, rec: Record, limit: int, f: UserId)
    requires NoDuplicates(followers) && f in followers
    ensures Lookup(AfterFanOut(db, followers, rec, limit), RecommendationKey(f))
         == Lookup(AfterAppend(db, RecommendationKey(f), rec, limit), RecommendationKey(f))
  {
    var n := |followers| - 1;
    var prior := AfterFanOut(db, followers[..n], rec, limit);
    var key := RecommendationKey(f);
    if followers[n] == f {
      assert f !in followers[..n];
      forall g | g in followers[..n] ensures key != RecommendationKey(g) {
        KeysInjective(f, g);
      }
      FanOutFrame(db, followers[..n], rec, limit, key);
      AppendLocal(prior, db, key, rec, limit);
    } else {
      assert f in followers[..n];
      assert NoDuplicates(followers[..n]);
      FanOutAt(db, followers[..n], rec, limit, f);
      KeysInjective(f, followers[n]);
      AppendOtherKey(prior, RecommendationKey(followers[n]), rec, limit, key);
    }
  }
}

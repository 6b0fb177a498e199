/** The timeline facade: the hybrid push/pull decision engine. An author
    with more followers than the celebrity threshold keeps each post on their
    own post list, and followers pull it in when they read (fan-in); any other
    author pushes the post onto the recommendation list of every active
    follower (fan-out). Reading a timeline joins the reader's own
    recommendations with the post lists of the celebrities they follow and
    shuffles the result. */
module Timeline {
  import opened Common
  import opened Keys
  import opened SocialGraph
  import opened Recommendation

  const DefaultMaxRecommendLength: int := 800
  const DefaultCelebrityFollowerThreshold: int := 1000
  const DefaultInactiveDayThreshold: int := 7

  /** The optional configuration object; a field that is absent or null is
      `None`. */
  datatype Conf = Conf(
    maxRecommendLength: Option<int>,
    celebrityFollowerThreshold: Option<int>,
    inactiveDayThreshold: Option<int>)

  /** The settings the facade fixes at construction. */
  datatype Config = Config(
    maxRecommendLength: int,
    celebrityFollowerThreshold: int,
    inactiveDayThreshold: int)

  /** Each setting falls back to its default only when it is missing; a
      missing or null configuration object leaves every setting missing. */
  function Configure(conf: Option<Conf>): Config
  {
    var c := OrDefault(conf, Conf(None, None, None));
    Config(
      OrDefault(c.maxRecommendLength, DefaultMaxRecommendLength),
      OrDefault(c.celebrityFollowerThreshold, DefaultCelebrityFollowerThreshold),
      OrDefault(c.inactiveDayThreshold, DefaultInactiveDayThreshold))
  }

  /** An author is a celebrity when their follower count is strictly above
      the threshold. */
  predicate IsCelebrity(config: Config, graph: Graph, userId: UserId)
  {
    graph.countFollowers(userId) > config.celebrityFollowerThreshold
  }

  /** A user is inactive when more days than the threshold have passed
      since their last login. */
  predicate IsInactiveUser(config: Config, graph: Graph, userId: UserId)
  {
    graph.lastLoginDays(userId) > config.inactiveDayThreshold
  }

  /** The author's followers that are not inactive, in follower order. */
  function ActiveFollowers(config: Config, graph: Graph, userId: UserId): seq<UserId>
  {
    Filter(graph.followers(userId), f => !IsInactiveUser(config, graph, f))
  }

  /** The user's followees that are celebrities, in followee order. */
  function CelebrityFollowees(config: Config, graph: Graph, userId: UserId): seq<UserId>
  {
    Filter(graph.followees(userId), f => IsCelebrity(config, graph, f))
  }

  /** The store after `authorId` posts `rec`: one append to the author's
      post list for a celebrity, otherwise one append to the recommendation
      list of each active follower. */
  function PostEffect(config: Config, graph: Graph, db: Db, authorId: UserId, rec: Record): Db
  {
    if IsCelebrity(config, graph, authorId) then
      AfterAppend(db, PostKey(authorId), rec, config.maxRecommendLength)
    else
      AfterFanOut(db, ActiveFollowers(config, graph, authorId), rec, config.maxRecommendLength)
  }

  /** The keys a post may write. */
  function WrittenKeys(config: Config, graph: Graph, authorId: UserId): set<string>
  {
    if IsCelebrity(config, graph, authorId) then {PostKey(authorId)}
    else set f | f in ActiveFollowers(config, graph, authorId) :: RecommendationKey(f)
  }

  /** A user's timeline before shuffling: their own recommendation list
      followed by the post lists of the celebrities they follow, in followee
      order; a failed read fails the whole. */
  function Unshuffled(config: Config, db: Db, graph: Graph, userId: UserId): Result<seq<Record>>
  {
    Join(Lrange(db, RecommendationKey(userId)), PostsOf(db, CelebrityFollowees(config, graph, userId)))
  }

  /** Fisher-Yates: walks `currentIndex` down from the end, each time
      swapping the cell just below it with a cell chosen anywhere below it.
      The choice of that cell is left open. */
  method Shuffle<T>(a: array<T>)
    modifies a
    ensures multiset(a[..]) == multiset(old(a[..]))
  {
    var currentIndex := a.Length;
    while currentIndex != 0
      invariant 0 <= currentIndex <= a.Length
      invariant multiset(a[..]) == multiset(old(a[..]))
    {
      var randomIndex :| 0 <= randomIndex < currentIndex;
      currentIndex := currentIndex - 1;
      a[currentIndex], a[randomIndex] := a[randomIndex], a[currentIndex];
    }
  }

  /** Joins the two sources and shuffles them: every entry of both comes
      back exactly as often as it went in, in some order. */
  method AssembleTimeline<T>(fromOwned: seq<T>, fromCelebrities: seq<T>) returns (r: seq<T>)
    ensures |r| == |fromOwned| + |fromCelebrities|
    ensures multiset(r) == multiset(fromOwned + fromCelebrities)
  {
    var joined := fromOwned + fromCelebrities;
    var a := new T[|joined|](i requires 0 <= i < |joined| => joined[i]);
    assert a[..] == joined;
    Shuffle(a);
    r := a[..];
    assert |r| == |multiset(r)|;
  }

  class TwitterTimelineFacade {
    const config: Config
    const recommendationRepo: RecommendationRepo

    constructor(recommendationRepo: RecommendationRepo, conf: Option<Conf>)
      ensures this.recommendationRepo == recommendationRepo
      ensures config == Configure(conf)
    {
      this.config := Configure(conf);
      this.recommendationRepo := recommendationRepo;
    }

    /** Publishes a post: a single append for a celebrity author, a fan-out
        over the active followers otherwise. */
    method Post(followerRepo: Graph, authorId: UserId, postId: PostId, postMeta: PostMeta)
      modifies recommendationRepo
      ensures recommendationRepo.db ==
        PostEffect(config, followerRepo, old(recommendationRepo.db), authorId, Record(postId, postMeta))
    {
      if IsCelebrity(config, followerRepo, authorId) {
        recommendationRepo.AppendPost(authorId, postId, postMeta, config.maxRecommendLength);
      } else {
        var followers := ActiveFollowers(config, followerRepo, authorId);
        var i := 0;
        while i < |followers|
          invariant 0 <= i <= |followers|
          invariant recommendationRepo.db ==
            AfterFanOut(old(recommendationRepo.db), followers[..i], Record(postId, postMeta), config.maxRecommendLength)
        {
          recommendationRepo.AppendRecommendation(followers[i], postId, postMeta, config.maxRecommendLength);
          assert followers[..i + 1][..i] == followers[..i];
          i := i + 1;
        }
        assert followers[..i] == followers;
      }
    }

    /** Reads a user's timeline: a shuffle of their recommendations and of
        the posts of the celebrities they follow. */
    method Retrieve(followerRepo: Graph, userId: UserId) returns (r: Result<seq<Record>>)
      ensures r.Err? <==> Unshuffled(config, recommendationRepo.db, followerRepo, userId).Err?
      ensures r.Err? ==> r == Unshuffled(config, recommendationRepo.db, followerRepo, userId)
      ensures r.Ok? ==> multiset(r.value) == multiset(Unshuffled(config, recommendationRepo.db, followerRepo, userId).value)
    {
      var celebrities := CelebrityFollowees(config, followerRepo, userId);
      var fromOwned := recommendationRepo.GetRecommendations(userId);
      if fromOwned.Err? {
        return fromOwned;
      }
      var fromCelebrities := recommendationRepo.GetPosts(celebrities);
      if fromCelebrities.Err? {
        return fromCelebrities;
      }
      var timeline := AssembleTimeline(fromOwned.value, fromCelebrities.value);
      r := Ok(timeline);
    }
  }

  /** Defaults apply when the configuration or a field of it is missing, and
      a given value, 0 included, is kept. */
  lemma ConfigurationDefaults(maxLength: int, threshold: int, days: int)
    ensures Configure(None) == Config(800, 1000, 7)
    ensures Configure(Some(Conf(None, None, None))) == Config(800, 1000, 7)
    ensures Configure(Some(Conf(Some(maxLength), Some(threshold), Some(days)))) == Config(maxLength, threshold, days)
    ensures Configure(Some(Conf(Some(0), Some(0), Some(0)))) == Config(0, 0, 0)
  {
  }

  /** A follower count equal to the threshold is not enough; one more is. */
  lemma CelebrityBoundary(config: Config, graph: Graph, userId: UserId)
    ensures graph.countFollowers(userId) == config.celebrityFollowerThreshold ==> !IsCelebrity(config, graph, userId)
    ensures graph.countFollowers(userId) == config.celebrityFollowerThreshold + 1 ==> IsCelebrity(config, graph, userId)
  {
  }

  /** The active followers are exactly the followers whose last-login day
      count is within the threshold, each as often as among all followers,
      and they keep their relative order. */
  lemma ActiveFollowersExactly(config: Config, graph: Graph, userId: UserId, f: UserId, split: nat)
    requires split <= |graph.followers(userId)|
    ensures f in ActiveFollowers(config, graph, userId) <==>
      f in graph.followers(userId) && graph.lastLoginDays(f) <= config.inactiveDayThreshold
    ensures multiset(ActiveFollowers(config, graph, userId))[f] ==
      if graph.lastLoginDays(f) <= config.inactiveDayThreshold then multiset(graph.followers(userId))[f] else 0
    ensures var fs := graph.followers(userId); var keep := g => !IsInactiveUser(config, graph, g);
      ActiveFollowers(config, graph, userId) == Filter(fs[..split], keep) + Filter(fs[split..], keep)
  {
    var fs := graph.followers(userId);
    var keep := g => !IsInactiveUser(config, graph, g);
    FilterMultiset(fs, keep, f);
    assert fs == fs[..split] + fs[split..];
    FilterConcat(fs[..split], fs[split..], keep);
  }

  /** An author with a single follower has that follower as their only
      active follower exactly when the follower is active. */
  lemma SingleFollower(config: Config, graph: Graph, userId: UserId, f: UserId)
    requires graph.followers(userId) == [f]
    ensures ActiveFollowers(config, graph, userId) == if IsInactiveUser(config, graph, f) then [] else [f]
  {
    assert [f][..0] == [];
  }

  /** A user with a single followee reads that followee's post list exactly
      when the followee is a celebrity. */
  lemma SingleFollowee(config: Config, graph: Graph, userId: UserId, c: UserId)
    requires graph.followees(userId) == [c]
    ensures CelebrityFollowees(config, graph, userId) == if IsCelebrity(config, graph, c) then [c] else []
  {
    assert [c][..0] == [];
  }

  /** A post writes no key outside `WrittenKeys`. */
  lemma {:induction false} PostFrame(config: Config, graph: Graph, db: Db, authorId: UserId, rec: Record, key: string)
    requires key !in WrittenKeys(config, graph, authorId)
    ensures Lookup(PostEffect(config, graph, db, authorId, rec), key) == Lookup(db, key)
  {
    if IsCelebrity(config, graph, authorId) {
      AppendOtherKey(db, PostKey(authorId), rec, config.maxRecommendLength, key);
    } else {
      FanOutFrame(db, ActiveFollowers(config, graph, authorId), rec, config.maxRecommendLength, key);
    }
  }

  /** A celebrity's post changes the author's own post list and nothing
      else: no recommendation list and no other author's post list. */
  lemma CelebrityPost(config: Config, graph: Graph, db: Db, authorId: UserId, rec: Record)
    requires IsCelebrity(config, graph, authorId)
    ensures Items(PostEffect(config, graph, db, authorId, rec), PostKey(authorId))
         == Appended(db, PostKey(authorId), rec, config.maxRecommendLength)
    ensures forall u :: Lookup(PostEffect(config, graph, db, authorId, rec), RecommendationKey(u))
                     == Lookup(db, RecommendationKey(u))
    ensures forall v :: v != authorId ==>
      Lookup(PostEffect(config, graph, db, authorId, rec), PostKey(v)) == Lookup(db, PostKey(v))
  {
    AppendEffect(db, PostKey(authorId), rec, config.maxRecommendLength);
    forall u ensures Lookup(PostEffect(config, graph, db, authorId, rec), RecommendationKey(u))
                  == Lookup(db, RecommendationKey(u)) {
      KeysDisjoint(authorId, u);
      PostFrame(config, graph, db, authorId, rec, RecommendationKey(u));
    }
    forall v | v != authorId
      ensures Lookup(PostEffect(config, graph, db, authorId, rec), PostKey(v)) == Lookup(db, PostKey(v)) {
      KeysInjective(authorId, v);
      PostFrame(config, graph, db, authorId, rec, PostKey(v));
    }
  }

  /** An ordinary author's post leaves every post list alone, including the
      author's own, and every recommendation list of a user who is not an
      active follower, the inactive followers among them. With distinct
      followers, each active follower's list receives the post once. */
  lemma OrdinaryPost(config: Config, graph: Graph, db: Db, authorId: UserId, rec: Record)
    requires !IsCelebrity(config, graph, authorId)
    ensures forall v :: Lookup(PostEffect(config, graph, db, authorId, rec), PostKey(v)) == Lookup(db, PostKey(v))
    ensures forall u :: u !in ActiveFollowers(config, graph, authorId) ==>
      Lookup(PostEffect(config, graph, db, authorId, rec), RecommendationKey(u)) == Lookup(db, RecommendationKey(u))
    ensures NoDuplicates(graph.followers(authorId)) ==>
      forall f :: f in ActiveFollowers(config, graph, authorId) ==>
        Items(PostEffect(config, graph, db, authorId, rec), RecommendationKey(f))
          == Appended(db, RecommendationKey(f), rec, config.maxRecommendLength)
  {
    var active := ActiveFollowers(config, graph, authorId);
    var limit := config.maxRecommendLength;
    forall v ensures Lookup(PostEffect(config, graph, db, authorId, rec), PostKey(v)) == Lookup(db, PostKey(v)) {
      forall f | f in active ensures PostKey(v) != RecommendationKey(f) {
        KeysDisjoint(v, f);
      }
      PostFrame(config, graph, db, authorId, rec, PostKey(v));
    }
    forall u | u !in active
      ensures Lookup(PostEffect(config, graph, db, authorId, rec), RecommendationKey(u)) == Lookup(db, RecommendationKey(u)) {
      forall f | f in active ensures RecommendationKey(u) != RecommendationKey(f) {
        KeysInjective(u, f);
      }
      PostFrame(config, graph, db, authorId, rec, RecommendationKey(u));
    }
    if NoDuplicates(graph.followers(authorId)) {
      FilterNoDuplicates(graph.followers(authorId), f => !IsInactiveUser(config, graph, f));
      forall f | f in active
        ensures Items(PostEffect(config, graph, db, authorId, rec), RecommendationKey(f))
             == Appended(db, RecommendationKey(f), rec, limit) {
        FanOutAt(db, active, rec, limit, f);
        AppendEffect(db, RecommendationKey(f), rec, limit);
        var key := RecommendationKey(f);
        assert Lookup(PostEffect(config, graph, db, authorId, rec), key) == Lookup(AfterAppend(db, key, rec, limit), key);
      }
    }
  }

  /** A timeline can be read exactly when the reader's recommendation key
      and every celebrity followee's post key hold lists. */
  lemma TimelineReadable(config: Config, db: Db, graph: Graph, userId: UserId)
    ensures Unshuffled(config, db, graph, userId).Ok? <==>
      !WrongTypeAt(db, RecommendationKey(userId)) &&
      forall c :: c in CelebrityFollowees(config, graph, userId) ==> !WrongTypeAt(db, PostKey(c))
  {
    var celebrities := CelebrityFollowees(config, graph, userId);
    PostsOfOk(db, celebrities);
    assert forall c :: c in celebrities ==> exists i :: 0 <= i < |celebrities| && celebrities[i] == c;
  }

  /** A record is on a readable timeline exactly when it is on the reader's
      recommendation list or on the post list of a celebrity they follow. */
  lemma TimelineMembers(config: Config, db: Db, graph: Graph, userId: UserId, rec: Record)
    requires Unshuffled(config, db, graph, userId).Ok?
    ensures rec in Unshuffled(config, db, graph, userId).value <==>
      rec in Items(db, RecommendationKey(userId)) ||
      exists c :: c in CelebrityFollowees(config, graph, userId) && rec in Items(db, PostKey(c))
  {
    var celebrities := CelebrityFollowees(config, graph, userId);
    PostsOfMembers(db, celebrities, rec);
    if exists c :: c in celebrities && rec in Items(db, PostKey(c)) {
      var c :| c in celebrities && rec in Items(db, PostKey(c));
      var i :| 0 <= i < |celebrities| && celebrities[i] == c;
    }
  }

  /** Reading a timeline looks at the reader's recommendation list and the
      celebrity followees' post lists only: whatever an ordinary followee's
      post list holds, the timeline is the same. */
  lemma TimelineReadsOnly(config: Config, db1: Db, db2: Db, graph: Graph, userId: UserId)
    requires Lookup(db1, RecommendationKey(userId)) == Lookup(db2, RecommendationKey(userId))
    requires forall c :: c in CelebrityFollowees(config, graph, userId) ==> Lookup(db1, PostKey(c)) == Lookup(db2, PostKey(c))
    ensures Unshuffled(config, db1, graph, userId) == Unshuffled(config, db2, graph, userId)
  {
    var key := RecommendationKey(userId);
    assert Lrange(db1, key) == Lrange(db2, key);
    PostsOfReadsOnly(db1, db2, CelebrityFollowees(config, graph, userId));
  }
}

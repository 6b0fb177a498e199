/** The facade scenarios of the timeline tests, run against the capped-list
    store with the follower double as the social graph and the celebrity
    threshold set to 1. */
module TimelineScenarios {
  import opened Common
  import opened Keys
  import opened SocialGraph
  import opened Recommendation
  import opened Timeline
  import MockRepos
  import Follower

  /** A shuffle of a one-element timeline is that timeline. */
  lemma SingletonTimeline<T>(s: seq<T>, x: T)
    requires multiset(s) == multiset{x}
    ensures s == [x]
  {
    assert |s| == |multiset(s)| == 1;
    assert s[0] in multiset(s);
  }

  /** The first append to an absent key stores a one-element list. */
  lemma FirstAppend(db: Db, key: string, rec: Record, limit: int)
    requires key !in db && 1 <= limit
    ensures AfterAppend(db, key, rec, limit) == db[key := RList([rec])]
  {
  }

  lemma FanOutToOne(db: Db, f: UserId, rec: Record, limit: int)
    ensures AfterFanOut(db, [f], rec, limit) == AfterAppend(db, RecommendationKey(f), rec, limit)
  {
    assert [f][..0] == [];
  }

  lemma PostsOfOne(db: Db, a: UserId, rec: Record)
    requires Lookup(db, PostKey(a)) == Some(RList([rec]))
    ensures PostsOf(db, [a]) == Ok([rec])
  {
    assert [a][..0] == [];
    assert [] + [rec] == [rec];
  }

  /** The follower double of the first scenario: user 1 is followed by 2,
      3 and 4, user 2 by 5 and user 3 by 6, who last logged in 99 days ago. */
  function ProcessRepo(): MockRepos.MockFollowerRepo
  {
    MockRepos.MockFollowerRepo(
      Some(map["1" := ["2", "3", "4"], "2" := ["5"], "3" := ["6"]]),
      Some(map["2" := ["1"], "5" := ["2"]]),
      Some(map["1" := 1, "2" := 1, "3" := 1, "4" := 1, "5" := 1, "6" := 99]))
  }

  function ProcessGraph(): Graph
  {
    ProcessRepo().View()
  }

  lemma ProcessAnswers()
    ensures ProcessRepo().CountFollowers("1") == 3 && ProcessRepo().CountFollowers("2") == 1
    ensures ProcessRepo().CountFollowers("3") == 1
    ensures ProcessRepo().GetFollowers("2") == ["5"] && ProcessRepo().GetFollowers("3") == ["6"]
    ensures ProcessRepo().GetFollowees("2") == ["1"] && ProcessRepo().GetFollowees("5") == ["2"]
    ensures ProcessRepo().LastLoginDays("5") == 1 && ProcessRepo().LastLoginDays("6") == 99
  {
  }

  /** Under threshold 1 user 1 is a celebrity and users 2 and 3 are not;
      user 2's follower is active, user 3's is not; user 2 follows the
      celebrity and user 5 follows user 2. */
  lemma ProcessRoles(config: Config)
    requires config == Configure(Some(Conf(None, Some(1), None)))
    ensures IsCelebrity(config, ProcessGraph(), "1")
    ensures !IsCelebrity(config, ProcessGraph(), "2") && ActiveFollowers(config, ProcessGraph(), "2") == ["5"]
    ensures !IsCelebrity(config, ProcessGraph(), "3") && ActiveFollowers(config, ProcessGraph(), "3") == []
    ensures CelebrityFollowees(config, ProcessGraph(), "2") == ["1"]
    ensures CelebrityFollowees(config, ProcessGraph(), "5") == []
  {
    var g := ProcessGraph();
    ProcessAnswers();
    SingleFollower(config, g, "2", "5");
    SingleFollower(config, g, "3", "6");
    SingleFollowee(config, g, "2", "1");
    SingleFollowee(config, g, "5", "2");
  }

  /** The store after each of the three posts of the first scenario. */
  lemma ProcessStores(config: Config, rec1: Record, rec2: Record, rec3: Record)
    requires config == Configure(Some(Conf(None, Some(1), None)))
    ensures PostEffect(config, ProcessGraph(), map[], "1", rec1) == map[PostKey("1") := RList([rec1])]
    ensures var db1 := map[PostKey("1") := RList([rec1])];
      PostEffect(config, ProcessGraph(), db1, "2", rec2) == db1[RecommendationKey("5") := RList([rec2])]
    ensures var db2 := map[PostKey("1") := RList([rec1]), RecommendationKey("5") := RList([rec2])];
      PostEffect(config, ProcessGraph(), db2, "3", rec3) == db2
  {
    ProcessRoles(config);
    FirstAppend(map[], PostKey("1"), rec1, config.maxRecommendLength);
    var db1 := map[PostKey("1") := RList([rec1])];
    KeysDisjoint("1", "5");
    FanOutToOne(db1, "5", rec2, config.maxRecommendLength);
    FirstAppend(db1, RecommendationKey("5"), rec2, config.maxRecommendLength);
  }

  /** The keys the first scenario finds empty. */
  lemma ProcessUntouched(rec1: Record, rec2: Record)
    ensures var db2 := map[PostKey("1") := RList([rec1]), RecommendationKey("5") := RList([rec2])];
      Lookup(db2, PostKey("2")) == None && Lookup(db2, PostKey("3")) == None &&
      Lookup(db2, RecommendationKey("6")) == None
  {
    KeysInjective("1", "2");
    KeysDisjoint("2", "5");
    KeysInjective("1", "3");
    KeysDisjoint("3", "5");
    KeysDisjoint("1", "6");
    KeysInjective("5", "6");
  }

  /** After the celebrity's post, their follower 2 reads it. */
  lemma ProcessFirstTimeline(config: Config, rec1: Record)
    requires config == Configure(Some(Conf(None, Some(1), None)))
    ensures Unshuffled(config, map[PostKey("1") := RList([rec1])], ProcessGraph(), "2") == Ok([rec1])
  {
    var g := ProcessGraph();
    ProcessAnswers();
    assert IsCelebrity(config, g, "1");
    SingleFollowee(config, g, "2", "1");
    KeysDisjoint("1", "2");
    PostsOfOne(map[PostKey("1") := RList([rec1])], "1", rec1);
  }

  /** After the ordinary author's post, their active follower 5 reads it. */
  lemma ProcessSecondTimeline(config: Config, rec1: Record, rec2: Record)
    requires config == Configure(Some(Conf(None, Some(1), None)))
    ensures var db2 := map[PostKey("1") := RList([rec1]), RecommendationKey("5") := RList([rec2])];
      Unshuffled(config, db2, ProcessGraph(), "5") == Ok([rec2])
  {
    ProcessRoles(config);
    KeysDisjoint("1", "5");
    JoinEmpty(Ok([rec2]));
  }

  /** A celebrity's post lands on their own list and reaches their
      followers' timelines; an active follower of an ordinary author gets
      the post on their recommendation list and timeline; the post of an
      author whose only follower is inactive is stored nowhere. */
  method ProcessNormal(p1: PostId, m1: PostMeta, p2: PostId, m2: PostMeta, p3: PostId, m3: PostMeta)
    returns (posts1: seq<Record>, timeline2: Result<seq<Record>>, posts2: Option<Value>,
             recommended5: seq<Record>, timeline5: Result<seq<Record>>,
             posts3: Option<Value>, recommended6: Option<Value>)
    ensures posts1 == [Record(p1, m1)] && timeline2 == Ok([Record(p1, m1)])
    ensures posts2 == None && recommended5 == [Record(p2, m2)] && timeline5 == Ok([Record(p2, m2)])
    ensures posts3 == None && recommended6 == None
  {
    var repo := new RecommendationRepo(map[]);
    var timeline := new TwitterTimelineFacade(repo, Some(Conf(None, Some(1), None)));
    var g := ProcessGraph();
    var rec1, rec2 := Record(p1, m1), Record(p2, m2);
    ProcessStores(timeline.config, rec1, rec2, Record(p3, m3));
    ProcessFirstTimeline(timeline.config, rec1);
    ProcessSecondTimeline(timeline.config, rec1, rec2);

    timeline.Post(g, "1", p1, m1);
    posts1 := Items(repo.db, PostKey("1"));
    timeline2 := timeline.Retrieve(g, "2");
    SingletonTimeline(timeline2.value, rec1);

    timeline.Post(g, "2", p2, m2);
    posts2 := Lookup(repo.db, PostKey("2"));
    recommended5 := Items(repo.db, RecommendationKey("5"));
    timeline5 := timeline.Retrieve(g, "5");
    SingletonTimeline(timeline5.value, rec2);

    timeline.Post(g, "3", p3, m3);
    posts3 := Lookup(repo.db, PostKey("3"));
    recommended6 := Lookup(repo.db, RecommendationKey("6"));
    ProcessUntouched(rec1, rec2);
  }

  /** The graph of the second scenario: user 1 is followed by 2, 3 and 4,
      user 2 by 3, and user 3 follows 1 and 2; everybody is active. */
  function AssembleGraph(): Graph
  {
    MockRepos.MockFollowerRepo(
      Some(map["1" := ["2", "3", "4"], "2" := ["3"]]),
      Some(map["3" := ["1", "2"]]),
      Some(map["1" := 1, "2" := 1, "3" := 1, "4" := 1, "5" := 1])).View()
  }

  lemma AssembleRoles(config: Config)
    requires config == Configure(Some(Conf(None, Some(1), None)))
    ensures IsCelebrity(config, AssembleGraph(), "1")
    ensures !IsCelebrity(config, AssembleGraph(), "2") && ActiveFollowers(config, AssembleGraph(), "2") == ["3"]
    ensures CelebrityFollowees(config, AssembleGraph(), "3") == ["1"]
  {
    var g := AssembleGraph();
    assert g.followers("2") == ["3"];
    assert g.followees("3") == ["1", "2"];
    SingleFollower(config, g, "2", "3");
    assert ["1", "2"][..1] == ["1"] && ["1"][..0] == [];
  }

  /** The store after the celebrity's post of the second scenario. */
  lemma AssembleFirstStore(config: Config, rec1: Record)
    requires config == Configure(Some(Conf(None, Some(1), None)))
    ensures PostEffect(config, AssembleGraph(), map[], "1", rec1) == map[PostKey("1") := RList([rec1])]
  {
    AssembleRoles(config);
    FirstAppend(map[], PostKey("1"), rec1, config.maxRecommendLength);
  }

  /** The store after the ordinary author's post of the second scenario. */
  lemma AssembleSecondStore(config: Config, rec1: Record, rec2: Record)
    requires config == Configure(Some(Conf(None, Some(1), None)))
    ensures var db1 := map[PostKey("1") := RList([rec1])];
      PostEffect(config, AssembleGraph(), db1, "2", rec2) == db1[RecommendationKey("3") := RList([rec2])]
  {
    AssembleRoles(config);
    var db1 := map[PostKey("1") := RList([rec1])];
    KeysDisjoint("1", "3");
    FanOutToOne(db1, "3", rec2, config.maxRecommendLength);
    FirstAppend(db1, RecommendationKey("3"), rec2, config.maxRecommendLength);
  }

  /** The timeline user 3 reads after the two posts of the second scenario:
      the fanned-out post first, then the celebrity's. */
  lemma AssembleTimelineRead(config: Config, rec1: Record, rec2: Record)
    requires config == Configure(Some(Conf(None, Some(1), None)))
    ensures var db2 := map[PostKey("1") := RList([rec1]), RecommendationKey("3") := RList([rec2])];
      Unshuffled(config, db2, AssembleGraph(), "3") == Ok([rec2, rec1])
  {
    AssembleRoles(config);
    var db2 := map[PostKey("1") := RList([rec1]), RecommendationKey("3") := RList([rec2])];
    KeysDisjoint("1", "3");
    PostsOfOne(db2, "1", rec1);
    assert Lrange(db2, RecommendationKey("3")) == Ok([rec2]);
    assert [rec2] + [rec1] == [rec2, rec1];
  }

  /** The two posts of the second scenario, through a fresh facade. */
  method AssemblePosts(p1: PostId, m1: PostMeta, p2: PostId, m2: PostMeta) returns (timeline: TwitterTimelineFacade)
    ensures fresh(timeline) && fresh(timeline.recommendationRepo)
    ensures timeline.config == Configure(Some(Conf(None, Some(1), None)))
    ensures timeline.recommendationRepo.db ==
      map[PostKey("1") := RList([Record(p1, m1)]), RecommendationKey("3") := RList([Record(p2, m2)])]
  {
    var repo := new RecommendationRepo(map[]);
    timeline := new TwitterTimelineFacade(repo, Some(Conf(None, Some(1), None)));
    var g := AssembleGraph();
    AssembleFirstStore(timeline.config, Record(p1, m1));
    AssembleSecondStore(timeline.config, Record(p1, m1), Record(p2, m2));
    timeline.Post(g, "1", p1, m1);
    timeline.Post(g, "2", p2, m2);
  }

  /** A user who follows a celebrity and an ordinary author sees both of
      their posts, each once. */
  method AssembleResult(p1: PostId, m1: PostMeta, p2: PostId, m2: PostMeta) returns (result: Result<seq<Record>>)
    ensures result.Ok?
    ensures multiset(result.value) == multiset{Record(p1, m1), Record(p2, m2)}
    ensures |result.value| == 2
  {
    var timeline := AssemblePosts(p1, m1, p2, m2);
    var rec1, rec2 := Record(p1, m1), Record(p2, m2);
    AssembleTimelineRead(timeline.config, rec1, rec2);
    result := timeline.Retrieve(AssembleGraph(), "3");
    assert multiset([rec2, rec1]) == multiset{rec1, rec2};
    assert |result.value| == |multiset(result.value)|;
  }

  /** Against the store-backed follower repository under the default
      settings, a user with no stored login is left out of every fan-out
      exactly once the clock has passed its first eight days, while a user
      whose stored login lies in the future is always reached. */
  lemma StoredLoginActivity(db: Follower.Snapshot, now: int, u: UserId)
    ensures LastLoginKey(u) !in db.lastLogin ==>
      (IsInactiveUser(Configure(None), Follower.View(db, now), u) <==> now >= 8 * Follower.MillisPerDay)
    ensures LastLoginKey(u) in db.lastLogin && db.lastLogin[LastLoginKey(u)] > now ==>
      !IsInactiveUser(Configure(None), Follower.View(db, now), u)
  {
    if LastLoginKey(u) !in db.lastLogin {
      var days := Follower.GetLastLoginDays(db, now, u);
      assert days == Follower.LastLoginDays(now, 0);
      assert days * Follower.MillisPerDay <= now < (days + 1) * Follower.MillisPerDay;
    }
    if LastLoginKey(u) in db.lastLogin && db.lastLogin[LastLoginKey(u)] > now {
      Follower.DaysAreFloored(now, db.lastLogin[LastLoginKey(u)]);
    }
  }
}

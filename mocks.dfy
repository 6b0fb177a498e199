/** The in-memory repositories the timeline tests run the facade against:
    a dictionary of post-id lists standing in for the feed store, and a
    frozen follower graph standing in for the follower repository. With them
    come the delete fan-out the tests expect of the facade and the tests'
    own scenarios. */
module MockRepos {
  import opened Common
  import opened SocialGraph
  import Timeline

  /** A user's list in a dictionary of lists; an unknown user has none. */
  function ListOf<T>(m: map<UserId, seq<T>>, userId: UserId): seq<T>
  {
    if userId in m then m[userId] else []
  }

  /** The list without any occurrence of `postId`, the rest in order. */
  function Without(s: seq<PostId>, postId: PostId): seq<PostId>
  {
    Filter(s, item => item != postId)
  }

  /** The lists of `users`, concatenated in argument order. */
  function Concat(m: map<UserId, seq<PostId>>, users: seq<UserId>): seq<PostId>
  {
    if users == [] then []
    else Concat(m, users[..|users| - 1]) + ListOf(m, users[|users| - 1])
  }

  /** The dictionary after pushing `postId` onto the list of `userId`,
      creating the list if the user has none. */
  function Pushed(m: map<UserId, seq<PostId>>, userId: UserId, postId: PostId): map<UserId, seq<PostId>>
  {
    m[userId := ListOf(m, userId) + [postId]]
  }

  /** The dictionary after pushing `postId` onto the list of each of
      `users`, in order. */
  function PushedAll(m: map<UserId, seq<PostId>>, users: seq<UserId>, postId: PostId): map<UserId, seq<PostId>>
  {
    if users == [] then m
    else Pushed(PushedAll(m, users[..|users| - 1], postId), users[|users| - 1], postId)
  }

  /** The dictionary after deleting `postId` from the list of `userId`; an
      unknown user is left unknown. */
  function Deleted(m: map<UserId, seq<PostId>>, userId: UserId, postId: PostId): map<UserId, seq<PostId>>
  {
    if userId in m then m[userId := Without(m[userId], postId)] else m
  }

  /** The dictionary after deleting `postId` from the list of each of
      `users`, in order. */
  function DeletedAll(m: map<UserId, seq<PostId>>, users: seq<UserId>, postId: PostId): map<UserId, seq<PostId>>
  {
    if users == [] then m
    else Deleted(DeletedAll(m, users[..|users| - 1], postId), users[|users| - 1], postId)
  }

  class MockRecommendationRepo {
    var post: map<UserId, seq<PostId>>
    var recommendation: map<UserId, seq<PostId>>

    constructor()
      ensures post == map[] && recommendation == map[]
    {
      post, recommendation := map[], map[];
    }

    /** Pushes the post id onto the author's list, creating the list if
        needed. The metadata and the limit are ignored. */
    method AppendPost(authorId: UserId, postId: PostId, postMeta: PostMeta, limit: int)
      modifies this
      ensures post == Pushed(old(post), authorId, postId)
      ensures recommendation == old(recommendation)
    {
      if authorId !in post {
        post := post[authorId := []];
      }
      post := post[authorId := post[authorId] + [postId]];
    }

    method AppendRecommendation(follower: UserId, postId: PostId, postMeta: PostMeta, limit: int)
      modifies this
      ensures recommendation == Pushed(old(recommendation), follower, postId)
      ensures post == old(post)
    {
      if follower !in recommendation {
        recommendation := recommendation[follower := []];
      }
      recommendation := recommendation[follower := recommendation[follower] + [postId]];
    }

    function GetRecommendations(userId: UserId): seq<PostId>
      reads this
    {
      ListOf(recommendation, userId)
    }

    /** The post lists of `celebrities` in argument order; unknown users add
        nothing. */
    method GetPosts(celebrities: seq<UserId>) returns (ret: seq<PostId>)
      ensures ret == Concat(post, celebrities)
    {
      ret := [];
      for i := 0 to |celebrities|
        invariant ret == Concat(post, celebrities[..i])
      {
        assert celebrities[..i + 1][..i] == celebrities[..i];
        ret := ret + ListOf(post, celebrities[i]);
      }
      assert celebrities[..|celebrities|] == celebrities;
    }

    method DeletePost(userId: UserId, postId: PostId)
      modifies this
      ensures post == Deleted(old(post), userId, postId)
      ensures recommendation == old(recommendation)
    {
      if userId in post {
        post := post[userId := Without(post[userId], postId)];
      }
    }

    method DeleteRecommendation(userId: UserId, postId: PostId)
      modifies this
      ensures recommendation == Deleted(old(recommendation), userId, postId)
      ensures post == old(post)
    {
      if userId in recommendation {
        recommendation := recommendation[userId := Without(recommendation[userId], postId)];
      }
    }
  }

  /** The follower double: three optional dictionaries, any of which may be
      missing altogether. */
  datatype MockFollowerRepo = MockFollowerRepo(
    follower: Option<map<UserId, seq<UserId>>>,
    followee: Option<map<UserId, seq<UserId>>>,
    lastLogin: Option<map<UserId, int>>)
  {
    function CountFollowers(userId: UserId): nat
    {
      if follower.None? then 0 else |ListOf(follower.value, userId)|
    }

    function GetFollowers(userId: UserId): seq<UserId>
    {
      if follower.None? then [] else ListOf(follower.value, userId)
    }

    function GetFollowees(userId: UserId): seq<UserId>
    {
      if followee.None? then [] else ListOf(followee.value, userId)
    }

    /** The day count reported for one user: the recorded one, or 999. */
    function LastLoginDays(userId: UserId): int
    {
      if lastLogin.Some? && userId in lastLogin.value then lastLogin.value[userId] else 999
    }

    /** Looks up the day counts of several users in one call; every
        requested user gets an entry. */
    method ListLastLoginDays(userIds: seq<UserId>) returns (idDays: map<UserId, int>)
      ensures idDays.Keys == set u | u in userIds
      ensures forall u :: u in userIds ==> idDays[u] == LastLoginDays(u)
    {
      idDays := map[];
      for i := 0 to |userIds|
        invariant idDays.Keys == set u | u in userIds[..i]
        invariant forall u :: u in idDays ==> idDays[u] == LastLoginDays(u)
      {
        assert userIds[..i + 1] == userIds[..i] + [userIds[i]];
        if lastLogin.None? {
          idDays := idDays[userIds[i] := 999];
        } else {
          idDays := idDays[userIds[i] := OrDefault(if userIds[i] in lastLogin.value then Some(lastLogin.value[userIds[i]]) else None, 999)];
        }
      }
      assert userIds[..|userIds|] == userIds;
    }

    /** The double as the facade sees it. It offers no per-user day count,
        so the facade is given the one its batched lookup reports. */
    function View(): Graph
    {
      Graph(
        u => CountFollowers(u),
        u => GetFollowers(u),
        u => GetFollowees(u),
        u => LastLoginDays(u))
    }
  }

  /** The facade's post, run against the recommendation double: a
      celebrity's post is pushed onto the author's own list; an ordinary
      author's post onto the recommendation list of each active follower, in
      follower order. */
  method Post(config: Timeline.Config, followerRepo: Graph, repo: MockRecommendationRepo,
              authorId: UserId, postId: PostId, postMeta: PostMeta)
    modifies repo
    ensures Timeline.IsCelebrity(config, followerRepo, authorId) ==>
      repo.post == Pushed(old(repo.post), authorId, postId) && repo.recommendation == old(repo.recommendation)
    ensures !Timeline.IsCelebrity(config, followerRepo, authorId) ==>
      repo.post == old(repo.post) &&
      repo.recommendation == PushedAll(old(repo.recommendation), Timeline.ActiveFollowers(config, followerRepo, authorId), postId)
  {
    if Timeline.IsCelebrity(config, followerRepo, authorId) {
      repo.AppendPost(authorId, postId, postMeta, config.maxRecommendLength);
    } else {
      var followers := Timeline.ActiveFollowers(config, followerRepo, authorId);
      for i := 0 to |followers|
        invariant repo.post == old(repo.post)
        invariant repo.recommendation == PushedAll(old(repo.recommendation), followers[..i], postId)
      {
        assert followers[..i + 1][..i] == followers[..i];
        repo.AppendRecommendation(followers[i], postId, postMeta, config.maxRecommendLength);
      }
      assert followers[..|followers|] == followers;
    }
  }

  /** The delete the facade scenarios call: a celebrity's post is deleted
      from the author's own list; an ordinary author's post from the
      recommendation list of every follower, active or not. */
  method DeletePost(config: Timeline.Config, followerRepo: Graph, repo: MockRecommendationRepo,
                    userId: UserId, postId: PostId)
    modifies repo
    ensures Timeline.IsCelebrity(config, followerRepo, userId) ==>
      repo.post == Deleted(old(repo.post), userId, postId) && repo.recommendation == old(repo.recommendation)
    ensures !Timeline.IsCelebrity(config, followerRepo, userId) ==>
      repo.post == old(repo.post) &&
      repo.recommendation == DeletedAll(old(repo.recommendation), followerRepo.followers(userId), postId)
  {
    if Timeline.IsCelebrity(config, followerRepo, userId) {
      repo.DeletePost(userId, postId);
    } else {
      var followers := followerRepo.followers(userId);
      for i := 0 to |followers|
        invariant repo.post == old(repo.post)
        invariant repo.recommendation == DeletedAll(old(repo.recommendation), followers[..i], postId)
      {
        assert followers[..i + 1][..i] == followers[..i];
        repo.DeleteRecommendation(followers[i], postId);
      }
      assert followers[..|followers|] == followers;
    }
  }

  /** The unshuffled timeline a retrieve assembles against the double. */
  function TimelineOf(config: Timeline.Config, followerRepo: Graph, post: map<UserId, seq<PostId>>,
                      recommendation: map<UserId, seq<PostId>>, userId: UserId): seq<PostId>
  {
    ListOf(recommendation, userId) + Concat(post, Timeline.CelebrityFollowees(config, followerRepo, userId))
  }

  /** Deleting removes every occurrence of the id and keeps every other
      element, in order; deleting an absent id changes nothing. */
  lemma WithoutRemovesOnlyTheId(s: seq<PostId>, postId: PostId, x: PostId)
    ensures postId !in Without(s, postId)
    ensures x != postId ==> multiset(Without(s, postId))[x] == multiset(s)[x]
    ensures postId !in s ==> Without(s, postId) == s
  {
    FilterMultiset(s, item => item != postId, x);
    if postId !in s {
      WithoutAbsent(s, postId);
    }
  }

  lemma {:induction false} WithoutAbsent(s: seq<PostId>, postId: PostId)
    requires postId !in s
    ensures Without(s, postId) == s
  {
    if s != [] {
      var s' := s[..|s| - 1];
      assert postId !in s';
      WithoutAbsent(s', postId);
      assert s == s' + [s[|s| - 1]];
    }
  }

  /** Reading `a + b` is reading `a`, then `b`. */
  lemma {:induction false} ConcatAppend(m: map<UserId, seq<PostId>>, a: seq<UserId>, b: seq<UserId>)
    ensures Concat(m, a + b) == Concat(m, a) + Concat(m, b)
  {
    if b == [] {
      assert a + b == a;
    } else {
      var n := |b| - 1;
      assert (a + b)[..|a + b| - 1] == a + b[..n];
      ConcatAppend(m, a, b[..n]);
    }
  }

  /** A post id is read exactly when it is on the list of a listed user;
      unknown users contribute nothing. */
  lemma {:induction false} ConcatMembers(m: map<UserId, seq<PostId>>, users: seq<UserId>, p: PostId)
    ensures p in Concat(m, users) <==> exists u :: u in users && u in m && p in m[u]
  {
    if users != [] {
      var n := |users| - 1;
      ConcatMembers(m, users[..n], p);
      assert users == users[..n] + [users[n]];
      if exists u :: u in users && u in m && p in m[u] {
        var u :| u in users && u in m && p in m[u];
        if u != users[n] {
          assert u in users[..n];
        }
      }
    }
  }

  /** After deleting from the lists of `users`, each of their lists has
      lost the id and kept the rest, every other list is unchanged, and no
      user has gained or lost a list. */
  lemma {:induction false} DeletedAllAt(m: map<UserId, seq<PostId>>, users: seq<UserId>, postId: PostId, u: UserId)
    ensures u in DeletedAll(m, users, postId) <==> u in m
    ensures ListOf(DeletedAll(m, users, postId), u) ==
      if u in users then Without(ListOf(m, u), postId) else ListOf(m, u)
  {
    if users != [] {
      var n := |users| - 1;
      DeletedAllAt(m, users[..n], postId, u);
      assert users == users[..n] + [users[n]];
      if u == users[n] && u in users[..n] {
        WithoutRemovesOnlyTheId(ListOf(m, u), postId, postId);
        WithoutAbsent(Without(ListOf(m, u), postId), postId);
      }
    }
  }

  /** After a fan-out, a user's list is their old list followed by the post
      once for each time they occur among the recipients; every other list
      is unchanged. */
  lemma {:induction false} PushedAllAt(m: map<UserId, seq<PostId>>, users: seq<UserId>, postId: PostId, u: UserId)
    ensures ListOf(PushedAll(m, users, postId), u) == ListOf(m, u) + seq(multiset(users)[u], _ => postId)
  {
    if users == [] {
      assert ListOf(m, u) + [] == ListOf(m, u);
    } else {
      var n := |users| - 1;
      PushedAllAt(m, users[..n], postId, u);
      assert users == users[..n] + [users[n]];
      var k := multiset(users[..n])[u];
      if u == users[n] {
        assert multiset(users)[u] == k + 1;
        assert seq(k, _ => postId) + [postId] == seq(k + 1, _ => postId);
      } else {
        assert multiset(users)[u] == k;
      }
    }
  }

  /** After an ordinary author's delete, no follower's recommendation list
      holds the post, whether the follower is active or not. */
  lemma DeleteReachesAllFollowers(m: map<UserId, seq<PostId>>, followers: seq<UserId>, postId: PostId, f: UserId)
    requires f in followers
    ensures postId !in ListOf(DeletedAll(m, followers, postId), f)
  {
    DeletedAllAt(m, followers, postId, f);
    WithoutRemovesOnlyTheId(ListOf(m, f), postId, postId);
  }

  /** The follower double's count is the length of its follower list, and
      0 when there is no list. */
  lemma MockCountMatchesFollowers(repo: MockFollowerRepo, userId: UserId)
    ensures repo.CountFollowers(userId) == |repo.GetFollowers(userId)|
    ensures repo.follower.None? || userId !in repo.follower.value ==> repo.CountFollowers(userId) == 0
  {
  }

  lemma ConcatPair(m: map<UserId, seq<PostId>>, a: UserId, b: UserId)
    ensures Concat(m, [a, b]) == ListOf(m, a) + ListOf(m, b)
  {
    assert [a, b][..1] == [a];
    assert [a][..0] == [];
    assert Concat(m, [a]) == ListOf(m, a);
  }

  lemma WithoutFirst(p: PostId, q: PostId)
    requires p != q
    ensures Without([p, q], p) == [q]
  {
    assert [p, q][..1] == [p];
    WithoutSingleton(p);
    assert Without([p, q], p) == Without([p], p) + [q];
  }

  /** Appending posts p1, p2, p3 for authors u1, u2, u2 to a fresh store
      leaves [p1] on the list of u1 and [p2, p3] on that of u2. */
  method SeedPostLists(u1: UserId, u2: UserId, p1: PostId, p2: PostId, p3: PostId)
    returns (repo: MockRecommendationRepo)
    requires u1 != u2
    ensures fresh(repo)
    ensures ListOf(repo.post, u1) == [p1] && ListOf(repo.post, u2) == [p2, p3]
  {
    repo := new MockRecommendationRepo();
    repo.AppendPost(u1, p1, "{}", 100);
    assert ListOf(repo.post, u2) == [] && repo.post[u1] == [p1];
    repo.AppendPost(u2, p2, "{}", 100);
    assert repo.post[u2] == [p2];
    repo.AppendPost(u2, p3, "{}", 100);
  }

  /** Appending posts p1, p2, p3 for authors u1, u2, u2, deleting p1 from
      u1 and p2 from u2, and reading u1 and u2 gives [p3]. */
  method DeleteFromPostLists(u1: UserId, u2: UserId, p1: PostId, p2: PostId, p3: PostId)
    returns (posts: seq<PostId>)
    requires u1 != u2 && p2 != p3
    ensures posts == [p3]
  {
    var repo := SeedPostLists(u1, u2, p1, p2, p3);
    repo.DeletePost(u1, p1);
    repo.DeletePost(u2, p2);
    assert ListOf(repo.post, u1) == [] && ListOf(repo.post, u2) == [p3] by {
      WithoutSingleton(p1);
      WithoutFirst(p2, p3);
    }
    ConcatPair(repo.post, u1, u2);
    posts := repo.GetPosts([u1, u2]);
  }

  /** Day counts of users 1, 2 and 3 when only 1 and 2 are recorded. */
  method LastLoginDefaults() returns (idDays: map<UserId, int>)
    ensures idDays == map["1" := 7, "2" := 99, "3" := 999]
  {
    var repo := MockFollowerRepo(None, None, Some(map["1" := 7, "2" := 99]));
    idDays := repo.ListLastLoginDays(["1", "2", "3"]);
  }

  /** The follower graph of the delete scenario: user 1 is followed by
      users 2, 3 and 4, user 2 by user 5, user 3 by user 6; everybody logged
      in a day ago. */
  function DeleteScenarioGraph(): MockFollowerRepo
  {
    MockFollowerRepo(
      Some(map["1" := ["2", "3", "4"], "2" := ["5"], "3" := ["6"]]),
      Some(map["2" := ["1"], "5" := ["2"], "6" := ["3"]]),
      Some(map["1" := 1, "2" := 1, "3" := 1, "4" := 1, "5" := 1, "6" := 1]))
  }

  /** What the facade reads from that graph, whatever the login days. */
  lemma DeleteScenarioRoles(lastLogin: Option<map<UserId, int>>)
    ensures var g := DeleteScenarioGraph().(lastLogin := lastLogin).View();
      g.countFollowers("1") == 3 && g.countFollowers("2") == 1 && g.countFollowers("3") == 1 &&
      g.followers("2") == ["5"] && g.followers("3") == ["6"] &&
      g.followees("2") == ["1"] && g.followees("5") == ["2"] && g.followees("6") == ["3"]
  {
  }

  lemma WithoutSingleton(p: PostId)
    ensures Without([p], p) == []
  {
    assert [p][..0] == [];
  }

  /** A user with an empty recommendation list and a single followee,
      whose post list is empty if they are a celebrity, reads an empty
      timeline. */
  lemma EmptyTimeline(config: Timeline.Config, g: Graph, post: map<UserId, seq<PostId>>,
                      recommendation: map<UserId, seq<PostId>>, u: UserId, c: UserId)
    requires g.followees(u) == [c] && ListOf(recommendation, u) == []
    requires Timeline.IsCelebrity(config, g, c) ==> ListOf(post, c) == []
    ensures TimelineOf(config, g, post, recommendation, u) == []
  {
    Timeline.SingleFollowee(config, g, u, c);
    if Timeline.IsCelebrity(config, g, c) {
      assert [c][..0] == [];
      assert Concat(post, [c]) == Concat(post, []) + ListOf(post, c);
    }
  }

  /** The facade's decisions on the delete scenario's graph under
      celebrity threshold 1: user 1 is a celebrity, users 2 and 3 are not,
      and their only followers, 5 and 6, are active. */
  lemma DeleteScenarioDecisions(config: Timeline.Config)
    requires config == Timeline.Configure(Some(Timeline.Conf(None, Some(1), None)))
    ensures var g := DeleteScenarioGraph().View();
      Timeline.IsCelebrity(config, g, "1") &&
      !Timeline.IsCelebrity(config, g, "2") && Timeline.ActiveFollowers(config, g, "2") == ["5"] &&
      !Timeline.IsCelebrity(config, g, "3") && Timeline.ActiveFollowers(config, g, "3") == ["6"]
  {
    var g := DeleteScenarioGraph().View();
    DeleteScenarioRoles(DeleteScenarioGraph().lastLogin);
    assert g.lastLoginDays("5") == 1 && g.lastLoginDays("6") == 1;
    Timeline.SingleFollower(config, g, "2", "5");
    Timeline.SingleFollower(config, g, "3", "6");
  }

  /** A fan-out to a single recipient is one push. */
  lemma PushedAllOne(m: map<UserId, seq<PostId>>, f: UserId, postId: PostId)
    ensures PushedAll(m, [f], postId) == Pushed(m, f, postId)
  {
    assert [f][..0] == [];
  }

  /** The three posts of the delete scenario, made through the facade's
      post on a fresh double: user 1's post lands on their own list, and the
      posts of users 2 and 3 on the lists of their only followers, 5 and 6. */
  method SeedDeleteScenario(config: Timeline.Config, g: Graph, p1: PostId, p2: PostId, p3: PostId)
    returns (repo: MockRecommendationRepo)
    requires config == Timeline.Configure(Some(Timeline.Conf(None, Some(1), None)))
    requires g == DeleteScenarioGraph().View()
    ensures fresh(repo)
    ensures ListOf(repo.post, "1") == [p1]
    ensures ListOf(repo.recommendation, "2") == [] && ListOf(repo.recommendation, "5") == [p2]
    ensures ListOf(repo.recommendation, "6") == [p3]
  {
    DeleteScenarioDecisions(config);
    repo := new MockRecommendationRepo();
    Post(config, g, repo, "1", p1, "");
    assert ListOf(repo.post, "1") == [p1] by {
      assert ListOf(map[], "1") + [p1] == [p1];
    }
    ghost var empty := repo.recommendation;
    Post(config, g, repo, "2", p2, "");
    PushedAllOne(empty, "5", p2);
    ghost var one := repo.recommendation;
    Post(config, g, repo, "3", p3, "");
    PushedAllOne(one, "6", p3);
    assert ListOf(one, "5") == [p2] && ListOf(one, "2") == [] && ListOf(one, "6") == [] by {
      assert empty == map[];
      assert ListOf(empty, "5") + [p2] == [p2];
    }
    assert ListOf(one, "6") + [p3] == [p3];
  }

  /** A celebrity deleting the only post on their list empties it. */
  method DeleteOwnPost(config: Timeline.Config, g: Graph, repo: MockRecommendationRepo, author: UserId, p: PostId)
    modifies repo
    requires Timeline.IsCelebrity(config, g, author) && ListOf(repo.post, author) == [p]
    ensures ListOf(repo.post, author) == [] && repo.recommendation == old(repo.recommendation)
  {
    DeletePost(config, g, repo, author, p);
    WithoutSingleton(p);
  }

  /** An ordinary author with a single follower deleting the only post on
      that follower's list empties it and leaves the lists of `u` and `v`
      alone. */
  method DeleteFromOnlyFollower(config: Timeline.Config, g: Graph, repo: MockRecommendationRepo,
                                author: UserId, f: UserId, p: PostId, u: UserId, v: UserId)
    modifies repo
    requires !Timeline.IsCelebrity(config, g, author) && g.followers(author) == [f]
    requires ListOf(repo.recommendation, f) == [p] && u != f && v != f
    ensures repo.post == old(repo.post) && ListOf(repo.recommendation, f) == []
    ensures ListOf(repo.recommendation, u) == old(ListOf(repo.recommendation, u))
    ensures ListOf(repo.recommendation, v) == old(ListOf(repo.recommendation, v))
  {
    ghost var before := repo.recommendation;
    DeletePost(config, g, repo, author, p);
    WithoutSingleton(p);
    DeletedAllAt(before, [f], p, f);
    DeletedAllAt(before, [f], p, u);
    DeletedAllAt(before, [f], p, v);
  }

  /** With celebrity threshold 1: user 1 (three followers) is a celebrity,
      users 2 and 3 (one follower each) are not. After their three posts
      land where the facade puts them and the three are deleted, with user 6
      turning inactive before the last delete, the timelines of users 2, 5
      and 6 are empty. */
  method DeleteFanOutScenario(p1: PostId, p2: PostId, p3: PostId) returns (timelines: seq<seq<PostId>>)
    ensures timelines == [[], [], []]
  {
    var followerRepo := DeleteScenarioGraph();
    var later := followerRepo.(lastLogin := Some(followerRepo.lastLogin.value["6" := 99]));
    var config := Timeline.Configure(Some(Timeline.Conf(None, Some(1), None)));
    var g1, g2 := followerRepo.View(), later.View();
    DeleteScenarioRoles(followerRepo.lastLogin);
    DeleteScenarioRoles(later.lastLogin);
    var repo := SeedDeleteScenario(config, g1, p1, p2, p3);
    DeleteOwnPost(config, g1, repo, "1", p1);
    DeleteFromOnlyFollower(config, g1, repo, "2", "5", p2, "2", "6");
    // user 6 becomes inactive before the last delete
    DeleteFromOnlyFollower(config, g2, repo, "3", "6", p3, "2", "5");
    EmptyTimeline(config, g2, repo.post, repo.recommendation, "2", "1");
    EmptyTimeline(config, g2, repo.post, repo.recommendation, "5", "2");
    EmptyTimeline(config, g2, repo.post, repo.recommendation, "6", "3");
    timelines := [TimelineOf(config, g2, repo.post, repo.recommendation, "2"),
                  TimelineOf(config, g2, repo.post, repo.recommendation, "5"),
                  TimelineOf(config, g2, repo.post, repo.recommendation, "6")];
  }
}

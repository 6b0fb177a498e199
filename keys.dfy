/** The store key namespaces. The recommendation repository keeps each
    author's own posts and each follower's recommended posts under
    `timeline.post.<id>` and `timeline.recommendation.<id>`; the follower
    repository reads `timeline.follower.<id>`, `timeline.followee.<id>` and
    `timeline.last.login.<id>`. Every key is its namespace's prefix followed by
    the user id. */
module Keys {
  import opened Common

  const PostPrefix: string := "timeline.post."
  const RecommendationPrefix: string := "timeline.recommendation."
  const FollowerPrefix: string := "timeline.follower."
  const LastLoginPrefix: string := "timeline.last.login."
  const FolloweePrefix: string := "timeline.followee."

  function PostKey(authorId: UserId): string { PostPrefix + authorId }
  function RecommendationKey(follower: UserId): string { RecommendationPrefix + follower }
  function FollowerKey(userId: UserId): string { FollowerPrefix + userId }
  function LastLoginKey(userId: UserId): string { LastLoginPrefix + userId }
  function FolloweeKey(userId: UserId): string { FolloweePrefix + userId }

  /** Reads the user id back out of a key of the namespace `prefix`, or
      reports that the key lies outside that namespace. */
  function IdOf(prefix: string, key: string): (r: Option<UserId>)
    ensures r.Some? ==> key == prefix + r.value
    ensures r.None? ==> forall id: UserId {:trigger prefix + id} :: key != prefix + id
  {
    if |prefix| <= |key| && key[..|prefix|] == prefix then Some(key[|prefix|..])
    else None
  }

  /** Building a key and reading its id back gives the id again, so each
      constructor is injective. */
  lemma {:induction false} IdOfKey(prefix: string, id: UserId)
    ensures IdOf(prefix, prefix + id) == Some(id)
  {
    assert (prefix + id)[..|prefix|] == prefix;
    assert (prefix + id)[|prefix|..] == id;
  }

  lemma KeysInjective(a: UserId, b: UserId)
    ensures PostKey(a) == PostKey(b) ==> a == b
    ensures RecommendationKey(a) == RecommendationKey(b) ==> a == b
    ensures FollowerKey(a) == FollowerKey(b) ==> a == b
    ensures LastLoginKey(a) == LastLoginKey(b) ==> a == b
    ensures FolloweeKey(a) == FolloweeKey(b) ==> a == b
  {
    IdOfKey(PostPrefix, a); IdOfKey(PostPrefix, b);
    IdOfKey(RecommendationPrefix, a); IdOfKey(RecommendationPrefix, b);
    IdOfKey(FollowerPrefix, a); IdOfKey(FollowerPrefix, b);
    IdOfKey(LastLoginPrefix, a); IdOfKey(LastLoginPrefix, b);
    IdOfKey(FolloweePrefix, a); IdOfKey(FolloweePrefix, b);
  }

  /** Two prefixes that differ at a position both of them have keep every
      pair of their keys apart. */
  lemma {:induction false} PrefixesDiffer(p: string, q: string, a: UserId, b: UserId, i: nat)
    requires i < |p| && i < |q| && p[i] != q[i]
    ensures p + a != q + b
  {
    assert (p + a)[i] == p[i];
    assert (q + b)[i] == q[i];
  }

  /** Keys built by different constructors never collide, whatever the ids. */
  lemma KeysDisjoint(a: UserId, b: UserId)
    ensures PostKey(a) != RecommendationKey(b)
    ensures PostKey(a) != FollowerKey(b) && PostKey(a) != LastLoginKey(b) && PostKey(a) != FolloweeKey(b)
    ensures RecommendationKey(a) != FollowerKey(b) && RecommendationKey(a) != LastLoginKey(b)
    ensures RecommendationKey(a) != FolloweeKey(b)
    ensures FollowerKey(a) != LastLoginKey(b) && FollowerKey(a) != FolloweeKey(b)
    ensures LastLoginKey(a) != FolloweeKey(b)
  {
    // "timeline." is common to all; the tenth character tells p, r, f and l
    // apart, and "follower." and "followee." part at the seventeenth.
    PrefixesDiffer(PostPrefix, RecommendationPrefix, a, b, 9);
    PrefixesDiffer(PostPrefix, FollowerPrefix, a, b, 9);
    PrefixesDiffer(PostPrefix, LastLoginPrefix, a, b, 9);
    PrefixesDiffer(PostPrefix, FolloweePrefix, a, b, 9);
    PrefixesDiffer(RecommendationPrefix, FollowerPrefix, a, b, 9);
    PrefixesDiffer(RecommendationPrefix, LastLoginPrefix, a, b, 9);
    PrefixesDiffer(RecommendationPrefix, FolloweePrefix, a, b, 9);
    PrefixesDiffer(FollowerPrefix, LastLoginPrefix, a, b, 9);
    PrefixesDiffer(FollowerPrefix, FolloweePrefix, a, b, 16);
    PrefixesDiffer(LastLoginPrefix, FolloweePrefix, a, b, 9);
  }
}

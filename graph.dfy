/** The social graph as the timeline facade consults it: the four queries
    it puts to its follower repository, answered from one snapshot. Both the
    store-backed follower repository and the in-memory test double present
    themselves this way (`Follower.View`, `MockRepos.MockFollowerRepo.View`). */
module SocialGraph {
  import opened Common

  datatype Graph = Graph(
    countFollowers: UserId -> nat,
    followers: UserId -> seq<UserId>,
    followees: UserId -> seq<UserId>,
    lastLoginDays: UserId -> int)
}

/**
 * The follow list of src/hooks/useFollowing.ts: one user's entries, each
 * naming an agent the user follows, appended by `followAgent` and dropped by
 * `unfollowAgent`.
 *
 * The entry's timestamp (`new Date().toISOString()`) is passed in.
 */
module Following {
  import opened Seqs

  /** `Following`: who follows which agent, and when. */
  datatype Follow = Follow(userId: string, agentId: string, timestamp: string)

  /** `following.some(f => f.agentId === agentId)`. */
  predicate Follows(following: seq<Follow>, agentId: string) {
    exists i :: 0 <= i < |following| && following[i].agentId == agentId
  }

  function IsFor(agentId: string): Follow -> bool {
    (f: Follow) => f.agentId == agentId
  }

  function IsNotFor(agentId: string): Follow -> bool {
    (f: Follow) => f.agentId != agentId
  }

  /** `prev.filter(f => f.agentId !== agentId)`: every entry for the agent goes, the rest stay in order. */
  function Unfollowed(following: seq<Follow>, agentId: string): (r: seq<Follow>)
    ensures IsSubsequence(r, following)
    ensures forall f :: f in r <==> f in following && f.agentId != agentId
  {
    FilterIsSubsequence(following, IsNotFor(agentId));
    FilterMembers(following, IsNotFor(agentId));
    Filter(following, IsNotFor(agentId))
  }

  /** `following.map(f => f.agentId)`. */
  function FollowedAgents(following: seq<Follow>): (r: seq<string>)
    ensures |r| == |following|
    ensures forall i :: 0 <= i < |r| ==> r[i] == following[i].agentId
  {
    Map(following, (f: Follow) => f.agentId)
  }

  /** An agent is listed by `getFollowedAgents` exactly when `isFollowing` holds for it. */
  lemma FollowedAgentsIffFollows(following: seq<Follow>, agentId: string)
    ensures agentId in FollowedAgents(following) <==> Follows(following, agentId)
  {
    var r := FollowedAgents(following);
    if agentId in r {
      var i :| 0 <= i < |r| && r[i] == agentId;
      assert following[i].agentId == agentId;
    }
    if Follows(following, agentId) {
      var i :| 0 <= i < |following| && following[i].agentId == agentId;
      assert r[i] == agentId;
    }
  }

  /** After an entry for the agent is appended, the agent is followed. */
  lemma FollowThenFollows(following: seq<Follow>, f: Follow)
    ensures Follows(following + [f], f.agentId)
  {
    assert (following + [f])[|following|] == f;
  }

  /** After unfollowing, the agent is not followed, whatever number of entries it had. */
  lemma UnfollowThenNotFollows(following: seq<Follow>, agentId: string)
    ensures !Follows(Unfollowed(following, agentId), agentId)
  {
    var r := Unfollowed(following, agentId);
    forall i | 0 <= i < |r| ensures r[i].agentId != agentId {
      assert r[i] in r;
    }
  }

  /** Unfollowing one agent keeps another agent's entries, all of them and in their order. */
  lemma UnfollowKeepsOthers(following: seq<Follow>, agentId: string, other: string)
    requires other != agentId
    ensures Filter(Unfollowed(following, agentId), IsFor(other)) == Filter(following, IsFor(other))
  {
    FilterNarrowed(following, IsNotFor(agentId), IsFor(other));
  }

  /** Unfollowing an agent not followed changes nothing. */
  lemma UnfollowAbsent(following: seq<Follow>, agentId: string)
    requires !Follows(following, agentId)
    ensures Unfollowed(following, agentId) == following
  {
    FilterAll(following, IsNotFor(agentId));
  }

  /** The hook's state for one user. */
  class FollowList {
    const userId: string
    var following: seq<Follow>

    constructor (userId: string)
      ensures this.userId == userId && following == []
    {
      this.userId := userId;
      following := [];
    }

    /** `followAgent`: one entry for this user and the agent, at the end; an existing entry is not looked for. */
    method FollowAgent(agentId: string, timestamp: string)
      modifies this
      ensures following == old(following) + [Follow(userId, agentId, timestamp)]
      ensures IsFollowing(agentId)
    {
      FollowThenFollows(following, Follow(userId, agentId, timestamp));
      following := following + [Follow(userId, agentId, timestamp)];
    }

    /** `unfollowAgent`: all of the agent's entries go. */
    method UnfollowAgent(agentId: string)
      modifies this
      ensures following == Unfollowed(old(following), agentId)
      ensures !IsFollowing(agentId)
    {
      UnfollowThenNotFollows(following, agentId);
      following := Unfollowed(following, agentId);
    }

    predicate IsFollowing(agentId: string)
      reads this
    {
      Follows(following, agentId)
    }

    function GetFollowedAgents(): (r: seq<string>)
      reads this
      ensures |r| == |following|
    {
      FollowedAgents(following)
    }
  }
}

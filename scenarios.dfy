/**
 * Two requests in a row against the same store, and what the handlers'
 * contracts alone let a caller conclude about the second one.
 */
module Scenarios {

  import opened Results
  import opened Schema
  import opened Routes

  /** Liking the same video twice: whatever the first answer, the second is refused. */
  method LikeTwice(s: Store, agentId: int, videoId: int) returns (first: Result<()>, second: Result<()>)
    requires s.Valid() && agentId in s.agents.rows
    modifies s`interactions, s`videos
    ensures s.Valid()
    ensures first.Ok? ==> second == Err(Rejected("Already liked"))
    ensures second.Err?
  {
    first := s.LikeVideo(agentId, videoId);
    if first.Ok? {
      ghost var id := old(s.interactions.nextId);
      assert id in s.interactions.rows && s.interactions.rows[id] == Interaction(agentId, videoId, Like, None);
    }
    second := s.LikeVideo(agentId, videoId);
  }

  /** Following the same agent twice: the second request is refused. */
  method FollowTwice(s: Store, agentId: int, username: string) returns (first: Result<()>, second: Result<()>)
    requires s.Valid() && agentId in s.agents.rows
    modifies s`follows
    ensures s.Valid()
    ensures first.Ok? ==> second == Err(Rejected("Already following"))
    ensures second.Err?
  {
    first := s.FollowAgent(agentId, username);
    if first.Ok? {
      ghost var id := old(s.follows.nextId);
      assert id in s.follows.rows && s.follows.rows[id] == Follow(agentId, UsernameOwner(s.agents.rows, username));
    }
    second := s.FollowAgent(agentId, username);
  }

  /**
   * A YES stake of 100 and a NO stake of 300 on an open market: both are
   * accepted, the pool grows by 400, YES by 100 and NO by 300; a further
   * stake of 50 is refused and changes nothing.
   */
  method TwoStakesAndASmallOne(s: Store, agentId: int, marketId: int)
    returns (yes: Result<Row<Bet>>, no: Result<Row<Bet>>, small: Result<Row<Bet>>)
    requires s.Valid() && agentId in s.agents.rows
    requires marketId in s.markets.rows && !s.markets.rows[marketId].resolved
    modifies s`bets, s`markets, s`history
    ensures s.Valid() && yes.Ok? && no.Ok? && small == Err(Rejected("Invalid bet data"))
    ensures marketId in s.markets.rows
    ensures s.markets.rows[marketId].totalPool == old(s.markets.rows[marketId].totalPool) + 400
    ensures s.markets.rows[marketId].yesVotes == old(s.markets.rows[marketId].yesVotes) + 100
    ensures s.markets.rows[marketId].noVotes == old(s.markets.rows[marketId].noVotes) + 300
  {
    yes := s.PlaceBet(agentId, marketId, Some(100), Some(true));
    no := s.PlaceBet(agentId, marketId, Some(300), Some(false));
    small := s.PlaceBet(agentId, marketId, Some(50), Some(true));
  }
}

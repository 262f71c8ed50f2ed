/**
 * What the route handlers (server/routes.ts) demand of a request body and
 * what they keep true of the store: the schema's unique constraints and
 * foreign keys, the rules the handlers enforce on top of them, and the bet
 * ledger. Stated on table values, with the lemmas that each accepted
 * request keeps them.
 */
module StoreRules {

  import opened Results
  import opened Schema
  import opened Ledger

  /** JavaScript truthiness of an optional body string: present and non-empty. */
  predicate Given(s: Option<string>) {
    s.Some? && s.value != ""
  }

  // ---------------------------------------------------------------------
  // Handler checks

  /** `videoUrl` present and `duration` present, non-zero and at most 10000 ms. */
  predicate ValidVideoData(videoUrl: Option<string>, duration: Option<int>) {
    Given(videoUrl) && duration.Some? && duration.value != 0 && duration.value <= 10000
  }

  /**
   * `amount` present, non-zero and at least the minimum, and `prediction` a
   * boolean: the zero test is subsumed, so exactly the stakes of at least
   * 100 cents with a prediction pass.
   */
  function ValidBetData(amount: Option<int>, prediction: Option<bool>): (ok: bool)
    ensures ok <==> amount.Some? && amount.value >= MinBet && prediction.Some?
  {
    amount.Some? && amount.value != 0 && amount.value >= MinBet && prediction.Some?
  }

  /**
   * `agent.userId && agent.userId !== user.id`: only an agent owned by
   * another user is refused; an unowned agent, or one the caller already
   * owns, can be claimed.
   */
  function ClaimedByOther(a: Agent, userId: int): (refused: bool)
    ensures refused ==> a.userId.Some? && a.userId != Some(userId)
    ensures a.userId == None || a.userId == Some(userId) ==> !refused
  {
    a.userId.Some? && a.userId.value != 0 && a.userId.value != userId
  }

  /** The agent has a 'like' interaction on the video. */
  predicate HasLiked(interactions: map<int, Interaction>, agentId: int, videoId: int) {
    exists id :: id in interactions && interactions[id].kind == Like &&
      interactions[id].agentId == agentId && interactions[id].videoId == videoId
  }

  predicate IsFollowing(follows: map<int, Follow>, followerId: int, followingId: int) {
    exists id :: id in follows && follows[id] == Follow(followerId, followingId)
  }

  /** At most one like per agent and video. */
  predicate LikesOncePerAgent(interactions: map<int, Interaction>) {
    forall i, j ::
      i in interactions && j in interactions && interactions[i].kind == Like && interactions[j].kind == Like &&
      interactions[i].agentId == interactions[j].agentId && interactions[i].videoId == interactions[j].videoId
      ==> i == j
  }

  /** Likes carry no content, comments carry non-empty content. */
  predicate InteractionsWellFormed(interactions: map<int, Interaction>) {
    forall i :: i in interactions ==>
      (interactions[i].kind == Like ==> interactions[i].content == None) &&
      (interactions[i].kind == Comment ==> Given(interactions[i].content))
  }

  /** Nobody follows themself. */
  predicate FollowsIrreflexive(follows: map<int, Follow>) {
    forall i :: i in follows ==> follows[i].followerId != follows[i].followingId
  }

  predicate BetsAboveMinimum(bets: map<int, Bet>) {
    forall i :: i in bets ==> bets[i].amount >= MinBet
  }

  // ---------------------------------------------------------------------
  // Foreign keys

  predicate AgentsReferenceUsers(agents: map<int, Agent>, users: map<int, User>) {
    forall id :: id in agents && agents[id].userId.Some? ==> agents[id].userId.value in users
  }

  predicate VideosReferenceAgents(videos: map<int, Video>, agents: map<int, Agent>) {
    forall id :: id in videos ==> videos[id].agentId in agents
  }

  predicate InteractionsReference(interactions: map<int, Interaction>, agents: map<int, Agent>, videos: map<int, Video>) {
    forall id :: id in interactions ==> interactions[id].agentId in agents && interactions[id].videoId in videos
  }

  predicate FollowsReference(follows: map<int, Follow>, agents: map<int, Agent>) {
    forall id :: id in follows ==> follows[id].followerId in agents && follows[id].followingId in agents
  }

  predicate MarketsReferenceVideos(markets: map<int, Market>, videos: map<int, Video>) {
    forall id :: id in markets ==> markets[id].videoId in videos
  }

  predicate BetsReference(bets: map<int, Bet>, markets: map<int, Market>, agents: map<int, Agent>) {
    forall id :: id in bets ==> bets[id].marketId in markets && bets[id].agentId in agents
  }

  /**
   * Each market is its inserted row with its accepted bets folded in, in
   * order; a market inserted as resolved has taken no bet.
   */
  ghost predicate LedgerOk(markets: map<int, Market>, opening: map<int, Market>, history: map<int, seq<Bet>>) {
    markets.Keys == opening.Keys == history.Keys &&
    forall mid :: mid in markets ==>
      markets[mid] == ApplyBets(opening[mid], history[mid]) &&
      (opening[mid].resolved ==> history[mid] == []) &&
      (forall b :: b in history[mid] ==> b.marketId == mid && b.amount >= MinBet)
  }

  /** An accepted bet on an unresolved market keeps the ledger consistent. */
  lemma LedgerAfterBet(markets: map<int, Market>, opening: map<int, Market>, history: map<int, seq<Bet>>, b: Bet)
    requires LedgerOk(markets, opening, history)
    requires b.marketId in markets && !markets[b.marketId].resolved && b.amount >= MinBet
    ensures LedgerOk(markets[b.marketId := ApplyBet(markets[b.marketId], b.amount, b.prediction)], opening,
                     history[b.marketId := history[b.marketId] + [b]])
  {
    var mid := b.marketId;
    ApplyBetsSnoc(opening[mid], history[mid], b);
    ApplyBetsTotals(opening[mid], history[mid]);
  }

  /** The rows of `bets` with ids below `n` that stake on market `mid`, in id order. */
  function BetsOf(bets: map<int, Bet>, mid: int, n: int): (r: seq<Bet>)
    decreases n
    ensures forall b :: b in r ==> b in bets.Values && b.marketId == mid
  {
    if n <= 1 then []
    else BetsOf(bets, mid, n - 1) + (if n - 1 in bets && bets[n - 1].marketId == mid then [bets[n - 1]] else [])
  }

  /** Each market's ledger history is exactly its stored bet rows, in the order they were inserted. */
  predicate HistoryIsBetRows(bets: Table<Bet>, history: map<int, seq<Bet>>) {
    forall mid :: mid in history ==> history[mid] == BetsOf(bets.rows, mid, bets.nextId)
  }

  /** Rows at or above `n` do not affect the bets below it. */
  lemma {:induction false} BetsOfBelow(bets: map<int, Bet>, mid: int, k: int, n: int, b: Bet)
    requires k <= n
    ensures BetsOf(bets[n := b], mid, k) == BetsOf(bets, mid, k)
    decreases k
  {
    if k > 1 {
      BetsOfBelow(bets, mid, k - 1, n, b);
    }
  }

  /** Inserting a bet row extends its market's bets by that row and leaves every other market's. */
  lemma BetsOfInsert(bets: Table<Bet>, mid: int, b: Bet)
    requires bets.Wf()
    ensures BetsOf(bets.Insert(b).rows, mid, bets.nextId + 1) ==
            BetsOf(bets.rows, mid, bets.nextId) + (if b.marketId == mid then [b] else [])
  {
    BetsOfBelow(bets.rows, mid, bets.nextId, bets.nextId, b);
  }

  /** A market no bet row references has no bets. */
  lemma {:induction false} BetsOfNone(bets: map<int, Bet>, mid: int, n: int)
    requires forall id :: id in bets ==> bets[id].marketId != mid
    ensures BetsOf(bets, mid, n) == []
    decreases n
  {
    if n > 1 {
      BetsOfNone(bets, mid, n - 1);
    }
  }

  /** Recording an accepted bet in its market's history and in the bets table keeps the two equal. */
  lemma BetKeepsHistory(bets: Table<Bet>, history: map<int, seq<Bet>>, b: Bet)
    requires bets.Wf() && HistoryIsBetRows(bets, history) && b.marketId in history
    ensures HistoryIsBetRows(bets.Insert(b), history[b.marketId := history[b.marketId] + [b]])
  {
    var history' := history[b.marketId := history[b.marketId] + [b]];
    forall mid | mid in history'
      ensures history'[mid] == BetsOf(bets.Insert(b).rows, mid, bets.Insert(b).nextId)
    {
      BetsOfInsert(bets, mid, b);
      if mid != b.marketId {
        assert history[mid] + [] == history[mid];
      }
    }
  }

  /** A new market, which no bet row can reference yet, starts with the empty history. */
  lemma MarketInsertKeepsHistory(bets: Table<Bet>, markets: Table<Market>, agents: map<int, Agent>,
                                 history: map<int, seq<Bet>>)
    requires markets.Wf() && BetsReference(bets.rows, markets.rows, agents) && HistoryIsBetRows(bets, history)
    ensures HistoryIsBetRows(bets, history[markets.nextId := []])
  {
    BetsOfNone(bets.rows, markets.nextId, bets.nextId);
  }

  /**
   * The schema's unique constraints and foreign keys, the rules the
   * handlers keep, and the bet ledger.
   */
  ghost predicate StoreOk(users: Table<User>, agents: Table<Agent>, videos: Table<Video>,
                          interactions: Table<Interaction>, follows: Table<Follow>,
                          markets: Table<Market>, bets: Table<Bet>,
                          opening: map<int, Market>, history: map<int, seq<Bet>>)
  {
    // every table's ids come from its sequence
    users.Wf() && agents.Wf() && videos.Wf() && interactions.Wf() &&
    follows.Wf() && markets.Wf() && bets.Wf() &&
    // unique constraints
    UniqueEmails(users.rows) && UniqueUsernames(agents.rows) &&
    UniqueApiKeys(agents.rows) && UniqueFollows(follows.rows) &&
    // foreign keys
    AgentsReferenceUsers(agents.rows, users.rows) && VideosReferenceAgents(videos.rows, agents.rows) &&
    InteractionsReference(interactions.rows, agents.rows, videos.rows) &&
    FollowsReference(follows.rows, agents.rows) && MarketsReferenceVideos(markets.rows, videos.rows) &&
    BetsReference(bets.rows, markets.rows, agents.rows) &&
    // rules no constraint enforces but the handlers keep
    LikesOncePerAgent(interactions.rows) && InteractionsWellFormed(interactions.rows) &&
    FollowsIrreflexive(follows.rows) && BetsAboveMinimum(bets.rows) &&
    LedgerOk(markets.rows, opening, history) && HistoryIsBetRows(bets, history)
  }

  /** An accepted bet keeps every invariant of the store. */
  lemma BetKeepsStore(users: Table<User>, agents: Table<Agent>, videos: Table<Video>,
                      interactions: Table<Interaction>, follows: Table<Follow>,
                      markets: Table<Market>, bets: Table<Bet>,
                      opening: map<int, Market>, history: map<int, seq<Bet>>, b: Bet)
    requires StoreOk(users, agents, videos, interactions, follows, markets, bets, opening, history)
    requires b.marketId in markets.rows && b.agentId in agents.rows && !markets.rows[b.marketId].resolved
    requires b.amount >= MinBet
    ensures StoreOk(users, agents, videos, interactions, follows,
                    markets.Set(b.marketId, ApplyBet(markets.rows[b.marketId], b.amount, b.prediction)),
                    bets.Insert(b), opening, history[b.marketId := history[b.marketId] + [b]])
  {
    BetKeepsInvariants(markets.rows, videos.rows, agents.rows, bets, opening, history, b);
    BetKeepsHistory(bets, history, b);
  }

  /** An accepted bet keeps the market and bet tables' invariants. */
  lemma BetKeepsInvariants(markets: map<int, Market>, videos: map<int, Video>, agents: map<int, Agent>,
                           bets: Table<Bet>, opening: map<int, Market>, history: map<int, seq<Bet>>, b: Bet)
    requires bets.Wf() && MarketsReferenceVideos(markets, videos) && BetsReference(bets.rows, markets, agents)
    requires BetsAboveMinimum(bets.rows) && LedgerOk(markets, opening, history)
    requires b.marketId in markets && b.agentId in agents && !markets[b.marketId].resolved && b.amount >= MinBet
    ensures var markets' := markets[b.marketId := ApplyBet(markets[b.marketId], b.amount, b.prediction)];
      MarketsReferenceVideos(markets', videos) && BetsReference(bets.Insert(b).rows, markets', agents) &&
      BetsAboveMinimum(bets.Insert(b).rows) &&
      LedgerOk(markets', opening, history[b.marketId := history[b.marketId] + [b]])
  {
    LedgerAfterBet(markets, opening, history, b);
  }

  // ---------------------------------------------------------------------
  // What each accepted request keeps

  /** A new like keeps likes unique per agent and video, and is then on record. */
  lemma LikeKeepsOnce(interactions: Table<Interaction>, agentId: int, videoId: int)
    requires interactions.Wf() && LikesOncePerAgent(interactions.rows) && InteractionsWellFormed(interactions.rows)
    requires !HasLiked(interactions.rows, agentId, videoId)
    ensures var after := interactions.Insert(Interaction(agentId, videoId, Like, None)).rows;
      LikesOncePerAgent(after) && InteractionsWellFormed(after) && HasLiked(after, agentId, videoId)
  {
    var after := interactions.Insert(Interaction(agentId, videoId, Like, None)).rows;
    assert after[interactions.nextId].kind == Like;
  }

  /** A new follow of someone else, not yet followed, keeps the relation irreflexive and duplicate-free. */
  lemma FollowKeepsGraph(follows: Table<Follow>, f: Follow)
    requires follows.Wf() && UniqueFollows(follows.rows) && FollowsIrreflexive(follows.rows)
    requires f.followerId != f.followingId && !IsFollowing(follows.rows, f.followerId, f.followingId)
    ensures var after := follows.Insert(f).rows;
      UniqueFollows(after) && FollowsIrreflexive(after) && IsFollowing(after, f.followerId, f.followingId)
  {
    assert follows.Insert(f).rows[follows.nextId] == f;
  }

  /** Registering under an unused username and an unused key keeps both unique. */
  lemma RegisterKeepsUnique(agents: Table<Agent>, a: Agent)
    requires agents.Wf() && UniqueUsernames(agents.rows) && UniqueApiKeys(agents.rows)
    requires !UsernameTaken(agents.rows, a.username) && !ApiKeyTaken(agents.rows, a.apiKey)
    ensures UniqueUsernames(agents.Insert(a).rows) && UniqueApiKeys(agents.Insert(a).rows)
  {
  }

  /** Changing one agent's key to a key no other agent holds keeps keys unique; usernames stay unique. */
  lemma RekeyKeepsUnique(agents: Table<Agent>, id: int, key: string)
    requires agents.Wf() && UniqueUsernames(agents.rows) && UniqueApiKeys(agents.rows) && id in agents.rows
    requires !ApiKeyTakenByOther(agents.rows, key, id)
    ensures var after := agents.Set(id, agents.rows[id].(apiKey := key)).rows;
      UniqueUsernames(after) && UniqueApiKeys(after) && after[id].apiKey == key
  {
  }

  /** A new market starts its ledger with its inserted row and no bets. */
  lemma MarketInsertKeepsLedger(markets: Table<Market>, opening: map<int, Market>, history: map<int, seq<Bet>>, m: Market)
    requires markets.Wf() && LedgerOk(markets.rows, opening, history)
    ensures LedgerOk(markets.Insert(m).rows, opening[markets.nextId := m], history[markets.nextId := []])
  {
    assert ApplyBets(m, []) == m;
  }
}

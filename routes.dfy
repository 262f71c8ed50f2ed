/**
 * The state-changing API route handlers (server/routes.ts) over an
 * in-memory store. Each handler is a method of `Store` that either
 * succeeds or refuses with a classified failure carrying the handler's
 * error text; a refused request leaves the store as it was.
 */
module Routes {

  import opened Results
  import opened Schema
  import opened Ledger
  import opened StoreRules
  import KeyDisplay

  // ---------------------------------------------------------------------
  // API keys and the Bearer header

  const BearerPrefix: string := "Bearer "

  /** The API key carried by an `Authorization` header: all of it after "Bearer ". */
  function BearerKey(header: Option<string>): (key: Option<string>)
    ensures key.Some? <==> header.Some? && BearerPrefix <= header.value
    ensures key.Some? ==> header.value == BearerPrefix + key.value
  {
    if header.Some? && BearerPrefix <= header.value then Some(header.value[|BearerPrefix|..]) else None
  }

  /** The key every issued API key has: the fixed prefix and 64 hex digits of randomness. */
  function GeneratedKey(hex: string): (key: string)
    requires KeyDisplay.IsHex64(hex)
    ensures |key| == 72 && key[..8] == KeyDisplay.KeyPrefix && key[8..] == hex
  {
    KeyDisplay.KeyPrefix + hex
  }

  /** An agent as the API shows it: every column but the API key. */
  datatype PublicAgent = PublicAgent(
    id: int,
    userId: Option<int>,
    name: string,
    username: string,
    avatar: Option<string>,
    bio: Option<string>,
    reputationScore: int,
    totalEarnings: int,
    isActive: bool)

  /** The agent row that shows as `v` and holds `key`. */
  function WithApiKey(v: PublicAgent, key: string): Agent {
    Agent(v.userId, v.name, v.username, key, v.avatar, v.bio, v.reputationScore, v.totalEarnings, v.isActive)
  }

  /** `stripApiKey`: the row without its key; putting the key back gives the row again. */
  function StripApiKey(id: int, a: Agent): (v: PublicAgent)
    ensures v.id == id && WithApiKey(v, a.apiKey) == a
  {
    PublicAgent(id, a.userId, a.name, a.username, a.avatar, a.bio, a.reputationScore, a.totalEarnings, a.isActive)
  }

  /** What `stripApiKey` returns does not depend on the key. */
  lemma StripApiKeyHidesKey(id: int, a: Agent, key: string)
    ensures StripApiKey(id, a.(apiKey := key)) == StripApiKey(id, a)
  {
  }

  // ---------------------------------------------------------------------
  // Field updates made by the handlers

  /** A view: `views` + 1. */
  function Viewed(v: Video): (r: Video)
    ensures r.views == v.views + 1 && r == v.(views := r.views)
  {
    v.(views := v.views + 1)
  }

  /** A like: `likes` + 1 and `engagementScore` + 1. */
  function Liked(v: Video): (r: Video)
    ensures r.likes == v.likes + 1 && r.engagementScore == v.engagementScore + 1
    ensures r == v.(likes := r.likes, engagementScore := r.engagementScore)
  {
    v.(likes := v.likes + 1, engagementScore := v.engagementScore + 1)
  }

  /** A comment: `comments` + 1 and `engagementScore` + 2. */
  function Commented(v: Video): (r: Video)
    ensures r.comments == v.comments + 1 && r.engagementScore == v.engagementScore + 2
    ensures r == v.(comments := r.comments, engagementScore := r.engagementScore)
  {
    v.(comments := v.comments + 1, engagementScore := v.engagementScore + 2)
  }

  /** A patch sets exactly those of name, bio and isActive that were supplied. */
  function ApplyPatch(a: Agent, name: Option<string>, bio: Option<Option<string>>, isActive: Option<bool>): (r: Agent)
    ensures name.Some? ==> r.name == name.value
    ensures bio.Some? ==> r.bio == bio.value
    ensures isActive.Some? ==> r.isActive == isActive.value
    ensures name.None? ==> r.name == a.name
    ensures bio.None? ==> r.bio == a.bio
    ensures isActive.None? ==> r.isActive == a.isActive
    ensures r == a.(name := r.name, bio := r.bio, isActive := r.isActive)
  {
    a.(name := OrDefault(name, a.name), bio := OrDefault(bio, a.bio), isActive := OrDefault(isActive, a.isActive))
  }

  /** Applying the same patch twice is the same as applying it once; an empty patch changes nothing. */
  lemma PatchIdempotent(a: Agent, name: Option<string>, bio: Option<Option<string>>, isActive: Option<bool>)
    ensures ApplyPatch(ApplyPatch(a, name, bio, isActive), name, bio, isActive) == ApplyPatch(a, name, bio, isActive)
    ensures ApplyPatch(a, None, None, None) == a
  {
  }

  /** What registration answers: the new agent without its key, and the key. */
  datatype Registration = Registration(agent: PublicAgent, apiKey: string)

  // ---------------------------------------------------------------------
  // The store

  class Store {
    var users: Table<User>
    var agents: Table<Agent>
    var videos: Table<Video>
    var interactions: Table<Interaction>
    var follows: Table<Follow>
    var markets: Table<Market>
    var bets: Table<Bet>

    /** Each market's row as it was inserted. */
    ghost var opening: map<int, Market>
    /** Each market's accepted bets, in the order they were accepted. */
    ghost var history: map<int, seq<Bet>>

    ghost predicate Valid()
      reads this
    {
      StoreOk(users, agents, videos, interactions, follows, markets, bets, opening, history)
    }

    constructor ()
      ensures Valid()
      ensures users.rows == map[] && agents.rows == map[] && videos.rows == map[]
      ensures interactions.rows == map[] && follows.rows == map[] && markets.rows == map[] && bets.rows == map[]
    {
      users, agents, videos := EmptyTable(), EmptyTable(), EmptyTable();
      interactions, follows := EmptyTable(), EmptyTable();
      markets, bets := EmptyTable(), EmptyTable();
      opening, history := map[], map[];
    }

    /** Inserts a user row; the unique email constraint refuses a second row with the same email. */
    method InsertUser(email: string, password: string) returns (r: Result<int>)
      requires Valid()
      modifies this`users
      ensures Valid()
      ensures EmailTaken(old(users.rows), email) ==> r == Err(ConstraintViolation) && users == old(users)
      ensures !EmailTaken(old(users.rows), email) ==>
        r == Ok(old(users.nextId)) && users == old(users).Insert(User(email, password))
    {
      if EmailTaken(users.rows, email) {
        return Err(ConstraintViolation);
      }
      r := Ok(users.nextId);
      users := users.Insert(User(email, password));
    }

    /**
     * Inserts a market row; columns not supplied take their defaults. The
     * foreign key refuses a market on an unknown video.
     */
    method InsertMarket(videoId: int, question: string, endTime: int,
                        totalPool: Option<int>, yesVotes: Option<int>, noVotes: Option<int>,
                        resolved: Option<bool>, outcome: Option<bool>) returns (r: Result<int>)
      requires Valid()
      modifies this`markets, this`opening, this`history
      ensures Valid()
      ensures videoId !in videos.rows ==>
        r == Err(ConstraintViolation) && markets == old(markets) && opening == old(opening) && history == old(history)
      ensures videoId in videos.rows ==>
        var m := NewMarket(videoId, question, endTime, totalPool, yesVotes, noVotes, resolved, outcome);
        r == Ok(old(markets.nextId)) && markets == old(markets).Insert(m) &&
        opening == old(opening)[r.value := m] && history == old(history)[r.value := []]
    {
      if videoId !in videos.rows {
        return Err(ConstraintViolation);
      }
      var m := NewMarket(videoId, question, endTime, totalPool, yesVotes, noVotes, resolved, outcome);
      var id := markets.nextId;
      MarketInsertKeepsLedger(markets, opening, history, m);
      MarketInsertKeepsHistory(bets, markets, agents.rows, history);
      markets := markets.Insert(m);
      opening := opening[id := m];
      history := history[id := []];
      r := Ok(id);
    }

    /**
     * `authenticateAgent`: the agent whose API key follows "Bearer " in
     * the header. Changes nothing.
     */
    method AuthenticateAgent(header: Option<string>) returns (r: Result<int>)
      requires Valid()
      ensures BearerKey(header).None? ==> r == Err(Unauthorized("Missing API key"))
      ensures BearerKey(header).Some? && !ApiKeyTaken(agents.rows, BearerKey(header).value) ==>
        r == Err(Unauthorized("Invalid API key"))
      ensures r.Ok? <==> BearerKey(header).Some? && ApiKeyTaken(agents.rows, BearerKey(header).value)
      ensures r.Ok? ==> r.value in agents.rows && agents.rows[r.value].apiKey == BearerKey(header).value
    {
      var key := BearerKey(header);
      if key.None? {
        return Err(Unauthorized("Missing API key"));
      }
      if !ApiKeyTaken(agents.rows, key.value) {
        return Err(Unauthorized("Invalid API key"));
      }
      var id :| id in agents.rows && agents.rows[id].apiKey == key.value;
      r := Ok(id);
    }

    /**
     * Registers an agent under a fresh API key built from `hex`, the 64
     * hex digits of 32 random bytes. Answers the agent without its key,
     * and the key.
     */
    method Register(name: Option<string>, username: Option<string>, hex: string) returns (r: Result<Registration>)
      requires Valid() && KeyDisplay.IsHex64(hex)
      modifies this`agents
      ensures Valid()
      ensures !Given(name) || !Given(username) ==> r == Err(Rejected("Name and username required"))
      ensures Given(name) && Given(username) && UsernameTaken(old(agents.rows), username.value) ==>
        r == Err(Rejected("Username already taken"))
      ensures (Given(name) && Given(username) && !UsernameTaken(old(agents.rows), username.value) &&
               ApiKeyTaken(old(agents.rows), GeneratedKey(hex))) ==> r == Err(ConstraintViolation)
      ensures r.Ok? <==> (Given(name) && Given(username) && !UsernameTaken(old(agents.rows), username.value) &&
                          !ApiKeyTaken(old(agents.rows), GeneratedKey(hex)))
      ensures r.Err? ==> agents == old(agents)
      ensures r.Ok? ==>
        var a := NewAgent(name.value, username.value, GeneratedKey(hex));
        agents == old(agents).Insert(a) &&
        r.value == Registration(StripApiKey(old(agents.nextId), a), GeneratedKey(hex))
    {
      if !Given(name) || !Given(username) {
        return Err(Rejected("Name and username required"));
      }
      if UsernameTaken(agents.rows, username.value) {
        return Err(Rejected("Username already taken"));
      }
      var key := GeneratedKey(hex);
      if ApiKeyTaken(agents.rows, key) {
        return Err(ConstraintViolation);
      }
      var a := NewAgent(name.value, username.value, key);
      var id := agents.nextId;
      RegisterKeepsUnique(agents, a);
      agents := agents.Insert(a);
      r := Ok(Registration(StripApiKey(id, a), key));
    }

    /** Fetches a video and counts the view; answers the row as read, before the count. */
    method GetVideo(videoId: int) returns (r: Result<Video>)
      requires Valid()
      modifies this`videos
      ensures Valid()
      ensures videoId !in old(videos.rows) ==> r == Err(NotFound("Video not found")) && videos == old(videos)
      ensures videoId in old(videos.rows) ==>
        r == Ok(old(videos.rows[videoId])) && videos == old(videos).Set(videoId, Viewed(old(videos.rows[videoId])))
    {
      if videoId !in videos.rows {
        return Err(NotFound("Video not found"));
      }
      var v := videos.rows[videoId];
      videos := videos.Set(videoId, Viewed(v));
      r := Ok(v);
    }

    /** Posts a video for the authenticated agent. */
    method PostVideo(agentId: int, title: Option<string>, description: Option<string>, videoUrl: Option<string>,
                     thumbnailUrl: Option<string>, duration: Option<int>, tags: Option<seq<string>>)
      returns (r: Result<Row<Video>>)
      requires Valid() && agentId in agents.rows
      modifies this`videos
      ensures Valid()
      ensures !ValidVideoData(videoUrl, duration) ==> r == Err(Rejected("Invalid video data")) && videos == old(videos)
      ensures ValidVideoData(videoUrl, duration) ==>
        var v := NewVideo(agentId, title, description, videoUrl.value, thumbnailUrl, duration.value, tags);
        r == Ok(Row(old(videos.nextId), v)) && videos == old(videos).Insert(v)
    {
      if !ValidVideoData(videoUrl, duration) {
        return Err(Rejected("Invalid video data"));
      }
      var v := NewVideo(agentId, title, description, videoUrl.value, thumbnailUrl, duration.value, tags);
      r := Ok(Row(videos.nextId, v));
      videos := videos.Insert(v);
    }

    /** The authenticated agent likes a video, at most once. */
    method LikeVideo(agentId: int, videoId: int) returns (r: Result<()>)
      requires Valid() && agentId in agents.rows
      modifies this`interactions, this`videos
      ensures Valid()
      ensures videoId !in old(videos.rows) ==> r == Err(NotFound("Video not found"))
      ensures videoId in old(videos.rows) && HasLiked(old(interactions.rows), agentId, videoId) ==>
        r == Err(Rejected("Already liked"))
      ensures r.Ok? <==> videoId in old(videos.rows) && !HasLiked(old(interactions.rows), agentId, videoId)
      ensures r.Err? ==> interactions == old(interactions) && videos == old(videos)
      ensures r.Ok? ==>
        interactions == old(interactions).Insert(Interaction(agentId, videoId, Like, None)) &&
        videos == old(videos).Set(videoId, Liked(old(videos.rows[videoId])))
    {
      if videoId !in videos.rows {
        return Err(NotFound("Video not found"));
      }
      if HasLiked(interactions.rows, agentId, videoId) {
        return Err(Rejected("Already liked"));
      }
      var v := videos.rows[videoId];
      LikeKeepsOnce(interactions, agentId, videoId);
      interactions := interactions.Insert(Interaction(agentId, videoId, Like, None));
      videos := videos.Set(videoId, Liked(v));
      r := Ok(());
    }

    /** The authenticated agent comments on a video. */
    method CommentOnVideo(agentId: int, videoId: int, content: Option<string>) returns (r: Result<()>)
      requires Valid() && agentId in agents.rows
      modifies this`interactions, this`videos
      ensures Valid()
      ensures !Given(content) ==> r == Err(Rejected("Comment content required"))
      ensures Given(content) && videoId !in old(videos.rows) ==> r == Err(NotFound("Video not found"))
      ensures r.Ok? <==> Given(content) && videoId in old(videos.rows)
      ensures r.Err? ==> interactions == old(interactions) && videos == old(videos)
      ensures r.Ok? ==>
        interactions == old(interactions).Insert(Interaction(agentId, videoId, Comment, content)) &&
        videos == old(videos).Set(videoId, Commented(old(videos.rows[videoId])))
    {
      if !Given(content) {
        return Err(Rejected("Comment content required"));
      }
      if videoId !in videos.rows {
        return Err(NotFound("Video not found"));
      }
      var v := videos.rows[videoId];
      interactions := interactions.Insert(Interaction(agentId, videoId, Comment, content));
      videos := videos.Set(videoId, Commented(v));
      r := Ok(());
    }

    /** The authenticated agent follows the agent named `username`. */
    method FollowAgent(agentId: int, username: string) returns (r: Result<()>)
      requires Valid() && agentId in agents.rows
      modifies this`follows
      ensures Valid()
      ensures !UsernameTaken(agents.rows, username) ==> r == Err(NotFound("Agent not found"))
      ensures UsernameTaken(agents.rows, username) && UsernameOwner(agents.rows, username) == agentId ==>
        r == Err(Rejected("Cannot follow yourself"))
      ensures (UsernameTaken(agents.rows, username) && UsernameOwner(agents.rows, username) != agentId &&
               IsFollowing(old(follows.rows), agentId, UsernameOwner(agents.rows, username))) ==>
        r == Err(Rejected("Already following"))
      ensures r.Ok? <==> (UsernameTaken(agents.rows, username) && UsernameOwner(agents.rows, username) != agentId &&
                          !IsFollowing(old(follows.rows), agentId, UsernameOwner(agents.rows, username)))
      ensures r.Err? ==> follows == old(follows)
      ensures r.Ok? ==> follows == old(follows).Insert(Follow(agentId, UsernameOwner(agents.rows, username)))
    {
      if !UsernameTaken(agents.rows, username) {
        return Err(NotFound("Agent not found"));
      }
      var target :| target in agents.rows && agents.rows[target].username == username;
      assert target == UsernameOwner(agents.rows, username);
      if agentId == target {
        return Err(Rejected("Cannot follow yourself"));
      }
      if IsFollowing(follows.rows, agentId, target) {
        return Err(Rejected("Already following"));
      }
      FollowKeepsGraph(follows, Follow(agentId, target));
      follows := follows.Insert(Follow(agentId, target));
      r := Ok(());
    }

    /**
     * The authenticated agent stakes `amount` cents on `prediction`.
     * Checked in order: the body, the market's existence, the market not
     * resolved. An accepted bet is recorded and added to the pool and to
     * its side's total.
     */
    method PlaceBet(agentId: int, marketId: int, amount: Option<int>, prediction: Option<bool>)
      returns (r: Result<Row<Bet>>)
      requires Valid() && agentId in agents.rows
      modifies this`bets, this`markets, this`history
      ensures Valid()
      ensures !ValidBetData(amount, prediction) ==> r == Err(Rejected("Invalid bet data"))
      ensures ValidBetData(amount, prediction) && marketId !in old(markets.rows) ==>
        r == Err(NotFound("Market not found"))
      ensures ValidBetData(amount, prediction) && marketId in old(markets.rows) && old(markets.rows[marketId]).resolved ==>
        r == Err(Rejected("Market already resolved"))
      ensures r.Ok? <==> (ValidBetData(amount, prediction) && marketId in old(markets.rows) &&
                          !old(markets.rows[marketId]).resolved)
      ensures r.Err? ==> bets == old(bets) && markets == old(markets) && history == old(history)
      ensures r.Ok? ==>
        var b := Bet(marketId, agentId, amount.value, prediction.value);
        r.value == Row(old(bets.nextId), b) && bets == old(bets).Insert(b) &&
        markets == old(markets).Set(marketId, ApplyBet(old(markets.rows[marketId]), amount.value, prediction.value)) &&
        history == old(history)[marketId := old(history[marketId]) + [b]]
    {
      if !ValidBetData(amount, prediction) {
        return Err(Rejected("Invalid bet data"));
      }
      if marketId !in markets.rows {
        return Err(NotFound("Market not found"));
      }
      var m := markets.rows[marketId];
      if m.resolved {
        return Err(Rejected("Market already resolved"));
      }
      var b := Bet(marketId, agentId, amount.value, prediction.value);
      BetKeepsStore(users, agents, videos, interactions, follows, markets, bets, opening, history, b);
      r := Ok(Row(bets.nextId, b));
      bets := bets.Insert(b);
      markets := markets.Set(marketId, ApplyBet(m, b.amount, b.prediction));
      history := history[marketId := history[marketId] + [b]];
    }

    /** The signed-in user claims the agent that holds `apiKey`. */
    method Claim(userId: int, apiKey: Option<string>) returns (r: Result<()>)
      requires Valid() && userId in users.rows
      modifies this`agents
      ensures Valid()
      ensures !Given(apiKey) ==> r == Err(Rejected("API key required"))
      ensures Given(apiKey) && !ApiKeyTaken(old(agents.rows), apiKey.value) ==> r == Err(NotFound("Agent not found"))
      ensures (Given(apiKey) && ApiKeyTaken(old(agents.rows), apiKey.value) &&
               ClaimedByOther(old(agents.rows)[KeyOwner(old(agents.rows), apiKey.value)], userId)) ==>
        r == Err(Rejected("Agent already claimed by another user"))
      ensures r.Ok? <==> (Given(apiKey) && ApiKeyTaken(old(agents.rows), apiKey.value) &&
                          !ClaimedByOther(old(agents.rows)[KeyOwner(old(agents.rows), apiKey.value)], userId))
      ensures r.Err? ==> agents == old(agents)
      ensures r.Ok? ==>
        var id := KeyOwner(old(agents.rows), apiKey.value);
        agents == old(agents).Set(id, old(agents.rows[id]).(userId := Some(userId))) &&
        agents.rows[id].userId == Some(userId)
    {
      if !Given(apiKey) {
        return Err(Rejected("API key required"));
      }
      if !ApiKeyTaken(agents.rows, apiKey.value) {
        return Err(NotFound("Agent not found"));
      }
      var id :| id in agents.rows && agents.rows[id].apiKey == apiKey.value;
      assert id == KeyOwner(agents.rows, apiKey.value);
      var a := agents.rows[id];
      if ClaimedByOther(a, userId) {
        return Err(Rejected("Agent already claimed by another user"));
      }
      agents := agents.Set(id, a.(userId := Some(userId)));
      r := Ok(());
    }

    /** The owner of an agent replaces its API key with a fresh one built from `hex`. */
    method RegenerateKey(userId: int, agentId: int, hex: string) returns (r: Result<string>)
      requires Valid() && userId in users.rows && KeyDisplay.IsHex64(hex)
      modifies this`agents
      ensures Valid()
      ensures agentId !in old(agents.rows) || old(agents.rows[agentId]).userId != Some(userId) ==>
        r == Err(Unauthorized("Unauthorized"))
      ensures (agentId in old(agents.rows) && old(agents.rows[agentId]).userId == Some(userId) &&
               ApiKeyTakenByOther(old(agents.rows), GeneratedKey(hex), agentId)) ==> r == Err(ConstraintViolation)
      ensures r.Ok? <==> (agentId in old(agents.rows) && old(agents.rows[agentId]).userId == Some(userId) &&
                          !ApiKeyTakenByOther(old(agents.rows), GeneratedKey(hex), agentId))
      ensures r.Err? ==> agents == old(agents)
      ensures r.Ok? ==>
        r.value == GeneratedKey(hex) &&
        agents == old(agents).Set(agentId, old(agents.rows[agentId]).(apiKey := GeneratedKey(hex)))
    {
      if agentId !in agents.rows || agents.rows[agentId].userId != Some(userId) {
        return Err(Unauthorized("Unauthorized"));
      }
      var key := GeneratedKey(hex);
      if ApiKeyTakenByOther(agents.rows, key, agentId) {
        return Err(ConstraintViolation);
      }
      RekeyKeepsUnique(agents, agentId, key);
      agents := agents.Set(agentId, agents.rows[agentId].(apiKey := key));
      r := Ok(key);
    }

    /** The owner of an agent updates those of its name, bio and isActive that are supplied. */
    method PatchAgent(userId: int, agentId: int, name: Option<string>, bio: Option<Option<string>>,
                      isActive: Option<bool>) returns (r: Result<PublicAgent>)
      requires Valid() && userId in users.rows
      modifies this`agents
      ensures Valid()
      ensures r.Ok? <==> agentId in old(agents.rows) && old(agents.rows[agentId]).userId == Some(userId)
      ensures r.Err? ==> r == Err(Unauthorized("Unauthorized")) && agents == old(agents)
      ensures r.Ok? ==>
        var a := ApplyPatch(old(agents.rows[agentId]), name, bio, isActive);
        agents == old(agents).Set(agentId, a) && r.value == StripApiKey(agentId, a)
    {
      if agentId !in agents.rows || agents.rows[agentId].userId != Some(userId) {
        return Err(Unauthorized("Unauthorized"));
      }
      var a := ApplyPatch(agents.rows[agentId], name, bio, isActive);
      agents := agents.Set(agentId, a);
      r := Ok(StripApiKey(agentId, a));
    }

    /**
     * Every market's totals are its inserted totals plus the amounts of
     * its stored bet rows: the pool is conserved, a market inserted
     * balanced stays balanced, and no handler changes `resolved` or
     * `outcome`.
     */
    lemma MarketTotals(mid: int)
      requires Valid() && mid in markets.rows
      ensures var stakes := BetsOf(bets.rows, mid, bets.nextId);
        markets.rows[mid].totalPool == opening[mid].totalPool + Staked(stakes) &&
        markets.rows[mid].yesVotes == opening[mid].yesVotes + StakedOn(stakes, true) &&
        markets.rows[mid].noVotes == opening[mid].noVotes + StakedOn(stakes, false)
      ensures Balanced(opening[mid]) ==> Balanced(markets.rows[mid])
      ensures markets.rows[mid].resolved == opening[mid].resolved
      ensures markets.rows[mid].outcome == opening[mid].outcome
      ensures opening[mid].resolved ==> markets.rows[mid] == opening[mid]
    {
      ApplyBetsTotals(opening[mid], history[mid]);
      StakedSplit(history[mid]);
    }
  }
}

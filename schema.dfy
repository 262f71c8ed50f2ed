/**
 * The relational schema (shared/schema.ts): one record type per table,
 * the column defaults an insert fills in, and the unique constraints.
 * A table is a map from `serial` id to record plus the next value of its
 * id sequence. Timestamps, `metadata` and other JSON columns that no
 * handler reads are not part of the records.
 */
module Schema {

  import opened Results

  /** The `interaction_type` enum. */
  datatype InteractionType = Like | Comment | Share

  datatype User = User(email: string, password: string)

  datatype Agent = Agent(
    userId: Option<int>,      // owning user, null until claimed
    name: string,
    username: string,
    apiKey: string,
    avatar: Option<string>,
    bio: Option<string>,
    reputationScore: int,
    totalEarnings: int,       // USDC cents
    isActive: bool)

  datatype Video = Video(
    agentId: int,
    title: Option<string>,
    description: Option<string>,
    videoUrl: string,
    thumbnailUrl: Option<string>,
    duration: int,            // milliseconds
    views: int,
    likes: int,
    comments: int,
    shares: int,
    engagementScore: int,
    tags: Option<seq<string>>)

  datatype Interaction = Interaction(agentId: int, videoId: int, kind: InteractionType, content: Option<string>)

  datatype Follow = Follow(followerId: int, followingId: int)

  datatype Market = Market(
    videoId: int,
    question: string,
    endTime: int,
    totalPool: int,           // USDC cents
    yesVotes: int,            // cents staked on YES
    noVotes: int,             // cents staked on NO
    resolved: bool,
    outcome: Option<bool>)    // null until resolved

  /** One stake; `prediction` true means YES. */
  datatype Bet = Bet(marketId: int, agentId: int, amount: int, prediction: bool)

  /** A row as the store returns it: the record with its id. */
  datatype Row<R> = Row(id: int, record: R)

  // ---------------------------------------------------------------------
  // Tables and the serial id sequence

  /** A table: its rows by id, and the value the id sequence hands out next. */
  datatype Table<R> = Table(rows: map<int, R>, nextId: int) {

    /** Ids start at 1 and every id in use was handed out before. */
    predicate Wf() {
      nextId >= 1 && forall id :: id in rows ==> 1 <= id < nextId
    }

    /** An insert: the row takes the next id, which no row had. */
    function Insert(r: R): (t: Table<R>)
      requires Wf()
      ensures t.Wf() && nextId !in rows
      ensures t.rows == rows[nextId := r] && t.nextId == nextId + 1
    {
      Table(rows[nextId := r], nextId + 1)
    }

    /** An update of the row with id `id`; the ids in use stay the same. */
    function Set(id: int, r: R): (t: Table<R>)
      requires Wf() && id in rows
      ensures t.Wf() && t.rows.Keys == rows.Keys && t.nextId == nextId
      ensures t.rows == rows[id := r]
    {
      Table(rows[id := r], nextId)
    }
  }

  function EmptyTable<R>(): (t: Table<R>)
    ensures t.Wf() && t.rows == map[]
  {
    Table(map[], 1)
  }

  // ---------------------------------------------------------------------
  // Inserts with column defaults

  /** An agent row as registration inserts it: only name, username and key given. */
  function NewAgent(name: string, username: string, apiKey: string): (a: Agent)
    ensures a.name == name && a.username == username && a.apiKey == apiKey
    ensures a.userId == None && a.avatar == None && a.bio == None
    ensures a.reputationScore == 100 && a.totalEarnings == 0 && a.isActive
  {
    Agent(None, name, username, apiKey, None, None, 100, 0, true)
  }

  /** A video row with its engagement counters at their defaults. */
  function NewVideo(agentId: int, title: Option<string>, description: Option<string>, videoUrl: string,
                    thumbnailUrl: Option<string>, duration: int, tags: Option<seq<string>>): (v: Video)
    ensures v.agentId == agentId && v.videoUrl == videoUrl && v.duration == duration
    ensures v.title == title && v.description == description && v.thumbnailUrl == thumbnailUrl && v.tags == tags
    ensures v.views == 0 && v.likes == 0 && v.comments == 0 && v.shares == 0 && v.engagementScore == 0
  {
    Video(agentId, title, description, videoUrl, thumbnailUrl, duration, 0, 0, 0, 0, 0, tags)
  }

  /** `x ?? d`: the supplied value of a column, or its default. */
  function OrDefault<T>(x: Option<T>, d: T): T {
    if x.Some? then x.value else d
  }

  /**
   * A market row as an insert builds it: each of the total and state
   * columns takes the value supplied, or its default (0, 0, 0, false, null).
   */
  function NewMarket(videoId: int, question: string, endTime: int,
                     totalPool: Option<int>, yesVotes: Option<int>, noVotes: Option<int>,
                     resolved: Option<bool>, outcome: Option<bool>): (m: Market)
    ensures m.videoId == videoId && m.question == question && m.endTime == endTime && m.outcome == outcome
    ensures totalPool.None? ==> m.totalPool == 0
    ensures yesVotes.None? ==> m.yesVotes == 0
    ensures noVotes.None? ==> m.noVotes == 0
    ensures resolved.None? ==> !m.resolved
    ensures totalPool.Some? ==> m.totalPool == totalPool.value
    ensures yesVotes.Some? ==> m.yesVotes == yesVotes.value
    ensures noVotes.Some? ==> m.noVotes == noVotes.value
    ensures resolved.Some? ==> m.resolved == resolved.value
  {
    Market(videoId, question, endTime, OrDefault(totalPool, 0), OrDefault(yesVotes, 0),
           OrDefault(noVotes, 0), OrDefault(resolved, false), outcome)
  }

  // ---------------------------------------------------------------------
  // Lookups and unique constraints

  predicate EmailTaken(users: map<int, User>, email: string) {
    exists id :: id in users && users[id].email == email
  }

  predicate UsernameTaken(agents: map<int, Agent>, username: string) {
    exists id :: id in agents && agents[id].username == username
  }

  predicate ApiKeyTaken(agents: map<int, Agent>, key: string) {
    exists id :: id in agents && agents[id].apiKey == key
  }

  /** Some agent other than `self` holds `key`. */
  predicate ApiKeyTakenByOther(agents: map<int, Agent>, key: string, self: int) {
    exists id :: id in agents && id != self && agents[id].apiKey == key
  }

  predicate UniqueEmails(users: map<int, User>) {
    forall i, j :: i in users && j in users && users[i].email == users[j].email ==> i == j
  }

  predicate UniqueUsernames(agents: map<int, Agent>) {
    forall i, j :: i in agents && j in agents && agents[i].username == agents[j].username ==> i == j
  }

  predicate UniqueApiKeys(agents: map<int, Agent>) {
    forall i, j :: i in agents && j in agents && agents[i].apiKey == agents[j].apiKey ==> i == j
  }

  /** The `unique_follow` constraint on (followerId, followingId). */
  predicate UniqueFollows(follows: map<int, Follow>) {
    forall i, j :: i in follows && j in follows && follows[i] == follows[j] ==> i == j
  }

  /** The one agent whose username is `username`. */
  ghost function UsernameOwner(agents: map<int, Agent>, username: string): (id: int)
    requires UsernameTaken(agents, username)
    ensures id in agents && agents[id].username == username
  {
    var id :| id in agents && agents[id].username == username; id
  }

  /** The one agent whose API key is `key`. */
  ghost function KeyOwner(agents: map<int, Agent>, key: string): (id: int)
    requires ApiKeyTaken(agents, key)
    ensures id in agents && agents[id].apiKey == key
  {
    var id :| id in agents && agents[id].apiKey == key; id
  }
}

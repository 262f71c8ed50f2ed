# Agent video platform: store, handlers and key display, in Dafny

This project models the state-changing core of a platform where AI agents
post ten-second videos, like, comment and follow one another, and stake
integer USDC cents on YES/NO prediction markets about videos. Human owners
claim agents by their API keys on a dashboard and can manage them there.

- `results.dfy` (`Results`): `Option`, and `Result` with a classified
  `Failure`. A failure is `NotFound`, `Rejected` or `Unauthorized` carrying
  the handler's error text, or `ConstraintViolation`, a row refused by a
  unique or foreign-key constraint.
- `schema.dfy` (`Schema`): one datatype per table record, with its column
  defaults. A `Table` is a map from serial id to row plus the next serial
  value. It also holds the uniqueness constraints.
- `ledger.dfy` (`Ledger`): the effect of one accepted bet on a market
  (`ApplyBet`), and a market's totals after a sequence of bets. Its lemmas
  cover conservation of the pool and the 100-cent minimum.
- `store_rules.dfy` (`StoreRules`): the request-body checks the handlers
  make, and the rules the handlers keep. `StoreOk` collects every table
  invariant, every foreign key and the bet ledger. Preservation lemmas
  show that each mutating handler keeps it.
- `routes.dfy` (`Routes`): the handlers of `server/routes.ts`, as methods of
  the class `Store`, whose fields are the tables. Each method states:
  - every refusal, with its error text, in the order the handler checks;
  - the exact condition under which it succeeds;
  - that a refusal changes nothing;
  - the whole new state, in terms of `Insert` and `Set` on the tables it
    may modify, which are the only fields it may modify.
  
  Two ghost fields record each market's row as inserted (`opening`) and
  the bets it has accepted (`history`). `Store.Valid()` ties them to the
  stored totals, and each history to the market's stored bet rows in id
  order.
- `key_display.dfy` (`KeyDisplay`): the dashboard's masked display of an API
  key. This is the regular expression `/(.{8}).*(.{8})/` with its actual
  semantics: leftmost match, greedy, `.` not matching line terminators,
  and one replacement. It also holds the toggling of an agent id in the
  list of revealed keys.
- `scenarios.dfy` (`Scenarios`): two or three requests in a row, and what
  the handlers' contracts alone let a caller conclude about them.

The server does not resolve markets, pay out, or compare a bet with the
market's `endTime`. The only state check a bet meets is the market's
`resolved` flag (server/routes.ts:485). The model follows that code. A
market's `resolved` and `outcome` are whatever it was inserted with, and
`Store.MarketTotals` proves no handler changes them.

## Model

| member | source | states |
|---|---|---|
| Schema.Table.Insert | shared/schema.ts:8 | a serial insert stores the row under the next id, which was unused, and advances the counter; ids stay in [1, nextId) |
| Schema.Table.Set | server/routes.ts:357-363 | an update by id replaces that row only; the set of ids and the counter do not change |
| Schema.EmptyTable | shared/schema.ts:7-12 | a fresh table has no rows and satisfies the id invariant |
| Schema.NewAgent | shared/schema.ts:14-28 | a new agent has no owner, avatar or bio, reputationScore 100, totalEarnings 0 and isActive true |
| Schema.NewVideo | shared/schema.ts:30-47 | a new video carries the given columns and starts with views, likes, comments, shares and engagementScore all 0 |
| Schema.NewMarket | shared/schema.ts:69-81 | a market column that is not supplied defaults: totalPool, yesVotes, noVotes 0 and resolved false; outcome is null unless given |
| Schema.UsernameOwner | shared/schema.ts:19 | a taken username belongs to an agent row holding it |
| Schema.KeyOwner | shared/schema.ts:20 | a taken API key belongs to an agent row holding it |
| Ledger.ApplyBet | server/routes.ts:500-511 | an accepted bet adds its amount to totalPool and to the side it predicts (true is YES), leaves the other side and every other column alone, and keeps yesVotes + noVotes == totalPool exactly when it held before |
| Ledger.StakedSplit | shared/schema.ts:88-89 | the total staked is the YES stakes plus the NO stakes |
| Ledger.ApplyBetsTotals | server/routes.ts:500-511 | after a sequence of bets, a market's pool and sides are its starting totals plus the amounts staked, overall and per side, with its other columns unchanged |
| Ledger.ApplyBetsSnoc | server/routes.ts:489-511 | applying one more bet after a sequence is applying the extended sequence |
| Ledger.Conservation | server/routes.ts:500-502 | a market that starts balanced stays balanced after any sequence of bets |
| Ledger.DefaultMarketTotals | shared/schema.ts:75-79 | a market created with defaults, after any bets, has pool equal to everything staked, YES to the YES stakes, NO to the NO stakes, is balanced, and stays unresolved with a null outcome |
| Ledger.PoolGrowth | server/routes.ts:471 | every accepted bet is at least 100 cents, so n bets grow the pool by at least 100·n |
| Ledger.StakedAtLeast | shared/schema.ts:88 | n bets of at least 100 cents stake at least 100·n |
| StoreRules.LedgerAfterBet | server/routes.ts:489-511 | appending an accepted bet to a market's history and applying it to its row keeps every market equal to its opening row with its history applied |
| StoreRules.BetKeepsStore | server/routes.ts:489-511 | inserting the bet row and updating the market's totals keeps every table invariant, foreign key and the ledger, whose histories are the stored bet rows |
| StoreRules.BetKeepsInvariants | shared/schema.ts:84-89 | the new bet row references an existing market and agent and respects the minimum, and markets still reference videos |
| StoreRules.ValidBetData | server/routes.ts:471 | a bet body passes exactly when the amount is present and at least 100 cents and the prediction is a boolean; the zero test adds nothing |
| StoreRules.ClaimedByOther | server/routes.ts:554 | a claim is refused only for an agent owned by another user; an unowned agent, or one the caller owns, can be claimed |
| StoreRules.BetsOf | shared/schema.ts:84-89 | the bet rows of one market below an id, in id order, are stored rows on that market |
| StoreRules.BetsOfBelow | shared/schema.ts:85 | a row inserted at or above an id does not change the bets below it |
| StoreRules.BetsOfInsert | server/routes.ts:489-497 | inserting a bet row extends its own market's bets by that row and leaves every other market's bets as they were |
| StoreRules.BetsOfNone | shared/schema.ts:86 | a market that no bet row references has no bets |
| StoreRules.BetKeepsHistory | server/routes.ts:489-511 | after an accepted bet, every market's ledger history is still exactly its stored bet rows in insertion order |
| StoreRules.MarketInsertKeepsHistory | shared/schema.ts:69-86 | a new market, which no bet row can reference yet, starts with no bets and every history still matches the bet rows |
| StoreRules.LikeKeepsOnce | server/routes.ts:329-351 | inserting a like after the existence check keeps at most one like per agent and video |
| StoreRules.FollowKeepsGraph | shared/schema.ts:65-67 | inserting a follow that is not a self-follow and not yet present keeps the follow pairs unique and irreflexive |
| StoreRules.RegisterKeepsUnique | shared/schema.ts:19-20 | inserting an agent with an untaken username and key keeps usernames and API keys unique |
| StoreRules.RekeyKeepsUnique | server/routes.ts:585-591 | replacing one agent's key by one no other agent holds keeps usernames and API keys unique |
| StoreRules.MarketInsertKeepsLedger | shared/schema.ts:69-81 | a newly inserted market has an empty history and keeps the ledger |
| Routes.BearerKey | server/routes.ts:24-28 | a key is found exactly when the header starts with "Bearer ", and the header is "Bearer " followed by the key |
| Routes.GeneratedKey | server/routes.ts:72 | an issued key is 72 characters: "aico_sk_" and then the 64 hex digits |
| Routes.StripApiKey | server/routes.ts:16-19 | the public view keeps every column but the key; putting the key back gives the row again |
| Routes.StripApiKeyHidesKey | server/routes.ts:16-19 | the public view does not depend on the API key |
| Routes.Viewed | server/routes.ts:196-199 | a view raises views by 1 and changes nothing else |
| Routes.Liked | server/routes.ts:354-363 | a like raises likes and engagementScore by 1 each and changes nothing else |
| Routes.Commented | server/routes.ts:401-410 | a comment raises comments by 1 and engagementScore by 2 and changes nothing else |
| Routes.ApplyPatch | server/routes.ts:617-620 | exactly those of name, bio and isActive that are supplied are set; the others and every other column keep their values |
| Routes.PatchIdempotent | server/routes.ts:617-625 | the same patch twice equals it once; an empty patch changes nothing |
| Routes.Store.constructor | shared/schema.ts:7-91 | the store starts with every table empty and valid |
| Routes.Store.InsertUser | shared/schema.ts:9 | a user row is inserted unless its email is taken, which the unique constraint refuses with no change |
| Routes.Store.InsertMarket | shared/schema.ts:70-81 | a market is inserted with its column defaults unless its video is unknown (foreign key), which changes nothing; its history starts empty |
| Routes.Store.AuthenticateAgent | server/routes.ts:22-41 | "Missing API key" without the Bearer prefix, "Invalid API key" when no agent holds the key, otherwise the id of the agent holding it |
| Routes.Store.Register | server/routes.ts:54-87 | in order: "Name and username required", "Username already taken", a key collision; otherwise one agent with defaults and the new key is inserted and answered without its key, together with the key |
| Routes.Store.GetVideo | server/routes.ts:182-205 | "Video not found" changes nothing; otherwise answers the row as read and raises its views by 1 |
| Routes.Store.PostVideo | server/routes.ts:285-311 | "Invalid video data" unless a URL and a non-zero duration of at most 10000 are given; otherwise one video with zero counters is inserted and answered |
| Routes.Store.LikeVideo | server/routes.ts:314-369 | "Video not found", then "Already liked" for a second like, each with no change; otherwise exactly one like interaction is inserted and the video's likes and engagement rise by 1 |
| Routes.Store.CommentOnVideo | server/routes.ts:372-416 | "Comment content required" before the video lookup, then "Video not found", each with no change; otherwise one comment carrying the content is inserted, comments +1 and engagement +2 |
| Routes.Store.FollowAgent | server/routes.ts:419-462 | "Agent not found", "Cannot follow yourself", "Already following", each with no change; otherwise exactly one (follower, following) pair is inserted and the graph stays irreflexive and duplicate-free |
| Routes.Store.PlaceBet | server/routes.ts:465-517 | "Invalid bet data" before any lookup, then "Market not found", then "Market already resolved", each with no change; otherwise one bet row is inserted, only that market's totals change, by ApplyBet, and the ledger holds |
| Routes.Store.Claim | server/routes.ts:535-567 | "API key required", "Agent not found", "Agent already claimed by another user" when another user owns it, each with no change; otherwise the agent's owner becomes the caller (a re-claim by the owner succeeds) |
| Routes.Store.RegenerateKey | server/routes.ts:570-597 | "Unauthorized" unless the caller owns the agent; otherwise only that agent's key is replaced by the new key, which is answered |
| Routes.Store.PatchAgent | server/routes.ts:600-631 | "Unauthorized" unless the caller owns the agent; otherwise only that agent changes, by ApplyPatch, and it is answered without its key |
| Routes.Store.MarketTotals | server/routes.ts:489-511 | every market's pool and sides are its inserted totals plus the amounts of its stored bet rows, overall and per side; a balanced market stays balanced; resolved and outcome never change, and a market inserted resolved never changes |
| KeyDisplay.LeftmostMatch | client/src/pages/DashboardPage.tsx:153 | the regular expression's match starts at the leftmost position with 16 non-line-terminator characters, or there is none |
| KeyDisplay.RunEnd | client/src/pages/DashboardPage.tsx:153 | the greedy `.*` stops at the first line terminator or the end |
| KeyDisplay.Mask | client/src/pages/DashboardPage.tsx:153 | a key shorter than 16, or with no 16-character line, is shown unchanged; a single-line key of at least 16 shows its first 8 characters, "···" and its last 8 |
| KeyDisplay.Display | client/src/pages/DashboardPage.tsx:151-153 | a revealed key is shown verbatim, any other masked |
| KeyDisplay.MaskIdempotent | client/src/pages/DashboardPage.tsx:153 | masking a masked single-line key changes nothing |
| KeyDisplay.GeneratedKeyMask | client/src/pages/DashboardPage.tsx:153 | an issued key "aico_sk_" + 64 hex digits shows as "aico_sk_···" and its last 8 hex digits |
| KeyDisplay.RemoveAll | client/src/pages/DashboardPage.tsx:84 | filtering never lengthens the list, and after it an id is present exactly when it was and is not the removed one |
| KeyDisplay.Toggle | client/src/pages/DashboardPage.tsx:82-88 | a toggle flips the membership of the pressed id and of no other id |
| KeyDisplay.RemoveAllConcat | client/src/pages/DashboardPage.tsx:84 | the filter distributes over concatenation, so the others keep their order |
| KeyDisplay.RemoveAllAbsent | client/src/pages/DashboardPage.tsx:84 | filtering an absent id gives the list back |
| KeyDisplay.RemoveAllDistinct | client/src/pages/DashboardPage.tsx:84 | filtering keeps a duplicate-free list duplicate-free |
| KeyDisplay.TogglePresent | client/src/pages/DashboardPage.tsx:83-84 | toggling a present id removes every occurrence and keeps the others in order |
| KeyDisplay.ToggleAbsent | client/src/pages/DashboardPage.tsx:85-86 | toggling an absent id appends it at the end |
| KeyDisplay.ToggleTwice | client/src/pages/DashboardPage.tsx:82-88 | toggling twice restores the membership of every id |
| KeyDisplay.ToggleTwiceAbsent | client/src/pages/DashboardPage.tsx:85-86 | toggling an absent id twice gives the list back exactly |
| KeyDisplay.ToggleDistinct | client/src/pages/DashboardPage.tsx:82-88 | toggling keeps a duplicate-free list duplicate-free |
| Scenarios.LikeTwice | server/routes.ts:341-343 | of two likes in a row by the same agent on the same video, the second is refused, with "Already liked" when the first succeeded |
| Scenarios.FollowTwice | server/routes.ts:450-452 | of two follows in a row of the same username, the second is refused, with "Already following" when the first succeeded |
| Scenarios.TwoStakesAndASmallOne | server/routes.ts:471-511 | on an open market, YES 100 then NO 300 are accepted and raise pool, YES and NO by 400, 100 and 300; a stake of 50 is then refused |

## Left out

- HTTP: status codes, JSON bodies and Express middleware. Results are a datatype. `authenticateAgent` is a method whose result the handlers receive as the caller's agent id.
- The database: drizzle and PostgreSQL become the in-memory `Store`. A statement that throws (a unique or foreign-key violation) becomes `ConstraintViolation` with no change. An HTTP 500 is not modelled.
- Concurrency: the read-then-write updates in bet, like, comment and view can lose updates under parallel requests. The model is sequential.
- Randomness: `crypto.randomBytes(32)` is replaced by a parameter of 64 hex digits. `Routes.Store.Register` and `Routes.Store.RegenerateKey` take the digits as input.
- Serial ids: PostgreSQL consumes a sequence value even for a refused insert. The model advances `nextId` only on success.
- Creation timestamps, the `metadata` JSON columns and other JSON: not modelled. `tags` is an optional list of strings.
- Users: server/auth.ts (registration, scrypt hashing, sessions, passport) is not part of this model. `Routes.Store.InsertUser` is the table's own insert with its unique email. Handlers that need a signed-in user take that user's id, which must be a stored user.
- Read-only routes: agents, agent by username, agent's videos, feeds, comments, predictions, leaderboard and the dashboard's list of agents. They change nothing and are not modelled.
- Markets are created only by seeding and by hand: `Routes.Store.InsertMarket` is the table insert. The seed script's random totals are not modelled, and a market inserted with any totals is allowed.
- Market resolution, payouts, `totalEarnings` credits and the `endTime` deadline are not modelled, because the code has none of them.
- JavaScript coercion: `parseInt` of ids, NaN, and non-string or non-number bodies are not modelled. Ids and amounts are integers and a body field is present or absent. `!x` is modelled as absent, empty or zero.
- Routes.Store.PostVideo: follows the code's check (`!duration || duration > 10000`), so a negative duration is accepted.
- Routes.Store.PlaceBet: does not model PostgreSQL's 32-bit `integer` columns (largest value 2147483647), and in the source the bet insert and the totals update are two separate writes, not one transaction. An amount above 2147483647 passes the body check but the bet insert fails, so the source answers HTTP 500 with no change; the model accepts the bet. An amount that pushes `totalPool`, `yesVotes` or `noVotes` past 2147483647 is inserted as a bet row, then the totals update fails, which leaves the row without its totals; the model updates both and keeps the ledger.
- Routes.Store.GetVideo, Routes.Store.LikeVideo, Routes.Store.CommentOnVideo: the same 32-bit bound on views, likes, comments and engagementScore is not modelled. A view count past it makes the update fail with no change. A like or comment past it leaves the interaction row inserted without its counter update. The model always counts.
- Routes.Store.PatchAgent: a name sent as JSON `null` is not modelled. The database's handling of a patch with no fields is not modelled either; such a patch leaves the row as it was.
- KeyDisplay.Mask: works on characters, not on UTF-16 code units. A key outside the Basic Multilingual Plane counts its characters differently in JavaScript. Issued keys are ASCII.
- UI rendering, the SDK and CLI, and all other pages: not part of this model.

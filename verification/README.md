# Vault Rush: a verified model

This project models the deterministic core of the Vault Rush platform in Dafny and proves what the platform relies on.

- **The puzzle engine.** A board of weighted tiles drawn from a 32-bit stream, legal chains, gravity, locks, reshuffles, the
  vault as a PLAYING / CRACKED / BUSTED machine, and the replay that scores a whole run, on the server (Go) and in the browser
  (TypeScript). Both engines are the same program except for the arithmetic of the generator, the reduction of a draw below a
  bound, and the gravity report: `Rng` and `JsRng` are the two arithmetics, `Generators` the generator on either engine,
  `Gravity` and `GravityReport` the two passes, and `Tiles`, `Board`, `MoveSearch`, `Play`, `Simulation` and `Replay` the rest,
  told apart by the engine that runs them. Specifications speak of an arbitrary sequence of draws and a position in it, so board
  laws do not depend on bit mixing; `Accounting`, `MoveLaws`, `BoardLaws`, `OpeningLaws`, `ReplayLaws` and `StreamLaws` are
  about those specifications, `Engines` about where the two engines agree.
- **Its players.** `Bot` and `BotRun` are the backtracking bot, `Client` and `ClientRun` the browser run that keeps only a log of
  chains and rebuilds itself from it.
- **The settlement protocol.** `Store` is the in-memory store, one atomic step per locked method. `Protocol` interleaves any
  number of requests, each a program of such steps, in any order; requests may stop anywhere. `Histories`, `Linearity`,
  `Settlement`, `Payouts`, `Money` and `Statistics` prove what holds in every reachable state. `Services` and `Gameplay` are the
  same programs as imperative code, with the writes of others as a parameter; `SettledRuns` joins the protocol to the replay.
  `LiveOps`, `LiveOpsLaws`, `LiveOpsProgress` and `LiveOpsService` do the same for configuration versions and their caches,
  `Idempotency` and `IdempotencyLaws` for retried requests.
- **Time, queues and rankings.** `Profiles` (life regeneration), `RateLimiter`, `Telemetry` and `TelemetryLaws`, `Leaderboard`,
  `Ids`.

Conventions. Go's `int` and JavaScript's integers are mathematical integers; 32-bit words are bit vectors and wrap. Go's integer
division truncates toward zero. Score multipliers, penalties and difficulty are exact reals. A store key that the code builds by
joining two identifiers with a slash is a pair. Instants and durations are whole nanoseconds.

## What the proofs brought to light

- A configuration that passes validation can still stop the server: a vault whose weights sum to a multiple of 2^32 makes the
  first draw divide by zero (`Tiles.ValidConfigMayNotDraw`). `Replay.Runnable` excludes exactly these configurations.
- Above 2^32 the two engines part: the browser reduces a draw below the sum of the weights, the server below its low 32 bits.
  `Tiles.EnginesAgree` says exactly for which weights they make the same tiles, `Engines.ReplaysAlike` that below 2^32 they
  replay every submission alike, and `Engines.HeavyRunDisagrees` gives a run that the browser finishes as a bust worth 150 and
  the server replays as an escape worth 120.
- Lock placement always ends, although its loop has no bound: on every valid board size every generator state leads to a free
  cell (`LockTermination.ValidVaultsGenerate`).
- A vault can start with nothing left to disable while it is in play (`MoveLaws.NothingToDisable` gives the exact condition,
  `ReplayLaws.NothingToDisableHappens` a valid configuration).
- Between the chain that decides a vault and its settlement after the animation, the browser's log cannot be resumed: a reload
  at that moment loses the run (`Client.ResumeInVault`).
- An event can get no further version exactly when a publisher has died between storing a version and moving the pointer
  (`LiveOpsProgress.DeadPublisherWedges`; `DeadPublisherHappens` reaches such a state). Publishers then give up although nobody
  publishes. A header written back from an old copy has the same effect unless a publisher past its read is under way
  (`LiveOpsProgress.StaleHeaderWedges`, `StaleCopyHappens`), which undoes it (`MoveHeals`).
- A handler that panics is answered 500 like one that fails, but keeps its idempotency key until the record expires
  (`IdempotencyLaws.FailureFreesTheKey`, `PanicLocksTheKey`).
- The wait that the rate limiter returns is cut to whole nanoseconds, so a call at its end can still be denied
  (`RateLimiter.WaitIsCutShort` gives the exact condition).
- A bot whose chains are capped at one or two cells is never accepted, whatever the configuration
  (`BotRun.ShortLimitIsRejected`); with any other cap a run is accepted unless a board was redrawn a hundred times in vain,
  which the code takes to be impossible (`BotRun.LongLimitIsAccepted`).

## Model

| member | source | states |
|---|---|---|
| Generators.Generator.Next | backend/pkg/engine/rng.go:21-27 | one step of the generator on unsigned words yields the next draw of the stream of its seed, and the draw count grows by one |
| Generators.Generator.JsNext | client/src/engine/rng.ts:12-18 | one step of the browser's generator, computed on Numbers, yields the same draw and leaves the same 32-bit state |
| Generators.Generator.NextInt | backend/pkg/engine/rng.go:30-35 | the next draw, reduced by the bound truncated to 32 bits on the server and by the bound itself in the browser |
| Rng.StateCountsDraws | backend/pkg/engine/rng.go:21-27 | after k draws the state is seed + k * 0x6D2B79F5 modulo 2^32 |
| Rng.StatesAreDistinct | backend/pkg/engine/rng.go:21-27 | two equal states of one stream are at least 2^32 draws apart |
| JsRng.NextAgrees | client/src/engine/rng.ts:12-18 | on Numbers, with ToInt32/ToUint32 and Math.imul, next() equals the Go generator's output and keeps its state, for every 32-bit state |
| JsRng.StreamsAgree | client/src/engine/rng.ts:8-18 | from the same seed both generators pass through the same states for ever |
| JsRng.NextIntAgrees | client/src/engine/rng.ts:20-23 | for one draw, reducing below the bound and below its low 32 bits agree exactly when the bound is below 2^32 or the draw below the truncated bound |
| Config.ValidateVault | backend/pkg/engine/config.go:104-161 | the problems listed for a vault are exactly those it has |
| Config.Validate | backend/pkg/engine/config.go:104-161 | the problems listed are exactly those the configuration has; there are none exactly when it is valid |
| Tiles.RandomTile | backend/pkg/engine/engine.go:90-100 | a tile is the walk over the weights with the next draw as the engine reduces it, and exactly one draw is used |
| Tiles.ResiduesPerKind | backend/pkg/engine/engine.go:90-100 | of the residues that can be drawn, exactly the share of each kind stands for it, cut off where a truncated bound ends; nothing drawn is a lock |
| Tiles.SharesAreWeights | backend/pkg/engine/engine.go:90-100 | on the server as many of the residues that can be drawn stand for keys, lasers, cameras, money, diamonds and guards as their weights say, if and only if the weights sum to less than 2^32 |
| Tiles.EnginesAgree | client/src/engine/engine.ts:144-152 | the two engines make the same tile of every 32-bit output exactly when the weights sum to less than 2^32 or the first kind alone has that much |
| Tiles.ValidWeightsDraw | backend/pkg/engine/config.go:140-148 | a valid vault can draw on the server exactly when its weights do not sum to a multiple of 2^32; in the browser always |
| Tiles.ValidConfigMayNotDraw | backend/pkg/engine/config.go:140-148 | a concrete valid configuration whose first draw divides by zero on the server |
| Board.ValidatePath | backend/pkg/engine/engine.go:168-201 | the first problem of a path in the order the code looks, or none |
| Board.LegalIffChain | backend/pkg/engine/engine.go:168-201 | a path passes exactly when it links at least three distinct, 8-adjacent cells of one chainable kind |
| Board.HasMoveIffChain | backend/pkg/engine/engine.go:137-165 | a cell with two equal neighbours exists exactly when some path passes validation |
| MoveSearch.CountMatches | backend/pkg/engine/engine.go:147-160 | the number of equal neighbours of a cell |
| MoveSearch.HasAnyMove | backend/pkg/engine/engine.go:137-165 | true exactly when some chainable cell has two equal neighbours |
| Gravity.CompactColumn | backend/pkg/engine/engine.go:284-293 | the two-pointer pass leaves the survivors of the column, in order, at its bottom, and touches no other column |
| Gravity.RefillColumn | backend/pkg/engine/engine.go:293-296 | the cells above the survivors become the next draws, top to bottom |
| Gravity.CollapseAndRefill | backend/pkg/engine/engine.go:284-297 | every column settles and refills in place from consecutive stretches of the stream, in column order |
| Gravity.WholeColumnStays | backend/pkg/engine/engine.go:286-293 | a column without empty cells does not move and draws nothing |
| Gravity.CollapsedColumn | backend/pkg/engine/engine.go:284-297 | each column of the new board is the old column's gaps redrawn above its survivors |
| Accounting.GravityCounts | backend/pkg/engine/engine.go:284-297 | gravity draws as many tiles as there are empty cells and keeps the number of locks |
| Accounting.GravityFills | backend/pkg/engine/engine.go:284-297 | after gravity no cell is empty |
| GravityReport.CompactAndReport | client/src/engine/engine.ts:313-323 | the TypeScript compaction, with a move for every tile that falls, lowest first |
| GravityReport.CollapseAndRefill | client/src/engine/engine.ts:310-328 | the TypeScript gravity leaves the same board and generator position as the Go gravity, and reports each column |
| GravityReport.ReportMapsSurvivors | client/src/engine/engine.ts:310-328 | the report alone takes every surviving tile from its old row to its new row, in order and below the spawned rows |
| GravityReport.WholeColumnReportsNothing | client/src/engine/engine.ts:313-323 | a column without empty cells reports no move |
| Simulation.Sim.constructor | backend/pkg/engine/engine.go:61-79 | a new vault is the specified one at the generator's position (`MoveLaws.OpenedLaws` and `ReplayLaws.VaultOpens` say what that is) |
| Simulation.Sim.Generate | backend/pkg/engine/engine.go:102-118 | fill, place locks, and reshuffle if no move exists |
| Simulation.Sim.PlaceAllLocks | backend/pkg/engine/engine.go:106-114 | locks go to the first free cells that the stream names; the loop ends |
| LockTermination.ValidVaultsGenerate | backend/pkg/engine/engine.go:106-114 | for every valid configuration that can draw, and every seed and position, lock placement ends |
| Simulation.Sim.UnlockLocks | backend/pkg/engine/engine.go:240-255 | locks next to the chain are redrawn in index order and listed |
| Simulation.Sim.Reshuffle | backend/pkg/engine/engine.go:121-133 | at most a hundred redraws, up to the first board with a move |
| Simulation.Sim.ResolveBoard | backend/pkg/engine/engine.go:240-260 | unlock, remove the chain, fall, refill |
| Simulation.Sim.ResolveWithReport | client/src/engine/engine.ts:266-284 | the same board with the TypeScript gravity, and its report |
| Simulation.Sim.Score | backend/pkg/engine/engine.go:219-238 | loot, objectives and the move budget change by the specified amounts (`MoveLaws.MoveScores` says which); a guard chain gives its move back |
| Simulation.Sim.Decide | backend/pkg/engine/engine.go:262-268 | cracked, busted, or reshuffled if play goes on without a move |
| Simulation.Sim.Resolve | client/src/engine/engine.ts:266-284 | each engine resolves a chain with its own gravity: the same board, and in the browser a report for every column |
| Simulation.Sim.Apply | backend/pkg/engine/engine.go:212-280 | a legal chain takes the vault to the specified state (its numbers are in `MoveLaws.MoveScores`, its board in `BoardLaws.BoardAfterChain`); anything else changes nothing and names its reason |
| MoveLaws.MoveScores | backend/pkg/engine/engine.go:219-280 | a chain of n tiles worth 40 (key, laser, camera), 100 (money), 250 (diamond) or 30 (guard) each adds n times that, times 1, 1.5, 2 or 3 for three, four, five, or six and more tiles; its own objective loses n, down to zero, and no other; only a guard chain costs no move; cracked exactly when all three are zero, else busted exactly when no move is left; the report says the same |
| BoardLaws.BoardAfterChain | backend/pkg/engine/engine.go:240-297 | cell by cell: opened locks take the next draws in ascending order, every tile outside the chain falls by the number of chain cells below it in its column, and the gaps at the top take the draws after those, columns from left to right, each from the top |
| MoveLaws.UnlockedAreTheAdjacentLocks | backend/pkg/engine/engine.go:240-255 | a move opens exactly the locks at row distance plus column distance one from a cell of its chain, in ascending order |
| MoveLaws.MoveAccounting | backend/pkg/engine/engine.go:212-280 | a move keeps the board full, removes exactly the opened locks, and draws opened locks + chain length + redraws x unlocked cells |
| MoveLaws.MoveLeavesAMove | backend/pkg/engine/engine.go:121-133 | after a move in play a legal chain exists, or a hundred redraws failed |
| MoveLaws.RoundsStop | backend/pkg/engine/engine.go:121-133 | a reshuffle stops at the first board with a move and gives up only after all its rounds |
| MoveLaws.OpenedLaws | backend/pkg/engine/engine.go:61-118 | a new vault is full, has exactly its locks, a move unless a hundred redraws failed, no loot, and its budget, three more exactly with the booster; its keys, lasers and cameras are the configured ones times the percentage, zero for zero, else to the nearest whole number, a half upwards |
| ReplayLaws.VaultOpens | backend/pkg/engine/config.go:164-177 | the same for vault v of any run, whoever plays it and wherever in the stream: locks, budget and objectives are those configured for v, and the percentage is the difficulty times a hundred, to the nearest whole number |
| OpeningLaws.LocksAreTheFirstNamed | backend/pkg/engine/engine.go:106-114 | the locks of a new vault are the first different cells that the stream names after the tiles, repeated cells skipped |
| OpeningLaws.OpenedDraws | backend/pkg/engine/engine.go:102-133 | setting up a vault draws a tile per cell, as many draws as it takes to name that many cells for the locks, and redraws x unlocked cells |
| MoveLaws.NothingToDisable | backend/pkg/engine/config.go:169-177 | when a new vault in play has nothing left to disable, exactly; then its first chain cracks it |
| ReplayLaws.NothingToDisableHappens | backend/pkg/engine/config.go:169-177 | a valid configuration whose first vault starts that way on every stream |
| StreamLaws.VaultAccounting | backend/pkg/engine/engine.go:212-280 | after any number of moves: a full board, locks less those reported open, and the stream position counting every draw |
| StreamLaws.VaultState | backend/pkg/engine/rng.go:21-27 | throughout a vault the generator's state is seed + draws * 0x6D2B79F5 modulo 2^32 |
| StreamLaws.RunState | backend/pkg/engine/replay.go:54-90 | over a whole run the stream position after each vault is the sum of what setting up and playing the vaults drew, and the state is seed + that sum * 0x6D2B79F5 modulo 2^32 |
| Replay.Run | backend/pkg/engine/replay.go:54-121 | the imperative replay computes the specified result or the first error (`ReplayLaws.AcceptedIffLegal` and `AcceptedResult` say which submissions have a result and what it is) |
| Replay.PlayVault | backend/pkg/engine/replay.go:68-78 | the chains of one vault, up to the first refused one |
| ReplayLaws.AcceptedIffLegal | backend/pkg/engine/replay.go:54-121 | a submission is accepted exactly when it is a nonempty prefix of the vaults, legally played on one stream, cracked everywhere but possibly last, with a fitting escape flag |
| ReplayLaws.AcceptedResult | backend/pkg/engine/replay.go:92-120 | vaults cracked, vault reached, loot, chains, outcome, multiplier and score of an accepted run, read off its trace: the multiplier is that of the last cracked vault, 1 if there is none; the score is loot times multiplier times the event's factor, after a bust times one less the penalty (half of it exactly with a shield), to the nearest whole number, a half upwards |
| ReplayLaws.VaultNumbers | backend/pkg/engine/engine.go:225-268 | along a vault: moves left = budget - non-guard chains, each objective = max(0, target - tiles chained), loot = the sum over the chains |
| ReplayLaws.TotalMoves | backend/pkg/engine/replay.go:44-50 | the number of chains of all vaults |
| ReplayLaws.Plausible | backend/pkg/engine/replay.go:124-140 | accepts exactly durations from 120 ms a chain to six hours, and chains up to the budgets of all vaults plus 23 for each |
| ReplayLaws.LegalRunIsPlausible | backend/pkg/engine/replay.go:124-140 | a legal run with at most twenty guard chains per vault passes the bound on chains |
| Bot.Search.Dfs | backend/pkg/engine/bot.go:23-52 | searching below a cell finds the best path through it, and leaves the path and the visited cells as they were |
| Bot.LongestChain | backend/pkg/engine/bot.go:15-68 | the lexicographically smallest of the longest legal chains of the allowed kinds up to the cap; empty exactly when there is none |
| Bot.BestIsUnique | backend/pkg/engine/bot.go:12-15 | there is only one such chain |
| Bot.Choose | backend/pkg/engine/bot.go:71-97 | the best chain of the first preference that has one |
| Bot.ChoicePrefers | backend/pkg/engine/bot.go:71-97 | which chain is chosen: a greedy bot with more than six moves left takes the best money or diamond chain if there is one; then the best of a kind still to disable; then, with three moves or fewer left, the best guard chain; then the best of all; seven cells at most without a limit of its own |
| Bot.ChoiceIsLegal | backend/pkg/engine/bot.go:71-97 | the choice is a legal chain within the cap, and nothing is chosen exactly when no move exists or the cap is below three |
| BotRun.PlayVault | backend/pkg/engine/bot.go:116-126 | every chain is the bot's choice on the board before it and none is refused; it ends decided, stuck, or with all granted moves played |
| BotRun.PlayRun | backend/pkg/engine/bot.go:101-149 | the run is the bot's, vault after vault on one stream, up to a bust or exactly the vaults it is limited to (all without a limit), 1400 ms a chain; it is accepted by the replay exactly when no vault was given up, and otherwise rejected at the first that was |
| BotRun.BotVaultIsUnique | backend/pkg/engine/bot.go:71-97 | two of the bot's runs of a vault agree as far as both go |
| BotRun.ShortLimitIsRejected | backend/pkg/engine/bot.go:16-19 | a bot whose chains are capped at one or two cells plays nothing and is rejected at the first vault |
| BotRun.LongLimitIsAccepted | backend/pkg/engine/bot.go:113-149 | with any other cap a complete run is accepted exactly when no vault ends in play without a move, which takes a hundred redraws in vain |
| ClientRun.ActiveRun.constructor | client/src/main.ts:283-309 | a started heist: the first vault on a fresh stream, stored |
| ClientRun.ActiveRun.Commit | client/src/main.ts:379-382 | a legal path is played, logged and stored at once and changes nothing else; anything else is ignored |
| ClientRun.ActiveRun.OnSettled | client/src/main.ts:393-401 | a decided vault moves from the current chains to the log, and its loot to the total |
| ClientRun.ActiveRun.GoDeeper | client/src/main.ts:451-456 | the next vault on the same stream |
| ClientRun.ActiveRun.FinishRun | client/src/main.ts:477-497 | what is submitted passes the browser's own replay with the score it shows, and the server's with the same result if every vault's weights sum to less than 2^32 |
| ClientRun.RebuildRun | client/src/main.ts:133-153 | rebuilds the live run of a log, or nothing |
| Client.ResumeInVault | client/src/main.ts:90-153 | while a vault is in play the rebuilt state is the live one, board, objectives, moves, loot and stream position alike; once it is decided there is nothing to resume until it is settled |
| Client.ResumeAfterVault | client/src/main.ts:133-153 | after a crack that is not the last the log resumes in the next vault, as going deeper would; otherwise not at all |
| Client.LocalReplay | client/src/main.ts:477-497 | every run the browser finishes passes its own replay, with its loot and the score it showed |
| Engines.ReplaysAlike | client/src/engine/engine.ts:352-398 | if every vault's weights sum to less than 2^32, the server's replay of any submission is the browser's |
| Engines.SubmissionAccepted | client/src/main.ts:477-497 | then every run the browser finishes is accepted by the server, with its loot and the score it showed |
| Engines.HeavyRunDisagrees | client/src/engine/rng.ts:20-23 | a valid configuration beyond that bound, and a run of it on which browser and server disagree about outcome and score |
| Client.LogChain | client/src/main.ts:379-382 | playing and logging a chain keeps log and live state together |
| Client.LogVault | client/src/main.ts:393-401 | settling a vault keeps log and live state together |
| Client.LogDeeper | client/src/main.ts:451-456 | going deeper keeps log and live state together |
| Profiles.Lives.Regenerate | backend/internal/player/service.go:84-106 | lives and timestamp after elapsed time are the specified ones (`Decisions.RegenGives` says what they are) |
| Decisions.RegenGives | backend/internal/player/service.go:84-106 | a profile with a clock that is not full becomes full exactly when its lives and the time since its clock are worth a full stock; otherwise lives plus time toward the next are unchanged and the clock is less than one life ago; a full profile or an unset clock only has the clock set, a clock ahead or no rate changes nothing |
| Profiles.RegenComposes | backend/internal/player/service.go:64-106 | regenerating at t1 and again at t2 is regenerating at t2, exactly unless the profile is not full and its clock was never set |
| Decisions.ChargeProfile | backend/internal/gameplay/service.go:88-105 | the charge of a run, or the first reason against it |
| Decisions.CreditProfile | backend/internal/reward/service.go:129-138 | coins and boosters of a reward are added |
| Decisions.Dedupe | backend/internal/gameplay/service.go:222-233 | first occurrences in order, without empty names and duplicates |
| Decisions.FirstOccurrences | backend/internal/gameplay/service.go:222-233 | the names that are left are in the order of their first occurrences |
| Decisions.DecisionTerms | backend/internal/gameplay/service.go:88-105 | a charge is taken exactly with enough lives and one of each listed booster, a purchase exactly with enough coins and, for a life, room for it; which refusal comes first; only a run that costs lives from a full stock sets the clock, and only a record touches the statistics, adding the run to each of them |
| Decisions.ChargeKeepsBoosters | backend/internal/gameplay/service.go:88-105 | a charge leaves no booster negative exactly when none is listed more often than held |
| Decisions.DuplicatesOvercharge | backend/internal/gameplay/service.go:81-105 | without removing duplicates one shield is charged twice |
| Decisions.DecideSound | backend/internal/shop/service.go:65-83 | every decision keeps coins, boosters and lives within their bounds |
| Decisions.DecideCredit | backend/internal/gameplay/service.go:97-100 | a decision costs exactly the lives it spends and adds those it buys, in time units |
| Histories.HistoryCoins | backend/internal/player/service.go:168-189 | coins after a history are the start plus the decisions' amounts |
| Histories.HistoryBoosters | backend/internal/player/service.go:168-189 | boosters held are those at the start, bought and granted, less those charged |
| Histories.HistoryStats | backend/internal/gameplay/service.go:195-204 | statistics count the recorded runs, add up their loot and cracked vaults, and keep the best score |
| Histories.BestIsMaximum | backend/internal/gameplay/service.go:199-201 | the best score is one of the recorded ones and none is higher |
| Histories.SpentLivesAreEarned | backend/internal/player/service.go:84-106 | over any history, lives spent x regen <= (lives at the start + lives bought) x regen + time passed |
| Store.MemoryStore.Create | backend/internal/store/memory/memory.go:66-80 | a player is created only if neither its id nor its device is taken |
| Store.MemoryStore.Get | backend/internal/store/memory/memory.go:82-90 | the stored player, or not found |
| Store.MemoryStore.Update | backend/internal/store/memory/memory.go:102-116 | the write succeeds only on the stored version, which grows by one |
| Store.MemoryStore.Put | backend/internal/store/memory/memory.go:122-132 | a run is stored unconditionally |
| Store.MemoryStore.Finish | backend/internal/store/memory/memory.go:145-160 | only an active run is finished |
| Store.MemoryStore.Grant | backend/internal/store/memory/memory.go:284-295 | a reward is created only under a free name |
| Store.MemoryStore.Claim | backend/internal/store/memory/memory.go:308-323 | only a pending reward is claimed |
| Store.CreateKeepsOwners | backend/internal/store/memory/memory.go:284-295 | owner lists keep naming exactly the stored rewards, once each |
| Linearity.ProfilesAreLinear | backend/internal/player/service.go:168-189 | in every reachable state of every interleaving each profile is its creation with the committed decisions applied one after another, the version counts them, and all bounds hold |
| Linearity.WritesCommitOrVanish | backend/internal/store/memory/memory.go:102-116 | a write commits exactly when its decision is accepted and nobody committed since its read, and otherwise leaves no trace |
| Linearity.GivingUpMeansLosing | backend/internal/player/service.go:168-189 | a request gives up retrying only after four commits of others to its profile: since its first read none of its own writes has committed and the log has grown by four |
| Linearity.LivesAreEarned | backend/internal/player/service.go:84-106 | over every interleaving lives spent are covered by those at the start, those bought, and the time since the profile was created |
| Linearity.OneAccountPerDevice | backend/internal/store/memory/memory.go:66-80 | in every reachable state of every interleaving no two players share a device |
| Settlement.RunsKept | backend/internal/store/memory/memory.go:145-160 | no step changes what a run was started with or touches a finished run |
| Payouts.RunsSettleOnce | backend/internal/gameplay/service.go:176-187 | a run settles at most once, with one of the verdicts the system admits for it, which never changes afterwards |
| Payouts.RewardsHaveOneSource | backend/internal/reward/service.go:70-106 | every reward is one settled run's, worth its score and without boosters, or one podium place, never both; a run and an event each have a name of their own |
| Payouts.CreditedAtMostOnce | backend/internal/reward/service.go:121-149 | no reward is credited twice, and every credit pays a claimed reward in full |
| Money.CoinsAreConserved | backend/internal/reward/service.go:121-149 | in every reachable state coins = 500 + claimed - claimed but not credited - prices paid |
| Money.UncreditedInOneHand | backend/internal/reward/service.go:121-149 | a claimed reward that is not credited yet is in the hands of at most one request |
| Statistics.RunsAreRecordedOnce | backend/internal/gameplay/service.go:189-207 | a player's statistics report pairwise different settled runs, each with the outcome it was settled with |
| Services.Mutate | backend/internal/player/service.go:168-189 | at most four attempts; one commit on the profile as the rivals left it, or none; it gives up only after four lost races |
| Services.Purchase | backend/internal/shop/service.go:60-83 | a catalogue item is bought in one commit; an unknown item changes nothing |
| Services.Claim | backend/internal/reward/service.go:121-149 | only the request that flips the reward credits it, and the reward stays claimed whatever becomes of the credit |
| Services.GrantRunLoot | backend/internal/reward/service.go:70-83 | the run's reward exists afterwards, and granting it again changes nothing |
| Protocol.RewardAmounts | backend/internal/reward/service.go:43-107 | a run pays one coin for each full hundred of its score and ten at least; a place pays 5000, 3000, 1500 or 500 coins down to the hundredth, and a shield exactly with the first three |
| Services.GrantLeaderboard | backend/internal/reward/service.go:86-106 | a paying place has its reward afterwards, which is returned, and an existing one is never changed |
| Services.RunOnce | backend/internal/reward/distributor.go:32-64 | an event is flagged exactly when its podium can be read and no grant fails, and then all paying places have their reward; a pass over paid events changes nothing; it counts the places it came to |
| Services.CreateOrResume | backend/internal/player/service.go:110-144 | one account per device, whoever comes first |
| Gameplay.Check | backend/internal/gameplay/service.go:160-174 | a submission passes exactly when the replay of the pinned configuration accepts it with the claimed score and it is plausible (`SettledRuns.PassesIffPlayed` says when that is); otherwise it is told the first check it failed |
| SettledRuns.PassesIffPlayed | backend/internal/gameplay/service.go:160-174 | a submission passes with a result exactly when the run can be played to it on the server's stream of its seed with its configuration: every vault v opens with its budget, three more exactly if "extra_moves" is among the names the run was charged for, a bust halves the penalty exactly if "shield" is, the result is read off the trace, the claimed score is the result's, and duration and chains are within bounds |
| Gameplay.Admit | backend/internal/gameplay/service.go:139-174 | a request to finish is admitted exactly when the run is stored, its own, active and not expired and the submission passes; otherwise it is told the first reason against it |
| SettledRuns.SettlingTakesASubmission | backend/internal/gameplay/service.go:160-174 | in the interleaved protocol a request goes on to settle a run with an outcome exactly when the run may be settled and some submission of it passes with that outcome |
| SettledRuns.FinishedRunsReplay | backend/internal/gameplay/service.go:160-187 | in every reachable state a finished run has a submission that the server's replay accepts for what the run was started with, and its outcome is that replay's |
| Gameplay.Finish | backend/internal/gameplay/service.go:139-217 | a submission that fails a check changes nothing and is told why; one that passes settles the run with the score, loot and cracked vaults of its replay, grants its loot and reports it to the statistics in one commit or none, unless another request settled the run first |
| Gameplay.RecordedResult | backend/internal/gameplay/service.go:195-203 | what the statistics gain: a run, the best score if it is higher, the loot and the cracked vaults of the replay, and nothing else changes but regenerated lives |
| Gameplay.Start | backend/internal/gameplay/service.go:72-127 | duplicates removed, unknown boosters refused, the profile charged in one commit or not at all, and only after a commit the run created with the configuration's seed and version |
| LiveOpsLaws.VersionsAreGapless | backend/internal/liveops/service.go:251-281 | in every reachable state versions 2 to the pointer exist, none beyond the next, and the next exactly while one request is between its two writes |
| LiveOpsLaws.VersionsAreImmutable | backend/internal/store/memory/memory.go:225-238 | stored versions never change and pointers never go back |
| LiveOpsLaws.CachesAgree | backend/internal/liveops/service.go:211-248 | whatever a cache or a request holds is the stored version |
| LiveOpsLaws.RunsKeepTheirConfig | backend/internal/gameplay/service.go:110-165 | a run records the name of its version, and whenever it is settled, by whichever process and cache, it is settled against exactly the stored configuration it was started with |
| LiveOpsProgress.MovesUnlessStuck | backend/internal/liveops/service.go:260-281 | from any state some continuation moves an event's pointer exactly unless the next number is taken and no request in progress can move it |
| LiveOpsProgress.DeadPublisherWedges | backend/internal/liveops/service.go:260-281 | in every reachable state an event can get a new version exactly when no publisher of it has died between its two writes |
| LiveOpsProgress.DeadPublisherHappens | backend/internal/liveops/service.go:260-281 | a run of the system into a state from which an event can never get another version |
| LiveOpsProgress.HeaderWriteNeedsFreshCopy | backend/internal/reward/distributor.go:56-60 | an unconditional header write keeps the version rules exactly when its copy is current |
| LiveOpsProgress.StaleHeaderWedges | backend/internal/reward/distributor.go:56-60 | after a stale header write the event can get a new version exactly if a publisher past its read is under way |
| LiveOpsProgress.MoveHeals | backend/internal/store/memory/memory.go:189-198 | a publisher between its writes undoes a stale header write completely |
| LiveOpsProgress.StaleCopyHappens | backend/internal/reward/distributor.go:56-60 | a header copied in one reachable state and written back in a later one, after which the event is stuck |
| LiveOpsService.Service.GetConfig | backend/internal/liveops/service.go:211-239 | whichever cache answers, the answer is the stored version |
| LiveOpsService.Service.Create | backend/internal/liveops/service.go:122-143 | a valid new event gets version 1; an existing one is left alone, whatever publishers are doing |
| LiveOpsService.Service.PublishConfig | backend/internal/liveops/service.go:251-281 | the number after the pointer, never an existing one; it gives up exactly when in each of five attempts that number was taken, whether by a publish or by a publisher that has not moved the pointer |
| LiveOpsService.AloneIsTaken | backend/internal/liveops/service.go:260-281 | with nobody else at work a publisher gives up exactly when the number beyond the pointer is taken |
| Idempotency.IdempotencyStore.BeginKey | backend/internal/store/memory/memory.go:344-357 | the key is taken unless an unexpired record has it |
| Idempotency.IdempotencyStore.CompleteKey | backend/internal/store/memory/memory.go:359-370 | the response is recorded if the record is still there, and not found otherwise |
| Idempotency.IdempotencyStore.AbortKey | backend/internal/store/memory/memory.go:372-377 | the key is freed |
| Idempotency.Serve | backend/internal/httpapi/middleware.go:192-209 | the buffered response is the handler's first status and all its bytes |
| Idempotency.FirstCallDecides | backend/internal/httpapi/middleware.go:192-209 | the first call of a handler decides its status, 200 if it sends first |
| Idempotency.BodiesJoin | backend/internal/httpapi/middleware.go:192-209 | the buffered body of two stretches of calls is that of the first followed by that of the second (and one call's is what it sent, `OneBody`) |
| Idempotency.Idempotent | backend/internal/httpapi/middleware.go:212-259 | what a request is answered and what is stored, for every key and record, whether the handler returns or panics |
| IdempotencyLaws.ExecutionsDoNotOverlap | backend/internal/httpapi/middleware.go:212-259 | as long as no request outlives its record, executions of a key neither overlap nor share the lifetime of a record |
| IdempotencyLaws.RequestsAreAnswered | backend/internal/httpapi/middleware.go:228-240 | as long as nothing is late: replayed exactly while the last recorded execution is fresh, refused exactly while one is running or has panicked within its record's lifetime, and run exactly otherwise |
| IdempotencyLaws.ReplaysAreRecorded | backend/internal/httpapi/middleware.go:233-239 | every replayed response was recorded for the key, status and body alike |
| IdempotencyLaws.FailureFreesTheKey | backend/internal/httpapi/middleware.go:247-248 | after a handler returned 500 or above the next request runs; after one that panicked it is refused exactly until the record expires |
| IdempotencyLaws.PanicLocksTheKey | backend/internal/httpapi/middleware.go:50-59 | a first request that panics, after which the next is refused although nothing runs and nothing was recorded |
| IdempotencyLaws.LateRequestsOverlap | backend/internal/store/memory/memory.go:344-357 | a second execution starts while one is running exactly when a request comes after the first one's record has expired, and what the first then records becomes the record of the second |
| Telemetry.Bus.Publish | backend/internal/telemetry/bus.go:180-197 | accepted exactly when the bus is open and not full, and counted either way |
| Telemetry.Bus.Deliver | backend/internal/telemetry/bus.go:146-175 | called again only after transient failures, between one and `attempts` times |
| Telemetry.Bus.Dispatch | backend/internal/telemetry/bus.go:137-144 | every sink is offered the event; failures are counted and do not stop the others |
| TelemetryLaws.NothingIsLost | backend/internal/telemetry/bus.go:128-197 | in every reachable state accepted = queued + in workers' hands + processed, and accepted = published + about to be counted |
| TelemetryLaws.EachEventIsOffered | backend/internal/telemetry/bus.go:128-175 | an event that left the queue is with one worker or finished, and a finished one was offered to each sink between one and `attempts` times |
| TelemetryLaws.RefusedOnlyWhenFull | backend/internal/telemetry/bus.go:180-197 | over any run exactly the publishes that met a closed or full channel were refused and counted, the channel took the others in order, and every publish was one or the other |
| TelemetryLaws.ShutdownDrains | backend/internal/telemetry/bus.go:201-217 | once all workers have left, the queue is empty and processed = published |
| Leaderboard.Boards.Submit | backend/internal/cache/memory/memory.go:84-99 | a score is stored only if it is the player's first or highest |
| Leaderboard.Boards.Handle | backend/internal/leaderboard/service.go:103-108 | only finished runs of a named player in a named event count |
| Leaderboard.DeliveryConverges | backend/internal/leaderboard/service.go:92-108 | the same results make the same board in any order and with any repetition |
| Leaderboard.DeliveredIsMaximum | backend/internal/cache/memory/memory.go:84-99 | each player has the highest of the delivered scores |
| Leaderboard.Boards.Sorted | backend/internal/cache/memory/memory.go:65-82 | all players once, by descending score and name, ranked from one |
| Leaderboard.RankingIsUnique | backend/internal/cache/memory/memory.go:65-82 | a board has one ranking |
| Leaderboard.RankedByScore | backend/internal/cache/memory/memory.go:65-82 | of two players the one with the higher score ranks first, and with equal scores the one whose name is later in the dictionary; ranks are positions |
| Leaderboard.RankCountsPlayersAhead | backend/internal/cache/memory/memory.go:78-80 | a rank is one more than the number of better (score, name) pairs |
| Leaderboard.Boards.Top | backend/internal/cache/memory/memory.go:101-109 | a prefix of the ranking |
| Leaderboard.Boards.Rank | backend/internal/cache/memory/memory.go:111-120 | found exactly for players of the board, with score and rank |
| Leaderboard.Boards.Around | backend/internal/cache/memory/memory.go:122-138 | the window around the player, cut at the ends; nothing for others |
| RateLimiter.Limiter.Allow | backend/internal/cache/memory/memory.go:194-213 | the decision, the bucket afterwards, and the wait in whole nanoseconds |
| RateLimiter.TokensStayInBounds | backend/internal/cache/memory/memory.go:194-213 | for nondecreasing times tokens stay between zero and the limit |
| RateLimiter.AllowedIsBounded | backend/internal/cache/memory/memory.go:194-213 | the calls allowed in any stretch, times the window, are at most limit x window + time x limit |
| RateLimiter.FirstCallsAreAllowed | backend/internal/cache/memory/memory.go:194-213 | the first `limit` calls of a new key are all allowed |
| RateLimiter.LoneCall | backend/internal/cache/memory/memory.go:208-212 | after a denial a lone call is allowed exactly when the exact wait has passed |
| RateLimiter.WaitIsCutShort | backend/internal/cache/memory/memory.go:211-212 | a lone call at the end of the returned wait is allowed exactly when nothing was cut off; one nanosecond later always |
| RateLimiter.ThirdOfASecond | backend/internal/cache/memory/memory.go:211-212 | a limit for which it is denied |
| Ids.Encode | backend/internal/ids/ids.go:29-58 | 26 base-32 digits of the 128-bit big-endian value |
| Ids.EncodingOrder | backend/internal/ids/ids.go:29-58 | encodings are equal exactly when the bytes are, and string order is byte order |
| Ids.New | backend/internal/ids/ids.go:14-27 | prefix, underscore, and the encoding of 48 bits of time and 80 random bits |
| Ids.EarlierSortsFirst | backend/internal/ids/ids.go:14-27 | of two identifiers of one kind made in different milliseconds the earlier sorts first |

## Left out

- Floating point: the code computes scores, difficulty and tokens in IEEE doubles; the model uses exact reals, so a score that lies within a rounding error of a half is not covered.
- Overflow of Go's 64-bit integers, and of JavaScript's integers above 2^53.
- The DynamoDB, Redis and SQS adapters: only the in-memory adapters are modelled. The DynamoDB record drops the life timestamp, which is the unset clock of `Profiles.RegenComposes`.
- BotRun.PlayRun: takes the number of moves it may play, because guard chains give their move back and nothing bounds a vault; running out of moves is a third outcome, in which exactly the granted moves have been played.
- Engines.SubmissionAccepted: asks for weight sums below 2^32, which is exact for tiles drawn from arbitrary outputs (`Tiles.EnginesAgree`) but for weights whose first kind alone reaches 2^32; which streams show a difference above it is not decided.
- Telemetry.Bus.Publish: one step; a publish that overlaps the closing of the channel is not modelled, as the server drains its requests first.
- Protocol.Next: the second reading of the clock in a charge and the reading in a mutation are arbitrary instants between the read and the write; all servers share one clock.
- LiveOps.Next: an entry of a cache may expire at any time; the five seconds and the hour after which it does are not modelled.
- Store.MemoryStore.Put: does not keep the list of a player's runs, which only the listing reads.
- Leaderboard.Boards.Submit: does not keep display names.
- LiveOpsService.Service.PublishConfig: the header caches are in `LiveOps` only; a store that fails is not modelled.
- Services.RunOnce: reads the podium as given; what the leaderboard held at that moment is the business of `Leaderboard`. Its header write is `LiveOpsProgress.WriteHeader`.
- Leaderboard.Boards.Sorted: the library sort is an insertion into the sorted prefix.
- Ids.New: where the 80 random bits come from; identifiers are assumed fresh where a run is created.
- The generated identifiers, display names, titles, creation and update times of stored records, and the listing of runs and pending rewards.
- Idempotency.Idempotent: headers of the response, and a store that fails (then the request runs without protection).
- HTTP routing, JSON, tokens, logging, metrics, CORS, error mapping, analytics counters, experiments, the shop catalogue's texts, the daily event ids and seeds, rendering, audio, animation, the admin panel, the load tests, the seeder and the infrastructure.

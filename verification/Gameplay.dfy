/** Starting and settling a run (gameplay/service.go). */
module Gameplay {
  import opened Wrappers
  import opened Config
  import opened Profiles
  import opened Decisions
  import opened Store
  import opened Protocol
  import opened Services
  import Generators
  import Replay
  import ReplayLaws
  import LiveOps

  const EXTRA_MOVES_ID := "extra_moves"
  const SHIELD_ID := "shield"

  /** The boosters that the engine looks for by name. */
  function BoostersOf(names: seq<string>): seq<Booster> {
    (if EXTRA_MOVES_ID in names then [ExtraMoves] else []) + (if SHIELD_ID in names then [Shield] else [])
  }

  datatype StartError = EventClosed | UnknownBooster | ChargeFailed(cause: Failure)

  datatype FinishError =
    | RunMissing | NotYours | AlreadyFinished | RunExpired | ConfigMissing | InvalidReplay(why: Replay.ReplayError)
    | ScoreMismatch | Implausible(doubt: ReplayLaws.Doubt) | StatsFailed(cause: Failure)

  type Configs = map<LiveOps.VersionKey, EventConfig>

  ghost predicate AllRunnable(configs: Configs) {
    forall k :: k in configs ==> Replay.Runnable(Generators.Server, configs[k])
  }

  // ---- what a submission has to pass ----

  /** Every check before the run is settled. */
  ghost predicate Passes(configs: Configs, run: Run, rep: Replay.Submission, result: Replay.RunResult)
    requires AllRunnable(configs)
  {
    var k := (run.eventId, run.configVersion);
    && k in configs
    && Replay.Settled(configs[k], StreamOf(run), BoostersOf(run.boosters), rep) == Ok(result)
    && result.score == rep.clientScore
    && PassesPlausibility(configs[k], rep)
  }

  /** The server's reading of the run's seed. */
  function StreamOf(run: Run): Generators.Source {
    Generators.Source(Generators.Server, run.seed)
  }

  ghost predicate PassesPlausibility(cfg: EventConfig, rep: Replay.Submission) {
    var moves := ReplayLaws.MovesOf(rep.vaults, |rep.vaults|);
    && moves * 120 <= rep.durationMs <= 21_600_000
    && moves <= ReplayLaws.BudgetOf(cfg.vaults, |cfg.vaults|) + 23 * |cfg.vaults|
  }

  function OutcomeOf(result: Replay.RunResult): Outcome {
    Outcome(result.score, result.loot, result.vaultsCracked)
  }

  /** Why a submission does not pass, if this is the reason it is given. */
  ghost predicate Explains(configs: Configs, run: Run, rep: Replay.Submission, e: FinishError)
    requires AllRunnable(configs)
  {
    var k := (run.eventId, run.configVersion);
    if k !in configs then e == ConfigMissing
    else
      var r := Replay.Settled(configs[k], StreamOf(run), BoostersOf(run.boosters), rep);
      if r.Err? then e == InvalidReplay(r.error)
      else if r.value.score != rep.clientScore then e == ScoreMismatch
      else e.Implausible? && ReplayLaws.Doubts(configs[k], rep, e.doubt)
  }

  /** Replays and checks a submission without touching the store. */
  method Check(configs: Configs, run: Run, rep: Replay.Submission) returns (r: Result<Replay.RunResult, FinishError>)
    requires AllRunnable(configs)
    ensures r.Ok? ==> Passes(configs, run, rep, r.value)
    ensures r.Err? ==> Explains(configs, run, rep, r.error) && forall result :: !Passes(configs, run, rep, result)
  {
    hide Replay.Runnable, Replay.Settled, ReplayLaws.MovesOf, ReplayLaws.BudgetOf, BoostersOf;
    var k := (run.eventId, run.configVersion);
    if k !in configs {
      return Err(ConfigMissing);
    }
    var result := Replay.Run(configs[k], StreamOf(run), BoostersOf(run.boosters), rep);
    if result.Err? {
      return Err(InvalidReplay(result.error));
    }
    if result.value.score != rep.clientScore {
      return Err(ScoreMismatch);
    }
    var doubt := ReplayLaws.Plausible(configs[k], rep);
    if doubt.Some? {
      return Err(Implausible(doubt.value));
    }
    return Ok(result.value);
  }

  // ---- finishing ----

  /** The run may be settled by this request, and the submission passes. */
  ghost predicate Settles(configs: Configs, db: Db, k: RunKey, now: int, rep: Replay.Submission,
          result: Replay.RunResult)
    requires AllRunnable(configs)
  {
    && k in db.runs && db.runs[k].playerId == k.0 && db.runs[k].status == Active && now <= db.runs[k].expiresAt
    && Passes(configs, db.runs[k], rep, result)
  }

  /** Why a request to finish is refused before it has changed anything. */
  ghost predicate Refuses(configs: Configs, db: Db, k: RunKey, now: int, rep: Replay.Submission, e: FinishError)
    requires AllRunnable(configs)
  {
    if k !in db.runs then e == RunMissing
    else if db.runs[k].playerId != k.0 then e == NotYours
    else if db.runs[k].status != Active then e == AlreadyFinished
    else if now > db.runs[k].expiresAt then e == RunExpired
    else Explains(configs, db.runs[k], rep, e)
  }

  /** The store once the run is settled with this outcome and its loot has been granted, now
      or before. */
  ghost function Paid(db: Db, k: RunKey, result: Replay.RunResult): Db
    requires k in db.runs
  {
    var run := db.runs[k].(outcome := Some(OutcomeOf(result)));
    CreateReward(FinishRun(db, run).db, LootReward(run, result.score)).db
  }

  function RecordOf(run: RunId, result: Replay.RunResult): Decision {
    Record(run, result.score, result.loot, result.vaultsCracked)
  }

  /** What the player's statistics gain from a settled run: the score, the loot and the
      cracked vaults of its replay. */
  lemma RecordedResult(p: Player, run: RunId, result: Replay.RunResult, now: int, later: int, regen: int)
    ensures var r := Decided(p, RecordOf(run, result), now, later, regen);
      && r.Ok?
      && r.value.stats == Stats(p.stats.runs + 1,
                                if p.stats.bestScore < result.score then result.score else p.stats.bestScore,
                                p.stats.totalLoot + result.loot, p.stats.vaultsCracked + result.vaultsCracked)
      && r.value.coins == p.coins && r.value.boosters == p.boosters && r.value.lives >= p.lives
  {
    hide Elapsed;
    RegenGives(p, now, regen);
    DecisionTerms(ApplyRegen(p, now, regen), RecordOf(run, result), later);
  }

  datatype Receipt = Receipt(reward: Reward, player: Player)

  ghost predicate RunsMatch(db: Db) {
    forall k :: k in db.runs ==> db.runs[k].id == k.1
  }

  /** Every check before the store is touched. */
  method Admit(store: MemoryStore, configs: Configs, k: RunKey, rep: Replay.Submission, now: int)
    returns (r: Result<Replay.RunResult, FinishError>)
    requires AllRunnable(configs)
    ensures r.Ok? ==> Settles(configs, store.Contents(), k, now, rep, r.value)
    ensures r.Err? ==> Refuses(configs, store.Contents(), k, now, rep, r.error)
    ensures r.Err? ==> forall result :: !Settles(configs, store.Contents(), k, now, rep, result)
  {
    hide Passes, AllRunnable, Explains;
    if k !in store.runs {
      return Err(RunMissing);
    }
    var run := store.runs[k];
    if run.playerId != k.0 {
      return Err(NotYours);
    }
    if run.status != Active {
      return Err(AlreadyFinished);
    }
    if now > run.expiresAt {
      return Err(RunExpired);
    }
    r := Check(configs, run, rep);
  }

  /** Settles the run and grants its loot. `raced` is an outcome that another request settles
      it with after this one has checked it. */
  method SettleAndGrant(store: MemoryStore, k: RunKey, result: Replay.RunResult, raced: Option<Outcome>)
    returns (r: Option<Reward>)
    requires KeysMatch(store.Contents()) && RunsMatch(store.Contents())
    requires k in store.runs && store.runs[k].playerId == k.0 && store.runs[k].status == Active
    modifies store
    ensures KeysMatch(store.Contents())
    ensures raced.None? ==> store.Contents() == old(Paid(store.Contents(), k, result))
    ensures raced.None? ==>
      r.Some? && (k.0, LootId(k.1)) in store.rewards && r.value == store.rewards[(k.0, LootId(k.1))]
    ensures raced.Some? ==>
      r.None? && store.Contents() == FinishRun(old(store.Contents()), old(store.runs[k]).(outcome := raced)).db
  {
    hide RunLootCoins, LootId;
    var run := store.runs[k];
    if raced.Some? {
      var _ := store.Finish(run.(outcome := raced));
    }
    run := run.(outcome := Some(OutcomeOf(result)));
    var settled := store.Finish(run);
    if settled.Err? {
      return None;
    }
    var granted := GrantRunLoot(store, run, result.score);
    return Some(granted);
  }

  /** Finish: validate, settle, grant, record. A submission that fails a check changes
      nothing and is told why. One that passes settles the run once: either this request
      settles it, grants its loot and then reports it to the statistics in one commit, or
      another request has settled it first. Whatever becomes of the statistics, the run
      stays settled and the loot granted. */
  method Finish(store: MemoryStore, configs: Configs, k: RunKey, rep: Replay.Submission, now: int,
          raced: Option<Outcome>,
                times: seq<Times>, regen: int, rivals: seq<seq<Player>>)
    returns (r: Result<Receipt, FinishError>, ghost ran: nat, ghost result: Option<Replay.RunResult>)
    requires AllRunnable(configs) && |rivals| == |times| == MAX_ATTEMPTS
    requires KeysMatch(store.Contents()) && RunsMatch(store.Contents())
    modifies store
    ensures KeysMatch(store.Contents())
    ensures result.None? ==> r.Err? && Refuses(configs, old(store.Contents()), k, now, rep, r.error)
    ensures result.None? ==> store.Contents() == old(store.Contents())
    ensures result.None? <==> forall x :: !Settles(configs, old(store.Contents()), k, now, rep, x)
    ensures result.Some? ==> Settles(configs, old(store.Contents()), k, now, rep, result.value)
    ensures result.Some? && raced.Some? ==>
      && r == Err(AlreadyFinished)
      && store.Contents() == FinishRun(old(store.Contents()), old(store.runs[k]).(outcome := raced)).db
    ensures result.Some? && raced.None? ==>
      && (r.Ok? || r.error.StatsFailed?)
      && OneCommitOrNone(old(Paid(store.Contents(), k, result.value)), store.Contents(), k.0,
                         RecordOf(k.1, result.value), times, regen, rivals, ran,
                         if r.Ok? then Ok(r.value.player) else Err(r.error.cause))
    ensures result.Some? && raced.None? ==>
      && var o := Outcome(result.value.score, result.value.loot, result.value.vaultsCracked);
      store.runs == old(store.runs)[k := old(store.runs[k]).(status := Finished, outcome := Some(o))]
    ensures r.Ok? ==> (k.0, LootId(k.1)) in store.rewards && r.value.reward == store.rewards[(k.0, LootId(k.1))]
  {
    hide Passes, AllRunnable, Explains, RunLootCoins, LootId, OneCommitOrNone, KeysMatch, FinishRun, Paid;
    ran, result := 0, None;
    var checked := Admit(store, configs, k, rep, now);
    if checked.Err? {
      return Err(checked.error), 0, None;
    }
    result := Some(checked.value);
    var granted := SettleAndGrant(store, k, checked.value, raced);
    if granted.None? {
      return Err(AlreadyFinished), 0, result;
    }
    ghost var db := store.Contents();
    PaidSettles(old(store.Contents()), k, checked.value);
    var p, used := Mutate(store, k.0, RecordOf(k.1, checked.value), times, regen, rivals);
    ran := used;
    OnlyPlayers(db, store.Contents(), k.0, RecordOf(k.1, checked.value), times, regen, rivals, used, p);
    if p.Err? {
      return Err(StatsFailed(p.error)), ran, result;
    }
    return Ok(Receipt(granted.value, p.value)), ran, result;
  }

  /** The run as it is stored once it is settled: as it was, but finished and with the score,
      the loot and the cracked vaults of the replay. */
  lemma PaidSettles(db: Db, k: RunKey, result: Replay.RunResult)
    requires k in db.runs && db.runs[k].playerId == k.0 && db.runs[k].id == k.1 && db.runs[k].status == Active
    ensures var o := Outcome(result.score, result.loot, result.vaultsCracked);
      Paid(db, k, result).runs == db.runs[k := db.runs[k].(status := Finished, outcome := Some(o))]
  {
    hide RunLootCoins, LootId;
  }

  lemma OnlyPlayers(db: Db, db': Db, id: PlayerId, d: Decision, times: seq<Times>, regen: int,
          rivals: seq<seq<Player>>, ran: nat, r: Result<Player, Failure>)
    requires |rivals| == |times| == MAX_ATTEMPTS && OneCommitOrNone(db, db', id, d, times, regen, rivals, ran, r)
    ensures db'.rewards == db.rewards && db'.runs == db.runs
    ensures r.Ok? ==> id in db'.players && db'.players[id] == r.value
  {
    hide Decided, Rivals, RivalsIn;
    RivalsKeepRewards(db, rivals, ran);
  }

  // ---- starting ----

  predicate KnownBooster(b: string) {
    b == EXTRA_MOVES_ID || b == SHIELD_ID
  }

  method AllKnown(boosters: seq<string>) returns (known: bool)
    ensures known <==> forall b :: b in boosters ==> KnownBooster(b)
  {
    for i := 0 to |boosters|
      invariant forall j :: 0 <= j < i ==> KnownBooster(boosters[j])
    {
      if !KnownBooster(boosters[i]) {
        return false;
      }
    }
    return true;
  }

  /** Start: duplicates are removed and unknown boosters refused; then the profile is charged
      in one commit, or not at all; and only then is the run created, under a fresh
      identifier, with the configuration's seed and version. */
  method Start(store: MemoryStore, player: PlayerId, cfg: EventConfig, version: int, eventId: string, active: bool,
          names: seq<string>, id: RunId, expiresAt: int,
               times: seq<Times>, regen: int, rivals: seq<seq<Player>>)
    returns (r: Result<Run, StartError>, ghost ran: nat, ghost charged: seq<string>)
    requires |rivals| == |times| == MAX_ATTEMPTS && KeysMatch(store.Contents()) && (player, id) !in store.runs
    modifies store
    ensures KeysMatch(store.Contents())
    ensures charged == Distinct(names, |names|) && NoDuplicates(charged)
    ensures r == Err(EventClosed) <==> !active
    ensures r == Err(UnknownBooster) <==> active && exists b :: b in charged && b != "extra_moves" && b != "shield"
    ensures r == Err(EventClosed) || r == Err(UnknownBooster) ==> store.Contents() == old(store.Contents())
    ensures r.Err? && r.error.ChargeFailed? ==>
      OneCommitOrNone(old(store.Contents()), store.Contents(), player, Charge(cfg.livesCost, charged),
                      times, regen, rivals, ran, Err(r.error.cause))
    ensures r.Ok? ==> r.value == Run(id, player, eventId, cfg.seed, version, charged, Active, expiresAt, None)
    ensures r.Ok? ==> store.runs == old(store.runs)[(player, id) := r.value] && player in store.players
    ensures r.Ok? ==>
      OneCommitOrNone(old(store.Contents()), store.Contents().(runs := old(store.runs)), player,
                      Charge(cfg.livesCost, charged), times, regen, rivals, ran, Ok(store.players[player]))
  {
    hide Distinct, OneCommitOrNone, KeysMatch, NoDuplicates;
    var boosters := Dedupe(names);
    ran, charged := 0, boosters;
    if !active {
      return Err(EventClosed), 0, charged;
    }
    var known := AllKnown(boosters);
    if !known {
      return Err(UnknownBooster), 0, charged;
    }
    ghost var db := store.Contents();
    var p, used := Mutate(store, player, Charge(cfg.livesCost, boosters), times, regen, rivals);
    ran := used;
    OnlyPlayers(db, store.Contents(), player, Charge(cfg.livesCost, boosters), times, regen, rivals, used, p);
    if p.Err? {
      return Err(ChargeFailed(p.error)), ran, charged;
    }
    var run := Run(id, player, eventId, cfg.seed, version, boosters, Active, expiresAt, None);
    PutKeepsKeys(store.Contents(), run);
    store.Put(run);
    return Ok(run), ran, charged;
  }

  lemma PutKeepsKeys(db: Db, run: Run)
    requires KeysMatch(db)
    ensures KeysMatch(PutRun(db, run)) && PutRun(db, run).(runs := db.runs) == db
  {}
}

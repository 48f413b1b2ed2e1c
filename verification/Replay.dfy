/** Replaying and scoring a whole run (replay.go, and runReplay of engine.ts). */
module Replay {
  import opened Wrappers
  import opened Rng
  import opened Generators
  import opened Config
  import opened Board
  import opened Tiles
  import opened Play
  import opened Simulation
  import LockTermination

  datatype Outcome = Escaped | BustedOut

  type Moves = seq<seq<int>>

  /** The chains played in each vault, and what the client claims. */
  datatype Submission = Submission(vaults: seq<Moves>, escaped: bool, clientScore: int, durationMs: int)

  datatype RunResult = RunResult(
    outcome: Outcome, score: int, loot: int, vaultReached: nat, vaultsCracked: nat, multiplier: real, totalMoves: nat)

  datatype ReplayError =
    | NoVaults | TooManyVaults
    | AfterTheEnd(vault: nat) | IllegalMove(vault: nat, move: nat, why: MoveError)
    | Unfinished(vault: nat) | BustedMidRun(vault: nat)
    | NeitherEscapedNorContinued | EscapedButBusted

  /** A stored configuration whose weights an engine can draw. */
  ghost predicate Runnable(engine: Engine, cfg: EventConfig) {
    Valid(cfg) && forall i :: 0 <= i < |cfg.vaults| ==> BoundOf(engine, cfg.vaults[i].weights.Total()) > 0
  }

  lemma RunnableVault(src: Source, cfg: EventConfig, i: nat)
    requires Runnable(src.engine, cfg) && i < |cfg.vaults|
    ensures CanGenerate(ArenaOf(src.engine, cfg, i), Outputs(src.seed))
  {
    hide Outputs, CanGenerate;
    LockTermination.ValidVaultsGenerate(src.engine, cfg, i);
  }

  // ---- the replay as a function ----

  /** Vault `vi` as the replay opens it at position `p` of the stream. */
  ghost function Start(cfg: EventConfig, src: Source, boosters: seq<Booster>, vi: nat, p: nat): (s: Snapshot)
    requires Runnable(src.engine, cfg) && vi < |cfg.vaults|
    ensures IsGrid(s.grid, cfg.w, cfg.h)
  {
    RunnableVault(src, cfg, vi);
    Opened(ArenaOf(src.engine, cfg, vi), Outputs(src.seed), p, DifficultyPct(cfg), HasBooster(boosters, ExtraMoves))
  }

  /** The vault after the first `k` chains, or the first problem among them. */
  ghost function Played(a: Arena, d: Draws, vi: nat, s: Snapshot, moves: Moves,
          k: nat): (r: Result<Snapshot, ReplayError>)
    requires ArenaOk(a) && IsGrid(s.grid, a.w, a.h) && k <= |moves|
    ensures r.Ok? ==> IsGrid(r.value.grid, a.w, a.h)
    decreases k
  {
    if k == 0 then Ok(s)
    else
      var before := Played(a, d, vi, s, moves, k - 1);
      if before.Err? then before
      else if before.value.state != Playing then Err(AfterTheEnd(vi))
      else if !IsChain(before.value.grid, a.w, moves[k - 1]) then
        Err(IllegalMove(vi, k - 1, WhyIllegal(before.value.grid, a.w, moves[k - 1])))
      else Ok(Applied(a, d, before.value, moves[k - 1]))
  }

  ghost function WhyIllegal(g: seq<int>, w: int, path: seq<int>): MoveError
    requires w > 0 && !IsChain(g, w, path)
  {
    LegalIffChain(g, w, path);
    PathVerdict(g, w, path).why
  }

  /** How far a run has come: the position in the stream, the loot, the cracked vaults, the
      chains, and how the last vault ended. */
  datatype Progress = Progress(drawn: nat, loot: int, cracked: nat, moves: nat, last: VaultState)

  ghost function Folded(cfg: EventConfig, src: Source, boosters: seq<Booster>, vaults: seq<Moves>,
          n: nat): Result<Progress, ReplayError>
    requires Runnable(src.engine, cfg) && n <= |vaults| <= |cfg.vaults|
    decreases n
  {
    if n == 0 then Ok(Progress(0, 0, 0, 0, Playing))
    else
      var before := Folded(cfg, src, boosters, vaults, n - 1);
      if before.Err? then before
      else FoldVault(cfg, src, boosters, vaults, n - 1, before.value)
  }

  /** One more vault. */
  ghost function FoldVault(cfg: EventConfig, src: Source, boosters: seq<Booster>, vaults: seq<Moves>, vi: nat,
          before: Progress): Result<Progress, ReplayError>
    requires Runnable(src.engine, cfg) && vi < |vaults| <= |cfg.vaults|
  {
    RunnableVault(src, cfg, vi);
    var moves := vaults[vi];
    var s := Start(cfg, src, boosters, vi, before.drawn);
    var end := Played(ArenaOf(src.engine, cfg, vi), Outputs(src.seed), vi, s, moves, |moves|);
    if end.Err? then Err(end.error)
    else if end.value.state == Playing then Err(Unfinished(vi))
    else if end.value.state == Busted && vi != |vaults| - 1 then Err(BustedMidRun(vi))
    else Ok(Progress(end.value.drawn, before.loot + end.value.loot,
                     before.cracked + (if end.value.state == Cracked then 1 else 0),
                     before.moves + |moves|, end.value.state))
  }

  /** Loot times multiplier, times what a bust leaves, times the event's factor. */
  function ScoreOf(loot: int, mult: real, kept: real, factor: real): int {
    RoundHalfUp(loot as real * mult * kept * factor)
  }

  function EscapeScore(cfg: EventConfig, loot: int, reached: nat): int
    requires 1 <= reached <= |cfg.vaultMultipliers|
  {
    RoundHalfUp(loot as real * cfg.vaultMultipliers[reached - 1] * cfg.lootMultiplier)
  }

  function BustMultiplier(cfg: EventConfig, reached: nat): real
    requires 1 <= reached <= |cfg.vaultMultipliers|
  {
    if reached >= 2 then cfg.vaultMultipliers[reached - 2] else 1.0
  }

  function BustScore(cfg: EventConfig, loot: int, reached: nat, boosters: seq<Booster>): int
    requires 1 <= reached <= |cfg.vaultMultipliers|
  {
    var penalty := if HasBooster(boosters, Shield) then cfg.bustPenalty * 0.5 else cfg.bustPenalty;
    ScoreOf(loot, BustMultiplier(cfg, reached), 1.0 - penalty, cfg.lootMultiplier)
  }

  /** The scoring branch of the replay. */
  ghost function Scored(cfg: EventConfig, boosters: seq<Booster>, rep: Submission, loot: int, cracked: nat, moves: nat,
          last: VaultState): Result<RunResult, ReplayError>
    requires 1 <= |rep.vaults| <= |cfg.vaults| == |cfg.vaultMultipliers|
  {
    var n := |rep.vaults|;
    if last == Cracked then
      if !rep.escaped && n < |cfg.vaults| then Err(NeitherEscapedNorContinued)
      else Ok(RunResult(Escaped, EscapeScore(cfg, loot, n), loot, n, cracked, cfg.vaultMultipliers[n - 1], moves))
    else if rep.escaped then Err(EscapedButBusted)
    else Ok(RunResult(BustedOut, BustScore(cfg, loot, n, boosters), loot, n, cracked, BustMultiplier(cfg, n), moves))
  }

  ghost function Settled(cfg: EventConfig, src: Source, boosters: seq<Booster>, rep: Submission): Result<RunResult,
          ReplayError>
    requires Runnable(src.engine, cfg)
  {
    if |rep.vaults| == 0 then Err(NoVaults)
    else if |rep.vaults| > |cfg.vaults| then Err(TooManyVaults)
    else
      var run := Folded(cfg, src, boosters, rep.vaults, |rep.vaults|);
      if run.Err? then Err(run.error)
      else Scored(cfg, boosters, rep, run.value.loot, run.value.cracked, run.value.moves, run.value.last)
  }

  // ---- in place ----

  /** All chains of one vault on its simulator. */
  method PlayVault(sim: Sim, vi: nat, moves: Moves) returns (err: Option<ReplayError>)
    requires sim.Valid()
    modifies sim, sim.grid, sim.rng
    ensures sim.Valid() && ArenaOk(sim.Setting())
    ensures var r := Played(sim.Setting(), sim.rng.Stream(), vi, old(sim.Snap()), moves, |moves|);
      if err.None? then r == Ok(sim.Snap()) else r == Err(err.value)
  {
    hide Outputs, Generator.Valid, Applied, IsChain, PathVerdict, Drawable, Report;
    ghost var a, d, s := sim.Setting(), sim.rng.Stream(), sim.Snap();
    for mi := 0 to |moves|
      invariant sim.Valid()
      invariant Played(a, d, vi, s, moves, mi) == Ok(sim.Snap())
    {
      if sim.state != Playing {
        PlayedFails(a, d, vi, s, moves, mi + 1);
        return Some(AfterTheEnd(vi));
      }
      ghost var now := sim.Snap();
      var r, _ := sim.Apply(moves[mi]);
      if r.Err? {
        PlayedFails(a, d, vi, s, moves, mi + 1);
        return Some(IllegalMove(vi, mi, r.error));
      }
    }
    return None;
  }

  lemma {:induction false} PlayedFails(a: Arena, d: Draws, vi: nat, s: Snapshot, moves: Moves, k: nat)
    requires ArenaOk(a) && IsGrid(s.grid, a.w, a.h) && k <= |moves| && Played(a, d, vi, s, moves, k).Err?
    ensures Played(a, d, vi, s, moves, |moves|) == Played(a, d, vi, s, moves, k)
    decreases |moves| - k
  {
    hide Applied, IsChain;
    if k < |moves| { PlayedFails(a, d, vi, s, moves, k + 1); }
  }

  lemma {:induction false} FoldedFails(cfg: EventConfig, src: Source, boosters: seq<Booster>, vaults: seq<Moves>,
          n: nat)
    requires Runnable(src.engine, cfg) && n <= |vaults| <= |cfg.vaults| && Folded(cfg, src, boosters, vaults, n).Err?
    ensures Folded(cfg, src, boosters, vaults, |vaults|) == Folded(cfg, src, boosters, vaults, n)
    decreases |vaults| - n
  {
    hide FoldVault, Runnable;
    if n < |vaults| { FoldedFails(cfg, src, boosters, vaults, n + 1); }
  }

  /** One vault of the run: a new simulator on the shared generator, its chains, and the
      checks on how it ended. */
  method RunVault(cfg: EventConfig, boosters: seq<Booster>, vaults: seq<Moves>, vi: nat, rng: Generator, loot: int,
          cracked: nat, total: nat, ghost last: VaultState)
    returns (err: Option<ReplayError>, loot': int, cracked': nat, total': nat, state: VaultState)
    requires Runnable(rng.engine, cfg) && vi < |vaults| <= |cfg.vaults| && rng.Valid()
    modifies rng
    ensures rng.Valid()
    ensures var before := Progress(old(rng.drawn), loot, cracked, total, last);
      var r := FoldVault(cfg, rng.From(), boosters, vaults, vi, before);
      if err.None? then r == Ok(Progress(rng.drawn, loot', cracked', total', state)) else r == Err(err.value)
  {
    hide Outputs, Generator.Valid, Played, Runnable, Opened, Drawable;
    loot', cracked', total', state := loot, cracked, total, Playing;
    RunnableVault(rng.From(), cfg, vi);
    RunnableSizes(rng.engine, cfg);
    var sim := new Sim(rng, cfg, vi, boosters);
    err := PlayVault(sim, vi, vaults[vi]);
    if err.Some? {
      return;
    }
    if sim.state == Playing {
      err := Some(Unfinished(vi));
      return;
    }
    if sim.state == Busted && vi != |vaults| - 1 {
      err := Some(BustedMidRun(vi));
      return;
    }
    if sim.state == Cracked {
      cracked' := cracked' + 1;
    }
    loot' := loot' + sim.loot;
    total' := total' + |vaults[vi]|;
    state := sim.state;
  }

  lemma RunnableSizes(engine: Engine, cfg: EventConfig)
    requires Runnable(engine, cfg)
    ensures |cfg.vaultMultipliers| == |cfg.vaults| && 16 <= cfg.w * cfg.h <= 144 && cfg.w > 0 && cfg.h > 0
  {
    LockTermination.BoardSize(cfg.w, cfg.h);
  }

  /** Run: replays a submission on one stream and scores it. */
  method Run(cfg: EventConfig, src: Source, boosters: seq<Booster>, rep: Submission)
    returns (r: Result<RunResult, ReplayError>)
    requires Runnable(src.engine, cfg)
    ensures r == Settled(cfg, src, boosters, rep)
  {
    hide Outputs, FoldVault, Runnable, RoundHalfUp, Generator.Valid;
    RunnableSizes(src.engine, cfg);
    if |rep.vaults| == 0 {
      return Err(NoVaults);
    }
    if |rep.vaults| > |cfg.vaults| {
      return Err(TooManyVaults);
    }
    var rng := new Generator(src.engine, src.seed);
    var totalLoot, cracked, totalMoves, last := 0, 0, 0, Playing;
    for vi := 0 to |rep.vaults|
      invariant rng.Valid() && rng.From() == src && fresh(rng)
      invariant Folded(cfg, src, boosters, rep.vaults, vi)
        == Ok(Progress(rng.drawn, totalLoot, cracked, totalMoves, last))
    {
      var err, loot', cracked', moves', state :=
        RunVault(cfg, boosters, rep.vaults, vi, rng, totalLoot, cracked, totalMoves, last);
      if err.Some? {
        FoldedFails(cfg, src, boosters, rep.vaults, vi + 1);
        return Err(err.value);
      }
      totalLoot, cracked, totalMoves, last := loot', cracked', moves', state;
    }
    r := ScoreRun(cfg, boosters, rep, totalLoot, cracked, totalMoves, last);
  }

  method ScoreRun(cfg: EventConfig, boosters: seq<Booster>, rep: Submission, totalLoot: int, cracked: nat,
          totalMoves: nat, last: VaultState)
    returns (r: Result<RunResult, ReplayError>)
    requires 1 <= |rep.vaults| <= |cfg.vaults| == |cfg.vaultMultipliers|
    ensures r == Scored(cfg, boosters, rep, totalLoot, cracked, totalMoves, last)
  {
    hide ScoreOf, RoundHalfUp;
    var reached := |rep.vaults|;
    if last == Cracked {
      if !rep.escaped && reached < |cfg.vaults| {
        return Err(NeitherEscapedNorContinued);
      }
      var mult := cfg.vaultMultipliers[reached - 1];
      return Ok(RunResult(Escaped, EscapeScore(cfg, totalLoot, reached), totalLoot, reached, cracked, mult,
            totalMoves));
    }
    if rep.escaped {
      return Err(EscapedButBusted);
    }
    var mult := 1.0;
    if reached >= 2 {
      mult := cfg.vaultMultipliers[reached - 2];
    }
    var penalty := cfg.bustPenalty;
    if HasBooster(boosters, Shield) {
      penalty := penalty * 0.5;
    }
    r := Ok(RunResult(BustedOut, ScoreOf(totalLoot, mult, 1.0 - penalty, cfg.lootMultiplier), totalLoot, reached,
          cracked, mult, totalMoves));
  }
}

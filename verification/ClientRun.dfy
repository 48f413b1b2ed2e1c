/** The event handlers that drive a run in the browser (main.ts). */
module ClientRun {
  import opened Wrappers
  import opened Rng
  import opened Generators
  import opened Config
  import opened Board
  import opened Tiles
  import opened Play
  import opened Simulation
  import opened Replay
  import opened Client
  import opened Engines

  /** A run in progress, and what the browser has stored of it. */
  class ActiveRun {
    const seed: bv32
    const config: EventConfig
    const boosters: seq<Booster>
    const rng: Generator
    var vaultIndex: nat
    var sim: Sim
    var vaults: seq<Moves>
    var currentMoves: Moves
    var totalLoot: int
    var saved: Log

    function From(): Source {
      Source(Browser, seed)
    }

    ghost function LogNow(): Log
      reads this
    {
      Log(seed, config, boosters, vaults, currentMoves, totalLoot)
    }

    ghost function LiveNow(): Live
      reads this, sim, sim.grid, sim.rng
    {
      Live(vaultIndex, totalLoot, sim.Snap())
    }

    /** The simulator belongs to the current vault and draws from the run's stream. */
    ghost predicate Attached()
      reads this, sim, sim.grid, sim.rng
    {
      && Runnable(Browser, config) && vaultIndex < |config.vaults|
      && sim.Valid() && sim.rng == rng && rng.From() == From()
      && sim.Setting() == ArenaOf(Browser, config, vaultIndex)
    }

    ghost predicate Valid()
      reads this, sim, sim.grid, sim.rng
    {
      Attached() && Faithful(LogNow(), LiveNow())
    }

    /** The vault in play has not been settled. */
    predicate InVault()
      reads this
    {
      |vaults| == vaultIndex
    }

    /** startHeist, with the seed, the configuration and the boosters the server returned. */
    constructor (seed: bv32, config: EventConfig, boosters: seq<Booster>)
      requires Runnable(Browser, config)
      ensures Valid() && InVault() && saved == LogNow() && sim.state == Playing
      ensures LogNow() == Log(seed, config, boosters, [], [], 0)
      ensures LiveNow() == Live(0, 0, Start(config, Source(Browser, seed), boosters, 0, 0))
      ensures fresh(sim) && fresh(sim.grid) && fresh(rng)
    {
      hide Outputs, Generator.Valid, Runnable, Locked, Opened, Drawable;
      FirstVault(config);
      RunnableVault(Source(Browser, seed), config, 0);
      EmptyVault(config, Source(Browser, seed), boosters, 0, 0);
      var rng := new Generator(Browser, seed);
      var sim := new Sim(rng, config, 0, boosters);
      this.seed, this.config, this.boosters, this.rng, this.sim := seed, config, boosters, rng, sim;
      vaultIndex, vaults, currentMoves, totalLoot := 0, [], [], 0;
      saved := Log(seed, config, boosters, [], [], 0);
    }

    /** A run with given parts. */
    constructor Restored(log: Log, rng: Generator, sim: Sim, vaultIndex: nat, totalLoot: int)
      ensures seed == log.seed && config == log.config && boosters == log.boosters && this.rng == rng && this.sim == sim
      ensures this.vaultIndex == vaultIndex && this.totalLoot == totalLoot && vaults == log.vaults
      ensures currentMoves == log.currentMoves
      ensures saved == log
    {
      seed, config, boosters, this.rng, this.sim := log.seed, log.config, log.boosters, rng, sim;
      this.vaultIndex, vaults, currentMoves, this.totalLoot := vaultIndex, log.vaults, log.currentMoves, totalLoot;
      saved := log;
    }

    method PersistRun()
      modifies this`saved
      ensures saved == LogNow()
    {
      saved := Log(seed, config, boosters, vaults, currentMoves, totalLoot);
    }

    /** A path drawn on the board: a legal one is played and logged at once, anything else
        is ignored. */
    method Commit(path: seq<int>)
      requires Valid() && InVault() && saved == LogNow()
      modifies this, sim, sim.grid, sim.rng
      ensures Valid() && InVault() && saved == LogNow() && sim == old(sim) && vaultIndex == old(vaultIndex)
      ensures if old(sim.state == Playing && IsChain(sim.grid[..], config.w, path))
        then LogNow() == old(LogNow()).(currentMoves := old(currentMoves) + [path])
          && sim.Snap() == Applied(ArenaOf(Browser, config, vaultIndex), Outputs(seed), old(sim.Snap()), path)
        else LogNow() == old(LogNow()) && LiveNow() == old(LiveNow())
    {
      hide Outputs, Generator.Valid, Runnable, Locked, Opened, Drawable, Applied, IsChain, PathVerdict, Report,
           Faithful, Valid;
      ghost var log, live := LogNow(), LiveNow();
      OpenValid();
      RunnableVault(From(), config, vaultIndex);
      var r, _ := sim.Apply(path);
      if r.Ok? {
        currentMoves := currentMoves + [path];
        LogChain(log, live, path, sim.Snap());
        PersistRun();
      }
      CloseValid();
    }

    lemma OpenValid()
      requires Valid()
      ensures Attached() && Faithful(LogNow(), LiveNow())
    {}

    lemma CloseValid()
      requires Attached() && Faithful(LogNow(), LiveNow())
      ensures Valid()
    {}

    /** Once the animation has ended: a decided vault moves to the log. */
    method OnSettled()
      requires Valid() && InVault() && saved == LogNow()
      modifies this
      ensures Valid() && saved == LogNow() && sim == old(sim) && vaultIndex == old(vaultIndex)
      ensures InVault() <==> sim.state == Playing
      ensures sim.state == Playing ==> LogNow() == old(LogNow())
      ensures sim.state != Playing ==>
        LogNow() == old(LogNow()).(vaults := old(vaults) + [old(currentMoves)], currentMoves := [],
                                   totalLoot := old(totalLoot) + sim.loot)
    {
      hide Outputs, Generator.Valid, Runnable, Faithful, Sim.Valid, Valid;
      OpenValid();
      if sim.state == Playing {
        return;
      }
      LogVault(LogNow(), LiveNow());
      vaults := vaults + [currentMoves];
      currentMoves := [];
      totalLoot := totalLoot + sim.loot;
      PersistRun();
      CloseValid();
    }

    /** The player goes on to the next vault. */
    method GoDeeper()
      requires Valid() && !InVault() && saved == LogNow()
      requires sim.state == Cracked && vaultIndex + 1 < |config.vaults|
      modifies this, rng
      ensures Valid() && InVault() && saved == LogNow() == old(LogNow())
      ensures LiveNow() == old(Deeper(LogNow(), LiveNow()))
      ensures fresh(sim) && fresh(sim.grid)
    {
      hide Outputs, Generator.Valid, Runnable, Locked, Opened, Drawable, Faithful, Valid, CanGenerate;
      ghost var log, live := LogNow(), LiveNow();
      OpenValid();
      LogDeeper(log, live) by { ClosedLog(); }
      RunnableVault(From(), config, vaultIndex + 1);
      vaultIndex := vaultIndex + 1;
      sim := new Sim(rng, config, vaultIndex, boosters);
      PersistRun();
      CloseValid();
    }

    lemma ClosedLog()
      requires Faithful(LogNow(), LiveNow()) && !InVault()
      ensures |vaults| == vaultIndex + 1
    {}

    /** Ends the run: an escape after a crack, otherwise a bust. The local replay gives the
        score that is submitted, and the server's replay gives the same result whenever the
        weights of every vault sum to less than 2^32. */
    method FinishRun(escaped: bool, durationMs: int) returns (rep: Submission, result: RunResult)
      requires Valid() && !InVault() && escaped == (sim.state == Cracked)
      ensures rep == Submission(vaults, escaped, result.score, durationMs)
      ensures Settled(config, From(), boosters, rep) == Ok(result)
      ensures Common(config) ==>
        Runnable(Server, config) && Settled(config, Source(Server, seed), boosters, rep) == Ok(result)
      ensures result.loot == totalLoot && result.vaultReached == vaultIndex + 1
    {
      hide Outputs, Generator.Valid, Runnable, Faithful, Folded, EscapeScore, BustScore, BustMultiplier, Sim.Valid,
           Common;
      ClosedLog();
      LocalReplay(LogNow(), LiveNow(), 0, durationMs);
      var local := Run(config, From(), boosters, Submission(vaults, escaped, 0, durationMs));
      result := local.value;
      rep := Submission(vaults, escaped, result.score, durationMs);
      if Common(config) {
        ReplaysAlike(config, seed, boosters, rep);
      }
    }
  }

  lemma FirstVault(cfg: EventConfig)
    requires Runnable(Browser, cfg)
    ensures |cfg.vaults| >= 1
  {}

  // ---- rebuilding ----

  /** What rebuildRun restores goes with the log it came from; only the loot is recomputed. */
  lemma RebuiltIsFaithful(p: Log)
    requires Runnable(Browser, p.config) && Rebuilt(p).Some?
    ensures Faithful(p.(totalLoot := Rebuilt(p).value.totalLoot), Rebuilt(p).value)
  {
    hide CrackedRun, PlayedFrom, Runnable;
  }

  /** Applies chains until one is refused. */
  method Reapply(sim: Sim, moves: Moves, ghost vi: nat) returns (ok: bool)
    requires sim.Valid()
    modifies sim, sim.grid, sim.rng
    ensures sim.Valid() && ArenaOk(sim.Setting())
    ensures var r := Played(sim.Setting(), sim.rng.Stream(), vi, old(sim.Snap()), moves, |moves|);
      if ok then r == Ok(sim.Snap()) else r.Err?
  {
    hide Outputs, Generator.Valid, Applied, IsChain, PathVerdict, Drawable, Report;
    ghost var a, d, s := sim.Setting(), sim.rng.Stream(), sim.Snap();
    for mi := 0 to |moves|
      invariant sim.Valid()
      invariant Played(a, d, vi, s, moves, mi) == Ok(sim.Snap())
    {
      var r, _ := sim.Apply(moves[mi]);
      if r.Err? {
        PlayedFails(a, d, vi, s, moves, mi + 1);
        return false;
      }
    }
    return true;
  }

  /** One finished vault; `log` is the log cut to the configured vaults. */
  method ReplayVault(cfg: EventConfig, boosters: seq<Booster>, moves: Moves, vi: nat, rng: Generator, loot: int,
          ghost log: Log, ghost before: Progress)
    returns (ok: bool, loot': int)
    requires Runnable(rng.engine, cfg) && vi < |log.vaults| <= |cfg.vaults| && moves == log.vaults[vi] && rng.Valid()
    requires CrackedRun(cfg, rng.From(), boosters, log.vaults, vi) == Some(before) && before.drawn == rng.drawn
    requires before.loot == loot
    modifies rng
    ensures rng.Valid()
    ensures var run := CrackedRun(cfg, rng.From(), boosters, log.vaults, vi + 1);
      if ok then run.Some? && run.value.drawn == rng.drawn && run.value.loot == loot' else run.None?
  {
    hide Outputs, Generator.Valid, Played, Runnable, Opened, Drawable, HasBooster;
    RunnableVault(rng.From(), cfg, vi);
    RunnableSizes(rng.engine, cfg);
    var sim := new Sim(rng, cfg, vi, boosters);
    ok := Reapply(sim, moves, vi);
    loot' := loot + sim.loot;
    if sim.state != Cracked {
      ok := false;
    }
  }

  /** The vault in play. */
  method ReplayCurrent(p: Log, rng: Generator, totalLoot: int, ghost run: Progress) returns (r: Option<ActiveRun>)
    requires Runnable(Browser, p.config) && |p.vaults| < |p.config.vaults| && rng.Valid() && rng.From() == p.From()
    requires CrackedRun(p.config, p.From(), p.boosters, p.vaults, |p.vaults|) == Some(run) && run.drawn == rng.drawn
    requires run.loot == totalLoot
    modifies rng
    ensures rng.Valid()
    ensures r.None? <==> Rebuilt(p).None?
    ensures r.Some? ==>
      && fresh(r.value) && fresh(r.value.sim) && fresh(r.value.sim.grid) && r.value.rng == rng
      && r.value.Attached() && r.value.LiveNow() == Rebuilt(p).value
      && r.value.saved == p && r.value.LogNow() == p.(totalLoot := Rebuilt(p).value.totalLoot)
  {
    hide Outputs, Generator.Valid, Played, Runnable, Opened, Drawable, HasBooster, CrackedRun;
    var n := |p.vaults|;
    RunnableVault(rng.From(), p.config, n);
    RunnableSizes(Browser, p.config);
    var sim := new Sim(rng, p.config, n, p.boosters);
    var ok := Reapply(sim, p.currentMoves, n);
    if !ok || sim.state != Playing {
      return None;
    }
    var a := new ActiveRun.Restored(p, rng, sim, n, totalLoot);
    return Some(a);
  }

  /** rebuildRun: nothing if a chain is refused, a logged vault did not end cracked, or the
      vault in play is not in play; else the live run. Constructing a vault that is not
      configured fails too. */
  method RebuildRun(p: Log) returns (r: Option<ActiveRun>)
    requires Runnable(Browser, p.config)
    ensures r.None? <==> Rebuilt(p).None?
    ensures r.Some? ==>
      && fresh(r.value) && fresh(r.value.sim) && fresh(r.value.sim.grid) && fresh(r.value.rng)
      && r.value.Valid() && r.value.InVault()
      && r.value.LiveNow() == Rebuilt(p).value
      && r.value.saved == p && r.value.LogNow() == p.(totalLoot := Rebuilt(p).value.totalLoot)
  {
    hide Outputs, Generator.Valid, Runnable, Faithful, PlayedFrom, FoldVault, Sim.Valid, ArenaOf;
    var rng := new Generator(Browser, p.seed);
    var totalLoot := 0;
    ghost var run := Progress(0, 0, 0, 0, Playing);
    ghost var log := if |p.vaults| <= |p.config.vaults| then p else p.(vaults := p.vaults[..|p.config.vaults|]);
    for vi := 0 to |p.vaults|
      invariant rng.Valid() && rng.From() == p.From() && fresh(rng)
      invariant vi <= |log.vaults| && CrackedRun(p.config, p.From(), p.boosters, log.vaults, vi) == Some(run)
      invariant run.drawn == rng.drawn && run.loot == totalLoot
    {
      if vi >= |p.config.vaults| {
        return None;
      }
      var ok, loot := ReplayVault(p.config, p.boosters, p.vaults[vi], vi, rng, totalLoot, log, run);
      if !ok {
        CrackedFails(log, vi + 1);
        return None;
      }
      totalLoot := loot;
      run := CrackedRun(p.config, p.From(), p.boosters, log.vaults, vi + 1).value;
    }
    if |p.vaults| >= |p.config.vaults| {
      return None;
    }
    r := ReplayCurrent(p, rng, totalLoot, run);
    if r.Some? {
      RebuiltIsFaithful(p);
    }
  }

  lemma {:induction false} CrackedFails(p: Log, n: nat)
    requires Runnable(Browser, p.config) && n <= |p.vaults| <= |p.config.vaults|
    requires CrackedRun(p.config, p.From(), p.boosters, p.vaults, n).None?
    ensures CrackedRun(p.config, p.From(), p.boosters, p.vaults, |p.vaults|).None?
    decreases |p.vaults| - n
  {
    hide FoldVault, Runnable;
    if n < |p.vaults| { CrackedFails(p, n + 1); }
  }
}

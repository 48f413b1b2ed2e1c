/** The browser's run: it keeps only a log of chains and rebuilds the live state from it
    (main.ts). */
module Client {
  import opened Wrappers
  import opened Rng
  import opened Generators
  import opened Config
  import opened Board
  import opened Play
  import opened Replay

  /** What is stored in the browser. */
  datatype Log = Log(
    seed: bv32, config: EventConfig, boosters: seq<Booster>, vaults: seq<Moves>, currentMoves: Moves, totalLoot: int)
  {
    /** The stream that the browser draws from. */
    function From(): Source {
      Source(Browser, seed)
    }
  }

  /** What is not stored: the vault in play, the loot of the vaults before it, and the
      board with its place in the random stream. */
  datatype Live = Live(vaultIndex: nat, totalLoot: int, snap: Snapshot)

  // ---- what a log stands for ----

  /** The first `n` vaults of a log, if every one of them ends cracked. */
  ghost function CrackedRun(cfg: EventConfig, src: Source, boosters: seq<Booster>, vaults: seq<Moves>,
          n: nat): Option<Progress>
    requires Runnable(src.engine, cfg) && n <= |vaults| <= |cfg.vaults|
    decreases n
  {
    if n == 0 then Some(Progress(0, 0, 0, 0, Playing))
    else
      var before := CrackedRun(cfg, src, boosters, vaults, n - 1);
      if before.None? then None
      else
        var r := FoldVault(cfg, src, boosters, vaults, n - 1, before.value);
        if r.Ok? && r.value.last == Cracked then Some(r.value) else None
  }

  /** Vault `vi` after some chains, from position `p`. */
  ghost function PlayedFrom(cfg: EventConfig, src: Source, boosters: seq<Booster>, vi: nat, p: nat,
          moves: Moves): (r: Result<Snapshot, ReplayError>)
    requires Runnable(src.engine, cfg) && vi < |cfg.vaults|
    ensures r.Ok? ==> IsGrid(r.value.grid, cfg.w, cfg.h)
  {
    RunnableVault(src, cfg, vi);
    Played(ArenaOf(src.engine, cfg, vi), Outputs(src.seed), vi, Start(cfg, src, boosters, vi, p), moves, |moves|)
  }

  /** What rebuildRun makes of a log, if anything. */
  ghost function Rebuilt(log: Log): Option<Live>
    requires Runnable(Browser, log.config)
  {
    var n := |log.vaults|;
    if n >= |log.config.vaults| then None
    else
      var run := CrackedRun(log.config, log.From(), log.boosters, log.vaults, n);
      if run.None? then None
      else
        var end := PlayedFrom(log.config, log.From(), log.boosters, n, run.value.drawn, log.currentMoves);
        if end.Ok? && end.value.state == Playing then Some(Live(n, run.value.loot, end.value)) else None
  }

  /** The log and the live state belong together. A vault that has been settled is one of
      the logged vaults; until then its chains are the current ones. */
  ghost predicate Faithful(log: Log, live: Live) {
    && Runnable(Browser, log.config)
    && live.vaultIndex < |log.config.vaults| && live.vaultIndex <= |log.vaults| <= live.vaultIndex + 1
    && log.totalLoot == live.totalLoot
    && var run := CrackedRun(log.config, log.From(), log.boosters, log.vaults, live.vaultIndex);
    && run.Some?
    && if |log.vaults| == live.vaultIndex then
         && run.value.loot == live.totalLoot
         && PlayedFrom(log.config, log.From(), log.boosters, live.vaultIndex, run.value.drawn, log.currentMoves)
           == Ok(live.snap)
       else
         && log.currentMoves == [] && live.snap.state != Playing
         && run.value.loot + live.snap.loot == live.totalLoot
         && PlayedFrom(log.config, log.From(), log.boosters, live.vaultIndex, run.value.drawn,
                       log.vaults[live.vaultIndex]) == Ok(live.snap)
  }

  /** The state after going one vault deeper. */
  ghost function Deeper(log: Log, live: Live): Live
    requires Runnable(Browser, log.config) && live.vaultIndex + 1 < |log.config.vaults|
  {
    Live(live.vaultIndex + 1, live.totalLoot,
         Start(log.config, log.From(), log.boosters, live.vaultIndex + 1, live.snap.drawn))
  }

  // ---- the log represents the run ----

  /** Before a vault is settled: the rebuilt state is the live one, board, objectives,
      moves, loot and place in the random stream alike, as long as the vault is in play. Between the
      deciding chain and its settlement there is nothing to resume. */
  lemma ResumeInVault(log: Log, live: Live)
    requires Faithful(log, live) && |log.vaults| == live.vaultIndex
    ensures Rebuilt(log) == if live.snap.state == Playing then Some(live) else None
  {
    hide CrackedRun, PlayedFrom, Runnable;
  }

  /** After a vault is settled: a cracked vault that is not the last one resumes in the
      next vault, as if the player had gone deeper; otherwise there is nothing to resume. */
  lemma ResumeAfterVault(log: Log, live: Live)
    requires Faithful(log, live) && |log.vaults| == live.vaultIndex + 1
    ensures live.vaultIndex + 1 < |log.config.vaults| && live.snap.state == Cracked ==>
      Rebuilt(log) == Some(Deeper(log, live))
    ensures !(live.vaultIndex + 1 < |log.config.vaults| && live.snap.state == Cracked) ==> Rebuilt(log) == None
  {
    hide FoldVault, PlayedFrom, Runnable, Start;
    if live.vaultIndex + 1 < |log.config.vaults| {
      SettledVault(log, live);
      EmptyVault(log.config, log.From(), log.boosters, live.vaultIndex + 1, live.snap.drawn);
    }
  }

  lemma EmptyVault(cfg: EventConfig, src: Source, boosters: seq<Booster>, vi: nat, p: nat)
    requires Runnable(src.engine, cfg) && vi < |cfg.vaults|
    ensures PlayedFrom(cfg, src, boosters, vi, p, []) == Ok(Start(cfg, src, boosters, vi, p))
    ensures Start(cfg, src, boosters, vi, p).state == Playing
  {
    hide CanGenerate, Locked, Outputs, Rounds, AfterRounds, HasMove, Runnable;
  }

  /** The fold of a settled vault. */
  lemma SettledVault(log: Log, live: Live)
    requires Faithful(log, live) && |log.vaults| == live.vaultIndex + 1
    ensures var vi := live.vaultIndex;
      var run := CrackedRun(log.config, log.From(), log.boosters, log.vaults, vi).value;
      FoldVault(log.config, log.From(), log.boosters, log.vaults, vi, run)
      == Ok(Progress(live.snap.drawn, live.totalLoot, run.cracked + (if live.snap.state == Cracked then 1 else 0),
                     run.moves + |log.vaults[vi]|, live.snap.state))
  {
    hide Played, CrackedRun, Runnable, Opened, Outputs;
  }

  lemma {:induction false} CrackedIsFolded(cfg: EventConfig, src: Source, boosters: seq<Booster>, vaults: seq<Moves>,
          n: nat)
    requires Runnable(src.engine, cfg) && n <= |vaults| <= |cfg.vaults|
    requires CrackedRun(cfg, src, boosters, vaults, n).Some?
    ensures Folded(cfg, src, boosters, vaults, n) == Ok(CrackedRun(cfg, src, boosters, vaults, n).value)
    ensures CrackedRun(cfg, src, boosters, vaults, n).value.cracked == n
    decreases n
  {
    hide Runnable, Played, Opened, Outputs;
    if n > 0 { CrackedIsFolded(cfg, src, boosters, vaults, n - 1); }
  }

  /** Whatever the client submits once a vault is settled (an escape after a crack, a bust
      otherwise) passes its own replay, with the live run's loot and the score it showed. */
  lemma LocalReplay(log: Log, live: Live, clientScore: int, durationMs: int)
    requires Faithful(log, live) && |log.vaults| == live.vaultIndex + 1
    ensures |log.config.vaultMultipliers| == |log.config.vaults|
    ensures var n := |log.vaults|; var escaped := live.snap.state == Cracked;
      var r := Settled(log.config, log.From(), log.boosters, Submission(log.vaults, escaped, clientScore, durationMs));
      && r.Ok? && r.value.loot == live.totalLoot && r.value.vaultReached == n
      && (if escaped then
            && r.value.outcome == Escaped && r.value.vaultsCracked == n
            && r.value.score == EscapeScore(log.config, live.totalLoot, n)
          else
            r.value.outcome == BustedOut && r.value.vaultsCracked == n - 1
            && r.value.score == BustScore(log.config, live.totalLoot, n, log.boosters))
  {
    hide FoldVault, PlayedFrom, Runnable, EscapeScore, BustScore, BustMultiplier;
    RunnableSizes(Browser, log.config);
    CrackedIsFolded(log.config, log.From(), log.boosters, log.vaults, live.vaultIndex);
    SettledVault(log, live);
  }

  // ---- the handlers keep the log faithful ----

  lemma {:induction false} CrackedPrefix(cfg: EventConfig, src: Source, boosters: seq<Booster>, vaults: seq<Moves>,
          moves: Moves, n: nat)
    requires Runnable(src.engine, cfg) && n <= |vaults| < |cfg.vaults|
    ensures CrackedRun(cfg, src, boosters, vaults + [moves], n) == CrackedRun(cfg, src, boosters, vaults, n)
    decreases n
  {
    hide Runnable, Played, Opened, Outputs;
    if n > 0 { CrackedPrefix(cfg, src, boosters, vaults, moves, n - 1); }
  }

  lemma {:induction false} PlayedPrefix(a: Arena, d: Draws, vi: nat, s: Snapshot, moves: Moves, path: seq<int>, k: nat)
    requires ArenaOk(a) && IsGrid(s.grid, a.w, a.h) && k <= |moves|
    ensures Played(a, d, vi, s, moves + [path], k) == Played(a, d, vi, s, moves, k)
    decreases k
  {
    hide Applied, IsChain, ArenaOk;
    if k > 0 { PlayedPrefix(a, d, vi, s, moves, path, k - 1); }
  }

  /** A legal chain, played and logged. */
  lemma LogChain(log: Log, live: Live, path: seq<int>, after: Snapshot)
    requires Faithful(log, live) && |log.vaults| == live.vaultIndex && live.snap.state == Playing
    requires CanGenerate(ArenaOf(Browser, log.config, live.vaultIndex), Outputs(log.seed))
    requires IsGrid(live.snap.grid, log.config.w, log.config.h)
    requires IsChain(live.snap.grid, log.config.w, path)
    requires after == Applied(ArenaOf(Browser, log.config, live.vaultIndex), Outputs(log.seed), live.snap, path)
    ensures Faithful(log.(currentMoves := log.currentMoves + [path]), live.(snap := after))
  {
    hide CrackedRun, Runnable, Applied, IsChain, Outputs, Opened;
    var cfg, vi := log.config, live.vaultIndex;
    var run := CrackedRun(cfg, log.From(), log.boosters, log.vaults, vi).value;
    var s := Start(cfg, log.From(), log.boosters, vi, run.drawn);
    PlayedPrefix(ArenaOf(Browser, cfg, vi), Outputs(log.seed), vi, s, log.currentMoves, path, |log.currentMoves|);
  }

  /** Settling a decided vault. */
  lemma LogVault(log: Log, live: Live)
    requires Faithful(log, live) && |log.vaults| == live.vaultIndex && live.snap.state != Playing
    ensures var loot := log.totalLoot + live.snap.loot;
      Faithful(log.(vaults := log.vaults + [log.currentMoves], currentMoves := [], totalLoot := loot),
               live.(totalLoot := loot))
  {
    hide CrackedRun, Runnable, PlayedFrom;
    CrackedPrefix(log.config, log.From(), log.boosters, log.vaults, log.currentMoves, live.vaultIndex);
  }

  /** Going deeper changes no log. */
  lemma LogDeeper(log: Log, live: Live)
    requires Faithful(log, live) && |log.vaults| == live.vaultIndex + 1
    requires live.snap.state == Cracked && live.vaultIndex + 1 < |log.config.vaults|
    ensures Faithful(log, Deeper(log, live))
  {
    hide FoldVault, PlayedFrom, Runnable, Start;
    SettledVault(log, live);
    EmptyVault(log.config, log.From(), log.boosters, live.vaultIndex + 1, live.snap.drawn);
  }
}

/** The bot plays a whole run and submits it (bot.go PlayRun). */
module BotRun {
  import opened Wrappers
  import opened Rng
  import opened Generators
  import opened Config
  import opened Board
  import opened Tiles
  import opened Play
  import opened MoveLaws
  import opened Simulation
  import opened Replay
  import opened ReplayLaws
  import opened Bot

  const MS_PER_MOVE := 1400

  datatype Player = Player(maxChain: int, greedy: bool)

  /** The move the bot makes: the best chain of the first preference that has one. */
  ghost predicate Chooses(bot: Player, w: int, s: Snapshot, mv: seq<int>)
    requires w > 0
  {
    FirstBest(s.grid, w, Cap(bot.maxChain), Preferences(bot.greedy, s.movesLeft, s.objectives), mv)
  }

  /** A vault in play in which the bot finds no move: there is none (a reshuffle has given
      up), or the bot's own length limit is too low. */
  ghost predicate IsStuck(bot: Player, s: Snapshot, w: int)
    requires w > 0
  {
    s.state == Playing && (Cap(bot.maxChain) < 3 || !HasMove(s.grid, w))
  }

  ghost predicate Over(bot: Player, s: Snapshot, w: int)
    requires w > 0
  {
    s.state != Playing || IsStuck(bot, s, w)
  }

  /** `t` shows a vault in which every chain is the one the bot chooses. */
  ghost predicate BotVault(bot: Player, a: Arena, d: Draws, start: Snapshot, moves: Moves, t: seq<Snapshot>)
    requires ArenaOk(a)
  {
    PlaysVault(a, d, start, moves, t) && forall k :: 0 <= k < |moves| ==> Chooses(bot, a.w, t[k], moves[k])
  }

  lemma PreferencesEnd(greedy: bool, movesLeft: int, o: Objectives)
    ensures var p := Preferences(greedy, movesLeft, o); |p| > 0 && p[|p| - 1] == None
  {}

  /** The choice is a legal chain, and there is none exactly when the bot is stuck. */
  lemma ChoiceOf(bot: Player, s: Snapshot, w: int, mv: seq<int>)
    requires w > 0 && s.state == Playing && Chooses(bot, w, s, mv)
    ensures mv != [] ==> IsChain(s.grid, w, mv)
    ensures mv == [] <==> IsStuck(bot, s, w)
  {
    hide FirstBest, Preferences, IsChain, HasMove;
    PreferencesEnd(bot.greedy, s.movesLeft, s.objectives);
    ChoiceIsLegal(s.grid, w, Cap(bot.maxChain), Preferences(bot.greedy, s.movesLeft, s.objectives), mv);
  }

  lemma BotVaultMore(bot: Player, a: Arena, d: Draws, start: Snapshot, moves: Moves, t: seq<Snapshot>, mv: seq<int>,
          s: Snapshot)
    requires ArenaOk(a) && BotVault(bot, a, d, start, moves, t) && IsGrid(s.grid, a.w, a.h)
    requires IsGrid(Last(t).grid, a.w, a.h)
    requires PlaysMove(a, d, Last(t), mv, s) && Chooses(bot, a.w, Last(t), mv)
    ensures BotVault(bot, a, d, start, moves + [mv], t + [s])
  {
    hide PlaysMove, Chooses, IsGrid, Drawable;
    var ms, t' := moves + [mv], t + [s];
    forall k | 0 <= k < |ms| ensures PlaysMove(a, d, t'[k], ms[k], t'[k + 1]) && Chooses(bot, a.w, t'[k], ms[k]) {
      if k < |moves| {
        assert PlaysMove(a, d, t[k], moves[k], t[k + 1]) && Chooses(bot, a.w, t[k], moves[k]);
      }
    }
  }

  method PickMove(bot: Player, sim: Sim) returns (mv: seq<int>)
    requires sim.Valid() && sim.state == Playing
    ensures sim.w > 0 && Chooses(bot, sim.w, sim.Snap(), mv)
    ensures mv != [] ==> IsChain(sim.grid[..], sim.w, mv)
    ensures mv == [] <==> IsStuck(bot, sim.Snap(), sim.w)
  {
    hide Outputs, Generator.Valid, IsChain, HasMove, FirstBest, Preferences, Drawable;
    mv := Choose(bot.greedy, bot.maxChain, sim.grid, sim.w, sim.h, sim.movesLeft, sim.objectives);
    ChoiceOf(bot, sim.Snap(), sim.w, mv);
  }

  /** The chosen chain is legal, so the simulator does not refuse it. */
  method PlayMove(sim: Sim, mv: seq<int>)
    requires sim.Valid() && sim.state == Playing && sim.w > 0 && IsChain(sim.grid[..], sim.w, mv)
    modifies sim, sim.grid, sim.rng
    ensures sim.Valid() && ArenaOk(sim.Setting()) && IsGrid(old(sim.grid[..]), sim.w, sim.h)
    ensures PlaysMove(sim.Setting(), sim.rng.Stream(), old(sim.Snap()), mv, sim.Snap())
  {
    hide Outputs, Generator.Valid, Applied, IsChain, PathVerdict, Drawable, Report, Sim.Reported;
    var r, _ := sim.Apply(mv);
  }

  /** Chain after chain until the vault is decided, the bot is stuck, or the granted moves
      are used up (`out`). */
  method PlayVault(bot: Player, sim: Sim, granted: nat)
    returns (moves: Moves, left: nat, out: bool, ghost t: seq<Snapshot>)
    requires sim.Valid() && sim.state == Playing
    modifies sim, sim.grid, sim.rng
    ensures sim.Valid() && ArenaOk(sim.Setting())
    ensures |t| > 0 && BotVault(bot, sim.Setting(), sim.rng.Stream(), old(sim.Snap()), moves, t)
    ensures Last(t) == sim.Snap()
    ensures left + |moves| == granted && (out ==> left == 0)
    ensures out <==> !Over(bot, sim.Snap(), sim.w)
  {
    hide Outputs, Generator.Valid, Applied, IsChain, HasMove, Chooses, Drawable, PlaysMove, PlaysVault, IsStuck;
    ghost var a, d, s := sim.Setting(), sim.rng.Stream(), sim.Snap();
    moves, left, out, t := [], granted, false, [sim.Snap()];
    NoMoves(bot, a, d, s);
    while sim.state == Playing
      invariant sim.Valid() && ArenaOk(a)
      invariant |t| > 0 && BotVault(bot, a, d, s, moves, t) && Last(t) == sim.Snap()
      invariant left + |moves| == granted && !out
      decreases left
    {
      var mv := PickMove(bot, sim);
      if mv == [] {
        return;
      }
      if left == 0 {
        out := true;
        return;
      }
      PlayMove(sim, mv);
      BotVaultMore(bot, a, d, s, moves, t, mv, sim.Snap());
      moves, left, t := moves + [mv], left - 1, t + [sim.Snap()];
    }
  }

  lemma NoMoves(bot: Player, a: Arena, d: Draws, s: Snapshot)
    requires ArenaOk(a) && IsGrid(s.grid, a.w, a.h)
    ensures BotVault(bot, a, d, s, [], [s])
  {}

  // ---- the bot's runs ----

  ghost predicate BotVaultOf(bot: Player, cfg: EventConfig, src: Source, boosters: seq<Booster>, moves: Moves, v: nat,
          p: nat, t: seq<Snapshot>)
    requires Runnable(src.engine, cfg) && v < |cfg.vaults|
  {
    RunnableVault(src, cfg, v);
    BotVault(bot, ArenaOf(src.engine, cfg, v), Outputs(src.seed), Start(cfg, src, boosters, v, p), moves, t)
  }

  function Limit(cfg: EventConfig, maxVault: int): nat {
    if maxVault <= 0 || maxVault > |cfg.vaults| then |cfg.vaults| else maxVault
  }

  /** `ts` shows the vaults the bot has played, one after another on one stream. It goes on
      after a vault that it cracked or gave up. */
  ghost predicate BotVaults(bot: Player, cfg: EventConfig, src: Source, boosters: seq<Booster>, vaults: seq<Moves>,
          ts: seq<seq<Snapshot>>)
    requires Runnable(src.engine, cfg) && cfg.w > 0
  {
    && |ts| == |vaults| <= |cfg.vaults|
    && (forall v :: 0 <= v < |ts| ==> |ts[v]| > 0)
    && (forall v :: 0 <= v < |ts| ==> BotVaultOf(bot, cfg, src, boosters, vaults[v], v, Begins(ts, v), ts[v]))
    && (forall v :: 0 <= v < |ts| - 1 ==> GoesOn(bot, Last(ts[v]), cfg.w))
  }

  ghost predicate GoesOn(bot: Player, s: Snapshot, w: int)
    requires w > 0
  {
    Over(bot, s, w) && s.state != Busted
  }

  /** How a run of the bot ends. Nothing bounds the number of moves of a vault, since guard
      chains give their move back; `OutOfMoves` is the end of the moves that were granted. */
  datatype End =
    | Submitted(rep: Submission, result: RunResult)
    | Rejected(rep: Submission, error: ReplayError)
    | OutOfMoves(played: seq<Moves>)
  {
    function Vaults(): seq<Moves> {
      if OutOfMoves? then played else rep.vaults
    }
  }

  /** The first vault that was given up, if there is one. */
  ghost predicate FirstGivenUp(ts: seq<seq<Snapshot>>, v: nat)
    requires forall i :: 0 <= i < |ts| ==> |ts[i]| > 0
  {
    v < |ts| && Last(ts[v]).state == Playing && forall u :: 0 <= u < v ==> Last(ts[u]).state != Playing
  }

  // ---- acceptance ----

  /** A run of decided vaults is a legal run. */
  lemma DecidedIsLegal(bot: Player, cfg: EventConfig, src: Source, boosters: seq<Booster>, rep: Submission,
          ts: seq<seq<Snapshot>>)
    requires Runnable(src.engine, cfg) && cfg.w > 0 && rep.vaults != []
    requires BotVaults(bot, cfg, src, boosters, rep.vaults, ts)
    requires forall v :: 0 <= v < |ts| ==> Last(ts[v]).state != Playing
    requires rep.escaped == (Last(ts[|ts| - 1]).state == Cracked)
    ensures Settled(cfg, src, boosters, rep).Ok?
  {
    hide Runnable, Start, PlaysVault, Settled, Chooses;
    forall v | 0 <= v < |ts|
      ensures PlaysVaultOf(cfg, src, boosters, rep.vaults[v], v, Begins(ts, v), ts[v])
    {
      assert BotVaultOf(bot, cfg, src, boosters, rep.vaults[v], v, Begins(ts, v), ts[v]);
    }
    forall v | 0 <= v < |ts| - 1 ensures Last(ts[v]).state == Cracked {
      assert GoesOn(bot, Last(ts[v]), cfg.w);
    }
    assert PlaysRun(cfg, src, boosters, rep.vaults, ts);
    AcceptedResult(cfg, src, boosters, rep, ts);
  }

  lemma {:induction false} CrackedFold(bot: Player, cfg: EventConfig, src: Source, boosters: seq<Booster>,
          vaults: seq<Moves>, ts: seq<seq<Snapshot>>, v: nat, n: nat)
    requires Runnable(src.engine, cfg) && cfg.w > 0 && BotVaults(bot, cfg, src, boosters, vaults, ts)
    requires FirstGivenUp(ts, v) && n <= v
    ensures Folded(cfg, src, boosters, vaults, n) == Ok(ProgressOf(vaults, ts, n))
    decreases n
  {
    hide Runnable, FoldVault, BotVaultOf, PlaysVaultOf, HasBooster;
    if n > 0 {
      CrackedFold(bot, cfg, src, boosters, vaults, ts, v, n - 1);
      CrackedVault(bot, cfg, src, boosters, vaults, ts, n - 1);
    }
  }

  lemma CrackedVault(bot: Player, cfg: EventConfig, src: Source, boosters: seq<Booster>, vaults: seq<Moves>,
          ts: seq<seq<Snapshot>>, v: nat)
    requires Runnable(src.engine, cfg) && cfg.w > 0 && BotVaults(bot, cfg, src, boosters, vaults, ts)
    requires v < |ts| - 1 && Last(ts[v]).state != Playing && (v > 0 ==> Last(ts[v - 1]).state != Playing)
    ensures FoldVault(cfg, src, boosters, vaults, v, ProgressOf(vaults, ts, v)) == Ok(ProgressOf(vaults, ts, v + 1))
  {
    hide Runnable, FoldVault, BotVaultOf, PlaysVaultOf, IsStuck, HasBooster;
    assert GoesOn(bot, Last(ts[v]), cfg.w) && Last(ts[v]).state == Cracked;
    assert v > 0 ==> GoesOn(bot, Last(ts[v - 1]), cfg.w) && Last(ts[v - 1]).state == Cracked;
    BotPlays(bot, cfg, src, boosters, vaults[v], v, Begins(ts, v), ts[v]);
    FoldVaultIs(cfg, src, boosters, vaults, v, ProgressOf(vaults, ts, v), ts[v]);
  }

  lemma BotPlays(bot: Player, cfg: EventConfig, src: Source, boosters: seq<Booster>, moves: Moves, v: nat, p: nat,
          t: seq<Snapshot>)
    requires Runnable(src.engine, cfg) && v < |cfg.vaults| && BotVaultOf(bot, cfg, src, boosters, moves, v, p, t)
    ensures PlaysVaultOf(cfg, src, boosters, moves, v, p, t)
  {
    hide Runnable, Start, PlaysVault, Chooses;
  }

  /** A run with a vault that was given up is rejected at that vault. */
  lemma GivenUpIsRejected(bot: Player, cfg: EventConfig, src: Source, boosters: seq<Booster>, rep: Submission,
          ts: seq<seq<Snapshot>>, v: nat)
    requires Runnable(src.engine, cfg) && cfg.w > 0 && BotVaults(bot, cfg, src, boosters, rep.vaults, ts)
    requires FirstGivenUp(ts, v)
    ensures Settled(cfg, src, boosters, rep) == Err(Unfinished(v))
  {
    hide Runnable, FoldVault, BotVaultOf, Scored, FirstGivenUp, PlaysVaultOf;
    CrackedFold(bot, cfg, src, boosters, rep.vaults, ts, v, v);
    assert v < |ts| && Last(ts[v]).state == Playing by { GivenUpAt(ts, v); }
    BotPlays(bot, cfg, src, boosters, rep.vaults[v], v, Begins(ts, v), ts[v]);
    UnfinishedVault(cfg, src, boosters, rep.vaults, v, ProgressOf(rep.vaults, ts, v), ts[v]);
    RunnableSizes(src.engine, cfg);
    FoldedFails(cfg, src, boosters, rep.vaults, v + 1);
  }

  lemma GivenUpAt(ts: seq<seq<Snapshot>>, v: nat)
    requires (forall i :: 0 <= i < |ts| ==> |ts[i]| > 0) && FirstGivenUp(ts, v)
    ensures v < |ts| && Last(ts[v]).state == Playing
  {}

  lemma UnfinishedVault(cfg: EventConfig, src: Source, boosters: seq<Booster>, vaults: seq<Moves>, v: nat,
          before: Progress, t: seq<Snapshot>)
    requires Runnable(src.engine, cfg) && v < |vaults| <= |cfg.vaults| && |t| > 0
    requires PlaysVaultOf(cfg, src, boosters, vaults[v], v, before.drawn, t) && Last(t).state == Playing
    ensures FoldVault(cfg, src, boosters, vaults, v, before) == Err(Unfinished(v))
  {
    hide Runnable, PlaysVault, Played, Opened, Outputs;
    RunnableVault(src, cfg, v);
    PlaysVaultLength(cfg, src, boosters, vaults[v], v, before.drawn, t);
    TraceIsPlayed(ArenaOf(src.engine, cfg, v), Outputs(src.seed), v, Start(cfg, src, boosters, v, before.drawn),
                  vaults[v], t, |vaults[v]|);
  }

  // ---- when the bot is stuck ----

  /** A bot whose limit is below three plays no chain at all. */
  lemma ShortLimitPlaysNothing(bot: Player, cfg: EventConfig, src: Source, boosters: seq<Booster>, moves: Moves,
          v: nat, p: nat, t: seq<Snapshot>)
    requires Runnable(src.engine, cfg) && v < |cfg.vaults| && Cap(bot.maxChain) < 3
    requires BotVaultOf(bot, cfg, src, boosters, moves, v, p, t)
    ensures moves == [] && |t| > 0 && cfg.w > 0 && IsStuck(bot, Last(t), cfg.w)
  {
    hide Runnable, Start, Chooses, Outputs, IsChain, HasMove;
    RunnableVault(src, cfg, v);
    RunnableSizes(src.engine, cfg);
    var a := ArenaOf(src.engine, cfg, v);
    StartObjectives(cfg, src, boosters, v, p);
    if moves != [] {
      assert PlaysMove(a, Outputs(src.seed), t[0], moves[0], t[1]);
      ChoiceOf(bot, t[0], a.w, moves[0]);
      assert false by { ChainIsNotEmpty(t[0].grid, a.w, moves[0]); }
    }
  }

  lemma ChainIsNotEmpty(g: seq<int>, w: int, path: seq<int>)
    requires w > 0 && IsChain(g, w, path)
    ensures path != []
  {}

  /** With a limit of three or more the bot is stuck in a vault only where the board was
      redrawn a hundred times in vain: when it was set up, or after its last chain. */
  lemma StuckMeansExhausted(bot: Player, cfg: EventConfig, src: Source, boosters: seq<Booster>, moves: Moves, v: nat,
          p: nat, t: seq<Snapshot>)
    requires Runnable(src.engine, cfg) && v < |cfg.vaults| && cfg.w > 0 && Cap(bot.maxChain) >= 3
    requires BotVaultOf(bot, cfg, src, boosters, moves, v, p, t) && |t| > 0 && IsStuck(bot, Last(t), cfg.w)
    ensures |t| == |moves| + 1
    ensures if moves == [] then t[0].reshuffles == MAX_ROUNDS
      else Last(t).reshuffles == t[|t| - 2].reshuffles + MAX_ROUNDS
    ensures !HasMove(Last(t).grid, cfg.w)
  {
    hide Runnable, Chooses, Outputs, IsChain, HasMove, CanGenerate, Opened, Applied;
    RunnableVault(src, cfg, v);
    var a, d := ArenaOf(src.engine, cfg, v), Outputs(src.seed);
    ArenaIsOk(a, d);
    if moves == [] {
      OpenedLaws(a, d, p, DifficultyPct(cfg), HasBooster(boosters, ExtraMoves));
    } else {
      assert PlaysMove(a, d, t[|t| - 2], moves[|moves| - 1], t[|t| - 1]);
      MoveLeavesAMove(a, d, t[|t| - 2], moves[|moves| - 1]);
    }
  }

  /** The bot has no freedom: two of its runs of a vault agree as far as both go. */
  lemma {:induction false} BotVaultIsUnique(bot: Player, a: Arena, d: Draws, start: Snapshot, moves: Moves,
          t: seq<Snapshot>, moves': Moves, t': seq<Snapshot>, n: nat)
    requires ArenaOk(a) && BotVault(bot, a, d, start, moves, t) && BotVault(bot, a, d, start, moves', t')
    requires n <= |moves| && n <= |moves'|
    ensures moves[..n] == moves'[..n] && t[..n + 1] == t'[..n + 1]
    decreases n
  {
    hide Applied, FirstBest, IsChain, Drawable, Preferences;
    if n > 0 {
      BotVaultIsUnique(bot, a, d, start, moves, t, moves', t', n - 1);
      assert t[n - 1] == t[..n][n - 1] == t'[..n][n - 1] == t'[n - 1];
      assert PlaysMove(a, d, t[n - 1], moves[n - 1], t[n]) && PlaysMove(a, d, t'[n - 1], moves'[n - 1], t'[n]);
      FirstBestIsUnique(t[n - 1].grid, a.w, Cap(bot.maxChain),
                        Preferences(bot.greedy, t[n - 1].movesLeft, t[n - 1].objectives), moves[n - 1], moves'[n - 1]);
      assert moves[..n] == moves[..n - 1] + [moves[n - 1]] && moves'[..n] == moves'[..n - 1] + [moves'[n - 1]];
      assert t[..n + 1] == t[..n] + [t[n]] && t'[..n + 1] == t'[..n] + [t'[n]];
    }
  }

  lemma {:induction false} FirstBestIsUnique(g: seq<int>, w: int, maxLen: nat, prefs: seq<Kinds>, r: seq<int>,
          r': seq<int>)
    requires w > 0 && FirstBest(g, w, maxLen, prefs, r) && FirstBest(g, w, maxLen, prefs, r')
    ensures r == r'
    decreases |prefs|
  {
    hide IsBest;
    if prefs != [] {
      if IsBest(g, w, prefs[0], maxLen, []) {
        FirstBestIsUnique(g, w, maxLen, prefs[1..], r, r');
      } else {
        BestIsUnique(g, w, prefs[0], maxLen, r, r');
      }
    }
  }

  // ---- playing ----

  lemma BotVaultsMore(bot: Player, cfg: EventConfig, src: Source, boosters: seq<Booster>, vaults: seq<Moves>,
          ts: seq<seq<Snapshot>>, moves: Moves, t: seq<Snapshot>)
    requires Runnable(src.engine, cfg) && cfg.w > 0 && BotVaults(bot, cfg, src, boosters, vaults, ts)
    requires |vaults| < |cfg.vaults|
    requires |t| > 0 && BotVaultOf(bot, cfg, src, boosters, moves, |vaults|, Begins(ts, |ts|), t)
    requires |ts| > 0 ==> GoesOn(bot, Last(ts[|ts| - 1]), cfg.w)
    ensures BotVaults(bot, cfg, src, boosters, vaults + [moves], ts + [t])
  {
    hide Runnable, BotVaultOf, GoesOn, Begins, Last;
    var vs, ts' := vaults + [moves], ts + [t];
    forall v | 0 <= v < |ts'| ensures BotVaultOf(bot, cfg, src, boosters, vs[v], v, Begins(ts', v), ts'[v]) {
      BeginsAlike(ts, t, v);
    }
    forall v | 0 <= v < |ts'| - 1 ensures GoesOn(bot, Last(ts'[v]), cfg.w) {
      assert ts'[v] == ts[v];
    }
  }

  lemma BeginsAlike(ts: seq<seq<Snapshot>>, t: seq<Snapshot>, v: nat)
    requires |t| > 0 && v <= |ts| && forall i :: 0 <= i < |ts| ==> |ts[i]| > 0
    ensures Begins(ts + [t], v) == Begins(ts, v)
  {}

  /** One vault of the run. */
  method NextVault(bot: Player, cfg: EventConfig, boosters: seq<Booster>, rng: Generator, vaults: seq<Moves>,
          granted: nat, ghost ts: seq<seq<Snapshot>>)
    returns (moves: Moves, left: nat, out: bool, state: VaultState, ghost t: seq<Snapshot>)
    requires Runnable(rng.engine, cfg) && cfg.w > 0 && rng.Valid() && |vaults| < |cfg.vaults|
    requires BotVaults(bot, cfg, rng.From(), boosters, vaults, ts) && rng.drawn == Begins(ts, |ts|)
    requires |ts| > 0 ==> GoesOn(bot, Last(ts[|ts| - 1]), cfg.w)
    modifies rng
    ensures rng.Valid() && left + |moves| == granted && (out ==> left == 0)
    ensures |t| > 0 && BotVaults(bot, cfg, rng.From(), boosters, vaults + [moves], ts + [t])
    ensures state == Last(t).state && rng.drawn == Last(t).drawn
    ensures out <==> !Over(bot, Last(t), cfg.w)
  {
    hide Outputs, Generator.Valid, Runnable, Locked, Opened, Drawable, HasMove, CanGenerate, BotVault, BotVaults,
         IsStuck, GoesOn;
    var vi := |vaults|;
    assert |ts| == vi by { PlayedVaults(bot, cfg, rng.From(), boosters, vaults, ts); }
    RunnableSizes(rng.engine, cfg);
    RunnableVault(rng.From(), cfg, vi);
    StartObjectives(cfg, rng.From(), boosters, vi, rng.drawn);
    var sim := new Sim(rng, cfg, vi, boosters);
    moves, left, out, t := PlayVault(bot, sim, granted);
    state := sim.state;
    BotVaultsMore(bot, cfg, rng.From(), boosters, vaults, ts, moves, t);
  }

  lemma PlayedVaults(bot: Player, cfg: EventConfig, src: Source, boosters: seq<Booster>, vaults: seq<Moves>,
          ts: seq<seq<Snapshot>>)
    requires Runnable(src.engine, cfg) && cfg.w > 0 && BotVaults(bot, cfg, src, boosters, vaults, ts)
    ensures |ts| == |vaults|
  {}

  lemma NoVaults(bot: Player, cfg: EventConfig, src: Source, boosters: seq<Booster>)
    requires Runnable(src.engine, cfg) && cfg.w > 0
    ensures BotVaults(bot, cfg, src, boosters, [], []) && Begins([], 0) == 0 && MovesOf([], 0) == 0
  {}

  ghost predicate Complete(bot: Player, cfg: EventConfig, limit: nat, ts: seq<seq<Snapshot>>)
    requires cfg.w > 0 && forall i :: 0 <= i < |ts| ==> |ts[i]| > 0
  {
    |ts| > 0 && Over(bot, Last(ts[|ts| - 1]), cfg.w) && (|ts| == limit || Last(ts[|ts| - 1]).state == Busted)
  }

  /** The vaults of a run: up to the limit, a bust, or the last granted move. */
  method PlayVaults(bot: Player, cfg: EventConfig, src: Source, boosters: seq<Booster>, limit: nat, granted: nat)
    returns (vaults: seq<Moves>, left: nat, out: bool, last: VaultState, ghost ts: seq<seq<Snapshot>>)
    requires Runnable(src.engine, cfg) && cfg.w > 0 && 0 < limit <= |cfg.vaults|
    ensures BotVaults(bot, cfg, src, boosters, vaults, ts) && 0 < |vaults| == |ts| <= limit
    ensures |ts[|ts| - 1]| > 0 && last == Last(ts[|ts| - 1]).state
    ensures left + MovesOf(vaults, |vaults|) == granted
    ensures !out ==> Complete(bot, cfg, limit, ts)
    ensures out ==> left == 0 && !Over(bot, Last(ts[|ts| - 1]), cfg.w)
  {
    hide Outputs, Generator.Valid, Runnable, BotVaults, Over, GoesOn, MovesOf, Begins;
    NoVaults(bot, cfg, src, boosters);
    var rng := new Generator(src.engine, src.seed);
    vaults, left, out, last, ts := [], granted, false, Playing, [];
    for vi := 0 to limit
      invariant rng.Valid() && rng.From() == src && fresh(rng) && |vaults| == |ts| == vi && !out
      invariant forall i :: 0 <= i < |ts| ==> |ts[i]| > 0
      invariant BotVaults(bot, cfg, src, boosters, vaults, ts) && rng.drawn == Begins(ts, |ts|)
      invariant vi > 0 ==> last == Last(ts[vi - 1]).state && GoesOn(bot, Last(ts[vi - 1]), cfg.w)
      invariant left + MovesOf(vaults, |vaults|) == granted
    {
      var moves, rest, ended, state, t := NextVault(bot, cfg, boosters, rng, vaults, left, ts);
      MovesOfMore(vaults, moves);
      BeginsLast(ts + [t]);
      vaults, left, out, last, ts := vaults + [moves], rest, ended, state, ts + [t];
      if out || last == Busted {
        return;
      }
      StillGoing(bot, Last(t), cfg.w);
    }
    StillGoing(bot, Last(ts[|ts| - 1]), cfg.w);
  }

  lemma BeginsLast(ts: seq<seq<Snapshot>>)
    requires |ts| > 0 && forall i :: 0 <= i < |ts| ==> |ts[i]| > 0
    ensures Begins(ts, |ts|) == Last(ts[|ts| - 1]).drawn
  {}

  lemma StillGoing(bot: Player, s: Snapshot, w: int)
    requires w > 0
    ensures GoesOn(bot, s, w) <==> Over(bot, s, w) && s.state != Busted
  {}

  lemma MovesOfMore(vaults: seq<Moves>, moves: Moves)
    ensures MovesOf(vaults + [moves], |vaults| + 1) == MovesOf(vaults, |vaults|) + |moves|
  {
    MovesOfPrefix(vaults, moves, |vaults|);
  }

  lemma {:induction false} MovesOfPrefix(vaults: seq<Moves>, moves: Moves, n: nat)
    requires n <= |vaults|
    ensures MovesOf(vaults + [moves], n) == MovesOf(vaults, n)
  {
    if n > 0 { MovesOfPrefix(vaults, moves, n - 1); }
  }

  /** PlayRun, with a number of granted moves. The run is the bot's, chain by chain. A run
      in which no vault was given up is accepted by the replay that follows; otherwise it is
      rejected at the first vault that was. */
  method PlayRun(bot: Player, cfg: EventConfig, src: Source, boosters: seq<Booster>, maxVault: int, granted: nat)
    returns (end: End, ghost ts: seq<seq<Snapshot>>)
    requires Runnable(src.engine, cfg)
    ensures cfg.w > 0 && BotVaults(bot, cfg, src, boosters, end.Vaults(), ts) && 0 < |ts| <= Limit(cfg, maxVault)
    ensures end.OutOfMoves? ==> MovesOf(end.played, |end.played|) == granted && !Over(bot, Last(ts[|ts| - 1]), cfg.w)
    ensures !end.OutOfMoves? ==> Complete(bot, cfg, Limit(cfg, maxVault), ts)
    ensures !end.OutOfMoves? ==>
      && end.rep.escaped == (Last(ts[|ts| - 1]).state == Cracked)
      && end.rep.durationMs == MovesOf(end.rep.vaults, |end.rep.vaults|) * 1400
    ensures 1 <= maxVault <= |cfg.vaults| ==> |ts| <= maxVault
    ensures !end.OutOfMoves? && Last(ts[|ts| - 1]).state != Busted ==>
      |ts| == if 1 <= maxVault <= |cfg.vaults| then maxVault else |cfg.vaults|
    ensures end.Submitted? ==>
      Settled(cfg, src, boosters, end.rep) == Ok(end.result) && end.rep.clientScore == end.result.score
    ensures end.Submitted? ==> forall v :: 0 <= v < |ts| ==> Last(ts[v]).state != Playing
    ensures end.Rejected? ==> Settled(cfg, src, boosters, end.rep) == Err(end.error)
    ensures end.Rejected? ==> end.error.Unfinished? && FirstGivenUp(ts, end.error.vault)
  {
    hide Outputs, Runnable, BotVaults, Settled, IsStuck, FirstGivenUp;
    RunnableSizes(src.engine, cfg);
    AtLeastOneVault(src, cfg);
    var vaults, left, out, last;
    vaults, left, out, last, ts := PlayVaults(bot, cfg, src, boosters, Limit(cfg, maxVault), granted);
    if out {
      return OutOfMoves(vaults), ts;
    }
    var rep := Submission(vaults, last == Cracked, 0, (granted - left) * MS_PER_MOVE);
    var result := Run(cfg, src, boosters, rep);
    AcceptedUnlessGivenUp(bot, cfg, src, boosters, rep, ts);
    if result.Err? {
      return Rejected(rep, result.error), ts;
    }
    ScoreIsFree(cfg, src, boosters, rep, result.value.score);
    return Submitted(rep.(clientScore := result.value.score), result.value), ts;
  }

  /** The replay of a run of the bot fails exactly at the first vault that was given up. */
  lemma AcceptedUnlessGivenUp(bot: Player, cfg: EventConfig, src: Source, boosters: seq<Booster>, rep: Submission,
          ts: seq<seq<Snapshot>>)
    requires Runnable(src.engine, cfg) && cfg.w > 0 && rep.vaults != []
    requires BotVaults(bot, cfg, src, boosters, rep.vaults, ts)
    requires |ts| > 0 && |ts[|ts| - 1]| > 0 && rep.escaped == (Last(ts[|ts| - 1]).state == Cracked)
    ensures forall i :: 0 <= i < |ts| ==> |ts[i]| > 0
    ensures Settled(cfg, src, boosters, rep).Ok? <==> forall v :: 0 <= v < |ts| ==> Last(ts[v]).state != Playing
    ensures Settled(cfg, src, boosters, rep).Err? ==>
      var e := Settled(cfg, src, boosters, rep).error; e.Unfinished? && FirstGivenUp(ts, e.vault)
  {
    hide Runnable, BotVaultOf, Settled, FirstGivenUp;
    if forall v :: 0 <= v < |ts| ==> Last(ts[v]).state != Playing {
      DecidedIsLegal(bot, cfg, src, boosters, rep, ts);
    } else {
      var v := GivenUpFirst(ts, |ts|);
      GivenUpIsRejected(bot, cfg, src, boosters, rep, ts, v);
    }
  }

  lemma {:induction false} GivenUpFirst(ts: seq<seq<Snapshot>>, n: nat) returns (v: nat)
    requires forall i :: 0 <= i < |ts| ==> |ts[i]| > 0
    requires n <= |ts| && exists u :: 0 <= u < n && Last(ts[u]).state == Playing
    ensures FirstGivenUp(ts, v)
  {
    v := n - 1;
    if u :| 0 <= u < v && Last(ts[u]).state == Playing {
      v := GivenUpFirst(ts, n - 1);
    }
  }

  /** The claimed score does not enter the replay. */
  lemma ScoreIsFree(cfg: EventConfig, src: Source, boosters: seq<Booster>, rep: Submission, score: int)
    requires Runnable(src.engine, cfg)
    ensures Settled(cfg, src, boosters, rep.(clientScore := score)) == Settled(cfg, src, boosters, rep)
  {
    hide Runnable, Folded;
    RunnableSizes(src.engine, cfg);
  }

  lemma AtLeastOneVault(src: Source, cfg: EventConfig)
    requires Runnable(src.engine, cfg)
    ensures |cfg.vaults| >= 1
  {}

  // ---- what a caller can tell beforehand ----

  /** With a length limit below three the bot gives up its first vault at once, whatever the
      configuration and the stream: no run of it is ever accepted. */
  lemma ShortLimitIsRejected(bot: Player, cfg: EventConfig, src: Source, boosters: seq<Booster>, rep: Submission,
          ts: seq<seq<Snapshot>>)
    requires Runnable(src.engine, cfg) && cfg.w > 0 && 1 <= bot.maxChain < 3
    requires rep.vaults != [] && BotVaults(bot, cfg, src, boosters, rep.vaults, ts)
    ensures Settled(cfg, src, boosters, rep) == Err(Unfinished(0))
    ensures forall v :: 0 <= v < |rep.vaults| ==> rep.vaults[v] == []
  {
    hide Runnable, BotVaultOf, Settled, HasMove;
    forall v | 0 <= v < |ts| ensures rep.vaults[v] == [] && Last(ts[v]).state == Playing {
      ShortLimitPlaysNothing(bot, cfg, src, boosters, rep.vaults[v], v, Begins(ts, v), ts[v]);
    }
    GivenUpIsRejected(bot, cfg, src, boosters, rep, ts, 0);
  }

  /** With a limit of three or more, or the default, a complete run is accepted unless the
      board of some vault was redrawn a hundred times in vain. */
  lemma LongLimitIsAccepted(bot: Player, cfg: EventConfig, src: Source, boosters: seq<Booster>, limit: nat,
          rep: Submission, ts: seq<seq<Snapshot>>)
    requires Runnable(src.engine, cfg) && cfg.w > 0 && !(1 <= bot.maxChain < 3)
    requires rep.vaults != [] && BotVaults(bot, cfg, src, boosters, rep.vaults, ts) && Complete(bot, cfg, limit, ts)
    requires rep.escaped == (Last(ts[|ts| - 1]).state == Cracked)
    ensures Settled(cfg, src, boosters, rep).Ok? <==> forall v :: 0 <= v < |ts| ==> !InVain(Last(ts[v]), cfg.w)
    ensures forall v :: 0 <= v < |ts| && InVain(Last(ts[v]), cfg.w) ==> RedrawnInVain(ts[v])
  {
    hide Runnable, BotVaultOf, GoesOn, Settled, InVain, RedrawnInVain, Complete, HasMove;
    PlayedVaults(bot, cfg, src, boosters, rep.vaults, ts);
    AcceptedUnlessGivenUp(bot, cfg, src, boosters, rep, ts);
    forall v | 0 <= v < |ts|
      ensures Last(ts[v]).state == Playing <==> InVain(Last(ts[v]), cfg.w)
      ensures InVain(Last(ts[v]), cfg.w) ==> RedrawnInVain(ts[v])
    {
      PlayingMeansInVain(bot, cfg, src, boosters, limit, rep.vaults, ts, v);
    }
  }

  lemma PlayingMeansInVain(bot: Player, cfg: EventConfig, src: Source, boosters: seq<Booster>, limit: nat,
          vaults: seq<Moves>, ts: seq<seq<Snapshot>>, v: nat)
    requires Runnable(src.engine, cfg) && cfg.w > 0 && !(1 <= bot.maxChain < 3)
    requires BotVaults(bot, cfg, src, boosters, vaults, ts) && Complete(bot, cfg, limit, ts) && v < |ts|
    ensures Last(ts[v]).state == Playing <==> InVain(Last(ts[v]), cfg.w)
    ensures InVain(Last(ts[v]), cfg.w) ==> RedrawnInVain(ts[v])
  {
    hide Runnable, BotVaultOf, BotVaults, HasMove, Begins, RedrawnInVain;
    VaultFacts(bot, cfg, src, boosters, limit, vaults, ts, v);
    if InVain(Last(ts[v]), cfg.w) {
      StuckMeansExhausted(bot, cfg, src, boosters, vaults[v], v, Begins(ts, v), ts[v]);
      RedrawnIs(ts[v]);
    }
  }

  lemma VaultFacts(bot: Player, cfg: EventConfig, src: Source, boosters: seq<Booster>, limit: nat, vaults: seq<Moves>,
          ts: seq<seq<Snapshot>>, v: nat)
    requires Runnable(src.engine, cfg) && cfg.w > 0 && BotVaults(bot, cfg, src, boosters, vaults, ts) && v < |ts|
    requires Complete(bot, cfg, limit, ts)
    ensures v < |vaults| <= |cfg.vaults| && (forall i :: 0 <= i < |ts| ==> |ts[i]| > 0) && Over(bot, Last(ts[v]), cfg.w)
    ensures BotVaultOf(bot, cfg, src, boosters, vaults[v], v, Begins(ts, v), ts[v])
  {
    hide Runnable, BotVaultOf, Over;
    if v < |ts| - 1 {
      assert GoesOn(bot, Last(ts[v]), cfg.w);
    }
  }

  lemma RedrawnIs(t: seq<Snapshot>)
    requires |t| > 0
    ensures RedrawnInVain(t) <==> Last(t).reshuffles == (if |t| == 1 then 0 else t[|t| - 2].reshuffles) + MAX_ROUNDS
  {}

  /** In play without a move. */
  ghost predicate InVain(s: Snapshot, w: int)
    requires w > 0
  {
    s.state == Playing && !HasMove(s.grid, w)
  }

  /** A hundred redraws at the end of a vault's trace. */
  ghost predicate RedrawnInVain(t: seq<Snapshot>)
    requires |t| > 0
  {
    Last(t).reshuffles == (if |t| == 1 then 0 else t[|t| - 2].reshuffles) + MAX_ROUNDS
  }
}

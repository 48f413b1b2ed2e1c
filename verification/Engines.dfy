/** Where the browser's engine and the server's part (engine.ts, engine.go). They replay
    alike as long as no vault's weights reach 2^32; from there on the browser reduces a
    draw below the sum itself, the server below its low 32 bits. */
module Engines {
  import opened Wrappers
  import opened Words
  import opened Rng
  import opened JsRng
  import opened Generators
  import opened Config
  import opened Board
  import opened Tiles
  import opened Gravity
  import opened Play
  import opened Simulation
  import opened Replay
  import opened ReplayLaws
  import opened Client

  /** Every weight sum fits in 32 bits. */
  ghost predicate Common(cfg: EventConfig) {
    Valid(cfg) && forall i :: 0 <= i < |cfg.vaults| ==> cfg.vaults[i].weights.Total() < MODULUS
  }

  lemma CommonRuns(cfg: EventConfig)
    requires Common(cfg)
    ensures Runnable(Server, cfg) && Runnable(Browser, cfg)
    ensures forall i :: 0 <= i < |cfg.vaults| ==> ArenaOf(Server, cfg, i) == ArenaOf(Browser, cfg, i)
  {
    forall i | 0 <= i < |cfg.vaults|
      ensures 0 < BoundOf(Server, cfg.vaults[i].weights.Total()) == BoundOf(Browser, cfg.vaults[i].weights.Total())
    {
      assert ValidVault(cfg.vaults[i], cfg.w * cfg.h);
    }
  }

  lemma {:induction false} FoldedAlike(cfg: EventConfig, seed: bv32, boosters: seq<Booster>, vaults: seq<Moves>, n: nat)
    requires Common(cfg) && n <= |vaults| <= |cfg.vaults|
    ensures Runnable(Server, cfg) && Runnable(Browser, cfg)
    ensures Folded(cfg, Source(Server, seed), boosters, vaults, n)
      == Folded(cfg, Source(Browser, seed), boosters, vaults, n)
    decreases n
  {
    hide Common, Runnable, ArenaOf, Played, Opened, Outputs, HasBooster;
    CommonRuns(cfg);
    if n > 0 {
      FoldedAlike(cfg, seed, boosters, vaults, n - 1);
    }
  }

  /** The server's replay of any submission is the browser's. */
  lemma ReplaysAlike(cfg: EventConfig, seed: bv32, boosters: seq<Booster>, rep: Submission)
    requires Common(cfg)
    ensures Runnable(Server, cfg) && Runnable(Browser, cfg)
    ensures Settled(cfg, Source(Server, seed), boosters, rep) == Settled(cfg, Source(Browser, seed), boosters, rep)
  {
    hide Common, Runnable, Folded;
    CommonRuns(cfg);
    RunnableSizes(Server, cfg);
    if 0 < |rep.vaults| <= |cfg.vaults| {
      FoldedAlike(cfg, seed, boosters, rep.vaults, |rep.vaults|);
    }
  }

  /** So whatever the browser submits once a vault is settled is accepted by the server,
      with the loot and the score that the browser showed. */
  lemma SubmissionAccepted(log: Log, live: Live, clientScore: int, durationMs: int)
    requires Common(log.config) && Faithful(log, live) && |log.vaults| == live.vaultIndex + 1
    ensures Runnable(Server, log.config) && |log.config.vaultMultipliers| == |log.config.vaults|
    ensures var n := |log.vaults|; var escaped := live.snap.state == Cracked;
      var r := Settled(log.config, Source(Server, log.seed), log.boosters,
                       Submission(log.vaults, escaped, clientScore, durationMs));
      && r.Ok? && r.value.loot == live.totalLoot && r.value.vaultReached == n
      && (if escaped then
            && r.value.outcome == Escaped && r.value.vaultsCracked == n
            && r.value.score == EscapeScore(log.config, live.totalLoot, n)
          else
            r.value.outcome == BustedOut && r.value.vaultsCracked == n - 1
            && r.value.score == BustScore(log.config, live.totalLoot, n, log.boosters))
  {
    hide Common, Runnable, Settled, Faithful, EscapeScore, BustScore;
    LocalReplay(log, live, clientScore, durationMs);
    ReplaysAlike(log.config, log.seed, log.boosters,
                 Submission(log.vaults, live.snap.state == Cracked, clientScore, durationMs));
  }

  // ---- a run that the server scores differently ----

  /** Weights of 2^32 + 1 in all: on the server every remainder is zero. */
  const HEAVY: Weights := Weights(0x8000_0001, 0, 0, 0x8000_0000, 0, 0)

  const HEAVY_SEED: bv32 := 10

  /** One vault of one move, three keys to disable. It passes validation. */
  function HeavyConfig(): EventConfig {
    EventConfig(HEAVY_SEED, 1.0, 1.0, 1, 7, 7, [1.0], 0.5, [Vault(1, Objectives(3, 0, 0), 0, HEAVY)])
  }

  const TOP_ROW: seq<int> := [0, 1, 2]

  lemma HeavyIsRunnable(engine: Engine)
    ensures Runnable(engine, HeavyConfig())
  {
    var cfg := HeavyConfig();
    assert ValidVault(cfg.vaults[0], cfg.w * cfg.h);
  }

  /** The server draws only keys; the browser draws money from every output above 2^31. */
  lemma HeavyTiles(engine: Engine, v: nat)
    requires 0x8000_0001 <= v < MODULUS
    ensures Drawable(DeckOf(engine, HEAVY))
    ensures TileFor(v, DeckOf(engine, HEAVY)) == if engine == Server then KEY else MONEY
  {
    var o := HEAVY.Ordered();
    if engine == Server {
      assert Below(v, 1) == 0;
      assert Walk(o, 0, 0) == 0;
    } else {
      SmallRemainder(v, HEAVY.Total());
      assert Walk(o, v, 0) == Walk(o, v - 0x8000_0001, 1) == Walk(o, v - 0x8000_0001, 2) == Walk(o, v - 0x8000_0001, 3);
    }
  }

  lemma StepLiteral()
    ensures STEP == 0x6D2B79F5
  {
    hide Word;
    WordSucc(0);
    WordDouble(1);
    WordDouble(3);
    WordDouble(6);
    WordDouble(13);
    WordDouble(27);
    WordDouble(54);
    WordDouble(109);
    WordDouble(218);
    WordDouble(436);
    WordDouble(873);
    WordDouble(1746);
    WordDouble(3493);
    WordDouble(6986);
    WordDouble(13973);
    WordDouble(27947);
    WordDouble(55894);
    WordDouble(111789);
    WordDouble(223579);
    WordDouble(447159);
    WordDouble(894319);
    WordDouble(1788638);
    WordDouble(3577276);
    WordDouble(7154553);
    WordDouble(14309107);
    WordDouble(28618215);
    WordDouble(57236431);
    WordDouble(114472863);
    WordDouble(228945726);
    WordDouble(457891453);
    WordDouble(915782906);
  }

  lemma AboveHalf(b: bv32)
    requires b >= 0x8000_0000
    ensures Nat(b) >= 0x8000_0000
  {
    hide Word, NatBits, Fits;
    WordNat(b);
    if Nat(b) < 0x8000_0000 {
      PowerOfTwo();
      NatBitsWord(Nat(b), 31);
      FitsTop(b);
    }
  }

  lemma PowerOfTwo()
    ensures Pow2(31) == 0x8000_0000
  {
    Pow2Modulus();
  }

  lemma FirstOutputs(i: nat)
    requires i < 3
    ensures 0x8000_0001 <= Outputs(HEAVY_SEED)(i) < MODULUS
  {
    hide Nat, Word, Mix;
    StepLiteral();
    var s := StateAfter(HEAVY_SEED, i + 1);
    assert s == if i == 0 then 0x6D2B79FF else if i == 1 then 0xDA56F3F4 else 0x47826DE9 by { ThreeStates(i); }
    ThreeMixes();
    WordNat(Mix(s));
    var low := Mix(s) - 1;
    AboveHalf(low);
    WordNat(low);
    WordSucc(Nat(low));
    assert Plus(low, 1) == Mix(s);
    if Nat(low) + 1 < MODULUS {
      NatWordSmall(Nat(low) + 1);
    } else {
      WordModulus();
    }
  }

  lemma ThreeStates(i: nat)
    requires i < 3
    ensures StateAfter(HEAVY_SEED, i + 1) == if i == 0 then 0x6D2B79FF else if i == 1 then 0xDA56F3F4 else 0x47826DE9
  {
    hide Word;
    StepLiteral();
    assert StateAfter(HEAVY_SEED, 1) == 0x6D2B79FF;
    assert StateAfter(HEAVY_SEED, 2) == 0xDA56F3F4;
    assert StateAfter(HEAVY_SEED, 3) == 0x47826DE9;
  }

  lemma ThreeMixes()
    ensures Mix(0x6D2B79FF) == 0x80828C69 && Mix(0xDA56F3F4) == 0xEAE06A4E && Mix(0x47826DE9) == 0xB0FA3C93
  {}

  /** The vault as each engine opens it. */
  ghost function HeavyStart(engine: Engine): (s: Snapshot)
    ensures IsGrid(s.grid, 7, 7)
  {
    HeavyIsRunnable(engine);
    Start(HeavyConfig(), Source(engine, HEAVY_SEED), [], 0, 0)
  }

  function HeavyKind(engine: Engine): int {
    if engine == Server then KEY else MONEY
  }

  /** The top row starts with a chain of keys on the server and of money in the browser. */
  lemma TopRowIsChain(engine: Engine)
    ensures var s := HeavyStart(engine);
      && IsChain(s.grid, 7, TOP_ROW) && s.grid[0] == HeavyKind(engine)
      && s.objectives == Objectives(3, 0, 0) && s.movesLeft == 1 && s.loot == 0 && s.state == Playing
  {
    hide TileFor, Outputs, Walk, HasMove, IsChain, Rounds, CanGenerate;
    var a := ArenaOf(engine, HeavyConfig(), 0);
    HeavyIsRunnable(engine);
    RunnableVault(Source(engine, HEAVY_SEED), HeavyConfig(), 0);
    ArenaIsOk(a, Outputs(HEAVY_SEED));
    FilledTopRow(engine, a);
    OpensAsFilled(a, Outputs(HEAVY_SEED));
  }

  lemma FilledTopRow(engine: Engine, a: Arena)
    requires a == ArenaOf(engine, HeavyConfig(), 0) && ArenaOk(a)
    ensures var g := Filled(a, Outputs(HEAVY_SEED), 0).grid;
      IsChain(g, 7, TOP_ROW) && g[0] == HeavyKind(engine) && HasMove(g, 7)
  {
    hide TileFor, Outputs, Walk, HasMove;
    var g := Filled(a, Outputs(HEAVY_SEED), 0).grid;
    forall i: nat | i < 3 ensures g[i] == HeavyKind(engine) {
      FirstOutputs(i);
      HeavyTiles(engine, Outputs(HEAVY_SEED)(i));
    }
    assert IsChain(g, 7, TOP_ROW);
    HasMoveIffChain(g, 7);
  }

  /** Without locks, and with a move at once, a vault opens as it was filled. */
  lemma OpensAsFilled(a: Arena, d: Draws)
    requires CanGenerate(a, d) && a.vault.locks == 0 && HasMove(Filled(a, d, 0).grid, a.w)
    ensures Opened(a, d, 0, 100, false).grid == Filled(a, d, 0).grid
  {
    hide HasMove, Rounds, Fresh, Lively;
  }

  /** The chain cracks the vault on the server and uses up the only move in the browser. */
  lemma OneChain(engine: Engine)
    ensures Runnable(engine, HeavyConfig())
    ensures var end := PlayedFrom(HeavyConfig(), Source(engine, HEAVY_SEED), [], 0, 0, [TOP_ROW]);
      && end.Ok?
      && end.value.state == (if engine == Server then Cracked else Busted)
      && end.value.loot == (if engine == Server then 120 else 300)
  {
    hide Outputs, IsChain, CanGenerate, Start, Applied, Runnable;
    HeavyIsRunnable(engine);
    RunnableVault(Source(engine, HEAVY_SEED), HeavyConfig(), 0);
    TopRowIsChain(engine);
    var a, s := ArenaOf(engine, HeavyConfig(), 0), HeavyStart(engine);
    MoveNumbers(a, Outputs(HEAVY_SEED), s, TOP_ROW);
    assert Played(a, Outputs(HEAVY_SEED), 0, s, [TOP_ROW], 0) == Ok(s);
  }

  /** Beyond 2^32 the browser and the server can disagree: a configuration that passes
      validation and that the server can draw, and a faithful run of it that the browser
      finishes as a bust worth 150, which the server replays as an escape worth 120. */
  lemma HeavyRunDisagrees()
    ensures exists log: Log, live: Live ::
      && Faithful(log, live) && |log.vaults| == live.vaultIndex + 1 && live.snap.state == Busted
      && Runnable(Server, log.config) && !Common(log.config)
      && |log.config.vaultMultipliers| == |log.config.vaults|
      && BustScore(log.config, live.totalLoot, 1, log.boosters) == 150
      && (forall score: int, ms: int ::
            var r := Settled(log.config, Source(Server, log.seed), log.boosters,
                             Submission(log.vaults, false, score, ms));
            r.Ok? && r.value.outcome == Escaped && r.value.score == 120)
  {
    hide Outputs, CanGenerate, PlayedFrom, Runnable, Faithful, Settled, Common;
    var cfg := HeavyConfig();
    OneChain(Browser);
    OneChain(Server);
    var end := PlayedFrom(cfg, Source(Browser, HEAVY_SEED), [], 0, 0, [TOP_ROW]).value;
    var log, live := Log(HEAVY_SEED, cfg, [], [[TOP_ROW]], [], 300), Live(0, 300, end);
    HeavyIsFaithful(log, live);
    forall score: int, ms: int
      ensures var r := Settled(cfg, Source(Server, log.seed), log.boosters, Submission(log.vaults, false, score, ms));
        r.Ok? && r.value.outcome == Escaped && r.value.score == 120
    {
      ServerEscapes(Submission([[TOP_ROW]], false, score, ms));
    }
    assert BustScore(cfg, 300, 1, []) == 150;
    assert !Common(cfg) by { HeavyIsNotCommon(); }
  }

  lemma HeavyIsNotCommon()
    ensures !Common(HeavyConfig())
  {
    assert HeavyConfig().vaults[0].weights.Total() >= MODULUS;
  }

  lemma HeavyIsFaithful(log: Log, live: Live)
    requires Runnable(Browser, HeavyConfig())
    requires PlayedFrom(HeavyConfig(), Source(Browser, HEAVY_SEED), [], 0, 0, [TOP_ROW]) == Ok(live.snap)
    requires live == Live(0, 300, live.snap) && live.snap.state == Busted && live.snap.loot == 300
    requires log == Log(HEAVY_SEED, HeavyConfig(), [], [[TOP_ROW]], [], 300)
    ensures Faithful(log, live)
  {
    hide PlayedFrom, Runnable, FoldVault;
    assert CrackedRun(log.config, log.From(), log.boosters, log.vaults, 0) == Some(Progress(0, 0, 0, 0, Playing));
  }

  lemma ServerEscapes(rep: Submission)
    requires rep.vaults == [[TOP_ROW]] && !rep.escaped
    ensures Runnable(Server, HeavyConfig())
    ensures var r := Settled(HeavyConfig(), Source(Server, HEAVY_SEED), [], rep);
      r.Ok? && r.value.outcome == Escaped && r.value.score == 120
  {
    hide Outputs, CanGenerate, Played, Start, Runnable;
    var cfg, src := HeavyConfig(), Source(Server, HEAVY_SEED);
    OneChain(Server);
    var first := Folded(cfg, src, [], rep.vaults, 0);
    assert first == Ok(Progress(0, 0, 0, 0, Playing));
    assert FoldVault(cfg, src, [], rep.vaults, 0, first.value).value.loot == 120;
    assert EscapeScore(cfg, 120, 1) == 120;
  }
}

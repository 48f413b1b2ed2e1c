/** Which submissions a replay accepts, and what the accepted ones look like
    (replay.go). */
module ReplayLaws {
  import opened Wrappers
  import opened Rng
  import opened Generators
  import opened Config
  import opened Board
  import opened Tiles
  import opened Play
  import opened Simulation
  import opened Replay
  import opened Accounting
  import opened MoveLaws

  /** `t` shows a vault before, between and after its chains, every one of them legal and
      played while the vault was open. */
  ghost predicate PlaysVault(a: Arena, d: Draws, start: Snapshot, moves: Moves, t: seq<Snapshot>)
    requires ArenaOk(a)
  {
    && |t| == |moves| + 1 && t[0] == start
    && (forall k :: 0 <= k < |t| ==> IsGrid(t[k].grid, a.w, a.h))
    && (forall k :: 0 <= k < |moves| ==> PlaysMove(a, d, t[k], moves[k], t[k + 1]))
  }

  ghost predicate PlaysMove(a: Arena, d: Draws, s: Snapshot, path: seq<int>, s': Snapshot)
    requires ArenaOk(a) && IsGrid(s.grid, a.w, a.h)
  {
    s.state == Playing && IsChain(s.grid, a.w, path) && s' == Applied(a, d, s, path)
  }

  ghost function Last(t: seq<Snapshot>): Snapshot
    requires |t| > 0
  {
    t[|t| - 1]
  }

  /** Where in the stream vault `v` begins: where the vault before it ended. */
  ghost function Begins(ts: seq<seq<Snapshot>>, v: nat): nat
    requires v <= |ts| && forall i :: 0 <= i < |ts| ==> |ts[i]| > 0
  {
    if v == 0 then 0 else Last(ts[v - 1]).drawn
  }

  /** `ts` shows a whole run on one shared stream: a nonempty prefix of the configured
      vaults, cracked everywhere but possibly last, and decided at the end. */
  ghost predicate PlaysRun(cfg: EventConfig, src: Source, boosters: seq<Booster>, vaults: seq<Moves>,
          ts: seq<seq<Snapshot>>)
    requires Runnable(src.engine, cfg)
  {
    && 1 <= |vaults| <= |cfg.vaults| && |ts| == |vaults|
    && (forall v :: 0 <= v < |ts| ==> |ts[v]| > 0)
    && (forall v :: 0 <= v < |ts| ==> PlaysVaultOf(cfg, src, boosters, vaults[v], v, Begins(ts, v), ts[v]))
    && (forall v :: 0 <= v < |ts| - 1 ==> Last(ts[v]).state == Cracked)
    && Last(ts[|ts| - 1]).state != Playing
  }

  ghost predicate PlaysVaultOf(cfg: EventConfig, src: Source, boosters: seq<Booster>, moves: Moves, v: nat, p: nat,
          t: seq<Snapshot>)
    requires Runnable(src.engine, cfg) && v < |cfg.vaults|
  {
    RunnableVault(src, cfg, v);
    PlaysVault(ArenaOf(src.engine, cfg, v), Outputs(src.seed), Start(cfg, src, boosters, v, p), moves, t)
  }

  /** The escape flag fits the end of the run: set if the player stops early, never set on
      a bust, and free after the last vault. */
  ghost predicate FlagFits(cfg: EventConfig, rep: Submission, last: VaultState) {
    if last == Cracked then rep.escaped || |rep.vaults| == |cfg.vaults| else !rep.escaped
  }

  ghost predicate LegalRun(cfg: EventConfig, src: Source, boosters: seq<Booster>, rep: Submission)
    requires Runnable(src.engine, cfg)
  {
    exists ts :: PlaysRun(cfg, src, boosters, rep.vaults, ts) && FlagFits(cfg, rep, Last(ts[|ts| - 1]).state)
  }

  // ---- one vault ----

  ghost function TraceOf(a: Arena, d: Draws, vi: nat, s: Snapshot, moves: Moves): (t: seq<Snapshot>)
    requires ArenaOk(a) && IsGrid(s.grid, a.w, a.h) && Played(a, d, vi, s, moves, |moves|).Ok?
    ensures |t| == |moves| + 1
  {
    PlayedPrefixes(a, d, vi, s, moves);
    seq(|moves| + 1, k requires 0 <= k <= |moves| => Played(a, d, vi, s, moves, k).value)
  }

  lemma PlayedPrefixes(a: Arena, d: Draws, vi: nat, s: Snapshot, moves: Moves)
    requires ArenaOk(a) && IsGrid(s.grid, a.w, a.h) && Played(a, d, vi, s, moves, |moves|).Ok?
    ensures forall k :: 0 <= k <= |moves| ==> Played(a, d, vi, s, moves, k).Ok?
  {
    forall k | 0 <= k <= |moves| ensures Played(a, d, vi, s, moves, k).Ok? {
      if Played(a, d, vi, s, moves, k).Err? {
        PlayedFails(a, d, vi, s, moves, k);
      }
    }
  }

  /** A vault replays without a problem exactly when it has a trace. */
  lemma PlayedHasTrace(a: Arena, d: Draws, vi: nat, s: Snapshot, moves: Moves)
    requires ArenaOk(a) && IsGrid(s.grid, a.w, a.h) && Played(a, d, vi, s, moves, |moves|).Ok?
    ensures var t := TraceOf(a, d, vi, s, moves);
      PlaysVault(a, d, s, moves, t) && Played(a, d, vi, s, moves, |moves|) == Ok(Last(t))
  {
    hide Applied, IsChain, IsGrid, Drawable;
    PlayedPrefixes(a, d, vi, s, moves);
    var t := TraceOf(a, d, vi, s, moves);
    forall k | 0 <= k < |moves| ensures IsGrid(t[k].grid, a.w, a.h) && PlaysMove(a, d, t[k], moves[k], t[k + 1]) {
      assert Played(a, d, vi, s, moves, k) == Ok(t[k]);
      assert Played(a, d, vi, s, moves, k + 1) == Ok(t[k + 1]);
    }
  }

  lemma {:induction false} TraceIsPlayed(a: Arena, d: Draws, vi: nat, s: Snapshot, moves: Moves, t: seq<Snapshot>,
          k: nat)
    requires ArenaOk(a) && IsGrid(s.grid, a.w, a.h) && PlaysVault(a, d, s, moves, t) && k <= |moves|
    ensures Played(a, d, vi, s, moves, k) == Ok(t[k])
    decreases k
  {
    hide Applied, IsChain, IsGrid, Drawable;
    if k > 0 {
      TraceIsPlayed(a, d, vi, s, moves, t, k - 1);
      assert PlaysMove(a, d, t[k - 1], moves[k - 1], t[k]);
    }
  }

  // ---- the whole run ----

  ghost function LootOf(ts: seq<seq<Snapshot>>, n: nat): int
    requires n <= |ts| && forall i :: 0 <= i < |ts| ==> |ts[i]| > 0
  {
    if n == 0 then 0 else LootOf(ts, n - 1) + Last(ts[n - 1]).loot
  }

  ghost function MovesOf(vaults: seq<Moves>, n: nat): nat
    requires n <= |vaults|
  {
    if n == 0 then 0 else MovesOf(vaults, n - 1) + |vaults[n - 1]|
  }

  /** What the replay has accumulated after `n` vaults of a run. */
  ghost function ProgressOf(vaults: seq<Moves>, ts: seq<seq<Snapshot>>, n: nat): Progress
    requires n <= |ts| == |vaults| && forall i :: 0 <= i < |ts| ==> |ts[i]| > 0
  {
    Progress(Begins(ts, n), LootOf(ts, n), if n > 0 && Last(ts[n - 1]).state != Cracked then n - 1 else n,
             MovesOf(vaults, n), if n == 0 then Playing else Last(ts[n - 1]).state)
  }

  lemma FoldVaultIs(cfg: EventConfig, src: Source, boosters: seq<Booster>, vaults: seq<Moves>, v: nat,
          before: Progress, t: seq<Snapshot>)
    requires Runnable(src.engine, cfg) && v < |vaults| <= |cfg.vaults| && |t| > 0
    requires PlaysVaultOf(cfg, src, boosters, vaults[v], v, before.drawn, t)
    requires Last(t).state != Playing && (v < |vaults| - 1 ==> Last(t).state == Cracked)
    ensures FoldVault(cfg, src, boosters, vaults, v, before)
      == Ok(Progress(Last(t).drawn, before.loot + Last(t).loot,
                     before.cracked + (if Last(t).state == Cracked then 1 else 0),
                     before.moves + |vaults[v]|, Last(t).state))
  {
    hide Runnable, PlaysVault, Played, Opened, Outputs;
    RunnableVault(src, cfg, v);
    PlaysVaultLength(cfg, src, boosters, vaults[v], v, before.drawn, t);
    TraceIsPlayed(ArenaOf(src.engine, cfg, v), Outputs(src.seed), v, Start(cfg, src, boosters, v, before.drawn),
                  vaults[v], t, |vaults[v]|);
  }

  lemma {:induction false} RunIsFolded(cfg: EventConfig, src: Source, boosters: seq<Booster>, vaults: seq<Moves>,
          ts: seq<seq<Snapshot>>, n: nat)
    requires Runnable(src.engine, cfg) && PlaysRun(cfg, src, boosters, vaults, ts) && n <= |vaults|
    ensures Folded(cfg, src, boosters, vaults, n) == Ok(ProgressOf(vaults, ts, n))
    decreases n
  {
    hide Runnable, PlaysVaultOf, FoldVault, HasBooster;
    if n > 0 {
      RunIsFolded(cfg, src, boosters, vaults, ts, n - 1);
      RunVaultIs(cfg, src, boosters, vaults, ts, n - 1);
    }
  }

  lemma RunVaultIs(cfg: EventConfig, src: Source, boosters: seq<Booster>, vaults: seq<Moves>, ts: seq<seq<Snapshot>>,
          v: nat)
    requires Runnable(src.engine, cfg) && PlaysRun(cfg, src, boosters, vaults, ts) && v < |vaults|
    ensures FoldVault(cfg, src, boosters, vaults, v, ProgressOf(vaults, ts, v)) == Ok(ProgressOf(vaults, ts, v + 1))
  {
    hide Runnable, PlaysVaultOf, FoldVault;
    FoldVaultIs(cfg, src, boosters, vaults, v, ProgressOf(vaults, ts, v), ts[v]);
  }

  lemma PlaysVaultLength(cfg: EventConfig, src: Source, boosters: seq<Booster>, moves: Moves, v: nat, p: nat,
          t: seq<Snapshot>)
    requires Runnable(src.engine, cfg) && v < |cfg.vaults| && PlaysVaultOf(cfg, src, boosters, moves, v, p, t)
    ensures |t| == |moves| + 1
  {}

  /** A fold that succeeds comes from a trace of every vault so far. */
  lemma {:induction false} FoldedHasTraces(cfg: EventConfig, src: Source, boosters: seq<Booster>, vaults: seq<Moves>,
          n: nat)
    returns (ts: seq<seq<Snapshot>>)
    requires Runnable(src.engine, cfg) && 1 <= n <= |vaults| <= |cfg.vaults|
    requires Folded(cfg, src, boosters, vaults, n).Ok?
    ensures |ts| == n && (forall v :: 0 <= v < n ==> |ts[v]| > 0)
    ensures forall v :: 0 <= v < n ==> PlaysVaultOf(cfg, src, boosters, vaults[v], v, Begins(ts, v), ts[v])
    ensures forall v :: 0 <= v < n && v < |vaults| - 1 ==> Last(ts[v]).state == Cracked
    ensures Last(ts[n - 1]).state != Playing
    ensures Folded(cfg, src, boosters, vaults, n).value.drawn == Last(ts[n - 1]).drawn
    ensures Folded(cfg, src, boosters, vaults, n).value.last == Last(ts[n - 1]).state
    decreases n
  {
    hide Runnable, PlaysVault, Played, Opened, Outputs, TraceOf;
    var v := n - 1;
    var before := Folded(cfg, src, boosters, vaults, v).value;
    ts := [];
    if v > 0 {
      ts := FoldedHasTraces(cfg, src, boosters, vaults, v);
    }
    RunnableVault(src, cfg, v);
    var s := Start(cfg, src, boosters, v, before.drawn);
    PlayedHasTrace(ArenaOf(src.engine, cfg, v), Outputs(src.seed), v, s, vaults[v]);
    var t := TraceOf(ArenaOf(src.engine, cfg, v), Outputs(src.seed), v, s, vaults[v]);
    var ts' := ts + [t];
    forall u | 0 <= u < n
      ensures PlaysVaultOf(cfg, src, boosters, vaults[u], u, Begins(ts', u), ts'[u])
    {
      if u < v {
        assert Begins(ts', u) == Begins(ts, u);
      }
    }
    ts := ts';
  }

  lemma AcceptedIsLegal(cfg: EventConfig, src: Source, boosters: seq<Booster>, rep: Submission)
    requires Runnable(src.engine, cfg) && Settled(cfg, src, boosters, rep).Ok?
    ensures LegalRun(cfg, src, boosters, rep)
  {
    hide Runnable, PlaysVaultOf, Folded, EscapeScore, BustScore, BustMultiplier, HasBooster;
    RunnableSizes(src.engine, cfg);
    var ts := FoldedHasTraces(cfg, src, boosters, rep.vaults, |rep.vaults|);
    assert PlaysRun(cfg, src, boosters, rep.vaults, ts);
  }

  /** Acceptance: a submission replays without an error exactly when it is a legal run. */
  lemma AcceptedIffLegal(cfg: EventConfig, src: Source, boosters: seq<Booster>, rep: Submission)
    requires Runnable(src.engine, cfg)
    ensures Settled(cfg, src, boosters, rep).Ok? <==> LegalRun(cfg, src, boosters, rep)
  {
    hide Runnable, PlaysVaultOf, FlagFits, Settled;
    if Settled(cfg, src, boosters, rep).Ok? {
      AcceptedIsLegal(cfg, src, boosters, rep);
    }
    if ts :| PlaysRun(cfg, src, boosters, rep.vaults, ts) && FlagFits(cfg, rep, Last(ts[|ts| - 1]).state) {
      AcceptedResult(cfg, src, boosters, rep, ts);
    }
  }

  /** What of the loot is kept when the last vault is lost: the penalty goes off it, half of
      it with a shield. */
  ghost function KeptOnBust(cfg: EventConfig, shield: bool): real {
    1.0 - (if shield then cfg.bustPenalty / 2.0 else cfg.bustPenalty)
  }

  /** `score` is the product of the four factors, rounded to the nearest whole number, a half
      upwards. */
  ghost predicate RoundsTo(loot: int, mult: real, kept: real, factor: real, score: int) {
    score as real - 0.5 <= loot as real * mult * kept * factor < score as real + 0.5
  }

  /** What `r` is for the run that `ts` shows: its outcome, its vaults, loot and chains, and
      its score. The loot of all its vaults counts with the multiplier of the last vault that
      was cracked (once if there is none), with what a bust leaves of it, and with the factor
      of the event. */
  ghost predicate ReadOff(cfg: EventConfig, rep: Submission, ts: seq<seq<Snapshot>>, shield: bool, r: RunResult)
    requires 1 <= |ts| == |rep.vaults| <= |cfg.vaultMultipliers| && forall v :: 0 <= v < |ts| ==> |ts[v]| > 0
  {
    var n, cracked := |ts|, Last(ts[|ts| - 1]).state == Cracked;
    && r.outcome == (if cracked then Escaped else BustedOut) && r.vaultsCracked == (if cracked then n else n - 1)
    && r.vaultReached == n && r.loot == LootOf(ts, n) && r.totalMoves == MovesOf(rep.vaults, n)
    && r.multiplier == (if r.vaultsCracked == 0 then 1.0 else cfg.vaultMultipliers[r.vaultsCracked - 1])
    && RoundsTo(r.loot, r.multiplier, if cracked then 1.0 else KeptOnBust(cfg, shield), cfg.lootMultiplier, r.score)
  }

  /** The result of an accepted run, read off its trace. */
  lemma AcceptedResult(cfg: EventConfig, src: Source, boosters: seq<Booster>, rep: Submission, ts: seq<seq<Snapshot>>)
    requires Runnable(src.engine, cfg) && PlaysRun(cfg, src, boosters, rep.vaults, ts)
    requires FlagFits(cfg, rep, Last(ts[|ts| - 1]).state)
    ensures var r := Settled(cfg, src, boosters, rep); r.Ok? && ReadOff(cfg, rep, ts, Shield in boosters, r.value)
  {
    hide Runnable, PlaysRun, Settled, Scored, KeptOnBust, FlagFits, LootOf, MovesOf, RoundsTo;
    SettledIsScored(cfg, src, boosters, rep, ts);
    var end := ProgressOf(rep.vaults, ts, |ts|);
    ScoredResult(cfg, boosters, rep, end.loot, end.cracked, end.moves, end.last);
  }

  /** Only one result can be read off a run. */
  lemma ReadOffIsUnique(cfg: EventConfig, rep: Submission, ts: seq<seq<Snapshot>>, shield: bool, r: RunResult,
          r': RunResult)
    requires 1 <= |ts| == |rep.vaults| <= |cfg.vaultMultipliers| && forall v :: 0 <= v < |ts| ==> |ts[v]| > 0
    requires ReadOff(cfg, rep, ts, shield, r) && ReadOff(cfg, rep, ts, shield, r')
    ensures r == r'
  {}

  lemma SettledIsScored(cfg: EventConfig, src: Source, boosters: seq<Booster>, rep: Submission,
          ts: seq<seq<Snapshot>>)
    requires Runnable(src.engine, cfg) && PlaysRun(cfg, src, boosters, rep.vaults, ts)
    ensures 1 <= |rep.vaults| == |ts| <= |cfg.vaults| == |cfg.vaultMultipliers|
    ensures forall v :: 0 <= v < |ts| ==> |ts[v]| > 0
    ensures var end := ProgressOf(rep.vaults, ts, |ts|);
      Settled(cfg, src, boosters, rep) == Scored(cfg, boosters, rep, end.loot, end.cracked, end.moves, end.last)
  {
    hide Runnable, PlaysVaultOf, FoldVault, Scored, HasBooster;
    RunnableSizes(src.engine, cfg);
    RunIsFolded(cfg, src, boosters, rep.vaults, ts, |rep.vaults|);
  }

  lemma ScoredResult(cfg: EventConfig, boosters: seq<Booster>, rep: Submission, loot: int, cracked: nat, moves: nat,
          last: VaultState)
    requires 1 <= |rep.vaults| <= |cfg.vaults| == |cfg.vaultMultipliers| && FlagFits(cfg, rep, last)
    requires cracked == if last == Cracked then |rep.vaults| else |rep.vaults| - 1
    ensures var r := Scored(cfg, boosters, rep, loot, cracked, moves, last);
      && r.Ok?
      && r.value.vaultReached == |rep.vaults| && r.value.loot == loot && r.value.totalMoves == moves
      && r.value.vaultsCracked == cracked && r.value.outcome == (if last == Cracked then Escaped else BustedOut)
      && r.value.multiplier == (if cracked == 0 then 1.0 else cfg.vaultMultipliers[cracked - 1])
      && var kept := if last == Cracked then 1.0 else KeptOnBust(cfg, Shield in boosters);
      RoundsTo(loot, r.value.multiplier, kept, cfg.lootMultiplier, r.value.score)
  {
    hide EscapeScore, BustScore, KeptOnBust, RoundsTo;
    RoundedScores(cfg, loot, |rep.vaults|, boosters);
  }

  lemma RoundedScores(cfg: EventConfig, loot: int, n: nat, boosters: seq<Booster>)
    requires 1 <= n <= |cfg.vaultMultipliers|
    ensures RoundsTo(loot, cfg.vaultMultipliers[n - 1], 1.0, cfg.lootMultiplier, EscapeScore(cfg, loot, n))
    ensures var m := if n == 1 then 1.0 else cfg.vaultMultipliers[n - 2];
      RoundsTo(loot, m, KeptOnBust(cfg, Shield in boosters), cfg.lootMultiplier, BustScore(cfg, loot, n, boosters))
  {}

  // ---- which boosters count ----

  /** Two lists with the same two boosters. */
  ghost predicate SameBoosters(b: seq<Booster>, b': seq<Booster>) {
    (ExtraMoves in b <==> ExtraMoves in b') && (Shield in b <==> Shield in b')
  }

  lemma {:induction false} FoldedSame(cfg: EventConfig, src: Source, b: seq<Booster>, b': seq<Booster>,
          vaults: seq<Moves>, n: nat)
    requires Runnable(src.engine, cfg) && n <= |vaults| <= |cfg.vaults| && SameBoosters(b, b')
    ensures Folded(cfg, src, b, vaults, n) == Folded(cfg, src, b', vaults, n)
    decreases n
  {
    hide Runnable, Played, Opened, Outputs, ArenaOf;
    if n > 0 { FoldedSame(cfg, src, b, b', vaults, n - 1); }
  }

  /** A replay depends on which boosters are listed, not on how. */
  lemma SettledSame(cfg: EventConfig, src: Source, b: seq<Booster>, b': seq<Booster>, rep: Submission)
    requires Runnable(src.engine, cfg) && SameBoosters(b, b')
    ensures Settled(cfg, src, b, rep) == Settled(cfg, src, b', rep)
  {
    hide Runnable, FoldVault, ScoreOf, EscapeScore;
    RunnableSizes(src.engine, cfg);
    if 1 <= |rep.vaults| <= |cfg.vaults| { FoldedSame(cfg, src, b, b', rep.vaults, |rep.vaults|); }
  }

  // ---- budgets, objectives and loot along a vault ----

  /** The kind of chain `k`. */
  ghost function Kind(t: seq<Snapshot>, moves: Moves, k: nat): int
    requires k < |moves| <= |t| && |moves[k]| > 0 && 0 <= moves[k][0] < |t[k].grid|
  {
    t[k].grid[moves[k][0]]
  }

  ghost predicate Kinded(t: seq<Snapshot>, moves: Moves) {
    |t| == |moves| + 1 && forall k :: 0 <= k < |moves| ==> |moves[k]| >= 3 && 0 <= moves[k][0] < |t[k].grid|
  }

  /** Tiles of one kind in the first `n` chains. */
  ghost function TilesChained(t: seq<Snapshot>, moves: Moves, kind: int, n: nat): nat
    requires Kinded(t, moves) && n <= |moves|
  {
    if n == 0 then 0
    else TilesChained(t, moves, kind, n - 1) + if Kind(t, moves, n - 1) == kind then |moves[n - 1]| else 0
  }

  /** Guard chains among the first `n`. */
  ghost function GuardChains(t: seq<Snapshot>, moves: Moves, n: nat): nat
    requires Kinded(t, moves) && n <= |moves|
  {
    if n == 0 then 0 else GuardChains(t, moves, n - 1) + if Kind(t, moves, n - 1) == GUARD then 1 else 0
  }

  ghost function LootSum(t: seq<Snapshot>, moves: Moves, n: nat): int
    requires Kinded(t, moves) && n <= |moves|
  {
    if n == 0 then 0 else LootSum(t, moves, n - 1) + ChainLoot(Kind(t, moves, n - 1), |moves[n - 1]|)
  }

  function Remaining(target: int, done: int): int {
    if target - done > 0 then target - done else 0
  }

  lemma PlaysIsKinded(a: Arena, d: Draws, start: Snapshot, moves: Moves, t: seq<Snapshot>)
    requires ArenaOk(a) && PlaysVault(a, d, start, moves, t)
    ensures Kinded(t, moves)
  {
    hide Applied, Drawable;
    forall k | 0 <= k < |moves| ensures |moves[k]| >= 3 && 0 <= moves[k][0] < |t[k].grid| {
      assert PlaysMove(a, d, t[k], moves[k], t[k + 1]);
      ChainCells(t[k].grid, a.w, moves[k]);
    }
  }

  lemma MoveNumbers(a: Arena, d: Draws, s: Snapshot, path: seq<int>)
    requires ArenaOk(a) && IsGrid(s.grid, a.w, a.h) && IsChain(s.grid, a.w, path)
    ensures var s' := Applied(a, d, s, path); var t := s.grid[path[0]];
      && s'.movesLeft == s.movesLeft - (if t == GUARD then 0 else 1)
      && s'.loot == s.loot + ChainLoot(t, |path|)
      && s'.objectives == Reduced(s.objectives, t, |path|)
      && s'.state == Decided(s'.objectives, s'.movesLeft)
  {
    hide AfterChain, Rounds, AfterRounds, HasMove, Linked, Drawable;
  }

  /** After `n` chains of a vault: the budget has paid for every chain but the guard
      chains, each objective is what the chains of its kind left of it (never below
      zero), and the loot is the sum over the chains. */
  lemma {:induction false} VaultNumbers(a: Arena, d: Draws, start: Snapshot, moves: Moves, t: seq<Snapshot>, n: nat)
    requires ArenaOk(a) && PlaysVault(a, d, start, moves, t) && Kinded(t, moves) && n <= |moves|
    requires start.objectives.key >= 0 && start.objectives.laser >= 0 && start.objectives.camera >= 0
    ensures t[n].movesLeft == start.movesLeft - (n - GuardChains(t, moves, n))
    ensures t[n].loot == start.loot + LootSum(t, moves, n)
    ensures t[n].objectives == Objectives(
              Remaining(start.objectives.key, TilesChained(t, moves, KEY, n)),
              Remaining(start.objectives.laser, TilesChained(t, moves, LASER, n)),
              Remaining(start.objectives.camera, TilesChained(t, moves, CAMERA, n)))
    ensures n > 0 ==> t[n].state == Decided(t[n].objectives, t[n].movesLeft)
    decreases n
  {
    hide Applied, IsChain, ChainLoot, Drawable, IsGrid;
    if n > 0 {
      VaultNumbers(a, d, start, moves, t, n - 1);
      assert PlaysMove(a, d, t[n - 1], moves[n - 1], t[n]);
      MoveNumbers(a, d, t[n - 1], moves[n - 1]);
    }
  }

  /** The number of chains is not bounded by the budget alone, but guard chains are the
      only excess. */
  lemma VaultLength(a: Arena, d: Draws, start: Snapshot, moves: Moves, t: seq<Snapshot>)
    requires ArenaOk(a) && PlaysVault(a, d, start, moves, t) && Kinded(t, moves) && start.movesLeft >= 1
    requires start.objectives.key >= 0 && start.objectives.laser >= 0 && start.objectives.camera >= 0
    ensures |moves| <= start.movesLeft + GuardChains(t, moves, |moves|)
  {
    hide Applied, IsChain, Drawable, IsGrid;
    if |moves| > 0 {
      var k := |moves| - 1;
      VaultNumbers(a, d, start, moves, t, k);
      assert PlaysMove(a, d, t[k], moves[k], t[k + 1]);
    }
  }

  // ---- how long a run can be ----

  const MIN_MS_PER_MOVE := 120
  const MAX_MS := 6 * 60 * 60 * 1000

  datatype Doubt = TooFast | TooSlow | TooManyMoves

  /** The most chains the plausibility check lets through: every configured vault's budget
      with the booster, and the cap on guard bonuses. */
  ghost function MoveCap(vaults: seq<Vault>, n: nat): int
    requires n <= |vaults|
  {
    if n == 0 then 0 else MoveCap(vaults, n - 1) + vaults[n - 1].moves + EXTRA_MOVES_BONUS + GUARD_BONUS_CAP
  }

  /** The moves configured for the first `n` vaults. */
  ghost function BudgetOf(vaults: seq<Vault>, n: nat): int
    requires n <= |vaults|
  {
    if n == 0 then 0 else BudgetOf(vaults, n - 1) + vaults[n - 1].moves
  }

  lemma {:induction false} CapIsBudget(vaults: seq<Vault>, n: nat)
    requires n <= |vaults|
    ensures MoveCap(vaults, n) == BudgetOf(vaults, n) + 23 * n
    decreases n
  {
    if n > 0 { CapIsBudget(vaults, n - 1); }
  }

  method TotalMoves(vaults: seq<Moves>) returns (n: nat)
    ensures n == MovesOf(vaults, |vaults|)
  {
    n := 0;
    for v := 0 to |vaults|
      invariant n == MovesOf(vaults, v)
    {
      n := n + |vaults[v]|;
    }
  }

  /** What makes a submission doubtful; it is told the first of these in this order. */
  ghost predicate Doubts(cfg: EventConfig, rep: Submission, d: Doubt) {
    var moves := MovesOf(rep.vaults, |rep.vaults|);
    match d
    case TooFast => rep.durationMs < moves * MIN_MS_PER_MOVE
    case TooSlow => rep.durationMs >= moves * MIN_MS_PER_MOVE && rep.durationMs > MAX_MS
    case TooManyMoves =>
      moves * MIN_MS_PER_MOVE <= rep.durationMs <= MAX_MS && moves > MoveCap(cfg.vaults, |cfg.vaults|)
  }

  /** Plausible: bounds that do not need the simulation. */
  method Plausible(cfg: EventConfig, rep: Submission) returns (r: Option<Doubt>)
    ensures var moves := MovesOf(rep.vaults, |rep.vaults|);
      r.None? <==>
        && moves * 120 <= rep.durationMs <= 21_600_000
        && moves <= BudgetOf(cfg.vaults, |cfg.vaults|) + 23 * |cfg.vaults|
    ensures r.Some? ==> Doubts(cfg, rep, r.value)
  {
    CapIsBudget(cfg.vaults, |cfg.vaults|);
    var moves := TotalMoves(rep.vaults);
    if rep.durationMs < moves * MIN_MS_PER_MOVE {
      return Some(TooFast);
    }
    if rep.durationMs > MAX_MS {
      return Some(TooSlow);
    }
    var maxMoves := 0;
    for v := 0 to |cfg.vaults|
      invariant maxMoves == MoveCap(cfg.vaults, v)
    {
      maxMoves := maxMoves + (cfg.vaults[v].moves + EXTRA_MOVES_BONUS + GUARD_BONUS_CAP);
    }
    if moves > maxMoves {
      return Some(TooManyMoves);
    }
    return None;
  }

  lemma {:induction false} MoveCapGrows(vaults: seq<Vault>, n: nat)
    requires n <= |vaults| && forall v :: 0 <= v < |vaults| ==> vaults[v].moves >= 0
    ensures MoveCap(vaults, n) <= MoveCap(vaults, |vaults|)
    decreases |vaults| - n
  {
    if n < |vaults| { MoveCapGrows(vaults, n + 1); }
  }

  /** One vault of a run: its chains, minus its guard chains, fit its budget. */
  lemma RunVaultLength(cfg: EventConfig, src: Source, boosters: seq<Booster>, moves: Moves, v: nat, p: nat,
          t: seq<Snapshot>)
    requires Runnable(src.engine, cfg) && v < |cfg.vaults| && PlaysVaultOf(cfg, src, boosters, moves, v, p, t)
    ensures Kinded(t, moves)
    ensures |moves| <= cfg.vaults[v].moves + EXTRA_MOVES_BONUS + GuardChains(t, moves, |moves|)
  {
    hide CanGenerate, Lively, PlaysVault, Outputs, Drawable, Locked, Rounds, AfterRounds, HasMove, DifficultyPct,
         GuardChains, Kinded;
    RunnableVault(src, cfg, v);
    var a, start := ArenaOf(src.engine, cfg, v), Start(cfg, src, boosters, v, p);
    assert ValidVault(cfg.vaults[v], cfg.w * cfg.h);
    assert ArenaOk(a) by { ArenaIsOk(a, Outputs(src.seed)); }
    PlaysIsKinded(a, Outputs(src.seed), start, moves, t);
    PercentPositive(cfg);
    VaultLength(a, Outputs(src.seed), start, moves, t);
  }

  lemma ArenaIsOk(a: Arena, d: Draws)
    requires CanGenerate(a, d)
    ensures ArenaOk(a)
  {}

  lemma PercentPositive(cfg: EventConfig)
    requires Valid(cfg)
    ensures var pct := DifficultyPct(cfg);
      pct >= 25 && pct as real <= 100.0 * cfg.difficulty + 0.5 < pct as real + 1.0
    ensures forall v :: 0 <= v < |cfg.vaults| ==>
      var o := ScaledObjectives(cfg.vaults[v].objectives, DifficultyPct(cfg));
      o.key >= 0 && o.laser >= 0 && o.camera >= 0
  {
    var pct := DifficultyPct(cfg);
    assert cfg.difficulty * 100.0 >= 25.0;
    forall v | 0 <= v < |cfg.vaults|
      ensures var o := ScaledObjectives(cfg.vaults[v].objectives, pct); o.key >= 0 && o.laser >= 0 && o.camera >= 0
    {
      assert ValidVault(cfg.vaults[v], cfg.w * cfg.h);
      var o := cfg.vaults[v].objectives;
      assert o.key * pct >= 0 && o.laser * pct >= 0 && o.camera * pct >= 0;
    }
  }

  lemma {:induction false} RunLength(cfg: EventConfig, src: Source, boosters: seq<Booster>, vaults: seq<Moves>,
          ts: seq<seq<Snapshot>>, n: nat)
    requires Runnable(src.engine, cfg) && PlaysRun(cfg, src, boosters, vaults, ts) && n <= |vaults|
    requires forall v :: 0 <= v < n ==>
      Kinded(ts[v], vaults[v]) ==> GuardChains(ts[v], vaults[v], |vaults[v]|) <= GUARD_BONUS_CAP
    ensures MovesOf(vaults, n) <= MoveCap(cfg.vaults, n)
    decreases n
  {
    hide Runnable, PlaysVaultOf, HasBooster, Kinded, GuardChains;
    if n > 0 {
      RunLength(cfg, src, boosters, vaults, ts, n - 1);
      RunVaultLength(cfg, src, boosters, vaults[n - 1], n - 1, Begins(ts, n - 1), ts[n - 1]);
    }
  }

  /** A legal run with at most twenty guard chains in each vault never exceeds the number
      of chains the plausibility check allows. */
  lemma LegalRunIsPlausible(cfg: EventConfig, src: Source, boosters: seq<Booster>, rep: Submission,
          ts: seq<seq<Snapshot>>)
    requires Runnable(src.engine, cfg) && PlaysRun(cfg, src, boosters, rep.vaults, ts)
    requires forall v :: 0 <= v < |rep.vaults| ==>
      Kinded(ts[v], rep.vaults[v]) ==> GuardChains(ts[v], rep.vaults[v], |rep.vaults[v]|) <= 20
    ensures MovesOf(rep.vaults, |rep.vaults|) <= BudgetOf(cfg.vaults, |cfg.vaults|) + 23 * |cfg.vaults|
  {
    hide PlaysVaultOf, HasBooster, Kinded, GuardChains;
    CapIsBudget(cfg.vaults, |cfg.vaults|);
    RunLength(cfg, src, boosters, rep.vaults, ts, |rep.vaults|);
    forall v | 0 <= v < |cfg.vaults| ensures cfg.vaults[v].moves >= 0 {
      assert ValidVault(cfg.vaults[v], cfg.w * cfg.h);
    }
    MoveCapGrows(cfg.vaults, |rep.vaults|);
  }

  // ---- a vault with nothing to disable ----

  /** Vault `v` opens in play with every objective at zero, whatever the stream. */
  ghost predicate StartsDone(cfg: EventConfig, v: nat)
    requires v < |cfg.vaults|
  {
    forall src: Source, boosters: seq<Booster>, p: nat :: Runnable(src.engine, cfg) ==>
      var s := Start(cfg, src, boosters, v, p); s.state == Playing && AllDone(s.objectives)
  }

  lemma StartObjectives(cfg: EventConfig, src: Source, boosters: seq<Booster>, v: nat, p: nat)
    requires Runnable(src.engine, cfg) && v < |cfg.vaults|
    ensures var s := Start(cfg, src, boosters, v, p);
      s.state == Playing && s.objectives == ScaledObjectives(cfg.vaults[v].objectives, DifficultyPct(cfg))
  {
    hide Runnable, CanGenerate, Outputs, Locked, Rounds, AfterRounds, HasMove, ScaledObjectives;
  }

  /** Vault `v` of a run, whoever plays it and wherever in the stream it begins, opens as it
      is configured: a full board with its locks, its budget and three moves more with the
      booster, and its objectives times the difficulty in percent, which is rounded. */
  lemma VaultOpens(cfg: EventConfig, src: Source, boosters: seq<Booster>, v: nat, p: nat)
    requires Runnable(src.engine, cfg) && v < |cfg.vaults|
    ensures var s := Start(cfg, src, boosters, v, p);
      && Full(s.grid) && CountOf(s.grid, LOCK) == cfg.vaults[v].locks && s.state == Playing && s.loot == 0
      && s.movesLeft == cfg.vaults[v].moves + (if ExtraMoves in boosters then 3 else 0)
    ensures var s, o, pct := Start(cfg, src, boosters, v, p).objectives, cfg.vaults[v].objectives, DifficultyPct(cfg);
      && pct as real <= 100.0 * cfg.difficulty + 0.5 < pct as real + 1.0
      && PercentOf(o.key, pct, s.key) && PercentOf(o.laser, pct, s.laser) && PercentOf(o.camera, pct, s.camera)
  {
    hide CanGenerate, Outputs, Opened, CountOf, PercentOf, BoundOf, DifficultyPct;
    RunnableVault(src, cfg, v);
    assert ValidVault(cfg.vaults[v], cfg.w * cfg.h);
    PercentPositive(cfg);
    OpenedLaws(ArenaOf(src.engine, cfg, v), Outputs(src.seed), p, DifficultyPct(cfg), HasBooster(boosters, ExtraMoves));
  }

  /** It happens: at the lowest difficulty a single objective of one tile is scaled to
      nothing, in a configuration that passes validation. */
  lemma NothingToDisableHappens()
    ensures exists cfg: EventConfig :: Runnable(Server, cfg) && Runnable(Browser, cfg) && StartsDone(cfg, 0)
  {
    hide Start;
    var v := Vault(10, Objectives(1, 0, 0), 0, Weights(1, 1, 1, 1, 1, 1));
    var cfg := EventConfig(1, 0.25, 1.0, 1, 7, 7, [1.0], 0.5, [v]);
    assert ValidVault(v, cfg.w * cfg.h);
    assert Valid(cfg);
    assert DifficultyPct(cfg) == 25;
    assert Scale(1, 25) == 0 && Scale(0, 25) == 0;
    forall src: Source, boosters: seq<Booster>, p: nat | Runnable(src.engine, cfg)
      ensures var s := Start(cfg, src, boosters, 0, p); s.state == Playing && AllDone(s.objectives)
    {
      StartObjectives(cfg, src, boosters, 0, p);
    }
    assert StartsDone(cfg, 0);
    assert Runnable(Server, cfg);
    assert Runnable(Browser, cfg);
  }
}

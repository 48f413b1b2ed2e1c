/** Where a run stands in its stream of random draws, and what its boards keep. */
module StreamLaws {
  import opened Words
  import opened Rng
  import opened Generators
  import opened Config
  import opened Board
  import opened Tiles
  import opened Play
  import opened Accounting
  import opened MoveLaws
  import opened OpeningLaws
  import opened Simulation
  import opened Replay
  import opened ReplayLaws

  ghost function Freed(a: Arena, d: Draws, s: Snapshot, path: seq<int>): nat
    requires ArenaOk(a) && IsGrid(s.grid, a.w, a.h) && IsChain(s.grid, a.w, path)
  {
    |Report(a, d, s, path).unlocked|
  }

  /** What move `k` of a vault draws: a tile per opened lock, a tile per chained cell, and
      a tile per unlocked cell in every redraw. */
  ghost function MoveDraws(a: Arena, d: Draws, moves: Moves, t: seq<Snapshot>, k: nat): int
    requires ArenaOk(a) && k < |moves| && |t| == |moves| + 1 && IsGrid(t[k].grid, a.w, a.h)
    requires PlaysMove(a, d, t[k], moves[k], t[k + 1])
  {
    Freed(a, d, t[k], moves[k]) + |moves[k]|
    + (t[k + 1].reshuffles - t[k].reshuffles) * (a.w * a.h - CountOf(t[k + 1].grid, LOCK))
  }

  ghost function DrawsOf(a: Arena, d: Draws, start: Snapshot, moves: Moves, t: seq<Snapshot>, n: nat): int
    requires ArenaOk(a) && PlaysVault(a, d, start, moves, t) && n <= |moves|
  {
    if n == 0 then 0 else DrawsOf(a, d, start, moves, t, n - 1) + MoveDraws(a, d, moves, t, n - 1)
  }

  ghost function FreedOf(a: Arena, d: Draws, start: Snapshot, moves: Moves, t: seq<Snapshot>, n: nat): nat
    requires ArenaOk(a) && PlaysVault(a, d, start, moves, t) && n <= |moves|
  {
    if n == 0 then 0
    else
      assert PlaysMove(a, d, t[n - 1], moves[n - 1], t[n]);
      FreedOf(a, d, start, moves, t, n - 1) + Freed(a, d, t[n - 1], moves[n - 1])
  }

  /** After every move of a vault the board is full, the locks that are gone are the ones
      that were reported open, and the position in the stream counts every draw. */
  lemma {:induction false} VaultAccounting(a: Arena, d: Draws, start: Snapshot, moves: Moves, t: seq<Snapshot>, n: nat)
    requires ArenaOk(a) && PlaysVault(a, d, start, moves, t) && n <= |moves| && Full(start.grid)
    ensures IsGrid(t[n].grid, a.w, a.h) && Full(t[n].grid)
    ensures CountOf(t[n].grid, LOCK) == CountOf(start.grid, LOCK) - FreedOf(a, d, start, moves, t, n)
    ensures t[n].drawn == start.drawn + DrawsOf(a, d, start, moves, t, n)
    ensures n > 0 && t[n].state == Playing ==>
      HasMove(t[n].grid, a.w) || t[n].reshuffles == t[n - 1].reshuffles + MAX_ROUNDS
    decreases n
  {
    hide Applied, IsChain, Drawable, HasMove, CountOf, Report;
    if n > 0 {
      VaultAccounting(a, d, start, moves, t, n - 1);
      assert PlaysMove(a, d, t[n - 1], moves[n - 1], t[n]);
      MoveAccounting(a, d, t[n - 1], moves[n - 1]);
      MoveLeavesAMove(a, d, t[n - 1], moves[n - 1]);
    }
  }

  /** So throughout a vault the generator's state is the seed plus the step times the
      draws before the vault and in it, modulo 2^32. */
  lemma VaultState(a: Arena, seed: bv32, start: Snapshot, moves: Moves, t: seq<Snapshot>, n: nat)
    requires ArenaOk(a) && PlaysVault(a, Outputs(seed), start, moves, t) && n <= |moves| && Full(start.grid)
    ensures var k := start.drawn + DrawsOf(a, Outputs(seed), start, moves, t, n);
      k >= 0 && n < |t| && t[n].drawn == k && Nat(StateAfter(seed, k)) == (Nat(seed) + k * 0x6D2B79F5) % MODULUS
  {
    hide *;
    TraceLength(a, Outputs(seed), start, moves, t);
    VaultAccounting(a, Outputs(seed), start, moves, t, n);
    StateCountsDraws(seed, t[n].drawn);
  }

  lemma TraceLength(a: Arena, d: Draws, start: Snapshot, moves: Moves, t: seq<Snapshot>)
    requires ArenaOk(a) && PlaysVault(a, d, start, moves, t)
    ensures |t| == |moves| + 1
  {}

  // ---- the whole run ----

  /** What vault `v` of a run draws: setting it up, and its moves. */
  ghost function VaultDraws(cfg: EventConfig, src: Source, boosters: seq<Booster>, vaults: seq<Moves>,
          ts: seq<seq<Snapshot>>, v: nat): int
    requires Runnable(src.engine, cfg) && PlaysRun(cfg, src, boosters, vaults, ts) && v < |ts|
  {
    RunnableVault(src, cfg, v);
    var a, d := ArenaOf(src.engine, cfg, v), Outputs(src.seed);
    var start := Start(cfg, src, boosters, v, Begins(ts, v));
    OpeningDraws(a, d, Begins(ts, v), start.reshuffles) + DrawsOf(a, d, start, vaults[v], ts[v], |vaults[v]|)
  }

  ghost function RunDraws(cfg: EventConfig, src: Source, boosters: seq<Booster>, vaults: seq<Moves>,
          ts: seq<seq<Snapshot>>, n: nat): int
    requires Runnable(src.engine, cfg) && PlaysRun(cfg, src, boosters, vaults, ts) && n <= |ts|
  {
    if n == 0 then 0
    else RunDraws(cfg, src, boosters, vaults, ts, n - 1) + VaultDraws(cfg, src, boosters, vaults, ts, n - 1)
  }

  lemma VaultEnds(cfg: EventConfig, src: Source, boosters: seq<Booster>, vaults: seq<Moves>, ts: seq<seq<Snapshot>>,
          v: nat)
    requires Runnable(src.engine, cfg) && PlaysRun(cfg, src, boosters, vaults, ts) && v < |ts|
    ensures Last(ts[v]).drawn == Begins(ts, v) + VaultDraws(cfg, src, boosters, vaults, ts, v)
    ensures Full(Last(ts[v]).grid)
  {
    hide Runnable, CanGenerate, OpeningDraws, PlaysVault, Outputs, Opened, DrawsOf, Full, CountOf, HasMove;
    RunnableVault(src, cfg, v);
    var a, d, p := ArenaOf(src.engine, cfg, v), Outputs(src.seed), Begins(ts, v);
    ArenaIsOk(a, d);
    OpenedDraws(a, d, p, DifficultyPct(cfg), HasBooster(boosters, ExtraMoves));
    OpenedLaws(a, d, p, DifficultyPct(cfg), HasBooster(boosters, ExtraMoves));
    var start := Start(cfg, src, boosters, v, p);
    assert PlaysVaultOf(cfg, src, boosters, vaults[v], v, p, ts[v]);
    TraceLength(a, d, start, vaults[v], ts[v]);
    VaultAccounting(a, d, start, vaults[v], ts[v], |vaults[v]|);
  }

  lemma {:induction false} RunCounts(cfg: EventConfig, src: Source, boosters: seq<Booster>, vaults: seq<Moves>,
          ts: seq<seq<Snapshot>>, n: nat)
    requires Runnable(src.engine, cfg) && PlaysRun(cfg, src, boosters, vaults, ts) && n <= |ts|
    ensures Begins(ts, n) == RunDraws(cfg, src, boosters, vaults, ts, n)
    decreases n
  {
    hide Runnable, PlaysRun, VaultDraws;
    if n > 0 {
      RunCounts(cfg, src, boosters, vaults, ts, n - 1);
      VaultEnds(cfg, src, boosters, vaults, ts, n - 1);
    }
  }

  /** Over a whole run, vault after vault on one stream: the position counts every draw of
      every vault, and the generator's state is the seed plus the step times that number,
      modulo 2^32. */
  lemma RunState(cfg: EventConfig, src: Source, boosters: seq<Booster>, vaults: seq<Moves>, ts: seq<seq<Snapshot>>,
          v: nat)
    requires Runnable(src.engine, cfg) && PlaysRun(cfg, src, boosters, vaults, ts) && v < |ts|
    ensures var k := RunDraws(cfg, src, boosters, vaults, ts, v + 1);
      k >= 0 && Last(ts[v]).drawn == k && Nat(StateAfter(src.seed, k)) == (Nat(src.seed) + k * 0x6D2B79F5) % MODULUS
  {
    hide *;
    RunCounts(cfg, src, boosters, vaults, ts, v + 1);
    EndsWhere(cfg, src, boosters, vaults, ts, v);
    StateCountsDraws(src.seed, Last(ts[v]).drawn);
  }

  lemma EndsWhere(cfg: EventConfig, src: Source, boosters: seq<Booster>, vaults: seq<Moves>, ts: seq<seq<Snapshot>>,
          v: nat)
    requires Runnable(src.engine, cfg) && PlaysRun(cfg, src, boosters, vaults, ts) && v < |ts|
    ensures (forall i :: 0 <= i < |ts| ==> |ts[i]| > 0) && Begins(ts, v + 1) == Last(ts[v]).drawn
  {
    hide Runnable, PlaysVaultOf;
  }
}

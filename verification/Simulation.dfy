/** The vault simulator: an object that owns its board and borrows the run's generator
    (the Sim of engine.go and engine.ts). Every method is proved against Play. */
module Simulation {
  import opened Wrappers
  import opened Rng
  import opened Generators
  import opened Config
  import opened Board
  import opened Tiles
  import opened Gravity
  import opened MoveSearch
  import opened Play
  import GravityReport

  function HasBooster(boosters: seq<Booster>, b: Booster): bool {
    b in boosters
  }

  class Sim {
    const w: int
    const h: int
    const grid: array<int>
    const vault: Vault
    const rng: Generator
    var objectives: Objectives
    var movesLeft: int
    var loot: int
    var state: VaultState
    var reshuffles: nat

    ghost predicate Valid()
      reads this, grid, rng
    {
      IsGrid(grid[..], w, h) && rng.Valid() && Drawable(Setting().Deck())
    }

    ghost function Setting(): (a: Arena) {
      Arena(w, h, vault, BoundOf(rng.engine, vault.weights.Total()))
    }

    /** The board and the position of the generator. */
    ghost function Here(): Spot
      reads this, grid, rng
    {
      Spot(grid[..], rng.drawn)
    }

    ghost function Snap(): Snapshot
      reads this, grid, rng
    {
      Snapshot(grid[..], objectives, movesLeft, loot, state, reshuffles, rng.drawn)
    }

    /** NewSim: a fresh board from the shared generator. */
    constructor (rng: Generator, cfg: EventConfig, vaultIndex: nat, boosters: seq<Booster>)
      requires rng.Valid() && vaultIndex < |cfg.vaults|
      requires CanGenerate(ArenaOf(rng.engine, cfg, vaultIndex), rng.Stream())
      modifies rng
      ensures Valid() && fresh(grid) && this.rng == rng && Setting() == ArenaOf(rng.engine, cfg, vaultIndex)
      ensures Snap()
        == Opened(ArenaOf(rng.engine, cfg, vaultIndex), rng.Stream(), old(rng.drawn), DifficultyPct(cfg),
                  HasBooster(boosters, ExtraMoves))
    {
      hide Outputs, Generator.Valid, Locked, Drawable;
      var v := cfg.vaults[vaultIndex];
      w, h, vault, this.rng := cfg.w, cfg.h, v, rng;
      objectives := ScaledObjectives(v.objectives, DifficultyPct(cfg));
      movesLeft := v.moves + if HasBooster(boosters, ExtraMoves) then EXTRA_MOVES_BONUS else 0;
      loot, state, reshuffles := 0, Playing, 0;
      grid := new int[cfg.w * cfg.h];
      new;
      Generate();
    }

    method Generate()
      requires Valid() && CanGenerate(Setting(), rng.Stream()) && reshuffles == 0
      modifies this, grid, rng
      ensures Valid()
      ensures objectives == old(objectives) && movesLeft == old(movesLeft) && loot == old(loot) && state == old(state)
      ensures var spot := Locked(Setting(), rng.Stream(), old(rng.drawn));
        && reshuffles == (if HasMove(spot.grid, w) then 0 else Rounds(Setting(), rng.Stream(), spot, MAX_ROUNDS))
        && Here() == AfterRounds(Setting(), rng.Stream(), spot, reshuffles)
    {
      hide Outputs, Generator.Valid, PlaceLocks, Drawable, Lively;
      Fill();
      ghost var a, d := Setting(), rng.Stream();
      assert Here() == Filled(a, d, old(rng.drawn));
      PlaceAllLocks();
      var found := HasAnyMove(grid, w, h);
      if !found {
        Reshuffle();
      }
    }

    ghost function WaitHere(): nat
      requires Valid() && CanGenerate(Setting(), rng.Stream()) && |Locks(grid[..])| < w * h / 2
      reads this, grid, rng
    {
      Wait(rng.Stream(), w * h, Locks(grid[..]), rng.drawn)
    }

    /** One round of the lock placement loop, with `k` locks still to place. */
    method TryLock(ghost k: nat) returns (hit: bool)
      requires Valid() && CanGenerate(Setting(), rng.Stream())
      requires k > 0 && |Locks(grid[..])| + k <= w * h / 2
      modifies grid, rng
      ensures Valid()
      ensures var left := if hit then k - 1 else k;
        && |Locks(grid[..])| + left == old(|Locks(grid[..])|) + k
        && PlaceLocks(rng.Stream(), Here(), left) == PlaceLocks(rng.Stream(), old(Here()), k)
      ensures !hit ==> WaitHere() < old(WaitHere())
    {
      hide Outputs, Generator.Valid, Drawable, Lively, Below, Wait, Locks;
      ghost var g := grid[..];
      var idx := rng.NextInt(w * h);
      hit := grid[idx] != LOCK;
      if hit {
        LockSetUpdate(g, idx);
        grid[idx] := LOCK;
        assert grid[..] == g[idx := LOCK];
      } else {
        assert idx in Locks(g) by { LockIsIn(g, idx); }
        LivelyEscapes(rng.Stream(), w * h, Locks(g), old(rng.drawn));
        MissShortensWait(rng.Stream(), w * h, Locks(g), old(rng.drawn));
      }
    }

    lemma LockIsIn(g: seq<int>, i: int)
      requires 0 <= i < |g| && g[i] == LOCK
      ensures i in Locks(g)
    {}

    /** Draws until the vault has its locks; it ends because the stream is lively. */
    method PlaceAllLocks()
      requires Valid() && CanGenerate(Setting(), rng.Stream()) && Locks(grid[..]) == {}
      modifies grid, rng
      ensures Valid()
      ensures Here() == PlaceLocks(rng.Stream(), old(Here()), vault.locks)
    {
      hide Outputs, Generator.Valid, Drawable, Lively, Below, Wait, Locks, WaitHere;
      var placed := 0;
      while placed < vault.locks
        invariant Valid() && placed <= vault.locks && |Locks(grid[..])| == placed
        invariant PlaceLocks(rng.Stream(), Here(), vault.locks - placed)
          == PlaceLocks(rng.Stream(), old(Here()), vault.locks)
        decreases vault.locks - placed, if placed < vault.locks then WaitHere() else 0
      {
        var hit := TryLock(vault.locks - placed);
        if hit {
          placed := placed + 1;
        }
      }
    }

    method Fill()
      requires Valid()
      modifies grid, rng
      ensures Valid()
      ensures Here() == Spot(Fresh(rng.Stream(), old(rng.drawn), w * h, Setting().Deck()), old(rng.drawn) + w * h)
    {
      hide Outputs, Generator.Valid, Drawable;
      ghost var d, p := rng.Stream(), rng.drawn;
      for i := 0 to grid.Length
        invariant rng.Valid() && rng.drawn == p + i
        invariant grid[..i] == Fresh(d, p, i, Setting().Deck())
      {
        var t := RandomTile(rng, vault.weights);
        FreshMore(d, p, i, Setting().Deck());
        grid[i] := t;
        assert grid[..i + 1] == grid[..i] + [t];
      }
      assert grid[..] == grid[..w * h];
    }

    /** A redraw in progress: cells below `i` are done. */
    ghost predicate Redrawn(g: seq<int>, m: seq<bool>, p: nat, i: nat)
      requires |m| == |g| && i <= |g|
      reads this, grid, rng
    {
      && Valid() && |g| == grid.Length
      && rng.drawn == p + Rank(m, i)
      && grid[..] == Redraw(g, m, rng.Stream(), p, Setting().Deck())[..i] + g[i..]
    }

    /** Draws a tile for cell `i` if it is marked. */
    method RedrawCell(ghost g: seq<int>, ghost m: seq<bool>, ghost p: nat, i: nat, marked: bool)
      requires |m| == |g| && i < |g| && Redrawn(g, m, p, i) && marked == m[i]
      modifies grid, rng
      ensures Redrawn(g, m, p, i + 1)
    {
      hide Outputs, Generator.Valid, Drawable, TileAt;
      ghost var whole := Redraw(g, m, rng.Stream(), p, Setting().Deck());
      assert Rank(m, i + 1) == Rank(m, i) + if m[i] then 1 else 0;
      if marked {
        var t := RandomTile(rng, vault.weights);
        assert t == whole[i];
        grid[i] := t;
      }
      assert whole[..i + 1] == whole[..i] + [whole[i]];
    }

    method UnlockCell(ghost g: seq<int>, ghost m: seq<bool>, ghost p: nat, idx: nat, path: seq<int>)
      returns (open: bool)
      requires |m| == |g| && idx < |g| && Redrawn(g, m, p, idx)
      requires w > 0 && m[idx] == Unlocks(g, w, h, path, idx)
      modifies grid, rng
      ensures Redrawn(g, m, p, idx + 1) && open == m[idx]
    {
      RestKept(g, m, p, idx);
      hide Valid, Redrawn;
      var r, c := idx / w, idx % w;
      open := grid[idx] == LOCK
        && ((r > 0 && idx - w in path) || (r < h - 1 && idx + w in path)
            || (c > 0 && idx - 1 in path) || (c < w - 1 && idx + 1 in path));
      RedrawCell(g, m, p, idx, open);
    }

    /** Over all cells in index order. */
    method UnlockScan(ghost g: seq<int>, ghost m: seq<bool>, ghost p: nat, path: seq<int>) returns (unlocked: seq<int>)
      requires w > 0 && |m| == |g| == grid.Length && Redrawn(g, m, p, 0)
      requires forall i :: 0 <= i < |g| ==> m[i] == Unlocks(g, w, h, path, i)
      modifies grid, rng
      ensures Redrawn(g, m, p, |g|) && unlocked == Listed(m, |m|)
    {
      hide Redrawn, Unlocks, Valid;
      unlocked := [];
      for idx := 0 to grid.Length
        invariant Redrawn(g, m, p, idx)
        invariant unlocked == Listed(m, idx)
      {
        var open := UnlockCell(g, m, p, idx, path);
        if open {
          unlocked := unlocked + [idx];
        }
      }
    }

    method UnlockLocks(path: seq<int>) returns (unlocked: seq<int>)
      requires Valid()
      modifies grid, rng
      ensures Valid()
      ensures Here() == AfterUnlock(Setting(), rng.Stream(), old(Here()), path)
      ensures unlocked == old(ListedUnlocks(path))
    {
      hide Redraw, Rank, Redrawn, Unlocks, Generator.Valid, Drawable;
      ghost var g, p := grid[..], rng.drawn;
      ghost var m := UnlockMarks(g, w, h, path);
      StartRedraw(g, m, p);
      unlocked := UnlockScan(g, m, p, path);
      EndRedraw(g, m, p);
    }

    ghost function ListedUnlocks(path: seq<int>): seq<int>
      requires Valid()
      reads this, grid, rng
    {
      var m := UnlockMarks(grid[..], w, h, path);
      Listed(m, |m|)
    }

    lemma StartRedraw(g: seq<int>, m: seq<bool>, p: nat)
      requires Valid() && g == grid[..] && |m| == |g| && p == rng.drawn
      ensures Redrawn(g, m, p, 0) && w > 0
    {}

    lemma RestKept(g: seq<int>, m: seq<bool>, p: nat, i: nat)
      requires |m| == |g| && i < |g| && Redrawn(g, m, p, i)
      ensures i < grid.Length && grid[i] == g[i] && w > 0
    {}

    lemma EndRedraw(g: seq<int>, m: seq<bool>, p: nat)
      requires |m| == |g| && Redrawn(g, m, p, |g|)
      ensures Valid() && ArenaOk(Setting()) && |g| == w * h
      ensures Here() == Spot(Redraw(g, m, rng.Stream(), p, Setting().Deck()), p + Count(m))
    {}

    method RedrawAll()
      requires Valid()
      modifies grid, rng
      ensures Valid() && ArenaOk(Setting())
      ensures Here() == Round(Setting(), rng.Stream(), old(Here()))
    {
      hide Valid, Redraw, Rank;
      ghost var g, p := grid[..], rng.drawn;
      ghost var m := NonLocks(g);
      StartRedraw(g, m, p);
      for i := 0 to grid.Length
        invariant Redrawn(g, m, p, i)
      {
        RestKept(g, m, p, i);
        RedrawCell(g, m, p, i, grid[i] != LOCK);
      }
      EndRedraw(g, m, p);
    }

    lemma NoRound(a: Arena, d: Draws, s: Spot)
      requires ArenaOk(a)
      ensures Rounds(a, d, s, 0) == 0 && AfterRounds(a, d, s, 0) == s
    {}

    lemma OneRound(a: Arena, d: Draws, s: Spot, left: nat)
      requires ArenaOk(a) && left > 0
      ensures Rounds(a, d, s, left)
        == 1 + (if HasMove(Round(a, d, s).grid, a.w) then 0 else Rounds(a, d, Round(a, d, s), left - 1))
      ensures AfterRounds(a, d, s, Rounds(a, d, s, left))
        == AfterRounds(a, d, Round(a, d, s), Rounds(a, d, s, left) - 1)
    {
      hide Round, HasMove;
    }

    /** At most a hundred rounds, until a move exists. */
    method Reshuffle()
      requires Valid()
      modifies this, grid, rng
      ensures Valid() && ArenaOk(Setting())
      ensures var n := Rounds(Setting(), rng.Stream(), old(Here()), MAX_ROUNDS);
        && Here() == AfterRounds(Setting(), rng.Stream(), old(Here()), n)
        && reshuffles == old(reshuffles) + n
      ensures objectives == old(objectives) && movesLeft == old(movesLeft) && loot == old(loot) && state == old(state)
    {
      hide Outputs, Generator.Valid, Round, Drawable, Rounds, AfterRounds, HasMove;
      ghost var a, d, s := Setting(), rng.Stream(), Here();
      ghost var n := Rounds(a, d, s, MAX_ROUNDS);
      NoRound(a, d, s);
      for attempt := 0 to 100
        invariant Valid()
        invariant reshuffles == old(reshuffles) + attempt
        invariant n == attempt + Rounds(a, d, Here(), 100 - attempt)
        invariant AfterRounds(a, d, s, n) == AfterRounds(a, d, Here(), n - attempt)
        invariant objectives == old(objectives) && movesLeft == old(movesLeft) && loot == old(loot)
        invariant state == old(state)
      {
        OneRound(a, d, Here(), 100 - attempt);
        RedrawAll();
        NoRound(a, d, Here());
        reshuffles := reshuffles + 1;
        var found := HasAnyMove(grid, w, h);
        if found {
          return;
        }
      }
      NoRound(a, d, Here());
    }

    method ClearChain(path: seq<int>)
      requires Valid() && forall k :: 0 <= k < |path| ==> 0 <= path[k] < grid.Length
      modifies grid
      ensures Valid() && grid[..] == Cleared(old(grid[..]), path)
    {
      hide Generator.Valid, Drawable;
      ghost var g := grid[..];
      for k := 0 to |path|
        invariant Valid() && grid[..] == Cleared(g, path[..k])
      {
        grid[path[k]] := EMPTY;
        assert path[..k + 1] == path[..k] + [path[k]];
        forall i | 0 <= i < grid.Length ensures grid[i] == Cleared(g, path[..k + 1])[i] {}
      }
      assert path[..|path|] == path;
    }

    /** Unlock, remove the chain, fall and refill. */
    method ResolveBoard(path: seq<int>) returns (unlocked: seq<int>)
      requires Valid() && forall k :: 0 <= k < |path| ==> 0 <= path[k] < grid.Length
      modifies grid, rng
      ensures Valid() && ArenaOk(Setting())
      ensures Here() == AfterChain(Setting(), rng.Stream(), old(Here()), path)
      ensures unlocked == old(ListedUnlocks(path))
    {
      hide Outputs, Generator.Valid, Drawable, AfterUnlock, Cleared, Collapsed, GapsBefore, ListedUnlocks;
      unlocked := UnlockLocks(path);
      ClearChain(path);
      CollapseAndRefill(grid, w, h, rng, vault.weights);
    }

    /** The same with the browser's gravity: an equal board, and a report per column. */
    method ResolveWithReport(path: seq<int>) returns (unlocked: seq<int>, report: seq<GravityReport.ColumnGravity>)
      requires Valid() && forall k :: 0 <= k < |path| ==> 0 <= path[k] < grid.Length
      modifies grid, rng
      ensures Valid() && ArenaOk(Setting())
      ensures Here() == AfterChain(Setting(), rng.Stream(), old(Here()), path)
      ensures unlocked == old(ListedUnlocks(path))
      ensures |report| == w
      ensures var g := Cleared(AfterUnlock(Setting(), rng.Stream(), old(Here()), path).grid, path);
        forall c :: 0 <= c < w ==> report[c] == GravityReport.ReportOf(g, w, h, c)
    {
      hide Outputs, Generator.Valid, Drawable, AfterUnlock, Cleared, Collapsed, GapsBefore, ListedUnlocks,
           GravityReport.ReportOf;
      unlocked := UnlockLocks(path);
      ClearChain(path);
      report := GravityReport.CollapseAndRefill(grid, w, h, rng, vault.weights);
    }

    /** Each engine with its own gravity. */
    method Resolve(path: seq<int>) returns (unlocked: seq<int>, gravity: seq<GravityReport.ColumnGravity>)
      requires Valid() && forall k :: 0 <= k < |path| ==> 0 <= path[k] < grid.Length
      modifies grid, rng
      ensures Valid() && ArenaOk(Setting())
      ensures Here() == AfterChain(Setting(), rng.Stream(), old(Here()), path)
      ensures unlocked == old(ListedUnlocks(path))
      ensures rng.engine == Browser ==> Reported(old(Here()), path, gravity)
    {
      hide Outputs, Generator.Valid, Drawable, AfterChain, AfterUnlock, Cleared, ListedUnlocks, GravityReport.ReportOf;
      gravity := [];
      if rng.engine == Server {
        unlocked := ResolveBoard(path);
      } else {
        unlocked, gravity := ResolveWithReport(path);
      }
    }

    /** What the columns report to the browser when this chain is played. */
    ghost predicate Reported(s: Spot, path: seq<int>, gravity: seq<GravityReport.ColumnGravity>)
      requires ArenaOk(Setting()) && IsGrid(s.grid, w, h)
    {
      var g := Cleared(AfterUnlock(Setting(), rng.Stream(), s, path).grid, path);
      |gravity| == w && forall c :: 0 <= c < w ==> gravity[c] == GravityReport.ReportOf(g, w, h, c)
    }

    /** A move. An illegal one, or one after the vault was decided, changes nothing. The
        browser's engine also reports the fall of every column. */
    method Apply(path: seq<int>) returns (r: Result<MoveResult, MoveError>, gravity: seq<GravityReport.ColumnGravity>)
      requires Valid()
      modifies this, grid, rng
      ensures Valid() && ArenaOk(Setting())
      ensures old(state) != Playing ==> r == Err(NotPlaying) && Snap() == old(Snap())
      ensures old(state) == Playing && !old(IsChain(grid[..], w, path)) ==>
        r.Err? && old(PathVerdict(grid[..], w, path)) == Illegal(r.error) && Snap() == old(Snap())
      ensures old(state) == Playing && old(IsChain(grid[..], w, path)) ==>
        && Snap() == Applied(Setting(), rng.Stream(), old(Snap()), path)
        && r == Ok(Report(Setting(), rng.Stream(), old(Snap()), path))
        && (rng.engine == Browser ==> Reported(old(Here()), path, gravity))
    {
      hide Outputs, Generator.Valid, Drawable, AfterChain, PathVerdict, Linked, Reported;
      gravity := [];
      if state != Playing {
        return Err(NotPlaying), [];
      }
      LegalIffChain(grid[..], w, path);
      var verdict := ValidatePath(grid, w, path);
      if verdict.Illegal? {
        return Err(verdict.why), [];
      }
      r, gravity := ApplyLegal(path);
    }

    method ApplyLegal(path: seq<int>)
      returns (r: Result<MoveResult, MoveError>, gravity: seq<GravityReport.ColumnGravity>)
      requires Valid() && state == Playing && IsChain(grid[..], w, path)
      modifies this, grid, rng
      ensures Valid() && ArenaOk(Setting())
      ensures Snap() == Applied(Setting(), rng.Stream(), old(Snap()), path)
      ensures r == Ok(Report(Setting(), rng.Stream(), old(Snap()), path))
      ensures rng.engine == Browser ==> Reported(old(Here()), path, gravity)
    {
      hide Outputs, Generator.Valid, Drawable, AfterChain, Linked, HasMove, Rounds, AfterRounds, ChainLoot, Reduced,
           UnlockMarks, Reported;
      ChainCells(grid[..], w, path);
      var t := grid[path[0]];
      var gain := Score(t, |path|);
      var unlocked;
      unlocked, gravity := Resolve(path);
      Decide();
      r := Ok(MoveResult(t, |path|, ChainPct(|path|), gain, t == GUARD, unlocked, objectives, state));
    }

    /** Loot, objectives and the move budget. A guard chain gives its move back. */
    method Score(t: int, n: nat) returns (gain: int)
      modifies this
      ensures gain == ChainLoot(t, n) && loot == old(loot) + gain
      ensures objectives == Reduced(old(objectives), t, n)
      ensures movesLeft == old(movesLeft) - (if t == GUARD then 0 else 1)
      ensures state == old(state) && reshuffles == old(reshuffles)
    {
      gain := Quotient(n * BaseLoot(t) * ChainPct(n), 100);
      loot := loot + gain;
      match t {
        case 0 => objectives := objectives.(key := if objectives.key - n > 0 then objectives.key - n else 0);
        case 1 => objectives := objectives.(laser := if objectives.laser - n > 0 then objectives.laser - n else 0);
        case 2 => objectives := objectives.(camera := if objectives.camera - n > 0 then objectives.camera - n else 0);
        case _ =>
      }
      movesLeft := movesLeft - 1;
      if t == GUARD {
        movesLeft := movesLeft + 1;
      }
    }

    /** The outcome of a move, and a reshuffle if play goes on without a move. */
    method Decide()
      requires Valid() && state == Playing
      modifies this, grid, rng
      ensures Valid() && ArenaOk(Setting())
      ensures objectives == old(objectives) && movesLeft == old(movesLeft) && loot == old(loot)
      ensures state == Decided(objectives, movesLeft)
      ensures var n := if state
        == Playing && !HasMove(old(grid[..]), w) then Rounds(Setting(), rng.Stream(), old(Here()), MAX_ROUNDS) else 0;
        && Here() == AfterRounds(Setting(), rng.Stream(), old(Here()), n)
        && reshuffles == old(reshuffles) + n
    {
      hide Outputs, Generator.Valid, HasMove, Rounds;
      if objectives.key == 0 && objectives.laser == 0 && objectives.camera == 0 {
        state := Cracked;
      } else if movesLeft <= 0 {
        state := Busted;
      } else {
        var found := HasAnyMove(grid, w, h);
        if !found {
          Reshuffle();
        }
      }
    }
  }
}

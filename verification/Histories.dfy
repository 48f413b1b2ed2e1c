/** Committed profiles form a linear history, whatever the interleaving. */
module Histories {
  import opened Wrappers
  import opened Profiles
  import opened Decisions
  import opened Protocol

  // ---- a history on its own ----

  /** The profile after the first `n` commits. */
  ghost function After(p: Player, log: seq<Commit>, n: nat, regen: int): Player
    requires n <= |log|
  {
    if n == 0 then p
    else
      var before := After(p, log, n - 1, regen);
      var k := log[n - 1];
      var q := Decided(before, k.decision, k.now, k.later, regen);
      if q.Ok? then q.value.(version := before.version + 1) else before
  }

  /** Every commit was accepted on the profile that the commits before it left. */
  ghost predicate Accepted(p: Player, log: seq<Commit>, regen: int) {
    forall n :: 0 <= n < |log| ==>
      Decided(After(p, log, n, regen), log[n].decision, log[n].now, log[n].later, regen).Ok?
  }

  /** Clock readings grow along the history. */
  ghost predicate InOrder(p: Player, log: seq<Commit>, clock: int) {
    && p.livesUpdatedAt.Some? && p.livesUpdatedAt.value <= LastTime(p, log, 0)
    && (forall n :: 0 <= n < |log| ==> LastTime(p, log, n) <= log[n].now <= log[n].later <= clock)
    && LastTime(p, log, |log|) <= clock
  }

  /** When the profile was last written. */
  ghost function LastTime(p: Player, log: seq<Commit>, n: nat): int
    requires n <= |log|
  {
    if n == 0 then (if p.livesUpdatedAt.Some? then p.livesUpdatedAt.value else 0) else log[n - 1].later
  }

  ghost predicate AllProper(log: seq<Commit>) {
    forall n :: 0 <= n < |log| ==> Proper(log[n].decision)
  }

  lemma {:induction false} AfterPrefix(p: Player, log: seq<Commit>, k: Commit, n: nat, regen: int)
    requires n <= |log|
    ensures After(p, log + [k], n, regen) == After(p, log, n, regen)
    decreases n
  {
    hide Decided;
    if n > 0 { AfterPrefix(p, log, k, n - 1, regen); }
  }

  lemma {:induction false} VersionCounts(p: Player, log: seq<Commit>, n: nat, regen: int)
    requires n <= |log| && Accepted(p, log, regen)
    ensures After(p, log, n, regen).version == p.version + n
    ensures After(p, log, n, regen).id == p.id && After(p, log, n, regen).maxLives == p.maxLives
    decreases n
  {
    hide Decided;
    if n > 0 {
      VersionCounts(p, log, n - 1, regen);
      DecidedKeeps(After(p, log, n - 1, regen), log[n - 1].decision, log[n - 1].now, log[n - 1].later, regen);
    }
  }

  lemma DecidedKeeps(p: Player, d: Decision, now: int, later: int, regen: int)
    requires Decided(p, d, now, later, regen).Ok?
    ensures var q := Decided(p, d, now, later, regen).value;
      q.id == p.id && q.version == p.version && q.maxLives == p.maxLives
  {}

  /** Bounds: coins, boosters and lives stay within their bounds after every commit. */
  lemma {:induction false} HistorySound(p: Player, log: seq<Commit>, n: nat, regen: int)
    requires n <= |log| && Accepted(p, log, regen) && AllProper(log) && Sound(p)
    ensures Sound(After(p, log, n, regen))
    decreases n
  {
    if n > 0 {
      HistorySound(p, log, n - 1, regen);
      CommitSound(After(p, log, n - 1, regen), log[n - 1], regen);
    }
  }

  lemma CommitSound(p: Player, k: Commit, regen: int)
    requires Sound(p) && Proper(k.decision) && Decided(p, k.decision, k.now, k.later, regen).Ok?
    ensures Sound(Decided(p, k.decision, k.now, k.later, regen).value.(version := p.version + 1))
  {
    hide Decide, ApplyRegen, Proper;
    RegenSound(p, k.now, regen);
    DecideSound(ApplyRegen(p, k.now, regen), k.decision, k.later);
  }

  // ---- coins and lives over a history ----

  ghost function CoinSum(log: seq<Commit>, n: nat): int
    requires n <= |log|
  {
    if n == 0 then 0 else CoinSum(log, n - 1) + CoinDelta(log[n - 1].decision)
  }

  lemma {:induction false} HistoryCoins(p: Player, log: seq<Commit>, n: nat, regen: int)
    requires n <= |log| && Accepted(p, log, regen)
    ensures After(p, log, n, regen).coins == p.coins + CoinSum(log, n)
    decreases n
  {
    hide Decided, CoinDelta;
    if n > 0 {
      HistoryCoins(p, log, n - 1, regen);
      CommitCoins(After(p, log, n - 1, regen), log[n - 1], regen);
    }
  }

  lemma CommitCoins(p: Player, k: Commit, regen: int)
    requires Decided(p, k.decision, k.now, k.later, regen).Ok?
    ensures Decided(p, k.decision, k.now, k.later, regen).value.coins == p.coins + CoinDelta(k.decision)
  {
    hide Decide, CoinDelta;
    CoinsMove(ApplyRegen(p, k.now, regen), k.decision, k.later);
  }

  ghost function BoosterSum(log: seq<Commit>, b: string, n: nat): int
    requires n <= |log|
  {
    if n == 0 then 0 else BoosterSum(log, b, n - 1) + BoosterDelta(log[n - 1].decision, b)
  }

  /** Boosters held are what was there, bought and granted, less what runs were charged. */
  lemma {:induction false} HistoryBoosters(p: Player, log: seq<Commit>, b: string, n: nat, regen: int)
    requires n <= |log| && Accepted(p, log, regen)
    ensures Held(After(p, log, n, regen).boosters, b) == Held(p.boosters, b) + BoosterSum(log, b, n)
    decreases n
  {
    hide Decided, BoosterDelta, Held;
    if n > 0 {
      HistoryBoosters(p, log, b, n - 1, regen);
      CommitBoosters(After(p, log, n - 1, regen), log[n - 1], b, regen);
    }
  }

  lemma CommitBoosters(p: Player, k: Commit, b: string, regen: int)
    requires Decided(p, k.decision, k.now, k.later, regen).Ok?
    ensures Held(Decided(p, k.decision, k.now, k.later, regen).value.boosters, b)
      == Held(p.boosters, b) + BoosterDelta(k.decision, b)
  {
    hide Decide, BoosterDelta;
    BoostersMove(ApplyRegen(p, k.now, regen), k.decision, k.later, b);
  }

  ghost function RecordCount(log: seq<Commit>, n: nat): nat
    requires n <= |log|
  {
    if n == 0 then 0 else RecordCount(log, n - 1) + if log[n - 1].decision.Record? then 1 else 0
  }

  ghost function LootRecorded(log: seq<Commit>, n: nat): int
    requires n <= |log|
  {
    if n == 0 then 0 else LootRecorded(log, n - 1) + if log[n - 1].decision.Record? then log[n - 1].decision.loot else 0
  }

  ghost function CracksRecorded(log: seq<Commit>, n: nat): int
    requires n <= |log|
  {
    if n == 0 then 0
    else CracksRecorded(log, n - 1) + if log[n - 1].decision.Record? then log[n - 1].decision.cracked else 0
  }

  ghost predicate RecordedScore(log: seq<Commit>, i: int, score: int) {
    0 <= i < |log| && log[i].decision.Record? && log[i].decision.score == score
  }

  ghost function BestOf(start: int, log: seq<Commit>, n: nat): int
    requires n <= |log|
  {
    if n == 0 then start
    else
      var best, d := BestOf(start, log, n - 1), log[n - 1].decision;
      if d.Record? && d.score > best then d.score else best
  }

  lemma {:induction false} BestIsMaximum(start: int, log: seq<Commit>, n: nat)
    requires n <= |log|
    ensures var best := BestOf(start, log, n);
      && best >= start
      && (forall i, score :: i < n && RecordedScore(log, i, score) ==> score <= best)
      && (best == start || exists i :: i < n && RecordedScore(log, i, best))
    decreases n
  {
    if n > 0 {
      BestIsMaximum(start, log, n - 1);
      var best := BestOf(start, log, n);
      if best != BestOf(start, log, n - 1) { assert RecordedScore(log, n - 1, best); }
    }
  }

  /** The statistics count the recorded runs, add up their loot and cracked vaults, and keep
      their highest score. */
  lemma {:induction false} HistoryStats(p: Player, log: seq<Commit>, n: nat, regen: int)
    requires n <= |log| && Accepted(p, log, regen)
    ensures var s := After(p, log, n, regen).stats;
      && s.runs == p.stats.runs + RecordCount(log, n) && s.bestScore == BestOf(p.stats.bestScore, log, n)
      && s.totalLoot == p.stats.totalLoot + LootRecorded(log, n)
      && s.vaultsCracked == p.stats.vaultsCracked + CracksRecorded(log, n)
    decreases n
  {
    hide Decided;
    if n > 0 {
      HistoryStats(p, log, n - 1, regen);
      CommitStats(After(p, log, n - 1, regen), log[n - 1], regen);
    }
  }

  lemma CommitStats(p: Player, k: Commit, regen: int)
    requires Decided(p, k.decision, k.now, k.later, regen).Ok?
    ensures var s := Decided(p, k.decision, k.now, k.later, regen).value.stats;
      if k.decision.Record? then
        && s.runs == p.stats.runs + 1 && s.totalLoot == p.stats.totalLoot + k.decision.loot
        && s.vaultsCracked == p.stats.vaultsCracked + k.decision.cracked
        && s.bestScore == (if k.decision.score > p.stats.bestScore then k.decision.score else p.stats.bestScore)
      else s == p.stats
  {
    hide Taken, Merged;
  }

  ghost function SpentSum(log: seq<Commit>, n: nat): int
    requires n <= |log|
  {
    if n == 0 then 0 else SpentSum(log, n - 1) + LivesSpent(log[n - 1].decision)
  }

  ghost function BoughtSum(log: seq<Commit>, n: nat): int
    requires n <= |log|
  {
    if n == 0 then 0 else BoughtSum(log, n - 1) + LivesBought(log[n - 1].decision)
  }

  /** Life conservation: what is left of the lives, in time units, never exceeds the start
      plus the time passed plus the lives bought, minus the lives spent. */
  ghost predicate CreditBound(p: Player, log: seq<Commit>, n: nat, regen: int)
    requires n <= |log|
  {
    var t0, t := LastTime(p, log, 0), LastTime(p, log, n);
    && ClockSet(After(p, log, n, regen), t)
    && LifeCredit(After(p, log, n, regen), t, regen)
      <= LifeCredit(p, t0, regen) + (t - t0) + (BoughtSum(log, n) - SpentSum(log, n)) * regen
  }

  lemma {:induction false} HistoryLives(p: Player, log: seq<Commit>, n: nat, regen: int, clock: int)
    requires n <= |log| && Accepted(p, log, regen) && AllProper(log) && Sound(p) && InOrder(p, log, clock) && regen > 0
    ensures CreditBound(p, log, n, regen)
    decreases n
  {
    hide Decided, LifeCredit, Proper, Sound, ClockSet, After, Accepted;
    if n == 0 {
      StartsSet(p, log, clock);
      AfterNone(p, log, regen);
      NothingYet(log, regen);
    } else {
      hide CreditBound;
      HistoryLives(p, log, n - 1, regen, clock);
      HistorySound(p, log, n - 1, regen);
      CreditStep(p, log, n, regen, clock);
    }
  }

  lemma AfterNone(p: Player, log: seq<Commit>, regen: int)
    ensures After(p, log, 0, regen) == p
  {}

  lemma AfterOne(p: Player, log: seq<Commit>, n: nat, regen: int)
    requires 0 < n <= |log| && Accepted(p, log, regen)
    ensures var before, k := After(p, log, n - 1, regen), log[n - 1];
      Decided(before, k.decision, k.now, k.later, regen).Ok?
      && After(p, log, n, regen)
        == Decided(before, k.decision, k.now, k.later, regen).value.(version := before.version + 1)
  {
    hide Decided;
  }

  lemma CreditStep(p: Player, log: seq<Commit>, n: nat, regen: int, clock: int)
    requires 0 < n <= |log| && Accepted(p, log, regen) && InOrder(p, log, clock) && regen > 0
    requires CreditBound(p, log, n - 1, regen) && Sound(After(p, log, n - 1, regen))
    ensures CreditBound(p, log, n, regen)
  {
    hide Decided, LifeCredit, Sound, ClockSet, After, Accepted, LivesBought, LivesSpent, BoughtSum, SpentSum;
    AfterOne(p, log, n, regen);
    var before, after := After(p, log, n - 1, regen), After(p, log, n, regen);
    var t0, t1, t2 := LastTime(p, log, 0), LastTime(p, log, n - 1), LastTime(p, log, n);
    CommitLives(before, log[n - 1], t1, regen);
    OneMore(log, n);
    Advance(LifeCredit(p, t0, regen), LifeCredit(before, t1, regen), LifeCredit(after, t2, regen), t0, t1, t2,
            BoughtSum(log, n - 1) - SpentSum(log,
                      n - 1), LivesBought(log[n - 1].decision) - LivesSpent(log[n - 1].decision), regen);
  }

  lemma StartsSet(p: Player, log: seq<Commit>, clock: int)
    requires InOrder(p, log, clock)
    ensures ClockSet(p, LastTime(p, log, 0))
  {}

  lemma NothingYet(log: seq<Commit>, regen: int)
    ensures (BoughtSum(log, 0) - SpentSum(log, 0)) * regen == 0
  {}

  lemma OneMore(log: seq<Commit>, n: nat)
    requires 0 < n <= |log|
    ensures BoughtSum(log, n) - SpentSum(log, n)
      == (BoughtSum(log, n - 1) - SpentSum(log, n - 1))
         + (LivesBought(log[n - 1].decision) - LivesSpent(log[n - 1].decision))
  {}

  lemma Advance(c0: int, c1: int, c2: int, t0: int, t1: int, t2: int, x: int, y: int, n: int)
    requires c1 <= c0 + (t1 - t0) + x * n && c2 <= c1 + (t2 - t1) + y * n
    ensures c2 <= c0 + (t2 - t0) + (x + y) * n
  {
    DifferenceTimes(x, y, 0, n);
  }

  lemma DifferenceTimes(a: int, b: int, c: int, n: int)
    ensures (a + b - c) * n == a * n + (b - c) * n
  {}

  lemma CommitLives(p: Player, k: Commit, t: int, regen: int)
    requires Sound(p) && ClockSet(p, t) && t <= k.now <= k.later && regen > 0
    requires Decided(p, k.decision, k.now, k.later, regen).Ok?
    ensures var q := Decided(p, k.decision, k.now, k.later, regen).value.(version := p.version + 1);
      && ClockSet(q, k.later)
      && LifeCredit(q, k.later, regen)
        <= LifeCredit(p, t, regen) + (k.later - t) + (LivesBought(k.decision) - LivesSpent(k.decision)) * regen
  {
    hide Decide, LivesBought, LivesSpent;
    var r := ApplyRegen(p, k.now, regen);
    RegenCredit(p, k.now, regen);
    RegenFull(p, k.now, regen);
    DecideCredit(r, k.decision, k.now, k.later, regen);
    DifferenceTimes(0, LivesBought(k.decision), LivesSpent(k.decision), regen);
    DifferenceTimes(-LivesSpent(k.decision), LivesBought(k.decision), 0, regen);
  }

  lemma RegenFull(p: Player, now: int, regen: int)
    requires regen > 0 && p.lives <= p.maxLives
    ensures var q := ApplyRegen(p, now, regen); q.lives == q.maxLives ==> q.livesUpdatedAt == Some(now)
  {}

  /** So over any history the lives spent are bounded by the lives at the start, the lives
      bought, and the time that has passed. */
  lemma SpentLivesAreEarned(p: Player, log: seq<Commit>, regen: int, clock: int)
    requires Accepted(p, log, regen) && AllProper(log) && Sound(p) && InOrder(p, log, clock) && regen > 0
    ensures SpentSum(log, |log|) * regen
      <= p.lives * regen + BoughtSum(log, |log|) * regen + (LastTime(p, log, |log|) - LastTime(p, log, 0))
  {
    hide Decided, Proper, Sound, Accepted, InOrder, LastTime, After, BoughtSum, SpentSum, AllProper;
    var n := |log|;
    HistoryLives(p, log, n, regen, clock);
    HistorySound(p, log, n, regen);
    StartsSet(p, log, clock);
    CreditLeft(After(p, log, n, regen), LastTime(p, log, n), regen);
    CreditAtStart(p, log, regen);
    Minus(BoughtSum(log, n), SpentSum(log, n), regen);
  }

  lemma CreditLeft(p: Player, t: int, regen: int)
    requires Sound(p) && ClockSet(p, t) && regen > 0
    ensures LifeCredit(p, t, regen) >= 0
  {
    assert p.lives * regen >= 0;
  }

  lemma CreditAtStart(p: Player, log: seq<Commit>, regen: int)
    requires p.livesUpdatedAt.Some?
    ensures LifeCredit(p, LastTime(p, log, 0), regen) == p.lives * regen
  {}

  lemma Minus(b: int, c: int, n: int)
    ensures (b - c) * n == b * n - c * n
  {}
}

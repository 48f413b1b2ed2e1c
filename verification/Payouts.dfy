/** Every reward is credited at most once, and only after it was claimed
    (reward/service.go Claim). */
module Payouts {
  import opened Profiles
  import opened Decisions
  import opened Store
  import opened Protocol
  import opened Linearity
  import opened Settlement

  // ---- where rewards come from ----

  /** Reward `k` is the loot of settled run `run`, worth what its score is worth. */
  ghost predicate PaysRun(s: Sys, k: RewardKey, run: RunId)
    requires k in s.db.rewards
  {
    && k.1 == LootId(run) && (k.0, run) in s.db.runs
    && s.db.runs[(k.0, run)].status == Finished && s.db.runs[(k.0, run)].outcome.Some?
    && s.db.rewards[k].coins == RunLootCoins(s.db.runs[(k.0, run)].outcome.value.score)
    && s.db.rewards[k].extras == map[]
  }

  ghost predicate PaysPodium(rw: Reward) {
    rw.id == PodiumId(rw.eventId) && rw.coins == LeaderboardCoins(rw.rank) && rw.coins > 0
    && rw.extras == if rw.rank <= 3 then map["shield" := 1] else map[]
  }

  ghost predicate RewardOk(s: Sys, k: RewardKey)
    requires k in s.db.rewards
  {
    (exists run :: PaysRun(s, k, run)) || PaysPodium(s.db.rewards[k])
  }

  ghost predicate RewardsOk(s: Sys) {
    OwnersOk(s.db) && forall k :: k in s.db.rewards ==> RewardOk(s, k)
  }

  /** Steps neither remove nor revalue a reward, nor take a claim back. */
  ghost predicate RewardsForward(s: Sys, s': Sys) {
    forall k :: k in s.db.rewards ==>
      && k in s'.db.rewards && s'.db.rewards[k].(status := Pending) == s.db.rewards[k].(status := Pending)
      && (s.db.rewards[k].status == Claimed ==> s'.db.rewards[k].status == Claimed)
  }

  lemma RewardStays(s: Sys, s': Sys, k: RewardKey)
    requires k in s.db.rewards && RewardOk(s, k) && RunsForward(s, s') && RewardsForward(s, s')
    ensures RewardOk(s', k)
  {
    if run :| PaysRun(s, k, run) {
      assert PaysRun(s', k, run);
    }
  }

  lemma RewardsStay(s: Sys, s': Sys)
    requires RewardsOk(s) && RunsForward(s, s') && s'.db.rewards == s.db.rewards && s'.db.owners == s.db.owners
    ensures RewardsOk(s') && RewardsForward(s, s')
  {
    hide RewardOk, RunsForward;
    forall p ensures OwnedBy(s'.db, p) == OwnedBy(s.db, p) {}
    forall k | k in s'.db.rewards ensures RewardOk(s', k) {
      RewardStays(s, s', k);
    }
  }

  lemma CreateStep(s: Sys, s': Sys, rw: Reward)
    requires RewardsOk(s) && RunsForward(s, s') && s'.db == CreateReward(s.db, rw).db
    requires (rw.playerId, rw.id) !in s.db.rewards ==>
      PaysPodium(rw) || (exists run :: PaysRun(s', (rw.playerId, rw.id), run))
    ensures RewardsOk(s') && RewardsForward(s, s')
  {
    hide OwnersOk, RunsForward, PaysRun, PaysPodium;
    CreateKeepsOwners(s.db, rw);
    forall k | k in s'.db.rewards ensures RewardOk(s', k) {
      if k in s.db.rewards {
        RewardStays(s, s', k);
      }
    }
  }

  lemma GrantStep(s: Sys, c: nat)
    requires RewardsOk(s) && RunsOk(s) && At(s, c).Granting?
    ensures var s' := DoGrant(s, c); RewardsOk(s') && RewardsForward(s, s')
  {
    hide RewardsOk, RewardsForward, RunsForward, RunLootCoins, LootId, RunOk, OwnersOk;
    var s' := DoGrant(s, c);
    assert SettlerOk(s, At(s, c));
    var run := At(s, c).run;
    RunsFrame(s, s');
    if run.outcome.Some? {
      var rw := LootReward(run, run.outcome.value.score);
      if (rw.playerId, rw.id) !in s.db.rewards {
        assert PaysRun(s', (rw.playerId, rw.id), run.id);
      }
      CreateStep(s, s', rw);
    } else {
      RewardsStay(s, s');
    }
  }

  lemma PodiumStep(s: Sys, event: string, winner: PlayerId, rank: int)
    requires RewardsOk(s) && RunsOk(s) && Enabled(s, Podium(event, winner, rank))
    ensures var s' := Next(s, Podium(event, winner, rank)); RewardsOk(s') && RewardsForward(s, s')
  {
    hide RewardsOk, RewardsForward, RunsForward, RunOk, OwnersOk, CreateReward, PodiumId;
    var s' := Next(s, Podium(event, winner, rank));
    RunsFrame(s, s') by { CreateKeepsRuns(s.db, PodiumReward(event, winner, rank)); }
    CreateStep(s, s', PodiumReward(event, winner, rank));
  }

  lemma CreateKeepsRuns(db: Db, rw: Reward)
    ensures CreateReward(db, rw).db.runs == db.runs
  {}

  lemma FlipStep(s: Sys, c: nat)
    requires RewardsOk(s) && RunsOk(s) && At(s, c).Claiming?
    ensures var s' := DoFlip(s, c); RewardsOk(s') && RewardsForward(s, s')
  {
    hide RunOk, RewardOk, OwnersOk;
    var s' := DoFlip(s, c);
    RunsFrame(s, s');
    ClaimKeepsOwners(s.db, At(s, c).key);
    forall k | k in s'.db.rewards ensures RewardOk(s', k) {
      FlippedOk(s, s', k);
    }
  }

  lemma FlippedOk(s: Sys, s': Sys, k: RewardKey)
    requires k in s.db.rewards && RewardOk(s, k) && s'.db.runs == s.db.runs
    requires k in s'.db.rewards && s'.db.rewards[k].(status := Pending) == s.db.rewards[k].(status := Pending)
    ensures RewardOk(s', k)
  {
    if run :| PaysRun(s, k, run) {
      assert PaysRun(s', k, run);
    }
  }

  /** The steps on players and runs. */
  lemma PlainStep(s: Sys, step: Step)
    requires RewardsOk(s) && RunsOk(s) && Enabled(s, step)
    requires !step.Flip? && !step.Grant? && !step.Podium?
    ensures var s' := Next(s, step); s'.db.rewards == s.db.rewards && s'.db.owners == s.db.owners
  {
    hide Decided, RewardsOk, RunsOk, NewPlayer, NoDuplicates;
  }

  lemma RewardsStep(s: Sys, step: Step)
    requires RewardsOk(s) && RunsOk(s) && Enabled(s, step)
    ensures RewardsOk(Next(s, step)) && RewardsForward(s, Next(s, step))
  {
    hide Decided, RewardsOk, RunsOk, RewardsForward, NewPlayer, NoDuplicates, RunsForward, DoRead, DoWrite, DoJoin,
         DoPut, DoSettle;
    match step
    case Flip(c) => FlipStep(s, c);
    case Grant(c) => GrantStep(s, c);
    case Podium(event, winner, rank) => PodiumStep(s, event, winner, rank);
    case _ =>
      PlainStep(s, step);
      RunsKept(s, step);
      RewardsStay(s, Next(s, step));
  }

  // ---- credits ----

  ghost predicate CreditedAt(log: seq<Commit>, i: int, id: RewardId) {
    0 <= i < |log| && log[i].decision.Credit? && log[i].decision.reward == id
  }

  ghost predicate Credited(log: seq<Commit>, id: RewardId) {
    exists i :: CreditedAt(log, i, id)
  }

  /** The decision pays the stored reward. */
  ghost predicate Matches(s: Sys, k: RewardKey, d: Decision) {
    && d.Credit? && k in s.db.rewards && s.db.rewards[k].status == Claimed && d.coins == s.db.rewards[k].coins
    && d.extras == s.db.rewards[k].extras
  }

  /** The request has claimed the reward and has yet to credit it. */
  ghost predicate Holds(pc: Pc, k: RewardKey) {
    (pc.Reading? || pc.Writing?) && pc.job.decision.Credit? && k == (pc.job.player, pc.job.decision.reward)
  }

  ghost function LogOf(s: Sys, p: PlayerId): seq<Commit> {
    if p in s.log then s.log[p] else []
  }

  ghost predicate HolderOk(s: Sys, c: nat, k: RewardKey) {
    Holds(At(s, c), k) ==> Matches(s, k, At(s, c).job.decision) && !Credited(LogOf(s, k.0), k.1)
  }

  ghost predicate CreditOk(s: Sys, p: PlayerId, i: int, id: RewardId) {
    CreditedAt(LogOf(s, p), i, id) ==>
      Matches(s, (p, id), LogOf(s, p)[i].decision) && forall j :: CreditedAt(LogOf(s, p), j, id) ==> i == j
  }

  /** Each credit paid a claimed reward in full, no reward was credited twice, and a
      claimed reward is in the hands of at most one request, as long as it is uncredited. */
  ghost predicate CreditsOk(s: Sys) {
    && (forall p, i, id :: CreditOk(s, p, i, id))
    && (forall c: nat, k :: HolderOk(s, c, k))
    && (forall c: nat, c': nat, k :: Holds(At(s, c), k) && Holds(At(s, c'), k) ==> c == c')
  }

  lemma MatchesStays(s: Sys, s': Sys, k: RewardKey, d: Decision)
    requires Matches(s, k, d) && RewardsForward(s, s')
    ensures Matches(s', k, d)
  {
    assert s'.db.rewards[k].(status := Pending).coins == s.db.rewards[k].(status := Pending).coins;
    assert s'.db.rewards[k].(status := Pending).extras == s.db.rewards[k].(status := Pending).extras;
  }

  /** Steps that neither commit a profile nor claim a reward. */
  lemma CreditsFrame(s: Sys, s': Sys)
    requires CreditsOk(s) && RewardsForward(s, s')
    requires forall p :: LogOf(s', p) == LogOf(s, p)
    requires forall c: nat, k :: Holds(At(s', c), k) ==> Holds(At(s, c), k) && At(s', c).job == At(s, c).job
    ensures CreditsOk(s')
  {
    hide Matches, RewardsForward, Holds, LogOf, CreditedAt, At;
    forall p, i, id ensures CreditOk(s', p, i, id) {
      assert CreditOk(s, p, i, id);
      if CreditedAt(LogOf(s', p), i, id) {
        CreditedFacts(LogOf(s, p), i, id);
        MatchesStays(s, s', (p, id), LogOf(s, p)[i].decision);
      }
    }
    forall c: nat, k ensures HolderOk(s', c, k) {
      assert HolderOk(s, c, k);
      if Holds(At(s', c), k) { HoldsFacts(At(s, c), k); MatchesStays(s, s', k, At(s, c).job.decision); }
    }
  }

  lemma CreditedFacts(log: seq<Commit>, i: int, id: RewardId)
    requires CreditedAt(log, i, id)
    ensures 0 <= i < |log| && log[i].decision.Credit?
  {}

  lemma HoldsFacts(pc: Pc, k: RewardKey)
    requires Holds(pc, k)
    ensures pc.Reading? || pc.Writing?
  {}

  /** A claim: nobody held a pending reward, and nobody had credited it. */
  lemma FlipCredits(s: Sys, s': Sys, c: nat)
    requires CreditsOk(s) && At(s, c).Claiming? && s' == DoFlip(s, c) && RewardsForward(s, s')
    ensures CreditsOk(s')
  {
    hide RewardsForward;
    var k := At(s, c).key;
    var r := ClaimReward(s.db, k);
    if r.result.Err? {
      CreditsFrame(s, s');
    } else {
      forall p, i, id ensures CreditOk(s', p, i, id) {
        assert CreditOk(s, p, i, id);
        if CreditedAt(LogOf(s', p), i, id) { MatchesStays(s, s', (p, id), LogOf(s, p)[i].decision); }
      }
      forall c': nat, k' ensures HolderOk(s', c', k') {
        assert HolderOk(s, c', k');
        if c' != c {
          if Holds(At(s, c'), k') { MatchesStays(s, s', k', At(s, c').job.decision); }
        } else if k' == k {
          Uncredited(s, k);
        }
      }
      forall c1: nat, c2: nat, k' | Holds(At(s', c1), k') && Holds(At(s', c2), k') ensures c1 == c2 {
        assert HolderOk(s, c1, k') && HolderOk(s, c2, k');
      }
    }
  }

  lemma Uncredited(s: Sys, k: RewardKey)
    requires CreditsOk(s) && k in s.db.rewards && s.db.rewards[k].status == Pending
    ensures !Credited(LogOf(s, k.0), k.1)
  {
    forall i ensures !CreditedAt(LogOf(s, k.0), i, k.1) {
      assert CreditOk(s, k.0, i, k.1);
    }
  }

  /** Step relation of a committed write, spelled out. */
  ghost predicate Committed(s: Sys, s': Sys, c: nat, k: Commit) {
    && At(s, c).Writing? && k.decision == At(s, c).job.decision
    && s'.db.rewards == s.db.rewards
    && (forall c': nat :: c' != c ==> At(s', c') == At(s, c'))
    && !At(s', c).Reading? && !At(s', c).Writing?
    && forall p :: LogOf(s', p) == if p == At(s, c).job.player then LogOf(s, p) + [k] else LogOf(s, p)
  }

  lemma NewCredit(s: Sys, s': Sys, c: nat, k: Commit, p: PlayerId, i: int, id: RewardId)
    requires CreditsOk(s) && Committed(s, s', c, k)
    ensures CreditOk(s', p, i, id)
  {
    hide Matches, At;
    assert CreditOk(s, p, i, id);
    var log, log' := LogOf(s, p), LogOf(s', p);
    if CreditedAt(log', i, id) {
      assert HolderOk(s, c, (p, id));
      if i < |log| {
        assert CreditedAt(log, i, id);
        MatchesFrame(s, s', (p, id), log[i].decision);
        assert Credited(log, id);
      } else {
        MatchesFrame(s, s', (p, id), k.decision);
      }
      forall j | CreditedAt(log', j, id) ensures i == j {
        assert CreditOk(s, p, j, id);
        if j < |log| { assert CreditedAt(log, j, id); }
      }
    }
  }

  lemma MatchesFrame(s: Sys, s': Sys, k: RewardKey, d: Decision)
    requires Matches(s, k, d) && s'.db.rewards == s.db.rewards
    ensures Matches(s', k, d)
  {}

  lemma StillHeld(s: Sys, s': Sys, c: nat, k: Commit, c': nat, key: RewardKey)
    requires CreditsOk(s) && Committed(s, s', c, k)
    ensures HolderOk(s', c', key)
  {
    hide Matches, At;
    assert HolderOk(s, c', key);
    if Holds(At(s', c'), key) {
      MatchesFrame(s, s', key, At(s, c').job.decision);
      assert HolderOk(s, c, key);
      forall i ensures !CreditedAt(LogOf(s', key.0), i, key.1) {
        assert i < |LogOf(s, key.0)| ==>
          CreditedAt(LogOf(s', key.0), i, key.1) == CreditedAt(LogOf(s, key.0), i, key.1);
      }
    }
  }

  lemma CommittedCredits(s: Sys, s': Sys, c: nat, k: Commit)
    requires CreditsOk(s) && Committed(s, s', c, k)
    ensures CreditsOk(s')
  {
    hide CreditOk, HolderOk, LogOf, At;
    forall p, i, id ensures CreditOk(s', p, i, id) {
      NewCredit(s, s', c, k, p, i, id);
    }
    forall c': nat, key ensures HolderOk(s', c', key) {
      StillHeld(s, s', c, k, c', key);
    }
    forall c1: nat, c2: nat, key | Holds(At(s', c1), key) && Holds(At(s', c2), key) ensures c1 == c2 {
      assert Holds(At(s, c1), key) && Holds(At(s, c2), key);
    }
  }

  /** A write either commits or leaves the histories alone. */
  lemma WriteCases(s: Sys, c: nat, now: int, later: int)
    requires At(s, c).Writing?
    ensures var s' := DoWrite(s, c, now, later);
      || Committed(s, s', c, Commit(At(s, c).job.decision, now, later))
      || (s'.db == s.db && s'.log == s.log && (forall c': nat :: c' != c ==> At(s', c') == At(s, c'))
          && (At(s', c).Reading? || At(s', c).Writing? ==> At(s', c).job == At(s, c).job))
  {
    hide Decided;
  }

  lemma JoinLogs(s: Sys, pl: Player)
    requires s.log.Keys == s.db.players.Keys
    ensures forall p :: LogOf(DoJoin(s, pl), p) == LogOf(s, p)
  {}

  lemma NoNewHolders(s: Sys, step: Step)
    requires Enabled(s, step) && !step.Flip? && !step.Write?
    ensures forall k :: Holds(At(Next(s, step), Actor(step)), k) ==>
      Holds(At(s, Actor(step)), k) && At(Next(s, step), Actor(step)).job == At(s, Actor(step)).job
    ensures !step.Join? ==> Next(s, step).log == s.log
  {
    hide CreatePlayer, FinishRun, CreateReward, LootReward, PodiumReward, NoDuplicates, NewPlayer, PutRun;
  }

  lemma CreditsStep(s: Sys, step: Step)
    requires CreditsOk(s) && RewardsOk(s) && RunsOk(s) && s.log.Keys == s.db.players.Keys && Enabled(s, step)
    ensures CreditsOk(Next(s, step))
  {
    hide CreditsOk, RewardsOk, RunsOk, RewardsForward, NewPlayer, NoDuplicates, DoRead, DoPut, DoSettle, DoGrant,
         DoFlip, DoJoin, DoWrite, Holds, LogOf, Committed;
    var s' := Next(s, step);
    RewardsStep(s, step);
    OthersUntouched(s, step);
    match step
    case Flip(c) => FlipCredits(s, s', c);
    case Write(c, now, later) =>
      WriteCases(s, c, now, later);
      if Committed(s, s', c, Commit(At(s, c).job.decision, now, later)) {
        CommittedCredits(s, s', c, Commit(At(s, c).job.decision, now, later));
      } else {
        SameLogs(s, s');
        SameHolders(s, s', c);
        CreditsFrame(s, s');
      }
    case Join(pl) =>
      NoNewHolders(s, step);
      JoinLogs(s, pl);
      CreditsFrame(s, s');
    case _ =>
      NoNewHolders(s, step);
      SameLogs(s, s');
      CreditsFrame(s, s');
  }

  lemma SameLogs(s: Sys, s': Sys)
    requires s'.log == s.log
    ensures forall p :: LogOf(s', p) == LogOf(s, p)
  {}

  lemma SameHolders(s: Sys, s': Sys, c: nat)
    requires (forall c': nat :: c' != c ==> At(s', c') == At(s, c')) && At(s, c).Writing?
    requires At(s', c).Reading? || At(s', c).Writing? ==> At(s', c).job == At(s, c).job
    ensures forall c': nat, k :: Holds(At(s', c'), k) ==> Holds(At(s, c'), k) && At(s', c').job == At(s, c').job
  {}

  // ---- every interleaving ----

  ghost predicate Safe(s: Sys) {
    Inv(s) && RunsOk(s) && RewardsOk(s) && CreditsOk(s)
  }

  lemma SafeStep(s: Sys, step: Step)
    requires Safe(s) && Enabled(s, step)
    ensures Safe(Next(s, step)) && RunsForward(s, Next(s, step)) && RewardsForward(s, Next(s, step))
  {
    hide Inv, RunsOk, RewardsOk, CreditsOk, Next, Enabled, RunsForward, RewardsForward;
    StepKeeps(s, step);
    RunsKept(s, step);
    RewardsStep(s, step);
    assert Linear(s) by { InvLinear(s); }
    LinearKeys(s);
    CreditsStep(s, step);
  }

  lemma InvLinear(s: Sys)
    requires Inv(s)
    ensures Linear(s)
  {}

  lemma SafeStart(s: Sys)
    requires Init(s)
    ensures Safe(s)
  {
    forall c: nat ensures PcOk(s, At(s, c)) && SettlerOk(s, At(s, c)) {}
    forall c: nat, k ensures HolderOk(s, c, k) {}
    forall p, i, id ensures CreditOk(s, p, i, id) {}
  }

  lemma {:induction false} ExecutionSafe(states: seq<Sys>, steps: seq<Step>, n: nat)
    requires Execution(states, steps) && n < |states|
    ensures Safe(states[n])
    decreases n
  {
    hide Enabled, Next, Safe;
    if n == 0 {
      SafeStart(states[0]);
    } else {
      ExecutionSafe(states, steps, n - 1);
      SafeStep(states[n - 1], steps[n - 1]);
    }
  }

  lemma {:induction false} ExecutionForward(states: seq<Sys>, steps: seq<Step>, m: nat, n: nat)
    requires Execution(states, steps) && m <= n < |states|
    ensures RunsForward(states[m], states[n]) && RewardsForward(states[m], states[n])
    decreases n
  {
    hide Enabled, Next, Safe;
    if m < n {
      ExecutionForward(states, steps, m, n - 1);
      ExecutionSafe(states, steps, n - 1);
      SafeStep(states[n - 1], steps[n - 1]);
      assert states[n] == Next(states[n - 1], steps[n - 1]);
    }
  }

  /** Request `c` settles run `k` at step `i`. */
  ghost predicate SettlesAt(states: seq<Sys>, steps: seq<Step>, i: nat, k: RunKey)
    requires |states| == |steps| + 1
  {
    && i < |steps| && steps[i].Settle? && At(states[i], steps[i].c).Settling?
    && k == (At(states[i], steps[i].c).run.playerId, At(states[i], steps[i].c).run.id)
    && FinishRun(states[i].db, At(states[i], steps[i].c).run).result.Ok?
  }

  /** A run settles at most once, with an outcome that a replay of it can have, and what it
      settled with never changes. */
  lemma RunsSettleOnce(states: seq<Sys>, steps: seq<Step>, i: nat, j: nat, k: RunKey)
    requires Execution(states, steps) && SettlesAt(states, steps, i, k)
    ensures SettlesAt(states, steps, j, k) ==> i == j
    ensures forall n: nat :: i < n < |states| ==>
      && k in states[n].db.runs && states[n].db.runs[k] == states[i + 1].db.runs[k]
      && states[n].db.runs[k].status == Finished && states[n].db.runs[k].outcome.Some?
      && (Started(states[n].db.runs[k]), states[n].db.runs[k].outcome.value) in states[n].verdicts
  {
    hide Execution, Safe, NewPlayer, Decided, NoDuplicates;
    StepOf(states, steps, i);
    forall n: nat | i < n < |states|
      ensures k in states[n].db.runs && states[n].db.runs[k] == states[i + 1].db.runs[k]
      ensures states[n].db.runs[k].status == Finished
      ensures states[n].db.runs[k].outcome.Some?
      ensures (Started(states[n].db.runs[k]), states[n].db.runs[k].outcome.value) in states[n].verdicts
    {
      ExecutionForward(states, steps, i + 1, n);
      ExecutionSafe(states, steps, n);
      SafeRun(states[n], k);
    }
    if SettlesAt(states, steps, j, k) && j != i {
      StepOf(states, steps, j);
      if j < i {
        ExecutionForward(states, steps, j + 1, i);
      }
    }
  }

  lemma StepOf(states: seq<Sys>, steps: seq<Step>, i: nat)
    requires Execution(states, steps) && i < |steps|
    ensures |states| == |steps| + 1 && Enabled(states[i], steps[i]) && states[i + 1] == Next(states[i], steps[i])
  {}

  lemma SafeRun(s: Sys, k: RunKey)
    requires Safe(s) && k in s.db.runs
    ensures RunOk(s, k)
  {}

  /** No reward is ever credited twice, to whatever request it falls, and every credit is
      for a claimed reward, in full. */
  lemma CreditedAtMostOnce(states: seq<Sys>, steps: seq<Step>, n: nat, p: PlayerId, i: int, j: int, id: RewardId)
    requires Execution(states, steps) && n < |states|
    requires CreditedAt(LogOf(states[n], p), i, id) && CreditedAt(LogOf(states[n], p), j, id)
    ensures i == j && Matches(states[n], (p, id), LogOf(states[n], p)[i].decision)
  {
    hide Execution;
    ExecutionSafe(states, steps, n);
    assert CreditOk(states[n], p, i, id);
  }

  /** Every reward is a settled run's, worth its score, or a podium place's; the names of
      the two kinds never collide, so a run yields at most one reward and so does an event
      for each player. */
  lemma RewardsHaveOneSource(states: seq<Sys>, steps: seq<Step>, n: nat, k: RewardKey)
    requires Execution(states, steps) && n < |states| && k in states[n].db.rewards
    ensures (exists run :: PaysRun(states[n], k, run)) <==> !PaysPodium(states[n].db.rewards[k])
    ensures forall run, run' :: PaysRun(states[n], k, run) && PaysRun(states[n], k, run') ==> run == run'
    ensures forall event, event' :: PodiumId(event) == PodiumId(event') ==> event == event'
  {
    hide Execution, Linear, Snapshots, CreditsOk;
    ExecutionSafe(states, steps, n);
    var s := states[n];
    assert RewardOk(s, k);
    forall event, event' | PodiumId(event) == PodiumId(event') ensures event == event' {
      assert PodiumId(event)[7..] == event && PodiumId(event')[7..] == event';
    }
    forall run, run' | PaysRun(s, k, run) && PaysRun(s, k, run') ensures run == run' {
      assert LootId(run)[4..] == run && LootId(run')[4..] == run';
    }
    if run :| PaysRun(s, k, run) {
      assert RunOk(s, (k.0, run));
      NamesDiffer(run, s.db.rewards[k].eventId);
    }
  }

  lemma NamesDiffer(run: RunId, event: string)
    requires IsRunId(run)
    ensures LootId(run) != PodiumId(event)
  {
    assert LootId(run)[4] == run[0] == "run_"[0];
    assert PodiumId(event)[4] == 'l';
  }
}

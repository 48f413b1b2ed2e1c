/** Every interleaving of profile mutations is a linear history: a successful write applies
    its decision to the profile the previous write left (player/service.go Mutate on
    store/memory/memory.go Update). */
module Linearity {
  import opened Wrappers
  import opened Profiles
  import opened Decisions
  import opened Store
  import opened Protocol
  import opened Histories

  /** One profile and its history. */
  ghost predicate LinearAt(cur: Player, created: Player, log: seq<Commit>, regen: int, clock: int) {
    && NewPlayer(created, clock)
    && AllProper(log) && Accepted(created, log, regen) && InOrder(created, log, clock)
    && cur == After(created, log, |log|, regen)
  }

  ghost predicate Linear(s: Sys) {
    && s.regen > 0
    && s.db.players.Keys == s.created.Keys == s.log.Keys
    && forall id :: id in s.db.players ==>
         s.created[id].id == id && LinearAt(s.db.players[id], s.created[id], s.log[id], s.regen, s.clock)
  }

  ghost function LastWrite(s: Sys, id: PlayerId): int
    requires id in s.created && id in s.log
  {
    LastTime(s.created[id], s.log[id], |s.log[id]|)
  }

  /** What a request in progress may rely on: its copy is the stored profile unless the
      version has moved on, and every lost race was another request's commit. */
  ghost predicate PcOk(s: Sys, pc: Pc) {
    match pc
    case Reading(job, attempt, first) =>
      && Proper(job.decision) && attempt < MAX_ATTEMPTS
      && (first.None? ==> attempt == 0)
      && (first.Some? ==> job.player in s.db.players && s.db.players[job.player].version >= first.value + attempt)
    case Writing(job, attempt, first, base, since) =>
      && Proper(job.decision) && attempt < MAX_ATTEMPTS && since <= s.clock
      && job.player in s.db.players && job.player in s.created && job.player in s.log && base.id == job.player
      && base.version <= s.db.players[job.player].version
      && (base.version == s.db.players[job.player].version ==>
            base == s.db.players[job.player] && LastWrite(s, job.player) <= since)
      && first.Some? && base.version >= first.value + attempt
    case Exhausted(job, first) =>
      && first.Some? && job.player in s.db.players && s.db.players[job.player].version >= first.value + MAX_ATTEMPTS
    case _ => true
  }

  ghost predicate Snapshots(s: Sys) {
    forall c: nat :: PcOk(s, At(s, c))
  }

  ghost predicate RewardsSane(db: Db) {
    forall k :: k in db.rewards ==>
      db.rewards[k].coins >= 0 && forall b :: b in db.rewards[k].extras ==> db.rewards[k].extras[b] >= 0
  }

  ghost predicate Inv(s: Sys) {
    Linear(s) && Snapshots(s) && RewardsSane(s.db)
  }

  // ---- steps move profiles forward only ----

  ghost predicate Forward(s: Sys, s': Sys) {
    && s.clock <= s'.clock && s.regen == s'.regen
    && s.db.players.Keys <= s'.db.players.Keys && s.created.Keys <= s'.created.Keys && s.log.Keys <= s'.log.Keys
    && forall id :: id in s.db.players && id in s.created && id in s.log ==>
         && s.created[id] == s'.created[id]
         && s.db.players[id].version <= s'.db.players[id].version
         && (s.db.players[id].version == s'.db.players[id].version ==>
               s.db.players[id] == s'.db.players[id] && s.log[id] == s'.log[id])
  }

  lemma PcStays(s: Sys, s': Sys, pc: Pc)
    requires PcOk(s, pc) && Forward(s, s')
    requires s.db.players.Keys == s.created.Keys == s.log.Keys
    ensures PcOk(s', pc)
  {
    hide Proper;
  }

  /** A step that changes at most one client. */
  lemma SnapshotsStay(s: Sys, s': Sys, c: nat)
    requires Snapshots(s) && Forward(s, s') && s.db.players.Keys == s.created.Keys == s.log.Keys
    requires PcOk(s', At(s', c)) && forall c': nat :: c' != c ==> At(s', c') == At(s, c')
    ensures Snapshots(s')
  {
    hide PcOk, Forward, At;
    forall c': nat ensures PcOk(s', At(s', c')) {
      if c' != c {
        assert PcOk(s, At(s, c'));
        PcStays(s, s', At(s, c'));
      }
    }
  }

  lemma InOrderLater(p: Player, log: seq<Commit>, clock: int, clock': int)
    requires InOrder(p, log, clock) && clock <= clock'
    ensures InOrder(p, log, clock')
  {}

  /** A step that leaves the profiles alone. */
  lemma LinearStays(s: Sys, s': Sys)
    requires Linear(s) && s'.db.players == s.db.players && s'.created == s.created && s'.log == s.log
    requires s'.regen == s.regen && s.clock <= s'.clock
    ensures Linear(s') && Forward(s, s')
  {
    hide AllProper, Accepted, InOrder, After, Sound;
    forall id | id in s'.db.players
      ensures LinearAt(s'.db.players[id], s'.created[id], s'.log[id], s'.regen, s'.clock)
    {
      assert LinearAt(s.db.players[id], s.created[id], s.log[id], s.regen, s.clock);
      InOrderLater(s.created[id], s.log[id], s.clock, s'.clock);
    }
  }

  // ---- the write ----

  /** A history accepts one more commit on its last profile. */
  lemma ExtendHistory(cur: Player, created: Player, log: seq<Commit>, k: Commit, regen: int, clock: int)
    requires LinearAt(cur, created, log, regen, clock) && Proper(k.decision)
    requires LastTime(created, log, |log|) <= k.now <= k.later <= clock
    requires Decided(cur, k.decision, k.now, k.later, regen).Ok?
    ensures LinearAt(Decided(cur, k.decision, k.now, k.later, regen).value.(version := cur.version + 1), created,
                     log + [k], regen, clock)
  {
    hide Decided, Proper, Sound;
    hide InOrder, Accepted, NewPlayer;
    var log' := log + [k];
    AfterPrefix(created, log, k, |log|, regen);
    ExtendOrder(created, log, k, clock);
    ExtendAccepted(created, log, k, regen);
  }

  lemma ExtendAccepted(created: Player, log: seq<Commit>, k: Commit, regen: int)
    requires Accepted(created, log, regen)
    requires Decided(After(created, log, |log|, regen), k.decision, k.now, k.later, regen).Ok?
    ensures Accepted(created, log + [k], regen)
  {
    hide Decided, After;
    forall n | 0 <= n < |log| + 1
      ensures Decided(After(created, log + [k], n, regen), (log + [k])[n].decision, (log + [k])[n].now,
                      (log + [k])[n].later, regen).Ok?
    {
      AfterPrefix(created, log, k, n, regen);
    }
  }

  lemma ExtendOrder(created: Player, log: seq<Commit>, k: Commit, clock: int)
    requires InOrder(created, log, clock) && LastTime(created, log, |log|) <= k.now <= k.later <= clock
    ensures InOrder(created, log + [k], clock)
  {
    var log' := log + [k];
    forall n | 0 <= n <= |log| ensures LastTime(created, log', n) == LastTime(created, log, n) {}
  }

  lemma Identity(cur: Player, created: Player, log: seq<Commit>, regen: int, clock: int)
    requires LinearAt(cur, created, log, regen, clock)
    ensures cur.id == created.id && cur.version == 1 + |log|
  {
    VersionCounts(created, log, |log|, regen);
  }

  /** A write that finds the version it read. */
  lemma CommitKeeps(s: Sys, s': Sys, pc: Pc, k: Commit, q: Player)
    requires Linear(s) && pc.Writing? && PcOk(s, pc) && pc.since <= k.now <= k.later <= s.clock
    requires k.decision == pc.job.decision
    requires pc.base == s.db.players[pc.job.player]
    requires Decided(pc.base, k.decision, k.now, k.later, s.regen) == Ok(q)
    requires s'.regen == s.regen && s'.clock == s.clock && s'.created == s.created
    requires s'.db.players == s.db.players[pc.job.player := q.(version := q.version + 1)]
    requires s'.log == s.log[pc.job.player := s.log[pc.job.player] + [k]]
    ensures Linear(s') && Forward(s, s')
  {
    hide Decided, LinearAt, Proper;
    var id := pc.job.player;
    assert LinearAt(pc.base, s.created[id], s.log[id], s.regen, s.clock);
    DecidedKeeps(pc.base, k.decision, k.now, k.later, s.regen);
    ExtendHistory(pc.base, s.created[id], s.log[id], k, s.regen, s.clock);
    forall i | i in s'.db.players
      ensures i in s'.created && i in s'.log && s'.created[i].id == i
      ensures LinearAt(s'.db.players[i], s'.created[i], s'.log[i], s.regen, s.clock)
    {
      if i != id {
        assert LinearAt(s.db.players[i], s.created[i], s.log[i], s.regen, s.clock);
      }
    }
  }

  lemma SnapshotOf(s: Sys, c: nat)
    requires Snapshots(s)
    ensures PcOk(s, At(s, c))
  {}

  /** The write of an attempt: it succeeds exactly when no other commit came in between,
      and then it extends the history. */
  lemma WriteKeeps(s: Sys, c: nat, now: int, later: int)
    requires Inv(s) && Enabled(s, Write(c, now, later))
    ensures var s' := DoWrite(s, c, now, later); Linear(s') && Forward(s, s') && PcOk(s', At(s', c))
  {
    hide Decided, LinearAt, Proper, RewardsSane, Snapshots, Linear;
    var pc := At(s, c);
    SnapshotOf(s, c);
    LinearKeys(s);
    var s' := DoWrite(s, c, now, later);
    var q := Decided(pc.base, pc.job.decision, now, later, s.regen);
    if q.Ok? && pc.base.version == s.db.players[pc.job.player].version {
      DecidedKeeps(pc.base, pc.job.decision, now, later, s.regen);
      CommitKeeps(s, s', pc, Commit(pc.job.decision, now, later), q.value);
    } else {
      if q.Ok? { DecidedKeeps(pc.base, pc.job.decision, now, later, s.regen); }
      LinearStays(s, s');
    }
  }

  lemma ReadKeeps(s: Sys, c: nat)
    requires Inv(s) && Enabled(s, Read(c))
    ensures var s' := DoRead(s, c); Linear(s') && Forward(s, s') && PcOk(s', At(s', c))
  {
    hide LinearAt, Proper, RewardsSane;
    assert PcOk(s, At(s, c));
    var s' := DoRead(s, c);
    LinearStays(s, s');
    var id := At(s, c).job.player;
    if id in s.db.players {
      assert LinearAt(s.db.players[id], s.created[id], s.log[id], s.regen, s.clock);
      Identity(s.db.players[id], s.created[id], s.log[id], s.regen, s.clock);
      WrittenBefore(s.db.players[id], s.created[id], s.log[id], s.regen, s.clock);
    }
  }

  lemma WrittenBefore(cur: Player, created: Player, log: seq<Commit>, regen: int, clock: int)
    requires LinearAt(cur, created, log, regen, clock)
    ensures LastTime(created, log, |log|) <= clock
  {}

  lemma JoinKeeps(s: Sys, pl: Player)
    requires Linear(s) && Enabled(s, Join(pl))
    ensures var s' := DoJoin(s, pl); Linear(s') && Forward(s, s')
  {
    hide LinearAt, NewPlayer, Linear, Forward;
    if CreatePlayer(s.db, pl).result.Ok? {
      JoinNew(s, DoJoin(s, pl), pl);
    } else {
      LinearStays(s, DoJoin(s, pl));
    }
  }

  lemma JoinNew(s: Sys, s': Sys, pl: Player)
    requires Linear(s) && NewPlayer(pl, s.clock) && pl.id !in s.db.players
    requires s'.db.players == s.db.players[pl.id := pl] && s'.created == s.created[pl.id := pl]
    requires s'.log == s.log[pl.id := []]
    requires s'.regen == s.regen && s'.clock == s.clock
    ensures Linear(s') && Forward(s, s')
  {
    hide LinearAt, NewPlayer, Forward;
    NewHistory(pl, s.regen, s.clock);
    forall id | id in s'.db.players
      ensures id in s'.created && id in s'.log && s'.created[id].id == id
      ensures LinearAt(s'.db.players[id], s'.created[id], s'.log[id], s.regen, s.clock)
    {
      if id != pl.id {
        assert LinearAt(s.db.players[id], s.created[id], s.log[id], s.regen, s.clock);
      }
    }
    JoinForward(s, s', pl);
  }

  lemma JoinForward(s: Sys, s': Sys, pl: Player)
    requires s.db.players.Keys == s.created.Keys == s.log.Keys && pl.id !in s.db.players
    requires s'.db.players == s.db.players[pl.id := pl] && s'.created == s.created[pl.id := pl]
    requires s'.log == s.log[pl.id := []]
    requires s'.regen == s.regen && s'.clock == s.clock
    ensures Forward(s, s')
  {}

  lemma NewHistory(pl: Player, regen: int, clock: int)
    requires NewPlayer(pl, clock)
    ensures LinearAt(pl, pl, [], regen, clock)
  {}

  lemma SaneGrant(db: Db, rw: Reward)
    requires RewardsSane(db) && rw.coins >= 0 && forall b :: b in rw.extras ==> rw.extras[b] >= 0
    ensures RewardsSane(CreateReward(db, rw).db)
  {}

  /** A new job can start anywhere. */
  lemma JobOk(s: Sys, job: Job)
    requires Proper(job.decision)
    ensures PcOk(s, Reading(job, 0, None))
  {}

  lemma FlipProper(s: Sys, k: RewardKey)
    requires RewardsSane(s.db) && ClaimReward(s.db, k).result.Ok?
    ensures var rw := ClaimReward(s.db, k).result.value; Proper(Credit(k.1, rw.coins, rw.extras))
    ensures RewardsSane(ClaimReward(s.db, k).db)
  {}

  lemma StepLinear(s: Sys, step: Step)
    requires Inv(s) && Enabled(s, step)
    ensures Linear(Next(s, step)) && Forward(s, Next(s, step))
  {
    hide Decided, LinearAt, Snapshots, RewardsSane, Linear, Forward, PcOk, NewPlayer, LootReward, PodiumReward,
         NoDuplicates;
    match step
    case Write(c, now, later) => WriteKeeps(s, c, now, later);
    case Read(c) => ReadKeeps(s, c);
    case Join(pl) => JoinKeeps(s, pl);
    case _ => LinearStays(s, Next(s, step));
  }

  lemma ActorFlip(s: Sys, c: nat)
    requires RewardsSane(s.db) && At(s, c).Claiming?
    ensures var s' := DoFlip(s, c); PcOk(s', At(s', c)) && RewardsSane(s'.db)
  {
    hide RewardsSane, ClaimReward, Proper;
    var k := At(s, c).key;
    var s' := DoFlip(s, c);
    if ClaimReward(s.db, k).result.Ok? {
      FlipProper(s, k);
      JobOk(s', At(s', c).job);
    }
  }

  lemma ActorGrant(s: Sys, c: nat)
    requires RewardsSane(s.db) && At(s, c).Granting?
    ensures var s' := DoGrant(s, c); PcOk(s', At(s', c)) && RewardsSane(s'.db)
  {
    hide RewardsSane, CreateReward, RunLootCoins;
    var run := At(s, c).run;
    if run.outcome.Some? {
      SaneGrant(s.db, LootReward(run, run.outcome.value.score));
    }
  }

  lemma ActorPodium(s: Sys, event: string, winner: PlayerId, rank: int)
    requires RewardsSane(s.db)
    ensures RewardsSane(CreateReward(s.db, PodiumReward(event, winner, rank)).db)
  {
    hide RewardsSane, CreateReward;
    SaneGrant(s.db, PodiumReward(event, winner, rank));
  }

  /** A request that the step does not touch. */
  lemma BystanderOk(s: Sys, s': Sys, c: nat)
    requires Linear(s) && Snapshots(s) && Forward(s, s') && At(s', c) == At(s, c)
    ensures PcOk(s', At(s', c))
  {
    hide PcOk, Forward, At;
    assert PcOk(s, At(s, c));
    PcStays(s, s', At(s, c));
  }

  lemma StepActor(s: Sys, step: Step)
    requires Inv(s) && Enabled(s, step)
    ensures PcOk(Next(s, step), At(Next(s, step), Actor(step))) && RewardsSane(Next(s, step).db)
  {
    hide Decided, LinearAt, Linear, Forward, NewPlayer, LootReward, PodiumReward, NoDuplicates, CreatePlayer,
         CreateReward, UpdatePlayer, RewardsSane, LeaderboardCoins, Decide;
    var s' := Next(s, step);
    StepLinear(s, step);
    match step
    case Tick(_) => BystanderOk(s, s', 0);
    case Join(pl) => RewardsUntouched(s, step); SaneFrame(s.db, s'.db); BystanderOk(s, s', 0);
    case Podium(event, winner, rank) => ActorPodium(s, event, winner, rank); BystanderOk(s, s', 0);
    case Write(c, now, later) => WriteKeeps(s, c, now, later); RewardsUntouched(s, step); SaneFrame(s.db, s'.db);
    case Read(c) => ReadKeeps(s, c); SaneFrame(s.db, s'.db);
    case Flip(c) => ActorFlip(s, c);
    case Grant(c) => ActorGrant(s, c);
    case BeginBuy(c, p, item) =>
    case BeginStart(c, p, cost, names, terms) =>
    case BeginClaim(c, _) =>
    case BeginFinish(c, _, _) =>
    case Put(c, id) => SaneFrame(s.db, s'.db);
    case Settle(c) => SaneFrame(s.db, s'.db);
    case Crash(c) =>
  }

  lemma RewardsUntouched(s: Sys, step: Step)
    requires (step.Join? || step.Write?) && Enabled(s, step)
    ensures Next(s, step).db.rewards == s.db.rewards
  {
    hide Decided, NewPlayer;
  }

  lemma SaneFrame(db: Db, db': Db)
    requires RewardsSane(db) && db'.rewards == db.rewards
    ensures RewardsSane(db')
  {}

  /** Every step keeps the invariant. */
  lemma StepKeeps(s: Sys, step: Step)
    requires Inv(s) && Enabled(s, step)
    ensures Inv(Next(s, step)) && Forward(s, Next(s, step))
  {
    hide Linear, Snapshots, RewardsSane, Forward, PcOk, Next, Enabled, Actor, At;
    StepLinear(s, step);
    StepActor(s, step);
    OthersUntouched(s, step);
    LinearKeys(s);
    SnapshotsStay(s, Next(s, step), Actor(step));
  }

  lemma LinearKeys(s: Sys)
    requires Linear(s)
    ensures s.db.players.Keys == s.created.Keys == s.log.Keys
  {}

  lemma {:induction false} ExecutionKeeps(states: seq<Sys>, steps: seq<Step>, n: nat)
    requires Execution(states, steps) && n < |states|
    ensures Inv(states[n])
    decreases n
  {
    hide Enabled, Next;
    if n == 0 {
      forall c: nat ensures PcOk(states[0], At(states[0], c)) {}
    } else {
      ExecutionKeeps(states, steps, n - 1);
      StepKeeps(states[n - 1], steps[n - 1]);
    }
  }

  // ---- the theorems ----

  /** In every reachable state of every interleaving, each stored profile is its creation
      with the committed decisions applied one after the other, each to the profile the
      one before left; the version counts them; and coins, boosters and lives are within
      their bounds. */
  lemma ProfilesAreLinear(states: seq<Sys>, steps: seq<Step>, n: nat, id: PlayerId)
    requires Execution(states, steps) && n < |states| && id in states[n].db.players
    ensures var s := states[n];
      && id in s.created && id in s.log
      && Accepted(s.created[id], s.log[id], s.regen)
      && s.db.players[id] == After(s.created[id], s.log[id], |s.log[id]|, s.regen)
      && s.db.players[id].version == 1 + |s.log[id]|
      && Sound(s.db.players[id])
  {
    hide Execution, Decided, Accepted, After, Sound, InOrder, AllProper;
    ExecutionKeeps(states, steps, n);
    var s := states[n];
    assert LinearAt(s.db.players[id], s.created[id], s.log[id], s.regen, s.clock);
    Identity(s.db.players[id], s.created[id], s.log[id], s.regen, s.clock);
    HistorySound(s.created[id], s.log[id], |s.log[id]|, s.regen);
  }

  /** A write changes nothing unless it commits; it commits exactly when its decision is
      accepted and no other commit came since the read, and then its decision has been
      applied to the stored profile itself. */
  lemma WritesCommitOrVanish(s: Sys, c: nat, now: int, later: int)
    requires Inv(s) && Enabled(s, Write(c, now, later))
    ensures var s' := Next(s, Write(c, now, later)); var job := At(s, c).job; var id := job.player;
      var base := At(s, c).base;
      && id in s.db.players && id in s.log
      && var q := Decided(s.db.players[id], job.decision, now, later, s.regen);
      if s.db.players[id].version == base.version && q.Ok? then
        && s'.db.players == s.db.players[id := q.value.(version := base.version + 1)]
        && s'.log == s.log[id := s.log[id] + [Commit(job.decision, now, later)]]
        && (At(s', c).Idle? || At(s', c).Putting?)
      else s'.db == s.db && s'.log == s.log
  {
    hide Decided, LinearAt, RewardsSane;
    assert PcOk(s, At(s, c));
    var base := At(s, c).base;
    if Decided(base, At(s, c).job.decision, now, later, s.regen).Ok? {
      DecidedKeeps(base, At(s, c).job.decision, now, later, s.regen);
    }
  }

  /** Request `c` made its first read at step `m`, and none of its writes since then, up to
      state `n`, has committed. */
  ghost predicate LostSince(states: seq<Sys>, steps: seq<Step>, m: nat, n: nat, c: nat)
    requires |states| == |steps| + 1
  {
    && m < n < |states| && steps[m] == Read(c)
    && forall j :: m <= j < n && steps[j].Write? && steps[j].c == c ==>
         states[j + 1].db == states[j].db && states[j + 1].log == states[j].log
  }

  ghost predicate Retrying(pc: Pc) {
    (pc.Reading? && pc.first.Some?) || pc.Writing? || pc.Exhausted?
  }

  ghost predicate ReadFirst(s: Sys, pc: Pc) {
    && Retrying(pc) && pc.first.Some? && pc.job.player in s.db.players
    && s.db.players[pc.job.player].version == pc.first.value
  }

  /** A request that is still retrying has lost since its first read. */
  lemma {:induction false} RetryingHasLost(states: seq<Sys>, steps: seq<Step>, n: nat, c: nat) returns (m: nat)
    requires Execution(states, steps) && n < |states| && Retrying(At(states[n], c))
    ensures LostSince(states, steps, m, n, c) && ReadFirst(states[m], At(states[n], c))
    decreases n
  {
    hide Decided, Inv, Execution, ReadFirst;
    NobodyYet(states, steps);
    StepAt(states, steps, n - 1);
    ExecutionKeeps(states, steps, n - 1);
    var s, step := states[n - 1], steps[n - 1];
    if step == Read(c) && At(s, c).Reading? && At(s, c).first.None? {
      m := n - 1;
      FirstRead(s, c);
    } else {
      StillRetrying(s, step, c);
      m := RetryingHasLost(states, steps, n - 1, c);
      SameFirst(states[m], At(s, c), At(states[n], c));
    }
  }

  lemma StepAt(states: seq<Sys>, steps: seq<Step>, i: nat)
    requires Execution(states, steps) && i < |steps|
    ensures |states| == |steps| + 1 && Enabled(states[i], steps[i]) && states[i + 1] == Next(states[i], steps[i])
  {}

  lemma NobodyYet(states: seq<Sys>, steps: seq<Step>)
    requires Execution(states, steps)
    ensures |states| == |steps| + 1 && forall c: nat :: At(states[0], c).Idle?
  {}

  lemma FirstRead(s: Sys, c: nat)
    requires At(s, c).Reading? && At(s, c).first.None? && Retrying(At(DoRead(s, c), c))
    ensures ReadFirst(s, At(DoRead(s, c), c))
  {}

  lemma SameFirst(s: Sys, pc: Pc, pc': Pc)
    requires Retrying(pc) && Retrying(pc') && pc'.job == pc.job && pc'.first == pc.first && ReadFirst(s, pc)
    ensures ReadFirst(s, pc')
  {}

  /** Apart from its first read a request retries only as long as its writes fail. */
  lemma StillRetrying(s: Sys, step: Step, c: nat)
    requires Inv(s) && Enabled(s, step) && Retrying(At(Next(s, step), c))
    requires !(step == Read(c) && At(s, c).Reading? && At(s, c).first.None?)
    ensures Retrying(At(s, c)) && At(Next(s, step), c).job == At(s, c).job
    ensures At(Next(s, step), c).first == At(s, c).first
    ensures step.Write? && step.c == c ==> Next(s, step).db == s.db && Next(s, step).log == s.log
  {
    hide Inv, Decided, NewPlayer, NoDuplicates, LootReward, PodiumReward, CreateReward, ClaimReward, CreatePlayer,
         FinishRun, PutRun;
    if Actor(step) != c {
      OthersUntouched(s, step);
    } else {
      assert PcOk(s, At(s, c)) by { PcHolds(s, c); }
    }
  }

  lemma PcHolds(s: Sys, c: nat)
    requires Inv(s)
    ensures PcOk(s, At(s, c))
  {}

  /** A request only gives up retrying after four commits of others to its profile: from its
      first read on none of its own writes has committed, and the profile's log has grown by
      at least four. */
  lemma GivingUpMeansLosing(states: seq<Sys>, steps: seq<Step>, n: nat, c: nat) returns (m: nat)
    requires Execution(states, steps) && n < |states| && At(states[n], c).Exhausted?
    ensures |states| == |steps| + 1 && LostSince(states, steps, m, n, c)
    ensures var id := At(states[n], c).job.player;
      && id in states[m].log && id in states[n].log
      && |states[n].log[id]| >= |states[m].log[id]| + 4
  {
    hide Execution, Linear, LostSince, Decided, Accepted, After;
    NobodyYet(states, steps);
    m := RetryingHasLost(states, steps, n, c);
    ExecutionKeeps(states, steps, n);
    assert PcOk(states[n], At(states[n], c));
    assert m < n by { LostEarlier(states, steps, m, n, c); }
    assert ReadFirst(states[m], At(states[n], c));
    var id := At(states[n], c).job.player;
    ProfilesAreLinear(states, steps, m, id);
    ProfilesAreLinear(states, steps, n, id);
  }

  lemma LostEarlier(states: seq<Sys>, steps: seq<Step>, m: nat, n: nat, c: nat)
    requires |states| == |steps| + 1 && LostSince(states, steps, m, n, c)
    ensures m < n
  {}

  /** Lives over every interleaving: what a player has spent is covered by the lives the
      profile started with, the lives bought, and the time since it was created. */
  lemma LivesAreEarned(states: seq<Sys>, steps: seq<Step>, n: nat, id: PlayerId)
    requires Execution(states, steps) && n < |states| && id in states[n].db.players
    ensures var s := states[n];
      && id in s.created && id in s.log && s.created[id].livesUpdatedAt.Some?
      && SpentSum(s.log[id], |s.log[id]|) * s.regen
         <= s.created[id].lives * s.regen + BoughtSum(s.log[id], |s.log[id]|) * s.regen
            + (s.clock - s.created[id].livesUpdatedAt.value)
  {
    hide Execution, Decided, Accepted, After, Sound, AllProper, SpentSum, BoughtSum;
    ExecutionKeeps(states, steps, n);
    var s := states[n];
    assert LinearAt(s.db.players[id], s.created[id], s.log[id], s.regen, s.clock);
    SpentLivesAreEarned(s.created[id], s.log[id], s.regen, s.clock);
  }

  // ---- one account per device ----

  lemma WriteKeepsDevices(s: Sys, c: nat, now: int, later: int)
    requires Inv(s) && Enabled(s, Write(c, now, later)) && DevicesOk(s.db)
    ensures DevicesOk(DoWrite(s, c, now, later).db)
  {
    hide Linear, RewardsSane, Decide, ApplyRegen, DevicesOk, Snapshots, UpdatePlayer;
    var pc := At(s, c);
    SnapshotOf(s, c);
    var q := Decided(pc.base, pc.job.decision, now, later, s.regen);
    if q.Ok? {
      RegenGives(pc.base, now, s.regen);
      DecisionTerms(ApplyRegen(pc.base, now, s.regen), pc.job.decision, later);
      UpdateKeepsDevices(s.db, q.value);
      FailedWrite(s.db, q.value);
    }
  }

  lemma FailedWrite(db: Db, pl: Player)
    ensures UpdatePlayer(db, pl).result.Err? ==> UpdatePlayer(db, pl).db == db
  {}

  lemma StepKeepsDevices(s: Sys, step: Step)
    requires Inv(s) && Enabled(s, step) && DevicesOk(s.db)
    ensures DevicesOk(Next(s, step).db)
  {
    hide Inv, Decided, LootReward, PodiumReward, NoDuplicates, NewPlayer, DevicesOk;
    match step
    case Join(pl) => CreateKeepsDevices(s.db, pl);
    case Write(c, now, later) => WriteKeepsDevices(s, c, now, later);
    case _ => SameDevices(s.db, Next(s, step).db);
  }

  lemma SameDevices(db: Db, db': Db)
    requires DevicesOk(db) && db'.players == db.players && db'.devices == db.devices
    ensures DevicesOk(db')
  {}

  lemma {:induction false} ExecutionDevices(states: seq<Sys>, steps: seq<Step>, n: nat)
    requires Execution(states, steps) && n < |states|
    ensures DevicesOk(states[n].db)
    decreases n
  {
    hide Enabled, Next, Inv;
    if n > 0 {
      ExecutionDevices(states, steps, n - 1);
      ExecutionKeeps(states, steps, n - 1);
      StepKeepsDevices(states[n - 1], steps[n - 1]);
    }
  }

  /** In every reachable state of every interleaving no two players share a device. */
  lemma OneAccountPerDevice(states: seq<Sys>, steps: seq<Step>, n: nat, p: PlayerId, q: PlayerId)
    requires Execution(states, steps) && n < |states| && p in states[n].db.players && q in states[n].db.players
    ensures var players := states[n].db.players;
      players[p].deviceId == players[q].deviceId != "" ==> p == q
  {
    hide Execution;
    ExecutionDevices(states, steps, n);
  }
}

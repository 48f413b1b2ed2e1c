/** Many requests at work on one store: the services as programs of atomic store steps,
    interleaved in any order (player, shop, gameplay and reward services). */
module Protocol {
  import opened Wrappers
  import opened Profiles
  import opened Decisions
  import opened Store

  // ---- rewards ----

  /** Coins for a run's score. */
  function RunLootCoins(score: int): (c: int)
    ensures c >= 10
  {
    var c := if score >= 0 then score / 100 else -((-score) / 100);
    if c < 10 then 10 else c
  }

  function LeaderboardCoins(rank: int): int {
    if rank == 1 then 5000 else if rank <= 3 then 3000 else if rank <= 10 then 1500 else if rank <= 100 then 500 else 0
  }

  /** Run identifiers carry their prefix. */
  ghost predicate IsRunId(id: RunId) {
    "run_" <= id
  }

  function LootId(run: RunId): RewardId {
    "rwd_" + run
  }

  function PodiumId(event: string): RewardId {
    "rwd_lb_" + event
  }

  function LootReward(run: Run, score: int): Reward {
    Reward(LootId(run.id), run.playerId, RunLootCoins(score), map[], Pending, run.eventId, 0)
  }

  function PodiumReward(event: string, player: PlayerId, rank: int): Reward {
    var extras := if rank <= 3 then map["shield" := 1] else map[];
    Reward(PodiumId(event), player, LeaderboardCoins(rank), extras, Pending, event, rank)
  }

  /** What rewards are worth. A run pays a coin for every full hundred of its score, and ten
      at least; a podium pays 5000, 3000, 1500 or 500 coins down to the hundredth place, and a
      shield with the first three. */
  lemma RewardAmounts(run: Run, score: int, event: string, player: PlayerId, rank: int)
    ensures var c := LootReward(run, score).coins;
      c >= 10 && (c == 10 ==> score < 1100) && (c > 10 ==> 100 * c <= score < 100 * c + 100)
    ensures rank >= 1 ==>
      && var c := PodiumReward(event, player, rank).coins;
      && (c == 5000 <==> rank == 1) && (c == 3000 <==> 2 <= rank <= 3) && (c == 1500 <==> 4 <= rank <= 10)
      && (c == 500 <==> 11 <= rank <= 100) && (c == 0 <==> rank > 100)
    ensures LootReward(run, score).extras == map[] && LootReward(run, score).id == "rwd_" + run.id
    ensures PodiumReward(event, player, rank).id == "rwd_lb_" + event
    ensures var extras := PodiumReward(event, player, rank).extras;
      && ("shield" in extras <==> rank <= 3) && forall b :: b in extras ==> b == "shield" && extras[b] == 1
    ensures LootReward(run, score).playerId == run.playerId && LootReward(run, score).eventId == run.eventId
    ensures PodiumReward(event, player, rank).playerId == player && PodiumReward(event, player, rank).eventId == event
    ensures LootReward(run, score).status == Pending && PodiumReward(event, player, rank).status == Pending
  {}

  // ---- where a request stands ----

  /** What a started run is bound to. */
  datatype Terms = Terms(eventId: string, seed: bv32, configVersion: int, boosters: seq<string>, expiresAt: int)

  /** A profile mutation, and the run to create once it is committed, if any. */
  datatype Job = Job(player: PlayerId, decision: Decision, next: Option<Terms>)

  const MAX_ATTEMPTS: nat := 4

  datatype Pc =
    | Idle
    | Reading(job: Job, attempt: nat, first: Option<int>)
    | Writing(job: Job, attempt: nat, first: Option<int>, base: Player, since: int)
    | Exhausted(job: Job, first: Option<int>)
    | Claiming(key: RewardKey)
    | Putting(player: PlayerId, terms: Terms)
    | Settling(run: Run)
    | Granting(run: Run)

  datatype Commit = Commit(decision: Decision, now: int, later: int)

  /** The store, the clock, the requests, and for the record: how each profile was created
      and what was committed to it. `verdicts` holds the outcomes that a replay can give a
      run; `regen` is the time a life takes. */
  datatype Sys = Sys(
    db: Db, clock: int, clients: map<nat, Pc>, created: map<PlayerId, Player>, log: map<PlayerId, seq<Commit>>,
    regen: int, verdicts: iset<(Run, Outcome)>)

  ghost function At(s: Sys, c: nat): Pc {
    if c in s.clients then s.clients[c] else Idle
  }

  // ---- steps ----

  datatype Step =
    | Tick(time: int)
    | Join(pl: Player)
    | BeginBuy(c: nat, player: PlayerId, item: Item)
    | BeginStart(c: nat, player: PlayerId, cost: int, names: seq<string>, terms: Terms)
    | BeginClaim(c: nat, key: RewardKey)
    | BeginFinish(c: nat, runKey: RunKey, outcome: Outcome)
    | Read(c: nat)
    | Write(c: nat, now: int, later: int)
    | Flip(c: nat)
    | Put(c: nat, id: RunId)
    | Settle(c: nat)
    | Grant(c: nat)
    | Podium(event: string, winner: PlayerId, rank: int)
    | Crash(c: nat)

  ghost function Decided(p: Player, d: Decision, now: int, later: int, regen: int): Result<Player, Refusal> {
    Decide(ApplyRegen(p, now, regen), d, later)
  }

  ghost predicate NewPlayer(pl: Player, clock: int) {
    && pl.coins == STARTING_COINS && pl.version == 1 && Sound(pl) && pl.livesUpdatedAt.Some?
    && pl.livesUpdatedAt.value <= clock
  }

  ghost predicate Enabled(s: Sys, step: Step) {
    match step
    case Tick(time) => time >= s.clock
    case Join(pl) => NewPlayer(pl, s.clock)
    case BeginBuy(c, _, item) => At(s, c).Idle? && item in CATALOG
    case BeginStart(c, _, cost, names, terms) =>
      At(s, c).Idle? && cost >= 0 && NoDuplicates(names) && terms.boosters == names
    case BeginClaim(c, _) => At(s, c).Idle?
    case BeginFinish(c, k, o) =>
      && At(s, c).Idle? && k in s.db.runs && s.db.runs[k].status == Active && s.clock <= s.db.runs[k].expiresAt
      && (s.db.runs[k], o) in s.verdicts
    case Read(c) => At(s, c).Reading?
    case Write(c, now, later) => At(s, c).Writing? && At(s, c).since <= now <= later <= s.clock
    case Flip(c) => At(s, c).Claiming?
    case Put(c, id) => At(s, c).Putting? && IsRunId(id) && (At(s, c).player, id) !in s.db.runs
    case Settle(c) => At(s, c).Settling?
    case Grant(c) => At(s, c).Granting?
    case Podium(_, _, rank) => LeaderboardCoins(rank) != 0
    case Crash(c) => true
  }

  ghost function Become(s: Sys, c: nat, pc: Pc): Sys {
    s.(clients := s.clients[c := pc])
  }

  ghost function DoJoin(s: Sys, pl: Player): Sys {
    var r := CreatePlayer(s.db, pl);
    if r.result.Ok? then s.(db := r.db, created := s.created[pl.id := pl], log := s.log[pl.id := []]) else s
  }

  /** The first half of an attempt: a fresh copy of the profile. */
  ghost function DoRead(s: Sys, c: nat): Sys
    requires At(s, c).Reading?
  {
    var pc := At(s, c);
    if pc.job.player !in s.db.players then Become(s, c, Idle)
    else
      var base := s.db.players[pc.job.player];
      Become(s, c, Writing(pc.job, pc.attempt, if pc.first.Some? then pc.first else Some(base.version), base, s.clock))
  }

  /** The second half: the decision, and the conditional write. A refused decision ends the
      request, a lost race starts the next attempt unless it was the last. */
  ghost function DoWrite(s: Sys, c: nat, now: int, later: int): Sys
    requires At(s, c).Writing?
  {
    var pc := At(s, c);
    var id, d := pc.job.player, pc.job.decision;
    var q := Decided(pc.base, d, now, later, s.regen);
    if q.Err? then Become(s, c, Idle)
    else
      var r := UpdatePlayer(s.db, q.value);
      if r.result.Ok? then
        var next := if pc.job.next.Some? then Putting(id, pc.job.next.value) else Idle;
        var commits := (if id in s.log then s.log[id] else []) + [Commit(d, now, later)];
        Become(s, c, next).(db := r.db, log := s.log[id := commits])
      else if r.result.error == VersionConflict then
        var again := pc.attempt + 1 < MAX_ATTEMPTS;
        Become(s, c, if again then Reading(pc.job, pc.attempt + 1, pc.first) else Exhausted(pc.job, pc.first))
      else Become(s, c, Idle)
  }

  ghost function DoFlip(s: Sys, c: nat): Sys
    requires At(s, c).Claiming?
  {
    var k := At(s, c).key;
    var r := ClaimReward(s.db, k);
    if r.result.Err? then Become(s, c, Idle)
    else
      var job := Job(k.0, Credit(k.1, r.result.value.coins, r.result.value.extras), None);
      Become(s, c, Reading(job, 0, None)).(db := r.db)
  }

  ghost function DoPut(s: Sys, c: nat, id: RunId): Sys
    requires At(s, c).Putting?
  {
    var p, t := At(s, c).player, At(s, c).terms;
    var run := Run(id, p, t.eventId, t.seed, t.configVersion, t.boosters, Active, t.expiresAt, None);
    Become(s, c, Idle).(db := PutRun(s.db, run))
  }

  ghost function DoSettle(s: Sys, c: nat): Sys
    requires At(s, c).Settling?
  {
    var r := FinishRun(s.db, At(s, c).run);
    if r.result.Err? then Become(s, c, Idle) else Become(s, c, Granting(r.result.value)).(db := r.db)
  }

  ghost function DoGrant(s: Sys, c: nat): Sys
    requires At(s, c).Granting?
  {
    var run := At(s, c).run;
    if run.outcome.None? then Become(s, c, Idle)
    else
      var o := run.outcome.value;
      Become(s, c, Reading(Job(run.playerId, Record(run.id, o.score, o.loot, o.cracked), None), 0, None))
        .(db := CreateReward(s.db, LootReward(run, o.score)).db)
  }

  ghost function Next(s: Sys, step: Step): Sys
    requires Enabled(s, step)
  {
    match step
    case Tick(time) => s.(clock := time)
    case Join(pl) => DoJoin(s, pl)
    case BeginBuy(c, p, item) => Become(s, c, Reading(Job(p, Buy(item), None), 0, None))
    case BeginStart(c, p, cost, names, terms) =>
      Become(s, c, Reading(Job(p, Charge(cost, names), Some(terms)), 0, None))
    case BeginClaim(c, k) => Become(s, c, Claiming(k))
    case BeginFinish(c, k, o) => Become(s, c, Settling(s.db.runs[k].(outcome := Some(o))))
    case Read(c) => DoRead(s, c)
    case Write(c, now, later) => DoWrite(s, c, now, later)
    case Flip(c) => DoFlip(s, c)
    case Put(c, id) => DoPut(s, c, id)
    case Settle(c) => DoSettle(s, c)
    case Grant(c) => DoGrant(s, c)
    case Podium(event, winner, rank) => s.(db := CreateReward(s.db, PodiumReward(event, winner, rank)).db)
    case Crash(c) => Become(s, c, Idle)
  }

  ghost predicate Init(s: Sys) {
    && s.db == Db(map[], map[], map[], map[], map[]) && s.clients == map[] && s.created == map[] && s.log == map[]
    && s.regen > 0
  }

  /** A run of the system: the states it goes through. */
  ghost predicate Execution(states: seq<Sys>, steps: seq<Step>) {
    && |states| == |steps| + 1 && Init(states[0])
    && forall i :: 0 <= i < |steps| ==> Enabled(states[i], steps[i]) && states[i + 1] == Next(states[i], steps[i])
  }

  /** The request that a step belongs to, if any. */
  ghost function Actor(step: Step): nat {
    match step
    case Tick(_) => 0
    case Join(_) => 0
    case Podium(_, _, _) => 0
    case BeginBuy(c, _, _) => c
    case BeginStart(c, _, _, _, _) => c
    case BeginClaim(c, _) => c
    case BeginFinish(c, _, _) => c
    case Read(c) => c
    case Write(c, _, _) => c
    case Flip(c) => c
    case Put(c, _) => c
    case Settle(c) => c
    case Grant(c) => c
    case Crash(c) => c
  }

  lemma OthersUntouched(s: Sys, step: Step)
    requires Enabled(s, step)
    ensures forall c: nat :: c != Actor(step) ==> At(Next(s, step), c) == At(s, c)
  {
    hide Decided, CreatePlayer, UpdatePlayer, FinishRun, CreateReward, ClaimReward, LootReward, PodiumReward,
         NoDuplicates, NewPlayer;
  }
}

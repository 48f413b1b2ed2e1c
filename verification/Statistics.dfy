/** Every settled run enters its player's statistics at most once, with the outcome it was
    settled with (gameplay/service.go Finish). */
module Statistics {
  import opened Profiles
  import opened Decisions
  import opened Store
  import opened Protocol
  import opened Histories
  import opened Linearity
  import opened Settlement
  import opened Payouts

  ghost predicate RecordedAt(log: seq<Commit>, i: int, run: RunId) {
    0 <= i < |log| && log[i].decision.Record? && log[i].decision.run == run
  }

  /** The decision reports the outcome that the run was settled with. */
  ghost predicate Reports(s: Sys, k: RunKey, d: Decision) {
    && k in s.db.runs && s.db.runs[k].status == Finished && s.db.runs[k].outcome.Some?
    && var o := s.db.runs[k].outcome.value; d == Record(k.1, o.score, o.loot, o.cracked)
  }

  /** The request has settled the run and has yet to record it. */
  ghost predicate Carries(pc: Pc, k: RunKey) {
    || (pc.Granting? && k == (pc.run.playerId, pc.run.id))
    || ((pc.Reading? || pc.Writing?) && pc.job.decision.Record? && k == (pc.job.player, pc.job.decision.run))
  }

  ghost predicate CarrierOk(s: Sys, c: nat, k: RunKey) {
    Carries(At(s, c), k) ==>
      && k in s.db.runs && s.db.runs[k].status == Finished
      && (!At(s, c).Granting? ==> Reports(s, k, At(s, c).job.decision))
      && forall i :: !RecordedAt(LogOf(s, k.0), i, k.1)
  }

  ghost predicate EntryOk(s: Sys, p: PlayerId, i: int, run: RunId) {
    RecordedAt(LogOf(s, p), i, run) ==>
      Reports(s, (p, run), LogOf(s, p)[i].decision) && forall j :: RecordedAt(LogOf(s, p), j, run) ==> i == j
  }

  ghost predicate RecordsOk(s: Sys) {
    && (forall p, i, run :: EntryOk(s, p, i, run))
    && (forall c: nat, k :: CarrierOk(s, c, k))
    && (forall c: nat, c': nat, k :: Carries(At(s, c), k) && Carries(At(s, c'), k) ==> c == c')
  }

  lemma ReportsStay(s: Sys, s': Sys, k: RunKey, d: Decision)
    requires Reports(s, k, d) && RunsForward(s, s')
    ensures Reports(s', k, d)
  {}

  /** What carries on from one state to the next for a request. */
  ghost predicate StillCarries(s: Sys, s': Sys, c: nat, k: RunKey) {
    Carries(At(s', c), k) ==>
      Carries(At(s, c), k) && (!At(s', c).Granting? ==> Reports(s', k, At(s', c).job.decision))
  }

  /** Steps that commit nothing and settle nothing. */
  lemma RecordsFrame(s: Sys, s': Sys)
    requires RecordsOk(s) && RunsForward(s, s') && (forall p :: LogOf(s', p) == LogOf(s, p))
    requires forall c: nat, k :: StillCarries(s, s', c, k)
    ensures RecordsOk(s')
  {
    hide Reports, RunsForward, LogOf, RecordedAt, At, Carries;
    forall p, i, run ensures EntryOk(s', p, i, run) {
      assert EntryOk(s, p, i, run);
      if RecordedAt(LogOf(s', p), i, run) {
        EntryFacts(LogOf(s, p), i, run);
        ReportsStay(s, s', (p, run), LogOf(s, p)[i].decision);
      }
    }
    forall c: nat, k ensures CarrierOk(s', c, k) {
      assert CarrierOk(s, c, k) && StillCarries(s, s', c, k);
      if Carries(At(s', c), k) { FinishedStays(s, s', k); }
    }
    forall c: nat, c': nat, k | Carries(At(s', c), k) && Carries(At(s', c'), k) ensures c == c' {
      assert StillCarries(s, s', c, k) && StillCarries(s, s', c', k);
    }
  }

  lemma EntryFacts(log: seq<Commit>, i: int, run: RunId)
    requires RecordedAt(log, i, run)
    ensures 0 <= i < |log|
  {}

  lemma FinishedStays(s: Sys, s': Sys, k: RunKey)
    requires RunsForward(s, s') && k in s.db.runs && s.db.runs[k].status == Finished
    ensures k in s'.db.runs && s'.db.runs[k].status == Finished
  {}

  /** Settling: nobody carried an active run, and nobody had recorded it. */
  lemma SettleRecords(s: Sys, s': Sys, c: nat)
    requires RecordsOk(s) && At(s, c).Settling? && s' == DoSettle(s, c) && RunsForward(s, s')
    ensures RecordsOk(s')
  {
    hide RunsForward, Reports, LogOf, RecordedAt;
    assert forall p :: LogOf(s', p) == LogOf(s, p) by { SameLogs(s, s'); }
    var k := (At(s, c).run.playerId, At(s, c).run.id);
    if FinishRun(s.db, At(s, c).run).result.Err? {
      SettleFails(s, s', c);
      RecordsFrame(s, s');
    } else {
      forall p, i, run ensures EntryOk(s', p, i, run) {
        assert EntryOk(s, p, i, run);
        if RecordedAt(LogOf(s', p), i, run) {
          EntryFacts(LogOf(s, p), i, run);
          ReportsStay(s, s', (p, run), LogOf(s, p)[i].decision);
        }
      }
      forall c': nat, k' ensures CarrierOk(s', c', k') {
        assert CarrierOk(s, c', k');
        if c' != c {
          if Carries(At(s, c'), k') {
            FinishedStays(s, s', k');
            if !At(s, c').Granting? { ReportsStay(s, s', k', At(s, c').job.decision); }
          }
        } else if k' == k {
          ActiveUnrecorded(s, k);
        }
      }
      forall c1: nat, c2: nat, k' | Carries(At(s', c1), k') && Carries(At(s', c2), k') ensures c1 == c2 {
        assert CarrierOk(s, c1, k') && CarrierOk(s, c2, k');
      }
    }
  }

  lemma SettleFails(s: Sys, s': Sys, c: nat)
    requires RecordsOk(s) && At(s, c).Settling? && s' == Become(s, c, Idle) && RunsForward(s, s')
    ensures forall c': nat, k :: StillCarries(s, s', c', k)
  {
    hide RunsForward, Reports, RecordedAt, LogOf;
    forall c': nat, k ensures StillCarries(s, s', c', k) {
      assert CarrierOk(s, c', k);
      if c' != c && Carries(At(s, c'), k) && !At(s, c').Granting? { ReportsStay(s, s', k, At(s, c').job.decision); }
    }
  }

  lemma ActiveUnrecorded(s: Sys, k: RunKey)
    requires RecordsOk(s) && k in s.db.runs && s.db.runs[k].status == Active
    ensures forall i :: !RecordedAt(LogOf(s, k.0), i, k.1)
  {
    hide LogOf, RecordedAt, At;
    forall i ensures !RecordedAt(LogOf(s, k.0), i, k.1) {
      assert EntryOk(s, k.0, i, k.1);
    }
  }

  // ---- commits ----

  lemma NewEntry(s: Sys, s': Sys, c: nat, k: Commit, p: PlayerId, i: int, run: RunId)
    requires RecordsOk(s) && Committed(s, s', c, k) && RunsForward(s, s')
    ensures EntryOk(s', p, i, run)
  {
    hide Reports, At, RunsForward;
    assert EntryOk(s, p, i, run) && CarrierOk(s, c, (p, run));
    var log, log' := LogOf(s, p), LogOf(s', p);
    if RecordedAt(log', i, run) {
      if i < |log| {
        assert RecordedAt(log, i, run);
        ReportsStay(s, s', (p, run), log[i].decision);
      } else {
        ReportsStay(s, s', (p, run), k.decision);
      }
      forall j | RecordedAt(log', j, run) ensures i == j {
        assert EntryOk(s, p, j, run);
        if j < |log| { assert RecordedAt(log, j, run); }
      }
    }
  }

  lemma StillCarried(s: Sys, s': Sys, c: nat, k: Commit, c': nat, key: RunKey)
    requires RecordsOk(s) && Committed(s, s', c, k) && RunsForward(s, s') && !At(s', c).Granting?
    ensures CarrierOk(s', c', key)
  {
    hide Reports, At, RunsForward;
    assert CarrierOk(s, c', key) && CarrierOk(s, c, key);
    if Carries(At(s', c'), key) {
      FinishedStays(s, s', key);
      if !At(s, c').Granting? { ReportsStay(s, s', key, At(s, c').job.decision); }
      forall i ensures !RecordedAt(LogOf(s', key.0), i, key.1) {
        assert i < |LogOf(s, key.0)| ==>
          RecordedAt(LogOf(s', key.0), i, key.1) == RecordedAt(LogOf(s, key.0), i, key.1);
      }
    }
  }

  lemma CommittedRecords(s: Sys, s': Sys, c: nat, k: Commit)
    requires RecordsOk(s) && Committed(s, s', c, k) && RunsForward(s, s') && !At(s', c).Granting?
    ensures RecordsOk(s')
  {
    hide EntryOk, CarrierOk, LogOf, At, RunsForward;
    forall p, i, run ensures EntryOk(s', p, i, run) {
      NewEntry(s, s', c, k, p, i, run);
    }
    forall c': nat, key ensures CarrierOk(s', c', key) {
      StillCarried(s, s', c, k, c', key);
    }
    forall c1: nat, c2: nat, key | Carries(At(s', c1), key) && Carries(At(s', c2), key) ensures c1 == c2 {
      assert Carries(At(s, c1), key) && Carries(At(s, c2), key);
    }
  }

  // ---- every step ----

  lemma OthersCarryOn(s: Sys, s': Sys, c: nat)
    requires RecordsOk(s) && RunsForward(s, s') && (forall c': nat :: c' != c ==> At(s', c') == At(s, c'))
    requires forall k :: StillCarries(s, s', c, k)
    ensures forall c': nat, k :: StillCarries(s, s', c', k)
  {
    hide RunsForward, Reports, RecordedAt, LogOf;
    forall c': nat, k ensures StillCarries(s, s', c', k) {
      assert CarrierOk(s, c', k);
      if c' != c && Carries(At(s, c'), k) && !At(s, c').Granting? { ReportsStay(s, s', k, At(s, c').job.decision); }
    }
  }

  /** Granting the loot: the statistics job reports the stored outcome. */
  lemma GrantCarries(s: Sys, s': Sys, c: nat, k: RunKey)
    requires RunsOk(s) && At(s, c).Granting? && s' == DoGrant(s, c) && RunsForward(s, s')
    ensures StillCarries(s, s', c, k)
  {
    hide RunsForward, LootReward, CreateReward;
    assert SettlerOk(s, At(s, c));
    if At(s, c).run.outcome.Some? {
      var run := At(s, c).run;
      assert Reports(s, (run.playerId, run.id),
                     Record(run.id, run.outcome.value.score, run.outcome.value.loot, run.outcome.value.cracked));
      ReportsStay(s, s', (run.playerId, run.id),
                  Record(run.id, run.outcome.value.score, run.outcome.value.loot, run.outcome.value.cracked));
    }
  }

  /** A request that keeps its job, or has none that reports a run. */
  lemma JobCarries(s: Sys, s': Sys, c: nat, k: RunKey)
    requires RecordsOk(s) && RunsForward(s, s') && !At(s', c).Granting?
    requires (At(s', c).Reading? || At(s', c).Writing?) && At(s', c).job.decision.Record? ==>
      (At(s, c).Reading? || At(s, c).Writing?) && At(s, c).job == At(s', c).job
    ensures StillCarries(s, s', c, k)
  {
    hide RunsForward, Reports, RecordedAt, LogOf;
    assert CarrierOk(s, c, k);
    if Carries(At(s', c), k) { ReportsStay(s, s', k, At(s, c).job.decision); }
  }

  lemma PlainJobs(s: Sys, step: Step)
    requires Enabled(s, step) && !step.Settle? && !step.Grant? && !step.Write? && !step.Tick? && !step.Join?
    requires !step.Podium?
    ensures var pc, pc' := At(s, Actor(step)), At(Next(s, step), Actor(step));
      && !pc'.Granting?
      && ((pc'.Reading? || pc'.Writing?) && pc'.job.decision.Record? ==>
            (pc.Reading? || pc.Writing?) && pc.job == pc'.job)
  {
    hide CreateReward, ClaimReward, LootReward, NoDuplicates, NewPlayer, PutRun;
  }

  lemma IdleCarries(s: Sys, s': Sys, c: nat, k: RunKey)
    requires RecordsOk(s) && RunsForward(s, s') && At(s', c) == At(s, c)
    ensures StillCarries(s, s', c, k)
  {
    hide RunsForward, Reports, RecordedAt, LogOf;
    assert CarrierOk(s, c, k);
    if Carries(At(s, c), k) && !At(s, c).Granting? { ReportsStay(s, s', k, At(s, c).job.decision); }
  }

  lemma RecordsStep(s: Sys, step: Step)
    requires RecordsOk(s) && RunsOk(s) && s.log.Keys == s.db.players.Keys && Enabled(s, step)
    ensures RecordsOk(Next(s, step))
  {
    hide RecordsOk, RunsOk, RunsForward, NewPlayer, NoDuplicates, DoRead, DoPut, DoSettle, DoGrant, DoFlip, DoJoin,
         DoWrite, LogOf, Committed, StillCarries, Carries;
    var s' := Next(s, step);
    RunsKept(s, step);
    OthersUntouched(s, step);
    match step
    case Settle(c) => SettleRecords(s, s', c);
    case Write(c, now, later) => WriteRecords(s, s', c, now, later);
    case Grant(c) =>
      forall k ensures StillCarries(s, s', c, k) { GrantCarries(s, s', c, k); }
      GrantLogs(s, c);
      OthersCarryOn(s, s', c);
      RecordsFrame(s, s');
    case Join(pl) =>
      JoinLogs(s, pl);
      JoinClients(s, pl);
      forall k ensures StillCarries(s, s', 0, k) { IdleCarries(s, s', 0, k); }
      OthersCarryOn(s, s', 0);
      RecordsFrame(s, s');
    case Tick(_) => QuietRecords(s, s');
    case Podium(_, _, _) => QuietRecords(s, s');
    case _ =>
      PlainJobs(s, step);
      NoNewLogs(s, step);
      forall k ensures StillCarries(s, s', Actor(step), k) { JobCarries(s, s', Actor(step), k); }
      OthersCarryOn(s, s', Actor(step));
      RecordsFrame(s, s');
  }

  lemma JoinClients(s: Sys, pl: Player)
    ensures DoJoin(s, pl).clients == s.clients
  {
    hide CreatePlayer;
  }

  lemma NoNewLogs(s: Sys, step: Step)
    requires Enabled(s, step) && !step.Write? && !step.Join?
    ensures forall p :: LogOf(Next(s, step), p) == LogOf(s, p)
  {
    hide CreateReward, ClaimReward, LootReward, PodiumReward, NoDuplicates, NewPlayer, PutRun, FinishRun;
  }

  lemma GrantLogs(s: Sys, c: nat)
    requires At(s, c).Granting?
    ensures forall p :: LogOf(DoGrant(s, c), p) == LogOf(s, p)
  {
    hide CreateReward, LootReward;
  }

  lemma QuietRecords(s: Sys, s': Sys)
    requires RecordsOk(s) && RunsForward(s, s') && s'.log == s.log && s'.clients == s.clients
    ensures RecordsOk(s')
  {
    hide RecordsOk, RunsForward, StillCarries, LogOf;
    SameLogs(s, s');
    forall c: nat, k ensures StillCarries(s, s', c, k) { IdleCarries(s, s', c, k); }
    RecordsFrame(s, s');
  }

  lemma WriteRecords(s: Sys, s': Sys, c: nat, now: int, later: int)
    requires RecordsOk(s) && At(s, c).Writing? && s' == DoWrite(s, c, now, later) && RunsForward(s, s')
    requires forall c': nat :: c' != c ==> At(s', c') == At(s, c')
    ensures RecordsOk(s')
  {
    hide RecordsOk, RunsForward, LogOf, Committed, StillCarries, DoWrite;
    WriteCases(s, c, now, later);
    WriteNotGranting(s, c, now, later);
    if Committed(s, s', c, Commit(At(s, c).job.decision, now, later)) {
      CommittedRecords(s, s', c, Commit(At(s, c).job.decision, now, later));
    } else {
      SameLogs(s, s');
      forall k ensures StillCarries(s, s', c, k) { JobCarries(s, s', c, k); }
      OthersCarryOn(s, s', c);
      RecordsFrame(s, s');
    }
  }

  lemma WriteNotGranting(s: Sys, c: nat, now: int, later: int)
    requires At(s, c).Writing?
    ensures !At(DoWrite(s, c, now, later), c).Granting?
  {
    hide Decided, UpdatePlayer;
  }

  lemma {:induction false} ExecutionRecords(states: seq<Sys>, steps: seq<Step>, n: nat)
    requires Execution(states, steps) && n < |states|
    ensures RecordsOk(states[n])
    decreases n
  {
    hide Enabled, Next, Safe, RecordsOk, Inv, RunsOk, RewardsOk, CreditsOk;
    if n == 0 {
      NoRecordsYet(states[0]);
    } else {
      ExecutionRecords(states, steps, n - 1);
      ExecutionSafe(states, steps, n - 1);
      SafeParts(states[n - 1]);
      RecordsStep(states[n - 1], steps[n - 1]);
    }
  }

  lemma SafeParts(s: Sys)
    requires Safe(s)
    ensures RunsOk(s) && s.log.Keys == s.db.players.Keys
  {
    LinearKeys(s);
  }

  lemma NoRecordsYet(s: Sys)
    requires Init(s)
    ensures RecordsOk(s)
  {
    forall p, i, run ensures EntryOk(s, p, i, run) {}
    forall c: nat, k ensures CarrierOk(s, c, k) {}
  }

  /** In every reachable state of every interleaving, a player's statistics count commits
      that report pairwise different settled runs, each with the outcome it was settled
      with. */
  lemma RunsAreRecordedOnce(states: seq<Sys>, steps: seq<Step>, n: nat, p: PlayerId, i: int, j: int, run: RunId)
    requires Execution(states, steps) && n < |states| && p in states[n].db.players
    requires RecordedAt(LogOf(states[n], p), i, run) && RecordedAt(LogOf(states[n], p), j, run)
    ensures i == j && Reports(states[n], (p, run), LogOf(states[n], p)[i].decision)
    ensures p in states[n].created
    ensures states[n].db.players[p].stats.runs
      == states[n].created[p].stats.runs + RecordCount(LogOf(states[n], p), |LogOf(states[n], p)|)
  {
    hide Execution, Accepted, After, Sound;
    ExecutionRecords(states, steps, n);
    var s := states[n];
    assert EntryOk(s, p, i, run);
    ProfilesAreLinear(states, steps, n, p);
    HistoryStats(s.created[p], s.log[p], |s.log[p]|, s.regen);
  }
}

/** Where the interleaved protocol meets the replay: what a request may settle a run with is
    what a submission of that run can pass with (gameplay/service.go Finish). */
module SettledRuns {
  import opened Wrappers
  import opened Config
  import opened Play
  import opened ReplayLaws
  import opened Store
  import opened Protocol
  import opened Settlement
  import opened Payouts
  import opened Gameplay
  import Generators
  import Replay

  /** The outcomes that a submission can give a run. */
  ghost function Verdicts(configs: Configs): iset<(Run, Outcome)>
    requires AllRunnable(configs)
  {
    iset run: Run, o: Outcome | Possible(configs, run, o) :: (run, o)
  }

  ghost predicate Possible(configs: Configs, run: Run, o: Outcome)
    requires AllRunnable(configs)
  {
    exists rep: Replay.Submission, result: Replay.RunResult :: Gives(configs, run, rep, result, o)
  }

  ghost predicate Gives(configs: Configs, run: Run, rep: Replay.Submission, result: Replay.RunResult, o: Outcome)
    requires AllRunnable(configs)
  {
    Passes(configs, run, rep, result) && o == OutcomeOf(result)
  }

  /** `ts` shows the run that a submission is about, on the server's stream of its seed, and
      `result` is read off it. The names of the boosters that the run was charged for decide
      what it gets: three moves more in every vault, half the penalty on a bust. */
  ghost predicate PlayedAs(cfg: EventConfig, run: Run, rep: Replay.Submission, result: Replay.RunResult,
          boosters: seq<Booster>, ts: seq<seq<Snapshot>>)
    requires Replay.Runnable(Generators.Server, cfg)
  {
    && (ExtraMoves in boosters <==> "extra_moves" in run.boosters)
    && (Shield in boosters <==> "shield" in run.boosters)
    && PlaysRun(cfg, Generators.Source(Generators.Server, run.seed), boosters, rep.vaults, ts)
    && FlagFits(cfg, rep, Last(ts[|ts| - 1]).state)
    && (forall v :: 0 <= v < |ts| ==>
          ts[v][0].movesLeft == cfg.vaults[v].moves + if "extra_moves" in run.boosters then 3 else 0)
    && ReadOff(cfg, rep, ts, "shield" in run.boosters, result)
  }

  /** A submission passes with a result exactly when the run it is about can be played to that
      result with the configuration, seed and boosters that it was started with, and the
      claimed score and the plausibility bounds are met. */
  lemma PassesIffPlayed(configs: Configs, run: Run, rep: Replay.Submission, result: Replay.RunResult)
    requires AllRunnable(configs)
    ensures Passes(configs, run, rep, result) <==>
      && (run.eventId, run.configVersion) in configs
      && var cfg := configs[(run.eventId, run.configVersion)];
      && result.score == rep.clientScore && PassesPlausibility(cfg, rep)
      && exists boosters: seq<Booster>, ts: seq<seq<Snapshot>> :: PlayedAs(cfg, run, rep, result, boosters, ts)
  {
    hide Replay.Settled, Replay.Runnable, PlayedAs, PassesPlausibility, BoostersOf;
    if (run.eventId, run.configVersion) in configs {
      var cfg := configs[(run.eventId, run.configVersion)];
      if Passes(configs, run, rep, result) {
        PassedIsPlayed(cfg, run, rep, result);
      }
      if boosters: seq<Booster>, ts: seq<seq<Snapshot>> :| PlayedAs(cfg, run, rep, result, boosters, ts) {
        PlayedPasses(cfg, run, rep, result, boosters, ts);
      }
    }
  }

  lemma NamedBoosters(names: seq<string>)
    ensures ExtraMoves in BoostersOf(names) <==> "extra_moves" in names
    ensures Shield in BoostersOf(names) <==> "shield" in names
  {}

  lemma PassedIsPlayed(cfg: EventConfig, run: Run, rep: Replay.Submission, result: Replay.RunResult)
    requires Replay.Runnable(Generators.Server, cfg)
    requires Replay.Settled(cfg, StreamOf(run), BoostersOf(run.boosters), rep) == Ok(result)
    ensures exists boosters: seq<Booster>, ts: seq<seq<Snapshot>> :: PlayedAs(cfg, run, rep, result, boosters, ts)
  {
    hide Replay.Settled, Replay.Runnable, FlagFits, PlaysVaultOf, BoostersOf, ReadOff;
    var bs := BoostersOf(run.boosters);
    NamedBoosters(run.boosters);
    AcceptedIffLegal(cfg, StreamOf(run), bs, rep);
    var ts: seq<seq<Snapshot>> :|
      PlaysRun(cfg, StreamOf(run), bs, rep.vaults, ts) && FlagFits(cfg, rep, Last(ts[|ts| - 1]).state);
    AcceptedResult(cfg, StreamOf(run), bs, rep, ts);
    forall v | 0 <= v < |ts|
      ensures ts[v][0].movesLeft == cfg.vaults[v].moves + if "extra_moves" in run.boosters then 3 else 0
    {
      OpensAs(cfg, StreamOf(run), bs, rep.vaults[v], v, Begins(ts, v), ts[v]);
    }
    assert PlayedAs(cfg, run, rep, result, bs, ts);
  }

  lemma OpensAs(cfg: EventConfig, src: Generators.Source, boosters: seq<Booster>, moves: Replay.Moves, v: nat, p: nat,
          t: seq<Snapshot>)
    requires Replay.Runnable(src.engine, cfg) && v < |cfg.vaults| && PlaysVaultOf(cfg, src, boosters, moves, v, p, t)
    ensures |t| > 0 && t[0].movesLeft == cfg.vaults[v].moves + if ExtraMoves in boosters then 3 else 0
  {
    hide Replay.Runnable, Replay.Start;
    VaultOpens(cfg, src, boosters, v, p);
  }

  lemma PlayedPasses(cfg: EventConfig, run: Run, rep: Replay.Submission, result: Replay.RunResult,
          boosters: seq<Booster>, ts: seq<seq<Snapshot>>)
    requires Replay.Runnable(Generators.Server, cfg) && PlayedAs(cfg, run, rep, result, boosters, ts)
    ensures Replay.Settled(cfg, StreamOf(run), BoostersOf(run.boosters), rep) == Ok(result)
  {
    hide Replay.Settled, Replay.Runnable, FlagFits, PlaysVaultOf, BoostersOf, ReadOff;
    NamedBoosters(run.boosters);
    Replay.RunnableSizes(Generators.Server, cfg);
    SettledSame(cfg, StreamOf(run), boosters, BoostersOf(run.boosters), rep);
    AcceptedResult(cfg, StreamOf(run), boosters, rep, ts);
    var r := Replay.Settled(cfg, StreamOf(run), boosters, rep).value;
    ReadOffIsUnique(cfg, rep, ts, "shield" in run.boosters, r, result);
  }

  /** Whether a submission passes depends on what the run was started with only. */
  lemma PassesAsStarted(configs: Configs, run: Run, rep: Replay.Submission, result: Replay.RunResult)
    requires AllRunnable(configs)
    ensures Passes(configs, Started(run), rep, result) == Passes(configs, run, rep, result)
  {
    hide Replay.Settled, PassesPlausibility;
  }

  /** A request goes on to settle a run with an outcome exactly when the run may be settled
      and some submission of it passes with that outcome. */
  lemma SettlingTakesASubmission(configs: Configs, s: Sys, c: nat, k: RunKey, o: Outcome)
    requires AllRunnable(configs) && s.verdicts == Verdicts(configs)
    ensures Enabled(s, BeginFinish(c, k, o)) <==>
      && At(s, c).Idle? && k in s.db.runs && s.db.runs[k].status == Active && s.clock <= s.db.runs[k].expiresAt
      && exists rep, result ::
           Passes(configs, s.db.runs[k], rep, result)
           && o == Outcome(result.score, result.loot, result.vaultsCracked)
  {
    hide Passes, AllRunnable;
    if k in s.db.runs {
      VerdictIsPossible(configs, s.db.runs[k], o);
    }
  }

  lemma VerdictIsPossible(configs: Configs, run: Run, o: Outcome)
    requires AllRunnable(configs)
    ensures (run, o) in Verdicts(configs) <==>
      exists rep, result :: Passes(configs, run, rep, result) && o == OutcomeOf(result)
  {
    hide Passes, OutcomeOf, AllRunnable;
    if (run, o) in Verdicts(configs) {
      var rep, result :| Gives(configs, run, rep, result, o);
      assert Passes(configs, run, rep, result) && o == OutcomeOf(result);
    }
    if rep, result :| Passes(configs, run, rep, result) && o == OutcomeOf(result) {
      assert Gives(configs, run, rep, result, o);
    }
  }

  /** In every reachable state of every interleaving, a finished run has an outcome that a
      replay of it gives: there is a submission that the server's replay accepts for the
      configuration, seed and boosters the run was started with, with the score claimed. */
  lemma FinishedRunsReplay(configs: Configs, states: seq<Sys>, steps: seq<Step>, n: nat, k: RunKey)
    requires AllRunnable(configs) && Execution(states, steps) && states[0].verdicts == Verdicts(configs)
    requires n < |states| && k in states[n].db.runs && states[n].db.runs[k].status == Finished
    ensures exists rep, result ::
      && Passes(configs, states[n].db.runs[k], rep, result)
      && states[n].db.runs[k].outcome == Some(Outcome(result.score, result.loot, result.vaultsCracked))
  {
    hide Execution, Passes, AllRunnable, Safe;
    ExecutionForward(states, steps, 0, n);
    ExecutionSafe(states, steps, n);
    SafeRun(states[n], k);
    var run := states[n].db.runs[k];
    VerdictIsPossible(configs, Started(run), run.outcome.value);
    var rep, result :| Passes(configs, Started(run), rep, result) && run.outcome.value == OutcomeOf(result);
    PassesAsStarted(configs, run, rep, result);
  }
}

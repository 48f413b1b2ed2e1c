/** Runs settle at most once, and every payout goes back to one settled run or one podium
    place (gameplay/service.go Finish, reward/service.go, reward/distributor.go). */
module Settlement {
  import opened Wrappers
  import opened Decisions
  import opened Store
  import opened Protocol

  // ---- runs ----

  /** A run as it was started. */
  ghost function Started(run: Run): Run {
    run.(status := Active, outcome := None)
  }

  ghost predicate RunOk(s: Sys, k: RunKey)
    requires k in s.db.runs
  {
    var run := s.db.runs[k];
    && (run.playerId, run.id) == k && IsRunId(run.id)
    && (run.status == Active ==> run.outcome.None?)
    && (run.status == Finished ==> run.outcome.Some? && (Started(run), run.outcome.value) in s.verdicts)
  }

  /** A request that is about to settle carries the run as it was started and an outcome a
      replay can give it; one that is about to grant carries the settled run. */
  ghost predicate SettlerOk(s: Sys, pc: Pc) {
    match pc
    case Settling(run) =>
      var k := (run.playerId, run.id);
      k in s.db.runs && run.status == Active && run.outcome.Some?
      && Started(run) == Started(s.db.runs[k]) && (Started(run), run.outcome.value) in s.verdicts
    case Granting(run) =>
      var k := (run.playerId, run.id);
      k in s.db.runs && s.db.runs[k] == run && run.status == Finished
    case _ => true
  }

  ghost predicate RunsOk(s: Sys) {
    && (forall k :: k in s.db.runs ==> RunOk(s, k))
    && (forall c: nat :: SettlerOk(s, At(s, c)))
  }

  /** Steps neither change what a run was started with nor touch a finished run. */
  ghost predicate RunsForward(s: Sys, s': Sys) {
    && s.verdicts == s'.verdicts
    && forall k :: k in s.db.runs ==>
         && k in s'.db.runs && Started(s'.db.runs[k]) == Started(s.db.runs[k])
         && (s.db.runs[k].status == Finished ==> s'.db.runs[k] == s.db.runs[k])
  }

  lemma SettlerStays(s: Sys, s': Sys, pc: Pc)
    requires SettlerOk(s, pc) && RunsForward(s, s')
    ensures SettlerOk(s', pc)
  {
    hide Started;
  }

  lemma SettlersStay(s: Sys, s': Sys, c: nat)
    requires (forall c': nat :: SettlerOk(s, At(s, c'))) && RunsForward(s, s')
    requires SettlerOk(s', At(s', c)) && forall c': nat :: c' != c ==> At(s', c') == At(s, c')
    ensures forall c': nat :: SettlerOk(s', At(s', c'))
  {
    hide SettlerOk, RunsForward, At;
    forall c': nat ensures SettlerOk(s', At(s', c')) {
      if c' != c {
        assert SettlerOk(s, At(s, c'));
        SettlerStays(s, s', At(s, c'));
      }
    }
  }

  lemma SettleStep(s: Sys, c: nat)
    requires RunsOk(s) && At(s, c).Settling?
    ensures var s' := DoSettle(s, c); RunsForward(s, s') && SettlerOk(s', At(s', c)) && forall k :: k in s'.db.runs ==>
      RunOk(s', k)
  {
    assert SettlerOk(s, At(s, c));
    var run := At(s, c).run;
    assert RunOk(s, (run.playerId, run.id));
    var s' := DoSettle(s, c);
    forall k | k in s'.db.runs ensures RunOk(s', k) {
      assert RunOk(s, k);
    }
  }

  lemma PutStep(s: Sys, c: nat, id: RunId)
    requires RunsOk(s) && Enabled(s, Put(c, id))
    ensures var s' := DoPut(s, c, id); RunsForward(s, s') && SettlerOk(s', At(s', c)) && forall k :: k in s'.db.runs ==>
      RunOk(s', k)
  {
    var s' := DoPut(s, c, id);
    forall k | k in s'.db.runs ensures RunOk(s', k) {
      if k in s.db.runs { assert RunOk(s, k); }
    }
  }

  /** Steps that leave the runs alone. */
  lemma RunsFrame(s: Sys, s': Sys)
    requires RunsOk(s) && s'.db.runs == s.db.runs && s'.verdicts == s.verdicts
    ensures RunsForward(s, s') && forall k :: k in s'.db.runs ==> RunOk(s', k)
  {
    forall k | k in s'.db.runs ensures RunOk(s', k) {
      assert RunOk(s, k);
    }
  }

  lemma RunsStep(s: Sys, step: Step)
    requires RunsOk(s) && Enabled(s, step)
    ensures var s' := Next(s, step); RunsForward(s, s') && forall k :: k in s'.db.runs ==> RunOk(s', k)
  {
    hide Decided, RunsOk, RunsForward, RunOk, NewPlayer, LootReward, PodiumReward, NoDuplicates, LeaderboardCoins,
         PutRun;
    match step
    case Put(c, id) => PutStep(s, c, id);
    case Settle(c) => SettleStep(s, c);
    case _ => RunsFrame(s, Next(s, step));
  }

  lemma SettlerStep(s: Sys, step: Step)
    requires RunsOk(s) && Enabled(s, step)
    ensures var s' := Next(s, step); SettlerOk(s', At(s', Actor(step)))
  {
    hide Decided, RunsForward, RunOk, NewPlayer, LootReward, PodiumReward, NoDuplicates, LeaderboardCoins,
         CreateReward, ClaimReward, CreatePlayer, UpdatePlayer;
    var s' := Next(s, step);
    RunsStep(s, step);
    assert SettlerOk(s, At(s, Actor(step)));
    match step
    case BeginFinish(c, k, o) => assert RunOk(s, k) by { RunOf(s, k); } BeginFinishOk(s, k, o);
    case Put(c, id) => PutStep(s, c, id);
    case Settle(c) => SettleStep(s, c);
    case Tick(_) => SettlerStays(s, s', At(s, 0));
    case Join(_) => SettlerStays(s, s', At(s, 0));
    case Podium(_, _, _) => SettlerStays(s, s', At(s, 0));
    case _ =>
  }

  lemma RunOf(s: Sys, k: RunKey)
    requires RunsOk(s) && k in s.db.runs
    ensures RunOk(s, k)
  {}

  lemma BeginFinishOk(s: Sys, k: RunKey, o: Outcome)
    requires k in s.db.runs && RunOk(s, k) && s.db.runs[k].status == Active && (s.db.runs[k], o) in s.verdicts
    ensures SettlerOk(s, Settling(s.db.runs[k].(outcome := Some(o))))
  {}

  lemma RunsKept(s: Sys, step: Step)
    requires RunsOk(s) && Enabled(s, step)
    ensures RunsOk(Next(s, step)) && RunsForward(s, Next(s, step))
  {
    hide RunsForward, RunOk, SettlerOk, Next, Enabled, At, Actor;
    RunsStep(s, step);
    SettlerStep(s, step);
    OthersUntouched(s, step);
    SettlersStay(s, Next(s, step), Actor(step));
  }
}

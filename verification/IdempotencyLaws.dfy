/** Any interleaving of requests with the same key (httpapi/middleware.go idempotent). */
module IdempotencyLaws {
  import opened Idempotency

  lemma InvParts(s: Sys, c: nat, k: Key)
    requires Inv(s)
    ensures RunnerOk(s, At(s, c)) && ReplayOk(s, At(s, c)) && Sequential(LogOf(s, k), s.clock) && FreshKept(s, k)
    ensures k in s.recs ==> RecordOk(s, k)
  {
    assert KeyOk(s, k);
  }

  /** All executions of the key that were recorded have expired, once the key can be taken
      again, and none is running. */
  lemma FreeMeansQuiet(s: Sys, k: Key)
    requires Inv(s) && Begin(s.recs, k, s.clock, s.ttl).0.None?
    ensures Quiet(LogOf(s, k), s.clock)
    ensures forall c: nat :: !Runs(s, c, k)
  {
    hide Inv, LogOf;
    InvParts(s, 0, k);
    forall c: nat ensures !Runs(s, c, k) {
      InvParts(s, c, k);
    }
  }

  lemma TickKeeps(s: Sys, time: int)
    requires Inv(s) && time >= s.clock && !Next(s, Tick(time)).late
    ensures Inv(Next(s, Tick(time)))
  {
    hide Recorded, WasRecorded, Quiet;
    var s' := Next(s, Tick(time));
    forall c: nat ensures RunnerOk(s', At(s', c)) && ReplayOk(s', At(s', c)) {
      assert RunnerOk(s, At(s, c)) && ReplayOk(s, At(s, c)) && !Outlived(s, c, time);
    }
    forall c: nat, k ensures Runs(s', c, k) == Runs(s, c, k) {}
    forall k ensures KeyOk(s', k) {
      assert KeyOk(s, k);
    }
  }

  lemma KeysStay(s: Sys, s': Sys)
    requires (forall k :: KeyOk(s, k)) && s'.recs == s.recs && s'.log == s.log && s'.clock == s.clock
    ensures forall k :: KeyOk(s', k)
  {
    hide Recorded, Sequential;
    forall k ensures KeyOk(s', k) { assert KeyOk(s, k); }
  }

  /** A request that does not run its handler, or stops without a trace. */
  lemma QuietKeeps(s: Sys, c: nat, pc: Pc)
    requires Inv(s) && !pc.Running? && ReplayOk(s, pc)
    ensures Inv(Become(s, c, pc))
  {
    hide Recorded, WasRecorded, Quiet, KeyOk;
    var s' := Become(s, c, pc);
    forall c': nat ensures RunnerOk(s', At(s', c')) && ReplayOk(s', At(s', c')) {
      if c' != c { assert RunnerOk(s, At(s, c')) && ReplayOk(s, At(s, c')); }
    }
    forall c': nat, k ensures Runs(s', c', k) ==> Runs(s, c', k) {}
    KeysStay(s, s');
  }

  /** Taking a free key. */
  lemma TakeKeeps(s: Sys, c: nat, k: Key)
    requires Inv(s) && At(s, c).Waiting? && Begin(s.recs, k, s.clock, s.ttl).0.None?
    ensures Inv(DoRequest(s, c, k))
  {
    hide Recorded, WasRecorded, Quiet, KeyOk;
    FreeMeansQuiet(s, k);
    var s' := DoRequest(s, c, k);
    assert s'.recs == s.recs[k := Record(InProgress, s.clock + s.ttl)] && s'.log == s.log && s'.clock == s.clock;
    TakeClients(s, s', c, k);
    TakeKeys(s, s', k);
  }

  lemma TakeClients(s: Sys, s': Sys, c: nat, k: Key)
    requires ClientsOk(s) && OneRunner(s) && s.ttl > 0 && Quiet(LogOf(s, k), s.clock)
    requires forall c': nat :: !Runs(s, c', k)
    requires s'.recs == s.recs[k := Record(InProgress, s.clock + s.ttl)] && s'.log == s.log && s'.clock == s.clock
    requires s'.clients == s.clients[c := Running(k, s.clock, s.clock + s.ttl)]
    ensures ClientsOk(s') && OneRunner(s')
  {
    hide WasRecorded, Quiet;
    forall c': nat ensures RunnerOk(s', At(s', c')) && ReplayOk(s', At(s', c')) {
      if c' != c { assert RunnerOk(s, At(s, c')) && ReplayOk(s, At(s, c')) && !Runs(s, c', k); }
    }
    forall c': nat, k' | c' != c ensures Runs(s', c', k') == Runs(s, c', k') {}
  }

  lemma TakeKeys(s: Sys, s': Sys, k: Key)
    requires (forall k' :: KeyOk(s, k')) && Quiet(LogOf(s, k), s.clock)
    requires s'.recs == s.recs[k := Record(InProgress, s.clock + s.ttl)] && s'.log == s.log && s'.clock == s.clock
    ensures forall k' :: KeyOk(s', k')
  {
    hide Recorded, Sequential;
    forall k' ensures KeyOk(s', k') { assert KeyOk(s, k'); }
  }

  lemma LastRecorded(s: Sys, k: Key)
    requires k in s.recs && RecordOk(s, k) && s.recs[k].state.Done?
    ensures WasRecorded(LogOf(s, k), s.recs[k].state.status, s.recs[k].state.body)
  {
    assert Recorded(LogOf(s, k), |LogOf(s, k)| - 1, s.recs[k].state.status, s.recs[k].state.body);
  }

  lemma RequestKeeps(s: Sys, c: nat, k: Key)
    requires Inv(s) && At(s, c).Waiting?
    ensures Inv(DoRequest(s, c, k))
  {
    hide Inv, WasRecorded, RecordOk;
    if Begin(s.recs, k, s.clock, s.ttl).0.None? {
      TakeKeeps(s, c, k);
    } else {
      InvParts(s, c, k);
      var rec := s.recs[k];
      if rec.state.Done? { LastRecorded(s, k); }
      QuietKeeps(s, c, if rec.state.InProgress? then Busy(k) else Replaying(k, rec.state.status, rec.state.body));
    }
  }

  /** Appending an execution keeps what the others know. */
  lemma LongerLog(log: seq<Execution>, x: Execution, status: int, body: Body)
    requires WasRecorded(log, status, body)
    ensures WasRecorded(log + [x], status, body)
  {
    var i :| Recorded(log, i, status, body);
    assert Recorded(log + [x], i, status, body);
  }

  lemma SequentialGrows(log: seq<Execution>, x: Execution, clock: int)
    requires Sequential(log, clock) && Quiet(log, x.began) && x.began <= x.ended < x.expiresAt && x.ended <= clock
    requires x.status < 500
    ensures Sequential(log + [x], clock)
  {}

  lemma FinishKeeps(s: Sys, c: nat, status: int, body: Body)
    requires Inv(s) && At(s, c).Running?
    ensures Inv(DoFinish(s, c, status, body))
  {
    hide Sequential, WasRecorded, Recorded, Quiet, KeyOk;
    InvParts(s, c, At(s, c).key);
    var s' := DoFinish(s, c, status, body);
    var x := Execution(At(s, c).began, s.clock, At(s, c).expiresAt, status, body);
    FinishedIs(s, c, x);
    forall c': nat ensures RunnerOk(s', At(s', c')) && ReplayOk(s', At(s', c')) {
      if c' != c {
        InvParts(s, c', At(s, c).key);
        assert Runs(s, c, At(s, c).key);
        OthersAfterFinish(s, s', c, c', x);
      }
    }
    forall c': nat, k ensures Runs(s', c', k) ==> Runs(s, c', k) {}
    forall k ensures KeyOk(s', k) {
      assert KeyOk(s, k);
      KeyAfterFinish(s, s', c, k, x);
    }
  }

  lemma FinishedIs(s: Sys, c: nat, x: Execution)
    requires At(s, c).Running? && RunnerOk(s, At(s, c)) && x.began == At(s, c).began
    requires x.expiresAt == At(s, c).expiresAt && x.ended == s.clock
    ensures Finished(s, DoFinish(s, c, x.status, x.body), c, x)
  {
    hide Quiet;
  }

  /** What finishing means for each key. */
  ghost predicate Finished(s: Sys, s': Sys, c: nat, x: Execution) {
    && At(s, c).Running? && RunnerOk(s, At(s, c)) && x.began == At(s, c).began && x.expiresAt == At(s, c).expiresAt
    && x.ended == s.clock
    && s'.clock == s.clock && s'.clients == s.clients[c := Answered(At(s, c).key, x.status, x.body)]
    && (forall k :: LogOf(s', k) == if x.status < 500 && k == At(s, c).key then LogOf(s, k) + [x] else LogOf(s, k))
    && s'.recs == if x.status >= 500 then s.recs - {At(s, c).key}
                  else s.recs[At(s, c).key := Record(Done(x.status, x.body), x.expiresAt)]
  }

  lemma OthersAfterFinish(s: Sys, s': Sys, c: nat, c': nat, x: Execution)
    requires Finished(s, s', c, x) && c' != c && RunnerOk(s, At(s, c')) && ReplayOk(s, At(s, c'))
    requires !Runs(s, c', At(s, c).key)
    ensures RunnerOk(s', At(s', c')) && ReplayOk(s', At(s', c'))
  {
    hide Quiet, WasRecorded, LogOf;
    if At(s, c').Replaying? && x.status < 500 && At(s, c').key == At(s, c).key {
      LongerLog(LogOf(s, At(s, c).key), x, At(s, c').status, At(s, c').body);
    }
  }

  lemma KeyAfterFinish(s: Sys, s': Sys, c: nat, k: Key, x: Execution)
    requires Finished(s, s', c, x) && KeyOk(s, k)
    ensures KeyOk(s', k)
  {
    hide LogOf, Quiet, Sequential;
    if x.status < 500 && k == At(s, c).key {
      SequentialGrows(LogOf(s, k), x, s.clock);
    } else if |LogOf(s, At(s, c).key)| > 0 {
      QuietEnd(LogOf(s, At(s, c).key), At(s, c).began);
    }
  }

  lemma QuietEnd(log: seq<Execution>, time: int)
    requires Quiet(log, time) && |log| > 0
    ensures log[|log| - 1].expiresAt <= time
  {}

  lemma StepKeeps(s: Sys, step: Step)
    requires Inv(s) && Enabled(s, step) && !Next(s, step).late
    ensures Inv(Next(s, step))
  {
    hide Inv, RunnerOk;
    match step
    case Tick(time) => TickKeeps(s, time);
    case Request(c, k) => RequestKeeps(s, c, k);
    case Finish(c, status, body) => FinishKeeps(s, c, status, body);
    case Crash(c) =>
      QuietKeeps(s, c, Waiting);
      LeftIsFree(Become(s, c, Waiting), Next(s, step));
    case Leave(c) => QuietKeeps(s, c, Waiting);
  }

  /** What a panic leaves behind is for the record only. */
  lemma LeftIsFree(s: Sys, s': Sys)
    requires Inv(s) && s' == s.(left := s'.left)
    ensures Inv(s')
  {
    hide Sequential, WasRecorded, Recorded, Quiet;
    forall c: nat ensures RunnerOk(s', At(s', c)) && ReplayOk(s', At(s', c)) {
      assert RunnerOk(s, At(s, c)) && ReplayOk(s, At(s, c));
    }
    forall c: nat, k ensures Runs(s', c, k) == Runs(s, c, k) {}
    forall k ensures KeyOk(s', k) { assert KeyOk(s, k); }
  }

  lemma LateStays(s: Sys, step: Step)
    requires Enabled(s, step) && s.late
    ensures Next(s, step).late
  {}

  lemma {:induction false} TraceKeeps(states: seq<Sys>, steps: seq<Step>, n: nat)
    requires Trace(states, steps) && n < |states| && !states[n].late
    ensures Inv(states[n])
    decreases n
  {
    hide Enabled, Next, Inv;
    if n == 0 {
      StartKeeps(states[0]);
    } else {
      if states[n - 1].late { LateStays(states[n - 1], steps[n - 1]); }
      TraceKeeps(states, steps, n - 1);
      StepKeeps(states[n - 1], steps[n - 1]);
    }
  }

  lemma StartKeeps(s: Sys)
    requires Init(s)
    ensures Inv(s)
  {}

  // ---- the theorems ----

  /** As long as no request outlives the record it took, no two executions of a key overlap,
      neither two running ones nor a running and a recorded one, and at most one execution
      is recorded within the lifetime of a record. */
  lemma ExecutionsDoNotOverlap(states: seq<Sys>, steps: seq<Step>, n: nat, k: Key)
    requires Trace(states, steps) && n < |states| && !states[n].late
    ensures var s := states[n]; var log := LogOf(s, k);
      && (forall c: nat, c': nat :: Runs(s, c, k) && Runs(s, c', k) ==> c == c')
      && (forall i, j :: 0 <= i < j < |log| ==> log[i].ended < log[i].expiresAt <= log[j].began)
      && (forall c: nat, i :: Runs(s, c, k) && 0 <= i < |log| ==> log[i].expiresAt <= At(s, c).began)
      && (forall i :: 0 <= i < |log| ==> log[i].status < 500)
  {
    hide Trace, RecordOk, FreshKept, ReplayOk;
    TraceKeeps(states, steps, n);
    var s := states[n];
    assert KeyOk(s, k);
    forall c: nat, i | Runs(s, c, k) && 0 <= i < |LogOf(s, k)| ensures LogOf(s, k)[i].expiresAt <= At(s, c).began {
      assert RunnerOk(s, At(s, c));
    }
  }

  // ---- panics ----

  /** The record that a panic left behind stays in progress until it expires, and a record in
      progress belongs to a running request or to such a panic. */
  ghost predicate LeftOk(s: Sys, k: Key) {
    && (k in s.left && s.clock < s.left[k] ==> k in s.recs && s.recs[k] == Record(InProgress, s.left[k]))
    && (k in s.recs && s.recs[k].state.InProgress? && s.clock < s.recs[k].expiresAt ==>
          (exists c: nat :: Runs(s, c, k)) || (k in s.left && s.left[k] == s.recs[k].expiresAt))
    && (forall c: nat :: Runs(s, c, k) && k in s.left ==> s.left[k] <= At(s, c).began)
  }

  ghost predicate AllLeftOk(s: Sys) {
    forall k :: LeftOk(s, k)
  }

  lemma LeftSame(s: Sys, s': Sys, k: Key)
    requires LeftOk(s, k) && s'.clock >= s.clock
    requires (k in s'.recs <==> k in s.recs) && (k in s.recs ==> s'.recs[k] == s.recs[k])
    requires (k in s'.left <==> k in s.left) && (k in s.left ==> s'.left[k] == s.left[k])
    requires forall c: nat :: Runs(s', c, k) <==> Runs(s, c, k)
    requires forall c: nat :: Runs(s, c, k) ==> At(s', c) == At(s, c)
    ensures LeftOk(s', k)
  {
    if c: nat :| Runs(s, c, k) {
      assert Runs(s', c, k);
    }
  }

  /** Request `c` has moved on; for the other keys nothing has changed. */
  lemma LeftElsewhere(s: Sys, s': Sys, c: nat, k: Key)
    requires AllLeftOk(s) && s'.clock == s.clock
    requires forall c': nat :: c' != c ==> At(s', c') == At(s, c')
    requires forall k' :: k' != k ==> !Runs(s, c, k') && !Runs(s', c, k')
    requires forall k' :: k' != k ==> (k' in s'.recs <==> k' in s.recs) && (k' in s.recs ==> s'.recs[k'] == s.recs[k'])
    requires forall k' :: k' != k ==> (k' in s'.left <==> k' in s.left) && (k' in s.left ==> s'.left[k'] == s.left[k'])
    requires LeftOk(s', k)
    ensures AllLeftOk(s')
  {
    hide LeftOk, At;
    forall k' ensures LeftOk(s', k') {
      if k' != k {
        assert LeftOk(s, k');
        SameRunners(s, s', c, k');
        LeftSame(s, s', k');
      }
    }
  }

  lemma SameRunners(s: Sys, s': Sys, c: nat, k: Key)
    requires (forall c': nat :: c' != c ==> At(s', c') == At(s, c')) && !Runs(s, c, k) && !Runs(s', c, k)
    ensures forall c': nat :: Runs(s', c', k) <==> Runs(s, c', k)
    ensures forall c': nat :: Runs(s, c', k) ==> At(s', c') == At(s, c')
  {}

  lemma LeftTake(s: Sys, c: nat, k: Key)
    requires Inv(s) && AllLeftOk(s) && At(s, c).Waiting? && Begin(s.recs, k, s.clock, s.ttl).0.None?
    ensures AllLeftOk(DoRequest(s, c, k))
  {
    hide Inv, Quiet, LogOf;
    var s' := DoRequest(s, c, k);
    assert LeftOk(s, k);
    FreeMeansQuiet(s, k);
    assert Runs(s', c, k);
    forall c': nat | c' != c ensures At(s', c') == At(s, c') && !Runs(s', c', k) {
      assert !Runs(s, c', k);
    }
    assert LeftOk(s', k);
    LeftElsewhere(s, s', c, k);
  }

  lemma LeftRequest(s: Sys, c: nat, k: Key)
    requires Inv(s) && AllLeftOk(s) && At(s, c).Waiting?
    ensures AllLeftOk(DoRequest(s, c, k))
  {
    hide Inv, AllLeftOk, LeftOk;
    if Begin(s.recs, k, s.clock, s.ttl).0.None? {
      LeftTake(s, c, k);
    } else {
      LeftQuiet(s, DoRequest(s, c, k), c);
    }
  }

  /** A request that neither starts nor stops running. */
  lemma LeftQuiet(s: Sys, s': Sys, c: nat)
    requires AllLeftOk(s) && s'.recs == s.recs && s'.left == s.left && s'.clock == s.clock
    requires !At(s, c).Running? && !At(s', c).Running? && forall c': nat :: c' != c ==> At(s', c') == At(s, c')
    ensures AllLeftOk(s')
  {
    hide LeftOk, At;
    forall k ensures LeftOk(s', k) {
      assert LeftOk(s, k);
      SameRunners(s, s', c, k);
      LeftSame(s, s', k);
    }
  }

  /** The only request that ran with the key has stopped. */
  lemma NobodyRuns(s: Sys, s': Sys, c: nat)
    requires OneRunner(s) && At(s, c).Running? && !At(s', c).Running?
    requires forall c': nat :: c' != c ==> At(s', c') == At(s, c')
    ensures forall c': nat :: !Runs(s', c', At(s, c).key)
  {
    forall c': nat ensures !Runs(s', c', At(s, c).key) {
      if c' != c {
        assert Runs(s, c, At(s, c).key) && (Runs(s, c', At(s, c).key) ==> c' == c);
      }
    }
  }

  lemma LeftFinish(s: Sys, c: nat, status: int, body: Body)
    requires Inv(s) && AllLeftOk(s) && At(s, c).Running?
    ensures AllLeftOk(DoFinish(s, c, status, body))
  {
    var s', k := DoFinish(s, c, status, body), At(s, c).key;
    InvParts(s, c, k);
    assert OneRunner(s);
    hide Inv, Quiet, LogOf, OneRunner;
    NobodyRuns(s, s', c);
    assert LeftOk(s, k) && Runs(s, c, k);
    LeftElsewhere(s, s', c, k);
  }

  lemma LeftCrash(s: Sys, c: nat)
    requires Inv(s) && AllLeftOk(s) && At(s, c).Running?
    ensures AllLeftOk(Next(s, Crash(c)))
  {
    var s', k := Next(s, Crash(c)), At(s, c).key;
    InvParts(s, c, k);
    assert OneRunner(s);
    hide Inv, Quiet, LogOf, OneRunner;
    NobodyRuns(s, s', c);
    assert LeftOk(s, k) && Runs(s, c, k);
    LeftElsewhere(s, s', c, k);
  }

  lemma LeftStep(s: Sys, step: Step)
    requires Inv(s) && AllLeftOk(s) && Enabled(s, step) && !Next(s, step).late
    ensures AllLeftOk(Next(s, step))
  {
    hide Inv, LeftOk;
    var s' := Next(s, step);
    match step
    case Tick(time) =>
      forall k ensures LeftOk(s', k) {
        assert LeftOk(s, k);
        LeftSame(s, s', k);
      }
    case Request(c, k) => LeftRequest(s, c, k);
    case Finish(c, status, body) => LeftFinish(s, c, status, body);
    case Crash(c) => LeftCrash(s, c);
    case Leave(c) =>
      forall k ensures LeftOk(s', k) {
        assert LeftOk(s, k);
        LeftSame(s, s', k);
      }
  }

  lemma {:induction false} TraceLeft(states: seq<Sys>, steps: seq<Step>, n: nat)
    requires Trace(states, steps) && n < |states| && !states[n].late
    ensures AllLeftOk(states[n])
    decreases n
  {
    hide Enabled, Next, Inv, LeftOk;
    if n == 0 {
      NothingLeft(states[0]);
    } else {
      if states[n - 1].late { LateStays(states[n - 1], steps[n - 1]); }
      TraceLeft(states, steps, n - 1);
      TraceKeeps(states, steps, n - 1);
      LeftStep(states[n - 1], steps[n - 1]);
    }
  }

  lemma NothingLeft(s: Sys)
    requires Init(s)
    ensures AllLeftOk(s)
  {}

  // ---- what a request is answered ----

  /** The last recorded execution of the key has not expired. */
  ghost predicate IsFresh(s: Sys, k: Key) {
    var log := LogOf(s, k);
    |log| > 0 && s.clock < log[|log| - 1].expiresAt
  }

  /** An execution of the key is running, or panicked and its record has not expired. */
  ghost predicate IsHeld(s: Sys, k: Key) {
    (exists c: nat :: Runs(s, c, k)) || (k in s.left && s.clock < s.left[k])
  }

  /** As long as nothing is late, a request with a key is answered the recorded response
      exactly while the last recorded execution is fresh, a conflict exactly while an
      execution is running or has panicked within the lifetime of its record, and runs its
      handler exactly in all other states. */
  lemma RequestsAreAnswered(states: seq<Sys>, steps: seq<Step>, n: nat, c: nat, k: Key)
    requires Trace(states, steps) && n < |states| && !states[n].late && At(states[n], c).Waiting?
    ensures var s := states[n]; var log := LogOf(s, k); var pc := At(Next(s, Request(c, k)), c);
      && (pc.Replaying? <==> IsFresh(s, k))
      && (pc.Replaying? ==> pc == Replaying(k, log[|log| - 1].status, log[|log| - 1].body))
      && (pc.Busy? <==> IsHeld(s, k))
      && (pc.Running? <==> !IsFresh(s, k) && !IsHeld(s, k))
  {
    hide Trace, Sequential, LogOf;
    TraceKeeps(states, steps, n);
    TraceLeft(states, steps, n);
    var s := states[n];
    InvParts(s, c, k);
    assert LeftOk(s, k);
    if c': nat :| Runs(s, c', k) {
      InvParts(s, c', k);
    }
  }

  /** A handler that returns a failure frees its key at once. One that panics, although it is
      answered 500 as well, keeps its key until the record expires: until then retries are
      refused. */
  lemma FailureFreesTheKey(s: Sys, c: nat, status: int, body: Body, time: int, c': nat)
    requires Inv(s) && At(s, c).Running? && time >= s.clock && c' != c && At(s, c').Waiting?
    ensures var k := At(s, c).key;
      && (status >= 500 ==> At(Next(Next(Next(s, Finish(c, status, body)), Tick(time)), Request(c', k)), c').Running?)
      && (time < At(s, c).expiresAt <==> At(Next(Next(Next(s, Crash(c)), Tick(time)), Request(c', k)), c') == Busy(k))
      && (time >= At(s, c).expiresAt <==> At(Next(Next(Next(s, Crash(c)), Tick(time)), Request(c', k)), c').Running?)
  {
    InvParts(s, c, At(s, c).key);
    hide Inv, Quiet, LogOf, Outlived;
  }

  /** A panic in the very first request: the next one is refused, although nothing is running
      and nothing was ever recorded. */
  lemma PanicLocksTheKey(k: Key)
    ensures var s0 := Sys(map[], 0, 10, map[], map[], map[], false);
      var s1 := Next(s0, Request(1, k));
      var s2 := Next(s1, Crash(1));
      var s3 := Next(s2, Request(2, k));
      && Init(s0) && Enabled(s0, Request(1, k)) && Enabled(s1, Crash(1)) && Enabled(s2, Request(2, k))
      && At(s3, 2) == Busy(k) && (forall c: nat :: !Runs(s3, c, k)) && LogOf(s3, k) == []
  {}

  /** Every replayed response is one that was recorded for the key, status and body alike. */
  lemma ReplaysAreRecorded(states: seq<Sys>, steps: seq<Step>, n: nat, c: nat)
    requires Trace(states, steps) && n < |states| && !states[n].late && At(states[n], c).Replaying?
    ensures var pc := At(states[n], c); WasRecorded(LogOf(states[n], pc.key), pc.status, pc.body)
  {
    hide Trace, RunnerOk, Sequential, WasRecorded;
    TraceKeeps(states, steps, n);
    assert ReplayOk(states[n], At(states[n], c));
  }

  /** The condition is needed, exactly: a second execution of the key starts while the first
      is running if and only if a request comes when the first one's record has expired. What
      the first one then records becomes the record of the second, which is still running. */
  lemma LateRequestsOverlap(s: Sys, c: nat, time: int, c': nat, status: int, body: Body)
    requires Inv(s) && At(s, c).Running? && time >= s.clock && c' != c && At(s, c').Waiting?
    ensures var k := At(s, c).key;
      var s' := Next(Next(s, Tick(time)), Request(c', k));
      && Runs(s', c, k)
      && (Runs(s', c', k) <==> At(s, c).expiresAt <= time)
      && (Runs(s', c', k) ==> s'.late)
      && (Runs(s', c', k) && status < 500 ==>
            var s'' := Next(s', Finish(c, status, body));
            Runs(s'', c', k) && k in s''.recs && s''.recs[k] == Record(Done(status, body), time + s.ttl))
  {
    InvParts(s, c, At(s, c).key);
    hide Inv, Quiet, LogOf;
    if At(s, c).expiresAt <= time {
      assert Outlived(s, c, time);
    }
  }
}

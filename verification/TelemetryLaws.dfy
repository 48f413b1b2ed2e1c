/** The bus under its workers: publishers, workers and the shutdown, interleaved
    (telemetry/bus.go). No publish overlaps the closing of the channel. */
module TelemetryLaws {
  import opened Telemetry

  /** A worker has event number `i` in hand, is at sink `sink` and has called it `tries`
      times. */
  datatype Worker = Free | Busy(i: nat, sink: nat, tries: nat) | Exited

  /** `accepted` lists every event ever sent into the channel; the first `taken` have left
      it again, so the channel holds the rest. `counting` publishers have sent an event and
      not yet counted it. `calls` records how often each event was offered to each sink. */
  datatype Sys = Sys(
    capacity: nat, attempts: nat, sinks: nat,
    accepted: seq<Event>, taken: nat, closed: bool, workers: seq<Worker>, finished: set<nat>,
    calls: map<(nat, nat), nat>, counting: nat, published: nat, processed: nat, refused: nat)

  datatype Step =
    | Publish(ev: Event)
    | CountPublished
    | Take(w: nat)
    | Call(w: nat, outcome: Offer)
    | GiveUp(w: nat)
    | Finish(w: nat)
    | Close
    | Exit(w: nat)

  ghost function CallsOf(s: Sys, i: nat, k: nat): nat {
    if (i, k) in s.calls then s.calls[(i, k)] else 0
  }

  ghost predicate Enabled(s: Sys, step: Step) {
    match step
    case Publish(_) => true
    case CountPublished => s.counting > 0
    case Take(w) => w < |s.workers| && s.workers[w].Free? && s.taken < |s.accepted|
    case Call(w, _) =>
      w < |s.workers| && s.workers[w].Busy? && s.workers[w].sink < s.sinks && s.workers[w].tries < s.attempts
    case GiveUp(w) =>
      && w < |s.workers| && s.workers[w].Busy? && s.workers[w].sink < s.sinks
      && (s.workers[w].tries > 0 || s.attempts == 0)
    case Finish(w) => w < |s.workers| && s.workers[w].Busy? && s.workers[w].sink == s.sinks
    case Close => true
    case Exit(w) => w < |s.workers| && s.workers[w].Free? && s.closed && s.taken == |s.accepted|
  }

  /** Accepted unless the channel is closed or full. */
  ghost function DoPublish(s: Sys, ev: Event): Sys {
    if s.closed || |s.accepted| - s.taken >= s.capacity then s.(refused := s.refused + 1)
    else s.(accepted := s.accepted + [ev], counting := s.counting + 1)
  }

  /** One call of the sink. After a success, a permanent failure or the last attempt the
      worker goes on to the next sink. */
  ghost function DoCall(s: Sys, w: nat, outcome: Offer): Sys
    requires Enabled(s, Call(w, outcome))
  {
    var b := s.workers[w];
    var again := outcome.Transient? && b.tries + 1 < s.attempts;
    var next := if again then Busy(b.i, b.sink, b.tries + 1) else Busy(b.i, b.sink + 1, 0);
    s.(calls := s.calls[(b.i, b.sink) := CallsOf(s, b.i, b.sink) + 1], workers := s.workers[w := next])
  }

  ghost function Next(s: Sys, step: Step): Sys
    requires Enabled(s, step)
  {
    match step
    case Publish(ev) => DoPublish(s, ev)
    case CountPublished => s.(counting := s.counting - 1, published := s.published + 1)
    case Take(w) => s.(taken := s.taken + 1, workers := s.workers[w := Busy(s.taken, 0, 0)])
    case Call(w, outcome) => DoCall(s, w, outcome)
    case GiveUp(w) => s.(workers := s.workers[w := Busy(s.workers[w].i, s.workers[w].sink + 1, 0)])
    case Finish(w) =>
      s.(workers := s.workers[w := Free], finished := s.finished + {s.workers[w].i}, processed := s.processed + 1)
    case Close => s.(closed := true)
    case Exit(w) => s.(workers := s.workers[w := Exited])
  }

  ghost predicate Init(s: Sys) {
    && s.accepted == [] && s.taken == 0 && !s.closed && (forall w :: 0 <= w < |s.workers| ==> s.workers[w].Free?)
    && s.finished == {} && s.calls == map[] && s.counting == s.published == s.processed == s.refused == 0
  }

  ghost predicate Trace(states: seq<Sys>, steps: seq<Step>) {
    && |states| == |steps| + 1 && Init(states[0])
    && forall i :: 0 <= i < |steps| ==> Enabled(states[i], steps[i]) && states[i + 1] == Next(states[i], steps[i])
  }

  // ---- what every step keeps ----

  ghost function InHands(ws: seq<Worker>, n: nat): nat
    requires n <= |ws|
  {
    if n == 0 then 0 else InHands(ws, n - 1) + if ws[n - 1].Busy? then 1 else 0
  }

  lemma {:induction false} HandsChange(ws: seq<Worker>, w: nat, x: Worker, n: nat)
    requires w < |ws| && n <= |ws|
    ensures InHands(ws[w := x], n)
      == InHands(ws, n) + if w < n then (if x.Busy? then 1 else 0) - (if ws[w].Busy? then 1 else 0) else 0
    decreases n
  {
    if n > 0 { HandsChange(ws, w, x, n - 1); }
  }

  ghost predicate Holds(s: Sys, w: nat, i: nat) {
    w < |s.workers| && s.workers[w].Busy? && s.workers[w].i == i
  }

  /** The number of offers lies between one and `attempts`, if any attempt is made at all. */
  ghost predicate Offered(s: Sys, i: nat, k: nat) {
    (if s.attempts > 0 then 1 else 0) <= CallsOf(s, i, k) <= s.attempts
  }

  ghost predicate WorkerOk(s: Sys, w: nat)
    requires w < |s.workers|
  {
    match s.workers[w]
    case Free => true
    case Busy(i, sink, tries) =>
      && i < s.taken && i !in s.finished && sink <= s.sinks && tries <= s.attempts
      && (forall k :: 0 <= k < sink ==> Offered(s, i, k))
      && (sink < s.sinks ==> CallsOf(s, i, sink) == tries)
      && (forall k :: sink < k < s.sinks ==> CallsOf(s, i, k) == 0)
    case Exited => s.closed && s.taken == |s.accepted|
  }

  /** Every event that left the channel is with one worker or finished. */
  ghost predicate Placed(s: Sys, i: nat) {
    (i in s.finished) || exists w :: Holds(s, w, i)
  }

  ghost predicate Counts(s: Sys) {
    && s.taken <= |s.accepted| <= s.taken + s.capacity
    && s.taken == InHands(s.workers, |s.workers|) + s.processed
    && s.published + s.counting == |s.accepted|
  }

  ghost predicate WorkersOk(s: Sys) {
    forall w :: 0 <= w < |s.workers| ==> WorkerOk(s, w)
  }

  ghost predicate OneHolder(s: Sys) {
    forall w, w', i :: Holds(s, w, i) && Holds(s, w', i) ==> w == w'
  }

  ghost predicate FinishedOk(s: Sys, i: nat) {
    i in s.finished ==> i < s.taken && forall k :: 0 <= k < s.sinks ==> Offered(s, i, k)
  }

  ghost predicate QueuedOk(s: Sys, i: nat) {
    s.taken <= i ==> forall k: nat :: CallsOf(s, i, k) == 0
  }

  ghost predicate EventsOk(s: Sys) {
    forall i: nat :: FinishedOk(s, i) && QueuedOk(s, i) && (i < s.taken ==> Placed(s, i))
  }

  ghost predicate Inv(s: Sys) {
    Counts(s) && WorkersOk(s) && OneHolder(s) && EventsOk(s)
  }

  /** A step on the queue or the counters. */
  lemma QueueStep(s: Sys, s': Sys)
    requires Inv(s) && Counts(s') && s'.workers == s.workers && s'.finished == s.finished && s'.calls == s.calls
    requires s'.taken == s.taken
    requires s'.attempts == s.attempts && s'.sinks == s.sinks && (s.closed ==> s'.closed && s'.accepted == s.accepted)
    ensures Inv(s')
  {
    hide Counts;
    forall i: nat, k: nat ensures CallsOf(s', i, k) == CallsOf(s, i, k) {}
    forall w | 0 <= w < |s'.workers| ensures WorkerOk(s', w) {
      assert WorkerOk(s, w);
      if s.workers[w].Busy? { OfferedSame(s, s', s.workers[w].i); }
    }
    forall w, i ensures Holds(s', w, i) == Holds(s, w, i) {}
    forall i: nat ensures FinishedOk(s', i) && QueuedOk(s', i) && (i < s'.taken ==> Placed(s', i)) {
      assert FinishedOk(s, i) && QueuedOk(s, i) && (i < s.taken ==> Placed(s, i));
      OfferedSame(s, s', i);
      if i < s.taken && i !in s.finished {
        var w :| Holds(s, w, i);
        assert Holds(s', w, i);
      }
    }
  }

  lemma HoldersAfter(s: Sys, s': Sys, w: nat, x: Worker)
    requires w < |s.workers| && s'.workers == s.workers[w := x]
    ensures forall v, i :: v != w ==> (Holds(s', v, i) <==> Holds(s, v, i))
    ensures forall i :: Holds(s', w, i) <==> x.Busy? && x.i == i
  {}

  lemma TakeStep(s: Sys, w: nat)
    requires Inv(s) && Enabled(s, Take(w))
    ensures Inv(Next(s, Take(w)))
  {
    hide Offered;
    var s' := Next(s, Take(w));
    HandsChange(s.workers, w, Busy(s.taken, 0, 0), |s.workers|);
    HoldersAfter(s, s', w, Busy(s.taken, 0, 0));
    TakeWorkers(s, s', w);
    TakeEvents(s, s', w);
  }

  lemma TakeWorkers(s: Sys, s': Sys, w: nat)
    requires Inv(s) && Enabled(s, Take(w)) && s' == Next(s, Take(w))
    ensures WorkersOk(s') && OneHolder(s')
  {
    hide Counts, Offered, EventsOk;
    assert QueuedOk(s, s.taken) && FinishedOk(s, s.taken) by { EventOf(s, s.taken); }
    forall i: nat, k: nat ensures CallsOf(s', i, k) == CallsOf(s, i, k) {}
    forall v | 0 <= v < |s'.workers| ensures WorkerOk(s', v) {
      if v != w { assert WorkerOk(s, v); WorkerLater(s, s', v); }
    }
    forall v, v', i | Holds(s', v, i) && Holds(s', v', i) ensures v == v' {
      if v != w { assert Holds(s, v, i) && WorkerOk(s, v); }
      if v' != w { assert Holds(s, v', i) && WorkerOk(s, v'); }
    }
  }

  lemma EventOf(s: Sys, i: nat)
    requires EventsOk(s)
    ensures FinishedOk(s, i) && QueuedOk(s, i) && (i < s.taken ==> Placed(s, i))
  {}

  /** A worker that the step does not touch. */
  lemma WorkerLater(s: Sys, s': Sys, w: nat)
    requires w < |s.workers| && w < |s'.workers| && s'.workers[w] == s.workers[w] && WorkerOk(s, w)
    requires s'.attempts == s.attempts && s'.sinks == s.sinks && s.taken <= s'.taken
    requires s.workers[w].Busy? ==>
      s.workers[w].i !in s'.finished && forall k: nat :: CallsOf(s', s.workers[w].i, k) == CallsOf(s, s.workers[w].i, k)
    requires s.workers[w].Exited? ==> s'.closed && s'.taken == |s'.accepted|
    ensures WorkerOk(s', w)
  {
    if s.workers[w].Busy? {
      SameCalls(s, s', s.workers[w].i);
    }
  }

  lemma SameCalls(s: Sys, s': Sys, i: nat)
    requires s'.attempts == s.attempts && forall k: nat :: CallsOf(s', i, k) == CallsOf(s, i, k)
    ensures forall k: nat :: Offered(s', i, k) == Offered(s, i, k)
  {}

  lemma TakeEvents(s: Sys, s': Sys, w: nat)
    requires Inv(s) && Enabled(s, Take(w)) && s' == Next(s, Take(w))
    ensures EventsOk(s')
  {
    hide Counts, Offered, WorkersOk, OneHolder;
    HoldersAfter(s, s', w, Busy(s.taken, 0, 0));
    forall i: nat ensures FinishedOk(s', i) && QueuedOk(s', i) && (i < s'.taken ==> Placed(s', i)) {
      EventOf(s, i);
      OfferedSame(s, s', i);
      if i == s.taken {
        assert Holds(s', w, i);
      } else if i < s.taken && i !in s.finished {
        var v :| Holds(s, v, i);
        assert Holds(s', v, i);
      }
    }
  }

  lemma OfferedSame(s: Sys, s': Sys, i: nat)
    requires s'.attempts == s.attempts && s'.calls == s.calls
    ensures forall k: nat :: Offered(s', i, k) == Offered(s, i, k)
    ensures forall k: nat :: CallsOf(s', i, k) == CallsOf(s, i, k)
  {}

  /** A worker moves on with the event it has: a call, or the next sink. */
  lemma WorkStep(s: Sys, s': Sys, w: nat, next: Worker)
    requires Inv(s) && w < |s.workers| && s.workers[w].Busy? && next.Busy? && next.i == s.workers[w].i
    requires s' == s.(workers := s.workers[w := next], calls := s'.calls)
    requires forall i: nat, k: nat :: i != next.i ==> CallsOf(s', i, k) == CallsOf(s, i, k)
    requires WorkerOk(s', w)
    ensures Inv(s')
  {
    hide Offered;
    HandsChange(s.workers, w, next, |s.workers|);
    HoldersAfter(s, s', w, next);
    WorkWorkers(s, s', w, next);
    WorkEvents(s, s', w, next);
  }

  lemma WorkWorkers(s: Sys, s': Sys, w: nat, next: Worker)
    requires Inv(s) && w < |s.workers| && s.workers[w].Busy? && next.Busy? && next.i == s.workers[w].i
    requires s' == s.(workers := s.workers[w := next], calls := s'.calls)
    requires forall i: nat, k: nat :: i != next.i ==> CallsOf(s', i, k) == CallsOf(s, i, k)
    requires WorkerOk(s', w)
    ensures WorkersOk(s') && OneHolder(s')
  {
    hide Counts, Offered, EventsOk, CallsOf;
    HoldersAfter(s, s', w, next);
    assert Holds(s, w, next.i);
    forall v | 0 <= v < |s'.workers| ensures WorkerOk(s', v) {
      if v != w {
        assert WorkerOk(s, v);
        if s.workers[v].Busy? { assert Holds(s, v, s.workers[v].i); }
        WorkerLater(s, s', v);
      }
    }
  }

  lemma WorkEvents(s: Sys, s': Sys, w: nat, next: Worker)
    requires Inv(s) && w < |s.workers| && s.workers[w].Busy? && next.Busy? && next.i == s.workers[w].i
    requires s' == s.(workers := s.workers[w := next], calls := s'.calls)
    requires forall i: nat, k: nat :: i != next.i ==> CallsOf(s', i, k) == CallsOf(s, i, k)
    ensures EventsOk(s')
  {
    hide Counts, OneHolder, CallsOf;
    HoldersAfter(s, s', w, next);
    assert WorkerOk(s, w);
    forall i: nat ensures FinishedOk(s', i) && QueuedOk(s', i) && (i < s'.taken ==> Placed(s', i)) {
      EventOf(s, i);
      if i != next.i { SameCalls(s, s', i); }
      if i < s.taken && i !in s.finished {
        var v :| Holds(s, v, i);
        assert Holds(s', v, i);
      }
    }
  }

  lemma CallStep(s: Sys, w: nat, outcome: Offer)
    requires Inv(s) && Enabled(s, Call(w, outcome))
    ensures Inv(Next(s, Call(w, outcome)))
  {
    hide Inv;
    var s' := Next(s, Call(w, outcome));
    assert WorkerOk(s, w) by { WorkerOf(s, w); }
    var b := s.workers[w];
    assert forall i: nat, k: nat :: (i, k) != (b.i, b.sink) ==> CallsOf(s', i, k) == CallsOf(s, i, k);
    assert CallsOf(s', b.i, b.sink) == b.tries + 1;
    forall k: nat | k < b.sink ensures Offered(s', b.i, k) {
      assert Offered(s, b.i, k);
    }
    WorkStep(s, s', w, s'.workers[w]);
  }

  lemma WorkerOf(s: Sys, w: nat)
    requires Inv(s) && w < |s.workers|
    ensures WorkerOk(s, w)
  {}

  lemma GiveUpStep(s: Sys, w: nat)
    requires Inv(s) && Enabled(s, GiveUp(w))
    ensures Inv(Next(s, GiveUp(w)))
  {
    hide Inv;
    var s' := Next(s, GiveUp(w));
    WorkerOf(s, w);
    OfferedSame(s, s', s.workers[w].i);
    WorkStep(s, s', w, s'.workers[w]);
  }

  lemma FinishStep(s: Sys, w: nat)
    requires Inv(s) && Enabled(s, Finish(w))
    ensures Inv(Next(s, Finish(w)))
  {
    hide Offered;
    var s' := Next(s, Finish(w));
    HandsChange(s.workers, w, Free, |s.workers|);
    HoldersAfter(s, s', w, Free);
    FinishWorkers(s, s', w);
    FinishEvents(s, s', w);
  }

  lemma FinishWorkers(s: Sys, s': Sys, w: nat)
    requires Inv(s) && Enabled(s, Finish(w)) && s' == Next(s, Finish(w))
    ensures WorkersOk(s') && OneHolder(s')
  {
    hide Counts, Offered, EventsOk;
    HoldersAfter(s, s', w, Free);
    OfferedSame(s, s', 0);
    assert Holds(s, w, s.workers[w].i);
    forall v | 0 <= v < |s'.workers| ensures WorkerOk(s', v) {
      if v != w {
        assert WorkerOk(s, v);
        if s.workers[v].Busy? { assert Holds(s, v, s.workers[v].i); OfferedSame(s, s', s.workers[v].i); }
        WorkerLater(s, s', v);
      }
    }
  }

  lemma FinishEvents(s: Sys, s': Sys, w: nat)
    requires Inv(s) && Enabled(s, Finish(w)) && s' == Next(s, Finish(w))
    ensures EventsOk(s')
  {
    hide Counts, OneHolder, Offered;
    HoldersAfter(s, s', w, Free);
    assert WorkerOk(s, w);
    forall i: nat ensures FinishedOk(s', i) && QueuedOk(s', i) && (i < s'.taken ==> Placed(s', i)) {
      EventOf(s, i);
      OfferedSame(s, s', i);
      if i < s.taken && i !in s'.finished {
        var v :| Holds(s, v, i);
        assert Holds(s', v, i);
      }
    }
  }

  lemma ExitStep(s: Sys, w: nat)
    requires Inv(s) && Enabled(s, Exit(w))
    ensures Inv(Next(s, Exit(w)))
  {
    hide Offered;
    var s' := Next(s, Exit(w));
    HandsChange(s.workers, w, Exited, |s.workers|);
    HoldersAfter(s, s', w, Exited);
    forall v | 0 <= v < |s'.workers| ensures WorkerOk(s', v) {
      if v != w {
        assert WorkerOk(s, v);
        if s.workers[v].Busy? { OfferedSame(s, s', s.workers[v].i); }
        WorkerLater(s, s', v);
      }
    }
    forall i: nat ensures FinishedOk(s', i) && QueuedOk(s', i) && (i < s'.taken ==> Placed(s', i)) {
      EventOf(s, i);
      OfferedSame(s, s', i);
      if i < s.taken && i !in s.finished {
        var v :| Holds(s, v, i);
        assert Holds(s', v, i);
      }
    }
  }

  lemma StepKeeps(s: Sys, step: Step)
    requires Inv(s) && Enabled(s, step)
    ensures Inv(Next(s, step))
  {
    hide WorkersOk, OneHolder, EventsOk, InHands;
    match step
    case Publish(ev) => QueueStep(s, Next(s, step));
    case CountPublished => QueueStep(s, Next(s, step));
    case Close => QueueStep(s, Next(s, step));
    case Take(w) => TakeStep(s, w);
    case Call(w, outcome) => CallStep(s, w, outcome);
    case GiveUp(w) => GiveUpStep(s, w);
    case Finish(w) => FinishStep(s, w);
    case Exit(w) => ExitStep(s, w);
  }

  lemma {:induction false} TraceKeeps(states: seq<Sys>, steps: seq<Step>, n: nat)
    requires Trace(states, steps) && n < |states|
    ensures Inv(states[n])
    decreases n
  {
    hide Enabled, Next, Inv;
    if n == 0 {
      StartKeeps(states[0]);
    } else {
      TraceKeeps(states, steps, n - 1);
      StepKeeps(states[n - 1], steps[n - 1]);
    }
  }

  lemma StartKeeps(s: Sys)
    requires Init(s)
    ensures Inv(s)
  {
    NoHands(s.workers, |s.workers|);
  }

  lemma {:induction false} NoHands(ws: seq<Worker>, n: nat)
    requires n <= |ws| && forall w :: 0 <= w < |ws| ==> !ws[w].Busy?
    ensures InHands(ws, n) == 0
    decreases n
  {
    if n > 0 { NoHands(ws, n - 1); }
  }

  // ---- the theorems ----

  /** No accepted event is lost: in every reachable state, what was accepted is in the
      queue, in a worker's hands, or processed; and everything accepted was, or is about to
      be, counted as published. */
  lemma NothingIsLost(states: seq<Sys>, steps: seq<Step>, n: nat)
    requires Trace(states, steps) && n < |states|
    ensures var s := states[n]; var queued := |s.accepted| - s.taken;
      && 0 <= queued <= s.capacity
      && |s.accepted| == queued + InHands(s.workers, |s.workers|) + s.processed
      && |s.accepted| == s.published + s.counting
  {
    hide Trace, WorkersOk, EventsOk, OneHolder;
    TraceKeeps(states, steps, n);
  }

  /** Every event that left the queue is with exactly one worker or finished, and a finished
      one was offered to each sink at least once and at most `attempts` times (or not at
      all, if no attempt is ever made). */
  lemma EachEventIsOffered(states: seq<Sys>, steps: seq<Step>, n: nat, i: nat)
    requires Trace(states, steps) && n < |states| && i < states[n].taken
    ensures var s := states[n];
      && Placed(s, i) && (i in s.finished ==> forall w: nat :: !Holds(s, w, i))
      && (forall w, w' :: Holds(s, w, i) && Holds(s, w', i) ==> w == w')
      && (i in s.finished ==> forall k :: 0 <= k < s.sinks ==> Offered(s, i, k))
      && (forall k: nat :: k < s.sinks ==> CallsOf(s, i, k) <= s.attempts)
  {
    hide Trace, Counts;
    TraceKeeps(states, steps, n);
    var s := states[n];
    EventOf(s, i);
    forall w: nat | Holds(s, w, i)
      ensures i !in s.finished && forall k: nat :: k < s.sinks ==> CallsOf(s, i, k) <= s.attempts
    {
      assert WorkerOk(s, w);
      forall k: nat | k < s.sinks ensures CallsOf(s, i, k) <= s.attempts {
        if k < s.workers[w].sink { assert Offered(s, i, k); }
      }
    }
    forall k: nat | k < s.sinks ensures CallsOf(s, i, k) <= s.attempts {
      if i in s.finished { assert Offered(s, i, k); }
    }
  }

  // ---- what was refused ----

  /** The channel is closed, or holds as many events as it can. */
  ghost predicate Blocked(s: Sys) {
    s.closed || |s.accepted| - s.taken == s.capacity
  }

  /** The publishes among the first `n` steps. */
  ghost function PublishCount(steps: seq<Step>, n: nat): nat
    requires n <= |steps|
  {
    if n == 0 then 0 else PublishCount(steps, n - 1) + if steps[n - 1].Publish? then 1 else 0
  }

  /** Those that met a closed or full channel. */
  ghost function BlockedCount(states: seq<Sys>, steps: seq<Step>, n: nat): nat
    requires n <= |steps| < |states|
  {
    if n == 0 then 0
    else BlockedCount(states, steps, n - 1) + if steps[n - 1].Publish? && Blocked(states[n - 1]) then 1 else 0
  }

  /** The events of the others, in order. */
  ghost function Passed(states: seq<Sys>, steps: seq<Step>, n: nat): seq<Event>
    requires n <= |steps| < |states|
  {
    if n == 0 then []
    else
      var passes := steps[n - 1].Publish? && !Blocked(states[n - 1]);
      Passed(states, steps, n - 1) + if passes then [steps[n - 1].ev] else []
  }

  /** Over any run: exactly the publishes that met a closed or full channel were refused, and
      counted; the channel has taken all others, in the order in which they came; and every
      publish was one or the other. */
  lemma {:induction false} RefusedOnlyWhenFull(states: seq<Sys>, steps: seq<Step>, n: nat)
    requires Trace(states, steps) && n < |states|
    ensures n <= |steps| < |states|
    ensures states[n].accepted == Passed(states, steps, n)
    ensures states[n].refused == BlockedCount(states, steps, n)
    ensures |states[n].accepted| + states[n].refused == PublishCount(steps, n)
    decreases n
  {
    hide Inv;
    if n > 0 {
      RefusedOnlyWhenFull(states, steps, n - 1);
      TraceKeeps(states, steps, n - 1);
      QueueFits(states[n - 1]);
      StepPublishes(states[n - 1], steps[n - 1]);
      hide Enabled, Next, Blocked;
      assert states[n] == Next(states[n - 1], steps[n - 1]);
    }
  }

  lemma StepPublishes(s: Sys, step: Step)
    requires Enabled(s, step) && |s.accepted| - s.taken <= s.capacity
    ensures var s' := Next(s, step);
      && s'.accepted == s.accepted + (if step.Publish? && !Blocked(s) then [step.ev] else [])
      && s'.refused == s.refused + if step.Publish? && Blocked(s) then 1 else 0
  {}

  lemma QueueFits(s: Sys)
    requires Inv(s)
    ensures |s.accepted| - s.taken <= s.capacity
  {}

  /** When all workers have left, as a shutdown without an error waits for, the channel is
      empty and everything published has been processed. */
  lemma ShutdownDrains(states: seq<Sys>, steps: seq<Step>, n: nat)
    requires Trace(states, steps) && n < |states| && |states[n].workers| > 0
    requires (forall w :: 0 <= w < |states[n].workers| ==> states[n].workers[w].Exited?) && states[n].counting == 0
    ensures var s := states[n]; s.closed && s.taken == |s.accepted| && s.processed == s.published
  {
    hide Trace, EventsOk, OneHolder;
    TraceKeeps(states, steps, n);
    NoHands(states[n].workers, |states[n].workers|);
    assert WorkerOk(states[n], 0);
  }
}

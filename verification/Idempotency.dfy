/** Retried requests: at most one execution per key at a time, and replays of what was
    recorded (httpapi/middleware.go on the store's idempotency records). */
module Idempotency {
  import opened Wrappers

  type Key = (string, string)
  type Body = seq<bv8>

  datatype RecordState = InProgress | Done(status: int, body: Body)

  datatype Record = Record(state: RecordState, expiresAt: int)

  // ---- the store's steps ----

  /** Takes the key unless an unexpired record has it. */
  function Begin(recs: map<Key, Record>, k: Key, now: int, ttl: int): (Option<Record>, map<Key, Record>) {
    if k in recs && recs[k].expiresAt > now then (Some(recs[k]), recs)
    else (None, recs[k := Record(InProgress, now + ttl)])
  }

  function Complete(recs: map<Key, Record>, k: Key, status: int, body: Body): map<Key, Record> {
    if k !in recs then recs else recs[k := recs[k].(state := Done(status, body))]
  }

  function Abort(recs: map<Key, Record>, k: Key): map<Key, Record> {
    recs - {k}
  }

  class IdempotencyStore {
    var recs: map<Key, Record>

    constructor ()
      ensures recs == map[]
    {
      recs := map[];
    }

    method BeginKey(k: Key, now: int, ttl: int) returns (taken: Option<Record>)
      modifies this
      ensures (taken, recs) == Begin(old(recs), k, now, ttl)
    {
      if k in recs && recs[k].expiresAt > now {
        return Some(recs[k]);
      }
      recs := recs[k := Record(InProgress, now + ttl)];
      return None;
    }

    /** A record that is gone is not made again. */
    method CompleteKey(k: Key, status: int, body: Body) returns (found: bool)
      modifies this
      ensures found <==> k in old(recs)
      ensures recs == Complete(old(recs), k, status, body)
    {
      if k !in recs {
        return false;
      }
      recs := recs[k := recs[k].(state := Done(status, body))];
      return true;
    }

    method AbortKey(k: Key)
      modifies this
      ensures recs == Abort(old(recs), k)
    {
      recs := recs - {k};
    }
  }

  // ---- the buffered response ----

  /** What a handler does to its response. */
  datatype Call = SetStatus(code: int) | Send(bytes: Body)

  datatype Response = Response(status: int, body: Body)

  /** The status a handler's calls settle on: the first one set, or 200 once something was
      sent; 0 while neither has happened. */
  ghost function StatusOf(calls: seq<Call>): int {
    if calls == [] then 0
    else
      var before := StatusOf(calls[..|calls| - 1]);
      match calls[|calls| - 1]
      case SetStatus(code) => if before == 0 then code else before
      case Send(_) => if before == 0 then 200 else before
  }

  ghost function BodyOf(calls: seq<Call>): Body {
    if calls == [] then []
    else BodyOf(calls[..|calls| - 1]) + match calls[|calls| - 1] case SetStatus(_) => [] case Send(bytes) => bytes
  }

  ghost function ResponseOf(calls: seq<Call>): Response {
    Response(if StatusOf(calls) == 0 then 200 else StatusOf(calls), BodyOf(calls))
  }

  /** The first call decides the status, and sending first means 200. */
  lemma {:induction false} FirstCallDecides(calls: seq<Call>)
    requires calls != [] && (calls[0].SetStatus? ==> calls[0].code != 0)
    ensures ResponseOf(calls).status == StatusOf(calls) == if calls[0].SetStatus? then calls[0].code else 200
    decreases |calls|
  {
    if |calls| > 1 {
      FirstCallDecides(calls[..|calls| - 1]);
    } else {
      assert calls[..0] == [];
    }
  }

  /** The body is all that was sent, in order. */
  lemma {:induction false} BodiesJoin(calls: seq<Call>, more: seq<Call>)
    ensures BodyOf(calls + more) == BodyOf(calls) + BodyOf(more)
    decreases |more|
  {
    if more == [] {
      assert calls + more == calls;
    } else {
      var rest := more[..|more| - 1];
      BodiesJoin(calls, rest);
      assert (calls + more)[..|calls + more| - 1] == calls + rest;
      assert (calls + more)[|calls + more| - 1] == more[|more| - 1];
    }
  }

  lemma OneBody(call: Call)
    ensures BodyOf([call]) == if call.Send? then call.bytes else []
  {
    assert [call][..0] == [];
  }

  class RecordingWriter {
    var status: int
    var body: Body

    constructor ()
      ensures status == 0 && body == []
    {
      status, body := 0, [];
    }

    method WriteHeader(code: int)
      modifies this
      ensures status == (if old(status) == 0 then code else old(status)) && body == old(body)
    {
      if status == 0 {
        status := code;
      }
    }

    method Write(bytes: Body)
      modifies this
      ensures status == (if old(status) == 0 then 200 else old(status)) && body == old(body) + bytes
    {
      if status == 0 {
        status := 200;
      }
      body := body + bytes;
    }
  }

  method Serve(calls: seq<Call>) returns (rw: RecordingWriter)
    ensures fresh(rw) && rw.status == StatusOf(calls) && rw.body == BodyOf(calls)
  {
    rw := new RecordingWriter();
    for i := 0 to |calls|
      invariant fresh(rw) && rw.status == StatusOf(calls[..i]) && rw.body == BodyOf(calls[..i])
    {
      assert calls[..i + 1][..i] == calls[..i];
      match calls[i]
      case SetStatus(code) => rw.WriteHeader(code);
      case Send(bytes) => rw.Write(bytes);
    }
    assert calls[..|calls|] == calls;
  }

  const CONFLICT := 409
  const BAD_REQUEST := 400
  const INTERNAL := 500
  const MAX_KEY: nat := 128

  /** What a handler does: its calls, and whether it then returns or panics. */
  datatype Handler = Handler(calls: seq<Call>, panics: bool)

  datatype Reply = Plain(response: Response) | Refusal(code: int) | Replayed(response: Response)

  /** What the caller of the middleware sends after a panic, on top of whatever has gone out. */
  ghost function AfterPanic(calls: seq<Call>, page: Body): seq<Call> {
    calls + [SetStatus(INTERNAL), Send(page)]
  }

  /** What becomes of the records when the handler has run under key `k`. */
  ghost function RecordsAfter(recs: map<Key, Record>, k: Key, handler: Handler): map<Key, Record> {
    if handler.panics then recs
    else if ResponseOf(handler.calls).status >= 500 then Abort(recs, k)
    else Complete(recs, k, ResponseOf(handler.calls).status, BodyOf(handler.calls))
  }

  /** idempotent, and recoverer around it, which answers a panic with status 500 and an error
      page. The key is already trimmed. A panic passes through with the record still in
      progress and the buffered response lost. */
  method Idempotent(store: IdempotencyStore, player: string, key: string, now: int, ttl: int, handler: Handler,
          page: Body)
    returns (reply: Reply, ran: bool)
    modifies store
    ensures key == "" ==>
      && ran && store.recs == old(store.recs)
      && reply == Plain(ResponseOf(if handler.panics then AfterPanic(handler.calls, page) else handler.calls))
    ensures |key| > MAX_KEY ==> reply == Refusal(BAD_REQUEST) && !ran && store.recs == old(store.recs)
    ensures 0 < |key| <= MAX_KEY ==>
      var k := (player, key); var began := Begin(old(store.recs), k, now, ttl);
      match began.0
      case Some(rec) =>
        !ran && store.recs == old(store.recs)
        && reply == (if rec.state.InProgress? then Refusal(CONFLICT)
                     else Replayed(Response(rec.state.status, rec.state.body)))
      case None =>
        ran && store.recs == RecordsAfter(began.1, k, handler)
        && reply == Plain(ResponseOf(if handler.panics then AfterPanic([], page) else handler.calls))
  {
    ran := false;
    if key == "" {
      var direct := ServeAll(handler, [], page);
      return Plain(Response(if direct.status == 0 then 200 else direct.status, direct.body)), true;
    }
    if |key| > MAX_KEY {
      return Refusal(BAD_REQUEST), false;
    }
    var k := (player, key);
    var taken := store.BeginKey(k, now, ttl);
    if taken.Some? {
      match taken.value.state
      case InProgress => return Refusal(CONFLICT), false;
      case Done(status, body) => return Replayed(Response(status, body)), false;
    }
    var rw := Serve(handler.calls);
    if handler.panics {
      var failed := Serve([SetStatus(INTERNAL), Send(page)]);
      assert AfterPanic([], page) == [SetStatus(INTERNAL), Send(page)];
      return Plain(Response(if failed.status == 0 then 200 else failed.status, failed.body)), true;
    }
    var status := if rw.status == 0 then 200 else rw.status;
    if status >= 500 {
      store.AbortKey(k);
    } else {
      var _ := store.CompleteKey(k, status, rw.body);
    }
    return Plain(Response(status, rw.body)), true;
  }

  /** Without a key the handler writes straight to the connection. */
  method ServeAll(handler: Handler, before: seq<Call>, page: Body) returns (rw: RecordingWriter)
    requires before == []
    ensures fresh(rw)
    ensures var calls := if handler.panics then AfterPanic(handler.calls, page) else handler.calls;
      rw.status == StatusOf(calls) && rw.body == BodyOf(calls)
  {
    if handler.panics {
      rw := Serve(handler.calls + [SetStatus(INTERNAL), Send(page)]);
    } else {
      rw := Serve(handler.calls);
    }
  }

  // ---- many requests ----

  /** Where a request stands; `began` and `expiresAt` belong to the record it took. */
  datatype Pc =
    | Waiting
    | Running(key: Key, began: int, expiresAt: int)
    | Answered(key: Key, status: int, body: Body)
    | Replaying(key: Key, status: int, body: Body)
    | Busy(key: Key)

  /** A handler execution that was recorded. */
  datatype Execution = Execution(began: int, ended: int, expiresAt: int, status: int, body: Body)

  /** The records, the clock, the requests, and for the record: the executions that were
      recorded, the expiry of the record that the last panic left behind, and whether some
      request was still running when its record expired. */
  datatype Sys = Sys(
    recs: map<Key, Record>, clock: int, ttl: int, clients: map<nat, Pc>,
    log: map<Key, seq<Execution>>, left: map<Key, int>, late: bool)

  ghost function At(s: Sys, c: nat): Pc {
    if c in s.clients then s.clients[c] else Waiting
  }

  ghost function LogOf(s: Sys, k: Key): seq<Execution> {
    if k in s.log then s.log[k] else []
  }

  /** A handler that returns finishes its request; one that panics, or whose server dies,
      crashes and leaves its record as it is. */
  datatype Step =
    | Tick(time: int)
    | Request(c: nat, key: Key)
    | Finish(c: nat, status: int, body: Body)
    | Crash(c: nat)
    | Leave(c: nat)

  ghost predicate Enabled(s: Sys, step: Step) {
    match step
    case Tick(time) => time >= s.clock
    case Request(c, _) => At(s, c).Waiting?
    case Finish(c, _, _) => At(s, c).Running?
    case Crash(c) => At(s, c).Running?
    case Leave(c) => !At(s, c).Running?
  }

  ghost function Become(s: Sys, c: nat, pc: Pc): Sys {
    s.(clients := s.clients[c := pc])
  }

  ghost function DoRequest(s: Sys, c: nat, k: Key): Sys {
    var began := Begin(s.recs, k, s.clock, s.ttl);
    match began.0
    case Some(rec) =>
      Become(s, c, if rec.state.InProgress? then Busy(k) else Replaying(k, rec.state.status, rec.state.body))
    case None =>
      Become(s, c, Running(k, s.clock, s.clock + s.ttl)).(recs := began.1)
  }

  /** A failed execution (500 and above) frees the key, any other is recorded. */
  ghost function DoFinish(s: Sys, c: nat, status: int, body: Body): Sys
    requires At(s, c).Running?
  {
    var pc := At(s, c);
    var s' := Become(s, c, Answered(pc.key, status, body));
    if status >= 500 then s'.(recs := Abort(s.recs, pc.key))
    else
      s'.(recs := Complete(s.recs, pc.key, status, body),
          log := s.log[pc.key := LogOf(s, pc.key) + [Execution(pc.began, s.clock, pc.expiresAt, status, body)]])
  }

  ghost function Next(s: Sys, step: Step): Sys
    requires Enabled(s, step)
  {
    match step
    case Tick(time) => s.(clock := time, late := s.late || exists c: nat :: Outlived(s, c, time))
    case Request(c, k) => DoRequest(s, c, k)
    case Finish(c, status, body) => DoFinish(s, c, status, body)
    case Crash(c) => Become(s, c, Waiting).(left := s.left[At(s, c).key := At(s, c).expiresAt])
    case Leave(c) => Become(s, c, Waiting)
  }

  ghost predicate Outlived(s: Sys, c: nat, time: int) {
    At(s, c).Running? && At(s, c).expiresAt <= time
  }

  ghost predicate Init(s: Sys) {
    s.recs == map[] && s.clients == map[] && s.log == map[] && s.left == map[] && s.ttl > 0 && !s.late
  }

  ghost predicate Trace(states: seq<Sys>, steps: seq<Step>) {
    && |states| == |steps| + 1 && Init(states[0])
    && forall i :: 0 <= i < |steps| ==> Enabled(states[i], steps[i]) && states[i + 1] == Next(states[i], steps[i])
  }

  // ---- what every step keeps, as long as nothing is late ----

  /** A running request owns the record of its key. */
  ghost predicate RunnerOk(s: Sys, pc: Pc) {
    pc.Running? ==>
      && s.clock < pc.expiresAt && pc.began <= s.clock
      && pc.key in s.recs && s.recs[pc.key] == Record(InProgress, pc.expiresAt)
      && Quiet(LogOf(s, pc.key), pc.began)
  }

  /** Every recorded execution had expired by `time`. */
  ghost predicate Quiet(log: seq<Execution>, time: int) {
    forall i :: 0 <= i < |log| ==> log[i].expiresAt <= time
  }

  ghost predicate ReplayOk(s: Sys, pc: Pc) {
    pc.Replaying? ==> WasRecorded(LogOf(s, pc.key), pc.status, pc.body)
  }

  ghost predicate WasRecorded(log: seq<Execution>, status: int, body: Body) {
    exists i :: Recorded(log, i, status, body)
  }

  ghost predicate Recorded(log: seq<Execution>, i: int, status: int, body: Body) {
    0 <= i < |log| && log[i].status == status && log[i].body == body
  }

  /** Recorded executions ran one after the other, each after the record before had
      expired, each within its own time, and none of them had failed. */
  ghost predicate Sequential(log: seq<Execution>, clock: int) {
    && (forall i :: 0 <= i < |log| ==>
          log[i].began <= log[i].ended < log[i].expiresAt && log[i].ended <= clock && log[i].status < 500)
    && (forall i, j :: 0 <= i < j < |log| ==> log[i].expiresAt <= log[j].began)
  }

  /** A record says what its last execution said, or will expire after every earlier one. */
  ghost predicate RecordOk(s: Sys, k: Key)
    requires k in s.recs
  {
    var log := LogOf(s, k);
    match s.recs[k].state
    case Done(status, body) =>
      |log| > 0 && log[|log| - 1].expiresAt == s.recs[k].expiresAt && Recorded(log, |log| - 1, status, body)
    case InProgress => true
  }

  /** An execution that is still fresh keeps its record. */
  ghost predicate FreshKept(s: Sys, k: Key) {
    var log := LogOf(s, k);
    |log| > 0 && s.clock < log[|log| - 1].expiresAt ==>
      k in s.recs && s.recs[k] == Record(Done(log[|log| - 1].status, log[|log| - 1].body), log[|log| - 1].expiresAt)
  }

  ghost predicate ClientsOk(s: Sys) {
    forall c: nat :: RunnerOk(s, At(s, c)) && ReplayOk(s, At(s, c))
  }

  ghost predicate Runs(s: Sys, c: nat, k: Key) {
    At(s, c).Running? && At(s, c).key == k
  }

  ghost predicate OneRunner(s: Sys) {
    forall c: nat, c': nat, k :: Runs(s, c, k) && Runs(s, c', k) ==> c == c'
  }

  ghost predicate KeyOk(s: Sys, k: Key) {
    (k in s.recs ==> RecordOk(s, k)) && Sequential(LogOf(s, k), s.clock) && FreshKept(s, k)
  }

  ghost predicate Inv(s: Sys) {
    s.ttl > 0 && ClientsOk(s) && OneRunner(s) && forall k :: KeyOk(s, k)
  }
}

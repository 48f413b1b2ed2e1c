/** The telemetry bus: a bounded queue, a pool of workers, retried deliveries and a drain on
    shutdown (telemetry/bus.go). */
module Telemetry {
  import opened Wrappers

  type Event = string

  /** What one call of a sink came to. */
  datatype Offer = Delivered | Transient | Permanent

  /** The bus without its workers' goroutines: what a publisher and a worker do to it. */
  class Bus {
    const capacity: nat
    const attempts: nat
    var queue: seq<Event>
    var closed: bool
    var published: nat
    var processed: nat
    var dropped: nat
    var retries: nat
    var failed: nat

    ghost predicate Valid()
      reads this
    {
      |queue| <= capacity
    }

    constructor (buffer: int, attempts: nat)
      ensures Valid() && capacity == (if buffer <= 0 then 1000 else buffer) && this.attempts == attempts
      ensures queue == [] && !closed && published == processed == dropped == retries == failed == 0
    {
      capacity := if buffer <= 0 then 1000 else buffer;
      this.attempts := attempts;
      queue, closed := [], false;
      published, processed, dropped, retries, failed := 0, 0, 0, 0, 0;
    }

    /** Never waits: a full or closed bus drops the event and counts it. */
    method Publish(ev: Event) returns (ok: bool)
      requires Valid()
      modifies this
      ensures Valid()
      ensures ok <==> !old(closed) && |old(queue)| < capacity
      ensures if ok then queue == old(queue) + [ev] && published == old(published) + 1 && dropped == old(dropped)
        else queue == old(queue) && published == old(published) && dropped == old(dropped) + 1
      ensures closed == old(closed) && processed == old(processed) && retries == old(retries) && failed == old(failed)
    {
      if closed {
        dropped := dropped + 1;
        return false;
      }
      if |queue| < capacity {
        queue := queue + [ev];
        published := published + 1;
        return true;
      }
      dropped := dropped + 1;
      return false;
    }

    /** One event to one sink whose successive calls come to `outcomes`: called again only
        after transient failures, at most `attempts` times; `cancelAt` is the number of calls
        after which the context ends, if it does. */
    method Deliver(outcomes: seq<Offer>, cancelAt: Option<nat>) returns (calls: nat, ok: bool)
      requires |outcomes| >= attempts
      modifies this`retries
      ensures calls <= attempts && (attempts >= 1 ==> calls >= 1)
      ensures forall j :: 0 <= j < calls - 1 ==> outcomes[j].Transient?
      ensures ok <==> attempts == 0 || outcomes[calls - 1].Delivered?
      ensures !ok ==> calls == attempts || outcomes[calls - 1].Permanent? || cancelAt == Some(calls)
      ensures calls > 0 ==> old(retries) + calls - 1 <= retries <= old(retries) + calls
    {
      calls := 0;
      while calls < attempts
        invariant calls <= attempts
        invariant forall j :: 0 <= j < calls ==> outcomes[j].Transient?
        invariant retries == old(retries) + if calls > 0 then calls - 1 else 0
      {
        if calls > 0 {
          retries := retries + 1;
          if cancelAt == Some(calls) {
            return calls, false;
          }
        }
        calls := calls + 1;
        match outcomes[calls - 1]
        case Delivered => return calls, true;
        case Permanent => return calls, false;
        case Transient =>
      }
      return calls, attempts == 0;
    }

    /** All sinks in turn; a sink that fails is counted and does not keep the event from
        the others. */
    method Dispatch(scripts: seq<(seq<Offer>, Option<nat>)>) returns (calls: seq<nat>)
      requires forall k :: 0 <= k < |scripts| ==> |scripts[k].0| >= attempts
      modifies this`retries, this`failed
      ensures |calls| == |scripts|
      ensures forall k :: 0 <= k < |calls| ==> calls[k] <= attempts && (attempts >= 1 ==> calls[k] >= 1)
      ensures attempts >= 1 ==> failed == old(failed) + Failures(scripts, calls, |scripts|)
    {
      calls := [];
      for k := 0 to |scripts|
        invariant |calls| == k
        invariant forall j :: 0 <= j < k ==> calls[j] <= attempts && (attempts >= 1 ==> calls[j] >= 1)
        invariant attempts >= 1 ==> failed == old(failed) + Failures(scripts, calls, k)
      {
        var n, ok := Deliver(scripts[k].0, scripts[k].1);
        if !ok {
          failed := failed + 1;
        }
        FailuresSame(scripts, calls, n, k);
        calls := calls + [n];
      }
    }
  }

  /** The sinks, among the first `n`, whose last call was not a success. */
  ghost function Failures(scripts: seq<(seq<Offer>, Option<nat>)>, calls: seq<nat>, n: nat): nat
    requires n <= |scripts| && n <= |calls| && forall k :: 0 <= k < n ==> 1 <= calls[k] <= |scripts[k].0|
  {
    if n == 0 then 0
    else Failures(scripts, calls, n - 1) + if scripts[n - 1].0[calls[n - 1] - 1].Delivered? then 0 else 1
  }

  lemma {:induction false} FailuresSame(scripts: seq<(seq<Offer>, Option<nat>)>, calls: seq<nat>, more: nat, n: nat)
    requires n <= |scripts| && n <= |calls|
    ensures (forall k :: 0 <= k < n ==> 1 <= calls[k] <= |scripts[k].0|) ==>
      Failures(scripts, calls + [more], n) == Failures(scripts, calls, n)
    decreases n
  {
    if n > 0 { FailuresSame(scripts, calls, more, n - 1); }
  }
}

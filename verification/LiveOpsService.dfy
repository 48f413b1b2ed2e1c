/** The event store and the LiveOps service as objects (store/memory/memory.go events,
    liveops/service.go). What other publishers of the event write between a publisher's
    read and its first write is a parameter; they may stop after their first write. */
module LiveOpsService {
  import opened Wrappers
  import opened Config
  import opened LiveOps
  import opened LiveOpsLaws

  /** What the store holds. */
  datatype EventDb = EventDb(pointers: map<EventId, int>, configs: map<VersionKey, EventConfig>)

  class EventStore {
    var pointers: map<EventId, int>
    var configs: map<VersionKey, EventConfig>

    ghost function Contents(): EventDb
      reads this
    {
      EventDb(pointers, configs)
    }

    constructor ()
      ensures pointers == map[] && configs == map[]
    {
      pointers, configs := map[], map[];
    }

    method CreateMeta(e: EventId) returns (ok: bool)
      modifies this`pointers
      ensures ok <==> e !in old(pointers)
      ensures pointers == if ok then old(pointers)[e := 1] else old(pointers)
    {
      if e in pointers {
        return false;
      }
      pointers := pointers[e := 1];
      return true;
    }

    /** Unconditional: whatever the header says is stored. */
    method UpdateMeta(e: EventId, pointer: int) returns (ok: bool)
      modifies this`pointers
      ensures ok <==> e in old(pointers)
      ensures pointers == if ok then old(pointers)[e := pointer] else old(pointers)
    {
      if e !in pointers {
        return false;
      }
      pointers := pointers[e := pointer];
      return true;
    }

    method PutConfig(key: VersionKey, cfg: EventConfig) returns (ok: bool)
      modifies this`configs
      ensures ok <==> key !in old(configs)
      ensures configs == if ok then old(configs)[key := cfg] else old(configs)
    {
      if key in configs {
        return false;
      }
      configs := configs[key := cfg];
      return true;
    }
  }

  ghost predicate Dense(db: EventDb) {
    VersionsOk(db.pointers, db.configs)
  }

  ghost predicate OnlyAdds(configs: map<VersionKey, EventConfig>, configs': map<VersionKey, EventConfig>) {
    forall k :: k in configs ==> k in configs' && configs'[k] == configs[k]
  }

  datatype PublishError = Invalid | UnknownEvent | NoVersionFree

  // ---- other publishers ----

  /** What another publisher of the event does next: its first write, which takes the number
      after the pointer if that is free, or the second write of the one that has taken it. */
  datatype RivalStep = Take(cfg: EventConfig) | Point

  ghost predicate ValidSteps(steps: seq<RivalStep>) {
    forall i :: 0 <= i < |steps| && steps[i].Take? ==> Valid(steps[i].cfg)
  }

  ghost function AfterStep(db: EventDb, e: EventId, step: RivalStep): EventDb
    requires e in db.pointers
  {
    var key := (e, db.pointers[e] + 1);
    match step
    case Take(cfg) => if key in db.configs then db else db.(configs := db.configs[key := cfg])
    case Point => if key in db.configs then db.(pointers := db.pointers[e := db.pointers[e] + 1]) else db
  }

  ghost function AfterSteps(db: EventDb, e: EventId, steps: seq<RivalStep>): (db': EventDb)
    requires e in db.pointers
    ensures e in db'.pointers
  {
    if steps == [] then db else AfterStep(AfterSteps(db, e, steps[..|steps| - 1]), e, steps[|steps| - 1])
  }

  /** The store after what others did in the first `n` attempts of a publisher that lost
      every one of them. */
  ghost function AfterAttempts(db: EventDb, e: EventId, rivals: seq<seq<RivalStep>>, n: nat): (db': EventDb)
    requires e in db.pointers && n <= |rivals|
    ensures e in db'.pointers
  {
    if n == 0 then db else AfterSteps(AfterAttempts(db, e, rivals, n - 1), e, rivals[n - 1])
  }

  /** The number after the pointer as attempt `k` reads it is taken when the attempt writes. */
  ghost predicate Taken(db: EventDb, e: EventId, rivals: seq<seq<RivalStep>>, k: nat)
    requires e in db.pointers && k < |rivals|
  {
    (e, AfterAttempts(db, e, rivals, k).pointers[e] + 1) in AfterAttempts(db, e, rivals, k + 1).configs
  }

  /** What others do keeps versions dense and stored versions as they are. */
  ghost predicate Grows(db: EventDb, db': EventDb, e: EventId) {
    && Dense(db') && OnlyAdds(db.configs, db'.configs)
    && e in db.pointers && e in db'.pointers && db.pointers[e] <= db'.pointers[e]
  }

  lemma StepGrows(db: EventDb, e: EventId, step: RivalStep)
    requires Dense(db) && e in db.pointers && (step.Take? ==> Valid(step.cfg))
    ensures Grows(db, AfterStep(db, e, step), e)
  {
    hide Valid, VersionsOk;
    if step.Take? {
      AddNext(db.pointers, db.configs, e, step.cfg);
    } else if (e, db.pointers[e] + 1) in db.configs {
      MovePointer(db.pointers, db.configs, e);
    }
  }

  method Interfere(store: EventStore, e: EventId, steps: seq<RivalStep>)
    requires Dense(store.Contents()) && e in store.pointers && ValidSteps(steps)
    modifies store
    ensures store.Contents() == AfterSteps(old(store.Contents()), e, steps)
    ensures Grows(old(store.Contents()), store.Contents(), e)
  {
    hide Valid, VersionsOk;
    for i := 0 to |steps|
      invariant e in store.pointers && store.Contents() == AfterSteps(old(store.Contents()), e, steps[..i])
      invariant Grows(old(store.Contents()), store.Contents(), e)
    {
      StepGrows(store.Contents(), e, steps[i]);
      assert steps[..i + 1][..i] == steps[..i];
      var v := store.pointers[e] + 1;
      match steps[i] {
        case Take(cfg) =>
          var _ := store.PutConfig((e, v), cfg);
        case Point =>
          if (e, v) in store.configs {
            var _ := store.UpdateMeta(e, v);
          }
      }
    }
    assert steps[..|steps|] == steps;
  }

  class Service {
    const store: EventStore
    var local: map<VersionKey, EventConfig>
    var shared: map<VersionKey, EventConfig>

    constructor (store: EventStore)
      ensures this.store == store && local == map[] && shared == map[]
    {
      this.store, local, shared := store, map[], map[];
    }

    /** Both caches agree with the store. */
    ghost predicate Agree()
      reads this, store
    {
      && (forall k :: k in local ==> k in store.configs && local[k] == store.configs[k])
      && (forall k :: k in shared ==> k in store.configs && shared[k] == store.configs[k])
    }

    method Remember(key: VersionKey, cfg: EventConfig)
      requires Agree() && key in store.configs && store.configs[key] == cfg
      modifies this`local
      ensures Agree() && key in local && local[key] == cfg
    {
      if |local| > MAX_LOCAL_CONFIGS {
        local := map[];
      }
      local := local[key := cfg];
    }

    /** Whichever cache answers, the answer is the stored version. */
    method GetConfig(key: VersionKey) returns (r: Option<EventConfig>)
      requires Agree()
      modifies this
      ensures Agree()
      ensures r
        == if key in store.configs || key in old(local) || key in old(shared) then Some(store.configs[key]) else None
    {
      if key in local {
        return Some(local[key]);
      }
      if key in shared {
        var cfg := shared[key];
        Remember(key, cfg);
        return Some(cfg);
      }
      if key !in store.configs {
        return None;
      }
      var cfg := store.configs[key];
      Remember(key, cfg);
      shared := shared[key := cfg];
      return Some(cfg);
    }

    /** A new event with version 1. An event that exists is left alone. */
    method Create(e: EventId, cfg: EventConfig) returns (r: Result<(), PublishError>)
      requires Agree() && Dense(store.Contents())
      modifies this, store
      ensures Agree() && Dense(store.Contents()) && OnlyAdds(old(store.configs), store.configs)
      ensures !Valid(cfg) ==> r == Err(Invalid)
      ensures r.Err? ==> store.Contents() == old(store.Contents())
      ensures r.Ok? <==> Valid(cfg) && e !in old(store.pointers)
      ensures r.Ok? ==>
        store.pointers == old(store.pointers)[e := 1] && store.configs == old(store.configs)[(e, 1) := cfg]
    {
      hide Valid, VersionsOk;
      var errs := Validate(cfg);
      if errs != [] {
        return Err(Invalid);
      }
      var created := store.CreateMeta(e);
      if !created {
        return Err(UnknownEvent);
      }
      NoVersionYet(old(store.pointers), store.configs, e);
      AddEvent(old(store.pointers), store.configs, e);
      AddFirst(store.pointers, store.configs, e, cfg);
      var _ := store.PutConfig((e, 1), cfg);
      Remember((e, 1), cfg);
      return Ok(());
    }

    /** Validates, takes the number after the pointer, and moves the pointer; at most five
        attempts. It gives up exactly when in every attempt that number was taken, be it by a
        publish in the meantime or by a publisher that has not moved the pointer yet, or
        never will. Nobody else can write between its own two writes, as the number is its
        own. */
    method PublishConfig(e: EventId, cfg: EventConfig, rivals: seq<seq<RivalStep>>)
      returns (r: Result<int, PublishError>, ghost lost: nat)
      requires Agree() && Dense(store.Contents()) && |rivals| == MAX_PUBLISH_ATTEMPTS
      requires forall k :: 0 <= k < |rivals| ==> ValidSteps(rivals[k])
      modifies this, store
      ensures Agree() && Dense(store.Contents()) && OnlyAdds(old(store.configs), store.configs)
      ensures r == Err(Invalid) <==> !Valid(cfg)
      ensures r == Err(UnknownEvent) <==> Valid(cfg) && e !in old(store.pointers)
      ensures r == Err(Invalid) || r == Err(UnknownEvent) ==> store.Contents() == old(store.Contents())
      ensures Valid(cfg) && e in old(store.pointers) ==>
        && lost <= |rivals| && (forall k :: 0 <= k < lost ==> Taken(old(store.Contents()), e, rivals, k))
        && (r.Err? <==> lost == |rivals|)
        && (r.Err? ==> store.Contents() == AfterAttempts(old(store.Contents()), e, rivals, lost))
        && (r.Ok? ==> !Taken(old(store.Contents()), e, rivals, lost))
        && (r.Ok? ==>
              Publishes(AfterAttempts(old(store.Contents()), e, rivals, lost + 1), store.Contents(), e, cfg, r.value))
    {
      hide Valid, VersionsOk, AfterSteps;
      lost := 0;
      var errs := Validate(cfg);
      if errs != [] {
        return Err(Invalid), 0;
      }
      ghost var db := store.Contents();
      for attempt := 0 to MAX_PUBLISH_ATTEMPTS
        invariant Agree() && Dense(store.Contents()) && OnlyAdds(old(store.configs), store.configs)
        invariant lost == attempt && (attempt > 0 ==> e in db.pointers)
        invariant store.Contents() == if e in db.pointers then AfterAttempts(db, e, rivals, attempt) else db
        invariant forall k :: 0 <= k < attempt ==> Taken(db, e, rivals, k)
      {
        var known, done, v := Attempt(e, cfg, rivals[attempt]);
        if !known {
          return Err(UnknownEvent), lost;
        }
        if done {
          return Ok(v), lost;
        }
        lost := lost + 1;
      }
      return Err(NoVersionFree), lost;
    }

    /** One attempt: read the header, and take the number after its pointer. */
    method Attempt(e: EventId, cfg: EventConfig, steps: seq<RivalStep>) returns (known: bool, done: bool, v: int)
      requires Agree() && Dense(store.Contents()) && Valid(cfg) && ValidSteps(steps)
      modifies this, store
      ensures Agree() && Dense(store.Contents()) && OnlyAdds(old(store.configs), store.configs)
      ensures known <==> e in old(store.pointers)
      ensures !known ==> !done && store.Contents() == old(store.Contents())
      ensures known ==>
        && v == old(store.pointers)[e] + 1
        && (done <==> (e, v) !in AfterSteps(old(store.Contents()), e, steps).configs)
        && if done then Publishes(AfterSteps(old(store.Contents()), e, steps), store.Contents(), e, cfg, v)
           else store.Contents() == AfterSteps(old(store.Contents()), e, steps)
    {
      hide Valid, VersionsOk, AfterSteps;
      if e !in store.pointers {
        return false, false, 0;
      }
      var seen := store.pointers[e];
      PositivePointer(store.Contents(), e);
      Interfere(store, e, steps);
      FreeIsNext(store.Contents(), e, seen);
      done := PutAndMove(e, seen + 1, cfg);
      return true, done, seen + 1;
    }

    method PutAndMove(e: EventId, v: int, cfg: EventConfig) returns (ok: bool)
      requires Agree() && Dense(store.Contents()) && e in store.pointers && Valid(cfg)
      requires (e, v) !in store.configs ==> v == store.pointers[e] + 1
      modifies this, store
      ensures Agree() && Dense(store.Contents()) && OnlyAdds(old(store.configs), store.configs)
      ensures ok <==> (e, v) !in old(store.configs)
      ensures if ok then Publishes(old(store.Contents()), store.Contents(), e, cfg, v)
        else store.Contents() == old(store.Contents())
    {
      hide Valid, VersionsOk;
      ok := store.PutConfig((e, v), cfg);
      if ok {
        AddNext(store.pointers, old(store.configs), e, cfg);
        MovePointer(store.pointers, store.configs, e);
        var _ := store.UpdateMeta(e, v);
        Remember((e, v), cfg);
      }
    }
  }

  /** One publish: the number after the pointer, which was free, and the pointer. */
  ghost predicate Publishes(db: EventDb, db': EventDb, e: EventId, cfg: EventConfig, v: int) {
    && e in db.pointers && v == db.pointers[e] + 1 && (e, v) !in db.configs
    && db' == EventDb(db.pointers[e := v], db.configs[(e, v) := cfg])
  }

  lemma PositivePointer(db: EventDb, e: EventId)
    requires Dense(db) && e in db.pointers
    ensures db.pointers[e] >= 1
  {}

  lemma FreeIsNext(db: EventDb, e: EventId, seen: int)
    requires Dense(db) && e in db.pointers && 1 <= seen <= db.pointers[e]
    ensures (e, seen + 1) !in db.configs ==> seen == db.pointers[e]
  {
    hide VersionsOk;
    if (e, seen + 1) !in db.configs {
      FreeMeansNext(db.pointers, db.configs, e, seen);
    }
  }

  // ---- when publishing fails ----

  /** With nobody else at work the only thing that stops a publisher is a number already
      taken beyond the pointer: then it gives up, although nobody publishes at all. */
  lemma {:induction false} AloneAttempts(db: EventDb, e: EventId, rivals: seq<seq<RivalStep>>, n: nat)
    requires e in db.pointers && n <= |rivals| && forall k :: 0 <= k < n ==> rivals[k] == []
    ensures AfterAttempts(db, e, rivals, n) == db
  {
    if n > 0 { AloneAttempts(db, e, rivals, n - 1); }
  }

  lemma AloneIsTaken(db: EventDb, e: EventId, rivals: seq<seq<RivalStep>>)
    requires e in db.pointers && |rivals| == MAX_PUBLISH_ATTEMPTS && forall k :: 0 <= k < |rivals| ==> rivals[k] == []
    ensures (forall k :: 0 <= k < |rivals| ==> Taken(db, e, rivals, k)) <==> (e, db.pointers[e] + 1) in db.configs
  {
    forall k: nat | k < |rivals| ensures Taken(db, e, rivals, k) <==> (e, db.pointers[e] + 1) in db.configs {
      AloneAttempts(db, e, rivals, k);
      AloneAttempts(db, e, rivals, k + 1);
    }
    assert Taken(db, e, rivals, 0) <==> (e, db.pointers[e] + 1) in db.configs;
  }
}

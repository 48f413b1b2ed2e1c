/** Event creation, concurrent publishers and cached readers of immutable configuration
    versions (liveops/service.go on store/memory/memory.go). */
module LiveOps {
  import opened Wrappers
  import opened Config

  type EventId = string
  type VersionKey = (EventId, int)

  const MAX_PUBLISH_ATTEMPTS: nat := 5
  const MAX_LOCAL_CONFIGS: nat := 512

  /** Where a request stands. `proc` is the server process it runs in. */
  datatype Pc =
    | Idle
    | Creating(proc: nat, event: EventId, cfg: EventConfig)
    | Publishing(proc: nat, event: EventId, cfg: EventConfig, attempt: nat)
    | Allocating(proc: nat, event: EventId, cfg: EventConfig, attempt: nat, seen: int)
    | Moving(proc: nat, event: EventId, cfg: EventConfig, version: int)
    | Dead(event: EventId, version: int)
    | Forgetting(proc: nat, key: VersionKey, cfg: EventConfig, localDone: bool)
    | Holding(proc: nat, key: VersionKey, cfg: EventConfig, share: bool)
    | Sharing(key: VersionKey, cfg: EventConfig)
    | HoldingMeta(proc: nat, event: EventId, pointer: int, share: bool)
    | SharingMeta(event: EventId, pointer: int)
    | Got(key: VersionKey, cfg: EventConfig)

  /** What a started run records is the name of a version; for the record, the
      configuration that was started with and the one that was settled against. */
  datatype PinnedRun = PinnedRun(key: VersionKey, started: EventConfig, settled: Option<EventConfig>)

  /** The store's event headers (their version pointer) and configurations, the shared and
      the per-process caches of both, the requests, and the runs. */
  datatype Sys = Sys(
    pointers: map<EventId, int>, configs: map<VersionKey, EventConfig>,
    kv: map<VersionKey, EventConfig>, local: map<(nat, VersionKey), EventConfig>,
    metaKv: map<EventId, int>, metaLocal: map<(nat, EventId), int>,
    clients: map<nat, Pc>, runs: map<string, PinnedRun>)

  ghost function At(s: Sys, c: nat): Pc {
    if c in s.clients then s.clients[c] else Idle
  }

  ghost function Become(s: Sys, c: nat, pc: Pc): (s': Sys)
    ensures s'.runs == s.runs
  {
    s.(clients := s.clients[c := pc])
  }

  datatype Step =
    | Create(c: nat, proc: nat, event: EventId, cfg: EventConfig)
    | PutFirst(c: nat)
    | BeginPublish(c: nat, proc: nat, event: EventId, cfg: EventConfig)
    | ReadPointer(c: nat)
    | PutNext(c: nat)
    | Move(c: nat)
    | Forget(c: nat)
    | FetchLocal(c: nat, proc: nat, key: VersionKey)
    | Fetch(c: nat, proc: nat, key: VersionKey)
    | FetchShared(c: nat, proc: nat, key: VersionKey)
    | Remember(c: nat)
    | Share(c: nat)
    | StartRun(c: nat, run: string)
    | SettleRun(c: nat, run: string)
    | Drop(c: nat)
    | FetchMeta(c: nat, proc: nat, event: EventId)
    | FetchSharedMeta(c: nat, proc: nat, event: EventId)
    | Expire(keys: set<VersionKey>, events: set<EventId>, locals: set<(nat, EventId)>)
    | Die(c: nat)

  ghost predicate Enabled(s: Sys, step: Step) {
    match step
    case Create(c, _, _, cfg) => At(s, c).Idle? && Valid(cfg)
    case PutFirst(c) => At(s, c).Creating?
    case BeginPublish(c, _, _, cfg) => At(s, c).Idle? && Valid(cfg)
    case ReadPointer(c) => At(s, c).Publishing?
    case PutNext(c) => At(s, c).Allocating?
    case Move(c) => At(s, c).Moving?
    case Forget(c) => At(s, c).Forgetting?
    case FetchLocal(c, proc, key) => At(s, c).Idle? && (proc, key) in s.local
    case Fetch(c, _, key) => At(s, c).Idle? && key in s.configs
    case FetchShared(c, _, key) => At(s, c).Idle? && key in s.kv
    case Remember(c) => At(s, c).Holding? || At(s, c).HoldingMeta?
    case Share(c) => At(s, c).Sharing? || At(s, c).SharingMeta?
    case StartRun(c, run) => At(s, c).Got? && run !in s.runs
    case SettleRun(c, run) => At(s, c).Got? && run in s.runs && s.runs[run].key == At(s, c).key
    case Drop(c) => At(s, c).Got?
    case FetchMeta(c, _, event) => At(s, c).Idle? && event in s.pointers
    case FetchSharedMeta(c, _, event) => At(s, c).Idle? && event in s.metaKv
    case Expire(_, _, _) => true
    case Die(c) => !At(s, c).Dead?
  }

  /** The first half of creating an event: its header, which points to version 1. */
  ghost function DoCreate(s: Sys, c: nat, proc: nat, event: EventId, cfg: EventConfig): (s': Sys)
    ensures s'.runs == s.runs
  {
    if event in s.pointers then s
    else Become(s, c, Creating(proc, event, cfg)).(pointers := s.pointers[event := 1])
  }

  /** A conditional write: versions are never overwritten. */
  ghost function PutConfig(s: Sys, key: VersionKey, cfg: EventConfig): (s': Sys)
    ensures s'.runs == s.runs
  {
    if key in s.configs then s else s.(configs := s.configs[key := cfg])
  }

  ghost function DoPutFirst(s: Sys, c: nat): (s': Sys)
    requires At(s, c).Creating?
    ensures s'.runs == s.runs
  {
    var pc := At(s, c);
    Become(PutConfig(s, (pc.event, 1), pc.cfg), c, Holding(pc.proc, (pc.event, 1), pc.cfg, false))
  }

  ghost function DoReadPointer(s: Sys, c: nat): (s': Sys)
    requires At(s, c).Publishing?
    ensures s'.runs == s.runs
  {
    var pc := At(s, c);
    var next :=
      if pc.event in s.pointers then Allocating(pc.proc, pc.event, pc.cfg, pc.attempt, s.pointers[pc.event]) else Idle;
    Become(s, c, next)
  }

  /** The first write of a publisher. If the number is taken, it starts over, at most five
      times in all. */
  ghost function DoPutNext(s: Sys, c: nat): (s': Sys)
    requires At(s, c).Allocating?
    ensures s'.runs == s.runs
  {
    var pc := At(s, c);
    var key := (pc.event, pc.seen + 1);
    if key in s.configs then
      var again := pc.attempt + 1 < MAX_PUBLISH_ATTEMPTS;
      Become(s, c, if again then Publishing(pc.proc, pc.event, pc.cfg, pc.attempt + 1) else Idle)
    else Become(PutConfig(s, key, pc.cfg), c, Moving(pc.proc, pc.event, pc.cfg, pc.seen + 1))
  }

  /** The second write: the pointer, unconditionally. */
  ghost function DoMove(s: Sys, c: nat): (s': Sys)
    requires At(s, c).Moving?
    ensures s'.runs == s.runs
  {
    var pc := At(s, c);
    if pc.event !in s.pointers then Become(s, c, Idle)
    else
      Become(s, c, Forgetting(pc.proc, (pc.event, pc.version), pc.cfg, false))
        .(pointers := s.pointers[pc.event := pc.version])
  }

  ghost function DoForget(s: Sys, c: nat): (s': Sys)
    requires At(s, c).Forgetting?
    ensures s'.runs == s.runs
  {
    var pc := At(s, c);
    if pc.localDone then Become(s, c, Holding(pc.proc, pc.key, pc.cfg, false)).(metaKv := s.metaKv - {pc.key.0})
    else Become(s, c, pc.(localDone := true)).(metaLocal := s.metaLocal - {(pc.proc, pc.key.0)})
  }

  /** Entries of one process. */
  ghost function LocalKeys(s: Sys, proc: nat): set<(nat, VersionKey)> {
    set k | k in s.local && k.0 == proc
  }

  /** Into the process's cache, which is emptied first when it has grown too large. */
  ghost function DoRemember(s: Sys, c: nat): (s': Sys)
    requires At(s, c).Holding? || At(s, c).HoldingMeta?
    ensures s'.runs == s.runs
  {
    var pc := At(s, c);
    if pc.Holding? then
      var local := if |LocalKeys(s, pc.proc)| > MAX_LOCAL_CONFIGS then s.local - LocalKeys(s, pc.proc) else s.local;
      Become(s, c, if pc.share then Sharing(pc.key, pc.cfg) else Got(pc.key, pc.cfg))
        .(local := local[(pc.proc, pc.key) := pc.cfg])
    else
      Become(s, c, if pc.share then SharingMeta(pc.event, pc.pointer) else Idle)
        .(metaLocal := s.metaLocal[(pc.proc, pc.event) := pc.pointer])
  }

  ghost function DoShare(s: Sys, c: nat): (s': Sys)
    requires At(s, c).Sharing? || At(s, c).SharingMeta?
    ensures s'.runs == s.runs
  {
    var pc := At(s, c);
    if pc.Sharing? then Become(s, c, Got(pc.key, pc.cfg)).(kv := s.kv[pc.key := pc.cfg])
    else Become(s, c, Idle).(metaKv := s.metaKv[pc.event := pc.pointer])
  }

  /** A run is started with the version in hand, and later settled with a version of the
      name that it recorded. */
  ghost function DoStartRun(s: Sys, c: nat, run: string): Sys
    requires At(s, c).Got?
  {
    var pc := At(s, c);
    Become(s, c, Idle).(runs := s.runs[run := PinnedRun(pc.key, pc.cfg, None)])
  }

  ghost function DoSettleRun(s: Sys, c: nat, run: string): Sys
    requires At(s, c).Got? && run in s.runs
  {
    Become(s, c, Idle).(runs := s.runs[run := s.runs[run].(settled := Some(At(s, c).cfg))])
  }

  /** A request dies at any point; one that dies between its two writes leaves the version
      it stored without a pointer. */
  ghost function DoDie(s: Sys, c: nat): (s': Sys)
    ensures s'.runs == s.runs
  {
    Become(s, c, if At(s, c).Moving? then Dead(At(s, c).event, At(s, c).version) else Idle)
  }

  ghost function Next(s: Sys, step: Step): Sys
    requires Enabled(s, step)
  {
    match step
    case Create(c, proc, event, cfg) => DoCreate(s, c, proc, event, cfg)
    case PutFirst(c) => DoPutFirst(s, c)
    case BeginPublish(c, proc, event, cfg) => Become(s, c, Publishing(proc, event, cfg, 0))
    case ReadPointer(c) => DoReadPointer(s, c)
    case PutNext(c) => DoPutNext(s, c)
    case Move(c) => DoMove(s, c)
    case Forget(c) => DoForget(s, c)
    case FetchLocal(c, proc, key) => Become(s, c, Got(key, s.local[(proc, key)]))
    case Fetch(c, proc, key) => Become(s, c, Holding(proc, key, s.configs[key], true))
    case FetchShared(c, proc, key) => Become(s, c, Holding(proc, key, s.kv[key], false))
    case Remember(c) => DoRemember(s, c)
    case Share(c) => DoShare(s, c)
    case StartRun(c, run) => DoStartRun(s, c, run)
    case SettleRun(c, run) => DoSettleRun(s, c, run)
    case Drop(c) => Become(s, c, Idle)
    case FetchMeta(c, proc, event) => Become(s, c, HoldingMeta(proc, event, s.pointers[event], true))
    case FetchSharedMeta(c, proc, event) => Become(s, c, HoldingMeta(proc, event, s.metaKv[event], false))
    case Expire(keys, events, locals) =>
      s.(kv := s.kv - keys, metaKv := s.metaKv - events, metaLocal := s.metaLocal - locals)
    case Die(c) => DoDie(s, c)
  }

  ghost predicate Init(s: Sys) {
    s == Sys(map[], map[], map[], map[], map[], map[], map[], map[])
  }

  ghost predicate Execution(states: seq<Sys>, steps: seq<Step>) {
    && |states| == |steps| + 1 && Init(states[0])
    && forall i :: 0 <= i < |steps| ==> Enabled(states[i], steps[i]) && states[i + 1] == Next(states[i], steps[i])
  }

  // ---- what every step keeps ----

  ghost predicate PcOk(s: Sys, pc: Pc) {
    match pc
    case Creating(_, event, cfg) => event in s.pointers && (event, 1) !in s.configs && Valid(cfg)
    case Publishing(_, _, cfg, _) => Valid(cfg)
    case Allocating(_, event, cfg, _, seen) => event in s.pointers && 1 <= seen <= s.pointers[event] && Valid(cfg)
    case Moving(_, event, cfg, v) =>
      event in s.pointers && v == s.pointers[event] + 1 && (event, v) in s.configs && s.configs[(event, v)] == cfg
    case Dead(event, v) => event in s.pointers && v == s.pointers[event] + 1 && (event, v) in s.configs
    case Forgetting(_, key, cfg, _) => key in s.configs && s.configs[key] == cfg
    case Holding(_, key, cfg, _) => key in s.configs && s.configs[key] == cfg
    case Sharing(key, cfg) => key in s.configs && s.configs[key] == cfg
    case Got(key, cfg) => key in s.configs && s.configs[key] == cfg
    case HoldingMeta(_, event, p, _) => event in s.pointers && 1 <= p <= s.pointers[event]
    case SharingMeta(event, p) => event in s.pointers && 1 <= p <= s.pointers[event]
    case Idle => true
  }

  /** Versions are dense above the first; at most the next one exists beyond the pointer. */
  ghost predicate VersionsOk(pointers: map<EventId, int>, configs: map<VersionKey, EventConfig>) {
    && (forall e :: e in pointers ==> pointers[e] >= 1)
    && (forall k :: k in configs ==> k.0 in pointers && 1 <= k.1 <= pointers[k.0] + 1 && Valid(configs[k]))
    && (forall e, v :: e in pointers && 2 <= v <= pointers[e] ==> (e, v) in configs)
  }

  /** The version beyond the pointer exists. */
  ghost predicate Ahead(s: Sys, e: EventId) {
    e in s.pointers && (e, s.pointers[e] + 1) in s.configs
  }

  ghost predicate HasOwner(s: Sys, e: EventId) {
    exists c: nat :: InGap(s, c, e)
  }

  /** The request has stored the version beyond the pointer and has not moved the pointer. */
  ghost predicate InGap(s: Sys, c: nat, e: EventId) {
    (At(s, c).Moving? || At(s, c).Dead?) && At(s, c).event == e
  }

  ghost predicate Creates(s: Sys, c: nat, e: EventId) {
    At(s, c).Creating? && At(s, c).event == e
  }

  /** The version beyond the pointer belongs to exactly one request between its writes. */
  ghost predicate OwnersOk(s: Sys) {
    && (forall e :: Ahead(s, e) ==> HasOwner(s, e))
    && (forall c: nat, c': nat, e :: InGap(s, c, e) && InGap(s, c', e) ==> c == c')
    && (forall c: nat, c': nat, e :: Creates(s, c, e) && Creates(s, c', e) ==> c == c')
  }

  ghost predicate SharedOk(configs: map<VersionKey, EventConfig>, kv: map<VersionKey, EventConfig>) {
    forall k :: k in kv ==> k in configs && kv[k] == configs[k]
  }

  ghost predicate LocalOk(configs: map<VersionKey, EventConfig>, local: map<(nat, VersionKey), EventConfig>) {
    forall k :: k in local ==> k.1 in configs && local[k] == configs[k.1]
  }

  ghost predicate SharedMetaOk(pointers: map<EventId, int>, metaKv: map<EventId, int>) {
    forall e :: e in metaKv ==> e in pointers && 1 <= metaKv[e] <= pointers[e]
  }

  ghost predicate LocalMetaOk(pointers: map<EventId, int>, metaLocal: map<(nat, EventId), int>) {
    forall k :: k in metaLocal ==> k.1 in pointers && 1 <= metaLocal[k] <= pointers[k.1]
  }

  /** Cached configurations equal the stored ones; cached headers are at worst behind. */
  ghost predicate CachesOk(s: Sys) {
    && SharedOk(s.configs, s.kv) && LocalOk(s.configs, s.local) && SharedMetaOk(s.pointers, s.metaKv)
    && LocalMetaOk(s.pointers, s.metaLocal)
  }

  ghost predicate Inv(s: Sys) {
    VersionsOk(s.pointers, s.configs) && OwnersOk(s) && CachesOk(s) && forall c: nat :: PcOk(s, At(s, c))
  }

  /** Stored configurations never change and pointers never decrease. */
  ghost predicate Forward(s: Sys, s': Sys) {
    && (forall k :: k in s.configs ==> k in s'.configs && s'.configs[k] == s.configs[k])
    && (forall e :: e in s.pointers ==> e in s'.pointers && s.pointers[e] <= s'.pointers[e])
  }
}

/** When an event can still get a new version, and when it cannot: publishers that die
    between their two writes, and headers written back from an old copy
    (liveops/service.go PublishConfig, reward/distributor.go). */
module LiveOpsProgress {
  import opened Config
  import opened LiveOps
  import opened LiveOpsLaws

  /** A run of the system from any state. */
  ghost predicate Continues(s: Sys, states: seq<Sys>, steps: seq<Step>) {
    && |states| == |steps| + 1 && states[0] == s
    && forall i :: 0 <= i < |steps| ==> Enabled(states[i], steps[i]) && states[i + 1] == Next(states[i], steps[i])
  }

  ghost predicate MovesBy(s: Sys, e: EventId, states: seq<Sys>, steps: seq<Step>)
    requires e in s.pointers
  {
    && Continues(s, states, steps)
    && e in states[|steps|].pointers && states[|steps|].pointers[e] != s.pointers[e]
  }

  /** Some continuation moves the event's pointer. */
  ghost predicate CanMove(s: Sys, e: EventId)
    requires e in s.pointers
  {
    exists states, steps :: MovesBy(s, e, states, steps)
  }

  /** The request cannot bring event `e` to another version than `p`: a publisher past its
      first write has stored `p` itself, and one before it finds its number taken. */
  ghost predicate Harmless(configs: map<VersionKey, EventConfig>, e: EventId, p: int, pc: Pc) {
    && (pc.Moving? && pc.event == e ==> pc.version == p)
    && (pc.Allocating? && pc.event == e ==> (e, pc.seen + 1) in configs || pc.seen + 1 == p)
  }

  /** The number after the pointer is taken, and no request in progress can move it. */
  ghost predicate Stuck(s: Sys, e: EventId) {
    && e in s.pointers && (e, s.pointers[e] + 1) in s.configs
    && forall c: nat :: Harmless(s.configs, e, s.pointers[e], At(s, c))
  }

  // ---- stuck events stay stuck ----

  lemma StaysHarmless(configs: map<VersionKey, EventConfig>, configs': map<VersionKey, EventConfig>, e: EventId,
          p: int, pc: Pc)
    requires Harmless(configs, e, p, pc) && configs.Keys <= configs'.Keys
    ensures Harmless(configs', e, p, pc)
  {}

  lemma StuckFrame(s: Sys, s': Sys, c: nat, pc: Pc, e: EventId)
    requires Stuck(s, e) && e in s'.pointers && s'.pointers[e] == s.pointers[e] && s.configs.Keys <= s'.configs.Keys
    requires s'.clients == s.clients[c := pc] && Harmless(s'.configs, e, s.pointers[e], pc)
    ensures Stuck(s', e)
  {
    hide Harmless;
    forall c': nat ensures Harmless(s'.configs, e, s.pointers[e], At(s', c')) {
      if c' != c {
        StaysHarmless(s.configs, s'.configs, e, s.pointers[e], At(s, c'));
      }
    }
  }

  lemma HarmlessAt(s: Sys, c: nat, e: EventId)
    requires Stuck(s, e)
    ensures Harmless(s.configs, e, s.pointers[e], At(s, c))
  {}

  /** Requests that neither write nor are about to. */
  lemma StuckQuiet(s: Sys, s': Sys, c: nat, pc: Pc, e: EventId)
    requires Stuck(s, e) && s'.pointers == s.pointers && s'.configs == s.configs
    requires s'.clients == s.clients[c := pc] && !pc.Moving? && !pc.Allocating?
    ensures Stuck(s', e)
  {
    hide Stuck;
    assert e in s.pointers && Harmless(s'.configs, e, s.pointers[e], pc) by { StuckEvent(s, e); }
    StuckFrame(s, s', c, pc, e);
  }

  lemma StuckEvent(s: Sys, e: EventId)
    requires Stuck(s, e)
    ensures e in s.pointers
  {}

  lemma StuckCreate(s: Sys, c: nat, proc: nat, event: EventId, cfg: EventConfig, e: EventId)
    requires Stuck(s, e)
    ensures var s' := DoCreate(s, c, proc, event, cfg); Stuck(s', e) && s'.pointers[e] == s.pointers[e]
  {
    hide Stuck, Valid;
    StuckEvent(s, e);
    if event !in s.pointers {
      StuckFrame(s, DoCreate(s, c, proc, event, cfg), c, Creating(proc, event, cfg), e);
    }
  }

  lemma StuckPutFirst(s: Sys, c: nat, e: EventId)
    requires Stuck(s, e) && At(s, c).Creating?
    ensures var s' := DoPutFirst(s, c); Stuck(s', e) && s'.pointers[e] == s.pointers[e]
  {
    hide Stuck, Valid, At;
    StuckEvent(s, e);
    var pc := At(s, c);
    StuckFrame(s, DoPutFirst(s, c), c, Holding(pc.proc, (pc.event, 1), pc.cfg, false), e);
  }

  lemma StuckReadPointer(s: Sys, c: nat, e: EventId)
    requires Stuck(s, e) && At(s, c).Publishing?
    ensures var s' := DoReadPointer(s, c); Stuck(s', e) && s'.pointers[e] == s.pointers[e]
  {
    var pc := At(s, c);
    var next :=
      if pc.event in s.pointers then Allocating(pc.proc, pc.event, pc.cfg, pc.attempt, s.pointers[pc.event]) else Idle;
    StuckFrame(s, DoReadPointer(s, c), c, next, e);
  }

  lemma StuckPutNext(s: Sys, c: nat, e: EventId)
    requires Stuck(s, e) && At(s, c).Allocating?
    ensures var s' := DoPutNext(s, c); Stuck(s', e) && s'.pointers[e] == s.pointers[e]
  {
    hide Stuck, Valid, At;
    StuckEvent(s, e);
    HarmlessAt(s, c, e);
    var pc := At(s, c);
    if (pc.event, pc.seen + 1) in s.configs {
      var again := pc.attempt + 1 < MAX_PUBLISH_ATTEMPTS;
      var next := if again then Publishing(pc.proc, pc.event, pc.cfg, pc.attempt + 1) else Idle;
      StuckQuiet(s, DoPutNext(s, c), c, next, e);
    } else {
      StuckFrame(s, DoPutNext(s, c), c, Moving(pc.proc, pc.event, pc.cfg, pc.seen + 1), e);
    }
  }

  lemma StuckMove(s: Sys, c: nat, e: EventId)
    requires Stuck(s, e) && At(s, c).Moving?
    ensures var s' := DoMove(s, c); Stuck(s', e) && s'.pointers[e] == s.pointers[e]
  {
    hide Stuck, Valid, At;
    StuckEvent(s, e);
    HarmlessAt(s, c, e);
    var pc := At(s, c);
    if pc.event in s.pointers {
      StuckFrame(s, DoMove(s, c), c, Forgetting(pc.proc, (pc.event, pc.version), pc.cfg, false), e);
    } else {
      StuckQuiet(s, DoMove(s, c), c, Idle, e);
    }
  }

  lemma StuckForget(s: Sys, c: nat, e: EventId)
    requires Stuck(s, e) && At(s, c).Forgetting?
    ensures var s' := DoForget(s, c); Stuck(s', e) && s'.pointers == s.pointers
  {
    hide Stuck, Valid, At;
    var pc := At(s, c);
    StuckQuiet(s, DoForget(s, c), c,
               if pc.localDone then Holding(pc.proc, pc.key, pc.cfg, false) else pc.(localDone := true), e);
  }

  lemma StuckRemember(s: Sys, c: nat, e: EventId)
    requires Stuck(s, e) && (At(s, c).Holding? || At(s, c).HoldingMeta?)
    ensures var s' := DoRemember(s, c); Stuck(s', e) && s'.pointers == s.pointers
  {
    hide Stuck, Valid, At, LocalKeys;
    var pc := At(s, c);
    if pc.Holding? {
      StuckQuiet(s, DoRemember(s, c), c, if pc.share then Sharing(pc.key, pc.cfg) else Got(pc.key, pc.cfg), e);
    } else {
      StuckQuiet(s, DoRemember(s, c), c, if pc.share then SharingMeta(pc.event, pc.pointer) else Idle, e);
    }
  }

  lemma StuckShare(s: Sys, c: nat, e: EventId)
    requires Stuck(s, e) && (At(s, c).Sharing? || At(s, c).SharingMeta?)
    ensures var s' := DoShare(s, c); Stuck(s', e) && s'.pointers == s.pointers
  {
    hide Stuck, Valid, At;
    var pc := At(s, c);
    StuckQuiet(s, DoShare(s, c), c, if pc.Sharing? then Got(pc.key, pc.cfg) else Idle, e);
  }

  lemma StuckExpire(s: Sys, s': Sys, e: EventId)
    requires Stuck(s, e) && s'.clients == s.clients && s'.pointers == s.pointers && s'.configs == s.configs
    ensures Stuck(s', e)
  {
    hide Harmless;
    forall c: nat ensures At(s', c) == At(s, c) {}
  }

  lemma StuckDie(s: Sys, c: nat, e: EventId)
    requires Stuck(s, e)
    ensures var s' := DoDie(s, c); Stuck(s', e) && s'.pointers == s.pointers
  {
    hide Stuck, Valid, At;
    StuckQuiet(s, DoDie(s, c), c, if At(s, c).Moving? then Dead(At(s, c).event, At(s, c).version) else Idle, e);
  }

  /** No step of any request moves the pointer of a stuck event, or frees it. */
  lemma StuckStep(s: Sys, step: Step, e: EventId)
    requires Stuck(s, e) && Enabled(s, step)
    ensures var s' := Next(s, step); Stuck(s', e) && e in s.pointers && s'.pointers[e] == s.pointers[e]
  {
    hide Stuck, Valid, DoCreate, DoPutFirst, DoReadPointer, DoPutNext, DoMove, DoForget, DoRemember, DoShare, DoDie, At;
    StuckEvent(s, e);
    match step
    case Create(c, proc, event, cfg) => StuckCreate(s, c, proc, event, cfg, e);
    case PutFirst(c) => StuckPutFirst(s, c, e);
    case BeginPublish(c, proc, event, cfg) => StuckQuiet(s, Next(s, step), c, Publishing(proc, event, cfg, 0), e);
    case ReadPointer(c) => StuckReadPointer(s, c, e);
    case PutNext(c) => StuckPutNext(s, c, e);
    case Move(c) => StuckMove(s, c, e);
    case Forget(c) => StuckForget(s, c, e);
    case FetchLocal(c, proc, key) => StuckQuiet(s, Next(s, step), c, Got(key, s.local[(proc, key)]), e);
    case Fetch(c, proc, key) => StuckQuiet(s, Next(s, step), c, Holding(proc, key, s.configs[key], true), e);
    case FetchShared(c, proc, key) => StuckQuiet(s, Next(s, step), c, Holding(proc, key, s.kv[key], false), e);
    case Remember(c) => StuckRemember(s, c, e);
    case Share(c) => StuckShare(s, c, e);
    case StartRun(c, _) => StuckQuiet(s, Next(s, step), c, Idle, e);
    case SettleRun(c, _) => StuckQuiet(s, Next(s, step), c, Idle, e);
    case Drop(c) => StuckQuiet(s, Next(s, step), c, Idle, e);
    case FetchMeta(c, proc, event) => StuckQuiet(s, Next(s, step), c,
                   HoldingMeta(proc, event, s.pointers[event], true), e);
    case FetchSharedMeta(c, proc, event) => StuckQuiet(s, Next(s, step), c,
                         HoldingMeta(proc, event, s.metaKv[event], false), e);
    case Expire(_, _, _) => StuckExpire(s, Next(s, step), e);
    case Die(c) => StuckDie(s, c, e);
  }

  lemma {:induction false} StuckForever(s: Sys, e: EventId, states: seq<Sys>, steps: seq<Step>, n: nat)
    requires Stuck(s, e) && Continues(s, states, steps) && n < |states|
    ensures Stuck(states[n], e) && e in s.pointers && states[n].pointers[e] == s.pointers[e]
    decreases n
  {
    hide Enabled, Next, Stuck;
    StuckEvent(s, e);
    if n > 0 {
      StuckForever(s, e, states, steps, n - 1);
      StuckStep(states[n - 1], steps[n - 1], e);
    }
  }

  // ---- other events can move ----

  lemma Unused(s: Sys) returns (c: nat)
    ensures At(s, c).Idle?
  {
    c := Above(s.clients.Keys);
    assert c !in s.clients.Keys;
  }

  lemma {:induction false} Above(keys: set<nat>) returns (c: nat)
    ensures forall k :: k in keys ==> k < c
    decreases |keys|
  {
    if keys == {} {
      c := 0;
    } else {
      var k :| k in keys;
      var b := Above(keys - {k});
      c := if b > k then b else k + 1;
      forall k' | k' in keys ensures k' < c {
        assert k' == k || k' in keys - {k};
      }
    }
  }

  function AnyConfig(): EventConfig {
    EventConfig(1, 1.0, 1.0, 1, 7, 7, [1.0], 0.5, [Vault(10, Objectives(9, 0, 0), 0, Weights(1, 1, 1, 1, 1, 1))])
  }

  lemma AnyConfigIsValid()
    ensures Valid(AnyConfig())
  {
    var c := AnyConfig();
    assert ValidVault(c.vaults[0], c.w * c.h);
  }

  lemma MoveMoves(s: Sys, e: EventId, c: nat)
    requires e in s.pointers && At(s, c).Moving? && At(s, c).event == e && At(s, c).version != s.pointers[e]
    ensures CanMove(s, e)
  {
    hide Valid;
    assert MovesBy(s, e, [s, DoMove(s, c)], [Move(c)]);
  }

  /** One step, and then a continuation that moves the pointer. */
  lemma StepThenMoves(s: Sys, step: Step, e: EventId)
    requires e in s.pointers && Enabled(s, step) && e in Next(s, step).pointers
    requires Next(s, step).pointers[e] == s.pointers[e] && CanMove(Next(s, step), e)
    ensures CanMove(s, e)
  {
    hide Enabled, Next;
    var states, steps :| MovesBy(Next(s, step), e, states, steps);
    var states', steps' := [s] + states, [step] + steps;
    forall i | 0 <= i < |steps'|
      ensures Enabled(states'[i], steps'[i]) && states'[i + 1] == Next(states'[i], steps'[i])
    {
      if i > 0 {
        assert Enabled(states[i - 1], steps[i - 1]) && states[i] == Next(states[i - 1], steps[i - 1]);
      }
    }
    assert MovesBy(s, e, states', steps');
  }

  lemma PutMoves(s: Sys, e: EventId, c: nat)
    requires e in s.pointers && At(s, c).Allocating? && At(s, c).event == e
    requires (e, At(s, c).seen + 1) !in s.configs && At(s, c).seen + 1 != s.pointers[e]
    ensures CanMove(s, e)
  {
    hide Valid, CanMove;
    MoveMoves(DoPutNext(s, c), e, c);
    StepThenMoves(s, PutNext(c), e);
  }

  lemma FreeMoves(s: Sys, e: EventId)
    requires e in s.pointers && (e, s.pointers[e] + 1) !in s.configs
    ensures CanMove(s, e)
  {
    hide CanMove, Valid;
    var c := Unused(s);
    var cfg := AnyConfig();
    AnyConfigIsValid();
    var s1 := Next(s, BeginPublish(c, 0, e, cfg));
    var s2 := Next(s1, ReadPointer(c));
    PutMoves(s2, e, c);
    StepThenMoves(s1, ReadPointer(c), e);
    StepThenMoves(s, BeginPublish(c, 0, e, cfg), e);
  }

  /** From any state, whatever led to it, the pointer of an event can still move exactly
      when the event is not stuck. */
  lemma MovesUnlessStuck(s: Sys, e: EventId)
    requires e in s.pointers
    ensures CanMove(s, e) <==> !Stuck(s, e)
  {
    hide CanMove, Continues;
    if Stuck(s, e) {
      if CanMove(s, e) {
        CannotMove(s, e);
      }
    } else if (e, s.pointers[e] + 1) !in s.configs {
      FreeMoves(s, e);
    } else {
      var c: nat :| !Harmless(s.configs, e, s.pointers[e], At(s, c));
      if At(s, c).Moving? {
        MoveMoves(s, e, c);
      } else {
        PutMoves(s, e, c);
      }
    }
  }

  lemma CannotMove(s: Sys, e: EventId)
    requires Stuck(s, e) && e in s.pointers
    ensures !CanMove(s, e)
  {
    hide Stuck, Enabled, Next;
    forall states, steps ensures !MovesBy(s, e, states, steps) {
      if Continues(s, states, steps) {
        StuckForever(s, e, states, steps, |steps|);
      }
    }
  }

  // ---- a publisher that dies between its writes ----

  ghost predicate DeadBetween(s: Sys, c: nat, e: EventId) {
    At(s, c).Dead? && At(s, c).event == e
  }

  /** In every reachable state an event can get a new version exactly when no publisher of it
      has died after storing a version and before moving the pointer. */
  lemma DeadPublisherWedges(states: seq<Sys>, steps: seq<Step>, n: nat, e: EventId)
    requires Execution(states, steps) && n < |states| && e in states[n].pointers
    ensures CanMove(states[n], e) <==> forall c: nat :: !DeadBetween(states[n], c, e)
  {
    hide Execution, Inv, CanMove, Stuck, DeadBetween, Enabled, Next;
    ExecutionKeeps(states, steps, n);
    MovesUnlessStuck(states[n], e);
    StuckMeansDead(states[n], e);
  }

  lemma StuckMeansDead(s: Sys, e: EventId)
    requires Inv(s) && e in s.pointers
    ensures Stuck(s, e) <==> exists c: nat :: DeadBetween(s, c, e)
  {
    hide Valid, CachesOk;
    if Stuck(s, e) {
      assert Ahead(s, e) && HasOwner(s, e);
      var c: nat :| InGap(s, c, e);
      PcOf(s, c);
      HarmlessAt(s, c, e);
      assert DeadBetween(s, c, e);
    }
    if c: nat :| DeadBetween(s, c, e) {
      DeadIsStuck(s, c, e);
    }
  }

  lemma DeadIsStuck(s: Sys, c: nat, e: EventId)
    requires Inv(s) && e in s.pointers && DeadBetween(s, c, e)
    ensures Stuck(s, e)
  {
    hide Valid, CachesOk;
    PcOf(s, c);
    assert InGap(s, c, e);
    forall c': nat ensures Harmless(s.configs, e, s.pointers[e], At(s, c')) {
      PcOf(s, c');
      if c' != c {
        SoleOwner(s, c, c', e);
      }
    }
  }

  // ---- the distributor's header write ----

  /** The unconditional header write of a copy read earlier: it carries the pointer of that
      copy along. */
  ghost function WriteHeader(s: Sys, e: EventId, copied: int): Sys {
    s.(pointers := s.pointers[e := copied])
  }

  /** Such a write leaves every version rule intact exactly when nothing was published since
      the copy was read. With an older copy the pointer goes back, and the number beyond it
      is taken. */
  lemma HeaderWriteNeedsFreshCopy(s: Sys, e: EventId, copied: int)
    requires Inv(s) && e in s.pointers && 1 <= copied <= s.pointers[e]
    ensures var s' := WriteHeader(s, e, copied);
      (VersionsOk(s'.pointers, s'.configs) && OwnersOk(s')) <==> copied == s.pointers[e]
    ensures copied < s.pointers[e] ==> (e, copied + 1) in s.configs
  {
    hide Valid, CachesOk, PcOk;
    var s' := WriteHeader(s, e, copied);
    if copied == s.pointers[e] {
      assert s'.pointers == s.pointers;
    } else {
      assert (e, copied + 1) in s.configs;
      StaleHeader(s, e, copied);
    }
  }

  lemma StaleHeader(s: Sys, e: EventId, copied: int)
    requires Inv(s) && e in s.pointers && 1 <= copied < s.pointers[e]
    ensures var s' := WriteHeader(s, e, copied); !(VersionsOk(s'.pointers, s'.configs) && OwnersOk(s'))
  {
    hide Valid, CachesOk;
    var s' := WriteHeader(s, e, copied);
    assert (e, copied + 1) in s.configs;
    assert Ahead(s', e);
    if OwnersOk(s') && VersionsOk(s'.pointers, s'.configs) {
      var c: nat :| InGap(s', c, e);
      PcOf(s, c);
      assert false;
    }
  }

  /** A publisher that is past its read when the header is written back: it has stored the
      version beyond the true pointer, or will still find that number free. */
  ghost predicate Heals(s: Sys, c: nat, e: EventId) {
    var pc := At(s, c);
    (pc.Moving? && pc.event == e) || (pc.Allocating? && pc.event == e && (e, pc.seen + 1) !in s.configs)
  }

  /** After a stale header write the event is stuck at the old version for good, exactly
      unless such a publisher is under way. */
  lemma StaleHeaderWedges(s: Sys, e: EventId, copied: int)
    requires Inv(s) && e in s.pointers && 1 <= copied < s.pointers[e]
    ensures e in WriteHeader(s, e, copied).pointers
    ensures CanMove(WriteHeader(s, e, copied), e) <==> exists c: nat :: Heals(s, c, e)
  {
    hide CanMove, Inv, Valid, Stuck, Heals, VersionsOk;
    var s' := WriteHeader(s, e, copied);
    MovesUnlessStuck(s', e);
    HeaderWriteNeedsFreshCopy(s, e, copied);
    forall c: nat ensures Heals(s, c, e) <==> !Harmless(s'.configs, e, copied, At(s', c)) {
      PcOf(s, c);
      VersionsOf(s);
      HealsOrHarmless(s, c, e, copied);
    }
    StuckIs(s', e);
  }

  lemma StuckIs(s: Sys, e: EventId)
    ensures Stuck(s, e) <==>
      && e in s.pointers && (e, s.pointers[e] + 1) in s.configs
      && forall c: nat :: Harmless(s.configs, e, s.pointers[e], At(s, c))
  {}

  lemma HealsOrHarmless(s: Sys, c: nat, e: EventId, copied: int)
    requires PcOk(s, At(s, c)) && VersionsOk(s.pointers, s.configs) && e in s.pointers && 1 <= copied < s.pointers[e]
    ensures Heals(s, c, e) <==> !Harmless(s.configs, e, copied, At(s, c))
  {
    hide Valid;
  }

  /** A publisher already between its writes undoes the damage completely. */
  lemma MoveHeals(s: Sys, e: EventId, copied: int, c: nat)
    requires e in s.pointers && At(s, c).Moving? && At(s, c).event == e
    ensures At(WriteHeader(s, e, copied), c).Moving?
    ensures DoMove(WriteHeader(s, e, copied), c) == DoMove(s, c)
  {
    var v := At(s, c).version;
    assert s.pointers[e := copied][e := v] == s.pointers[e := v];
  }

  // ---- both happen ----

  const EVENT: EventId := "event"

  /** An event at version 1, and a publisher that has stored version 2. */
  ghost predicate InPrelude(s: Sys) {
    && s.pointers == map[EVENT := 1] && (EVENT, 2) in s.configs
    && At(s, 1) == Moving(0, EVENT, AnyConfig(), 2)
    && forall c: nat :: c != 1 ==> !At(s, c).Moving? && !At(s, c).Allocating?
  }

  /** The event has been created. */
  lemma EventCreated() returns (states: seq<Sys>, steps: seq<Step>)
    ensures Execution(states, steps) && |steps| == 2
    ensures var s := states[2];
      && s.pointers == map[EVENT := 1] && s.configs == map[(EVENT, 1) := AnyConfig()]
      && s.clients == map[0 := Holding(0, (EVENT, 1), AnyConfig(), false)]
  {
    hide Valid;
    AnyConfigIsValid();
    var cfg := AnyConfig();
    hide AnyConfig;
    steps := [Create(0, 0, EVENT, cfg), PutFirst(0)];
    var s0 := Sys(map[], map[], map[], map[], map[], map[], map[], map[]);
    var s1 := DoCreate(s0, 0, 0, EVENT, cfg);
    var s2 := DoPutFirst(s1, 0);
    states := [s0, s1, s2];
    assert Enabled(s0, steps[0]) && Enabled(s1, steps[1]);
  }

  lemma PublisherBegins() returns (states: seq<Sys>, steps: seq<Step>)
    ensures Execution(states, steps) && |steps| == 3
    ensures var s := states[3];
      && s.pointers == map[EVENT := 1] && s.configs == map[(EVENT, 1) := AnyConfig()]
      && s.clients == map[0 := Holding(0, (EVENT, 1), AnyConfig(), false)][1 := Publishing(0, EVENT, AnyConfig(), 0)]
  {
    hide Valid, Execution;
    AnyConfigIsValid();
    states, steps := EventCreated();
    hide AnyConfig;
    ExecutionLength(states, steps);
    var step := BeginPublish(1, 0, EVENT, AnyConfig());
    OneMoreStep(states, steps, step);
    states, steps := states + [Next(states[2], step)], steps + [step];
  }

  lemma PublisherBetweenWrites() returns (states: seq<Sys>, steps: seq<Step>)
    ensures Execution(states, steps) && |steps| == 5 && InPrelude(states[5])
  {
    hide Valid, Execution;
    AnyConfigIsValid();
    states, steps := PublisherBegins();
    hide AnyConfig;
    ExecutionLength(states, steps);
    var s3 := states[3];
    var s4 := Next(s3, ReadPointer(1));
    OneMoreStep(states, steps, ReadPointer(1));
    states, steps := states + [s4], steps + [ReadPointer(1)];
    var s5 := Next(s4, PutNext(1));
    OneMoreStep(states, steps, PutNext(1));
    states, steps := states + [s5], steps + [PutNext(1)];
  }

  lemma {:induction false} OneMoreStep(states: seq<Sys>, steps: seq<Step>, step: Step)
    requires Execution(states, steps) && Enabled(states[|steps|], step)
    ensures Execution(states + [Next(states[|steps|], step)], steps + [step])
  {
    hide Enabled, Next;
    var states', steps' := states + [Next(states[|steps|], step)], steps + [step];
    forall i | 0 <= i < |steps'|
      ensures Enabled(states'[i], steps'[i]) && states'[i + 1] == Next(states'[i], steps'[i])
    {
      if i < |steps| {
        assert Enabled(states[i], steps[i]) && states[i + 1] == Next(states[i], steps[i]);
      }
    }
  }

  /** A reachable state in which an event can never get another version. */
  lemma DeadPublisherHappens()
    ensures exists states: seq<Sys>, steps: seq<Step> ::
      Execution(states, steps) && EVENT in states[|steps|].pointers && !CanMove(states[|steps|], EVENT)
  {
    hide Execution, CanMove;
    var states, steps := PublisherBetweenWrites();
    ExecutionLength(states, steps);
    var s := states[5];
    OneMoreStep(states, steps, Die(1));
    var states', steps' := states + [DoDie(s, 1)], steps + [Die(1)];
    assert DeadBetween(states'[6], 1, EVENT);
    DeadPublisherWedges(states', steps', 6, EVENT);
    assert Execution(states', steps') && EVENT in states'[|steps'|].pointers && !CanMove(states'[|steps'|], EVENT);
  }

  lemma ExecutionLength(states: seq<Sys>, steps: seq<Step>)
    requires Execution(states, steps)
    ensures |states| == |steps| + 1
  {}

  /** A header copied in one reachable state and written back in a later one, with nothing
      else under way, takes the event back to a version from which it can never move. */
  lemma StaleCopyHappens()
    ensures exists states: seq<Sys>, steps: seq<Step>, m: nat :: m < |states| && StaleCopy(states, steps, m)
  {
    hide Execution, CanMove, Enabled, Next, Heals;
    var states, steps := PublisherBetweenWrites();
    ExecutionLength(states, steps);
    var s := states[5];
    PreludeMoves(s);
    OneMoreStep(states, steps, Move(1));
    var states', steps' := states + [Next(s, Move(1))], steps + [Move(1)];
    ExecutionKeeps(states', steps', 6);
    StaleHeaderWedges(states'[6], EVENT, 1);
    assert StaleCopy(states', steps', 5);
  }

  lemma PreludeMoves(s: Sys)
    requires InPrelude(s)
    ensures EVENT in s.pointers && s.pointers[EVENT] == 1
    ensures Enabled(s, Move(1)) && Next(s, Move(1)).pointers == map[EVENT := 2]
    ensures forall c: nat :: !Heals(Next(s, Move(1)), c, EVENT)
  {
    hide AnyConfig, Valid;
    var s' := Next(s, Move(1));
    forall c: nat ensures !Heals(s', c, EVENT) {
      if c != 1 {
        assert At(s', c) == At(s, c);
      }
    }
  }

  /** The copy is read in state `m` and written back in the last one. */
  ghost predicate StaleCopy(states: seq<Sys>, steps: seq<Step>, m: nat)
    requires m < |states|
  {
    && Execution(states, steps) && EVENT in states[m].pointers && EVENT in states[|steps|].pointers
    && states[m].pointers[EVENT] < states[|steps|].pointers[EVENT]
    && !CanMove(WriteHeader(states[|steps|], EVENT, states[m].pointers[EVENT]), EVENT)
  }
}

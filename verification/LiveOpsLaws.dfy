/** What every interleaving of creation, publishing and cached reading keeps
    (liveops/service.go). */
module LiveOpsLaws {
  import opened Config
  import opened LiveOps

  // ---- bystanders ----

  /** What a bystander needs besides the forward relation. */
  ghost predicate Undisturbed(s: Sys, s': Sys, pc: Pc) {
    && (pc.Creating? ==> (pc.event, 1) !in s'.configs)
    && ((pc.Moving? || pc.Dead?) && pc.event in s.pointers ==>
          pc.event in s'.pointers && s'.pointers[pc.event] == s.pointers[pc.event])
  }

  lemma PcStays(s: Sys, s': Sys, pc: Pc)
    requires PcOk(s, pc) && Forward(s, s') && Undisturbed(s, s', pc)
    ensures PcOk(s', pc)
  {
    hide Valid;
  }

  ghost predicate Pcs(s: Sys) {
    forall c: nat :: PcOk(s, At(s, c))
  }

  ghost predicate OthersSame(s: Sys, s': Sys, c: nat) {
    forall c': nat :: c' != c ==> At(s', c') == At(s, c')
  }

  ghost predicate OthersUndisturbed(s: Sys, s': Sys, c: nat) {
    forall c': nat :: c' != c ==> Undisturbed(s, s', At(s, c'))
  }

  ghost predicate SameCaches(s: Sys, s': Sys) {
    s'.kv == s.kv && s'.local == s.local && s'.metaKv == s.metaKv && s'.metaLocal == s.metaLocal
  }

  lemma PcsStay(s: Sys, s': Sys, c: nat)
    requires Pcs(s) && Forward(s, s') && PcOk(s', At(s', c)) && OthersSame(s, s', c) && OthersUndisturbed(s, s', c)
    ensures Pcs(s')
  {
    hide PcOk, Forward, At, Undisturbed;
    forall c': nat ensures PcOk(s', At(s', c')) {
      if c' != c {
        assert PcOk(s, At(s, c')) && Undisturbed(s, s', At(s, c'));
        PcStays(s, s', At(s, c'));
      }
    }
  }

  lemma CachesStay(s: Sys, s': Sys)
    requires CachesOk(s) && Forward(s, s') && SameCaches(s, s')
    ensures CachesOk(s')
  {}

  /** Putting the parts together. */
  lemma Assemble(s: Sys, s': Sys, c: nat)
    requires Inv(s) && Forward(s, s') && VersionsOk(s'.pointers, s'.configs) && OwnersOk(s') && CachesOk(s')
    requires PcOk(s', At(s', c)) && OthersSame(s, s', c) && OthersUndisturbed(s, s', c)
    ensures Inv(s')
  {
    hide Forward, VersionsOk, OwnersOk, CachesOk, PcOk, At, OthersSame, OthersUndisturbed;
    PcsStay(s, s', c);
  }

  lemma PcOf(s: Sys, c: nat)
    requires Inv(s)
    ensures PcOk(s, At(s, c))
  {}

  // ---- who is between the two writes ----

  /** Apart from event `event`, the gaps are as they were; request `c` may enter or leave
      that one only. */
  lemma OwnersElsewhere(s: Sys, s': Sys, c: nat, event: EventId)
    requires OwnersOk(s) && OthersSame(s, s', c)
    requires forall e :: e != event && Ahead(s', e) ==> Ahead(s, e)
    requires forall e :: e != event ==> (InGap(s', c, e) <==> InGap(s, c, e))
    requires Ahead(s', event) ==> HasOwner(s', event)
    requires forall c': nat, c'': nat :: InGap(s', c', event) && InGap(s', c'', event) ==> c' == c''
    requires forall c': nat, c'': nat, e :: Creates(s', c', e) && Creates(s', c'', e) ==> c' == c''
    ensures OwnersOk(s')
  {
    hide At, Ahead, OthersSame;
    forall c': nat, e | e != event ensures InGap(s', c', e) <==> InGap(s, c', e) {
      if c' != c { SamePc(s, s', c, c'); OtherGap(s, s', c', e); }
    }
    forall e | e != event && Ahead(s', e) ensures HasOwner(s', e) {
      assert HasOwner(s, e);
      var c': nat :| InGap(s, c', e);
      assert InGap(s', c', e);
    }
  }

  lemma SamePc(s: Sys, s': Sys, c: nat, c': nat)
    requires OthersSame(s, s', c) && c' != c
    ensures At(s', c') == At(s, c')
  {}

  lemma OtherGap(s: Sys, s': Sys, c: nat, e: EventId)
    requires At(s', c) == At(s, c)
    ensures InGap(s', c, e) <==> InGap(s, c, e)
    ensures Creates(s', c, e) <==> Creates(s, c, e)
  {}

  /** A step that neither enters nor leaves a gap. */
  lemma OwnersStay(s: Sys, s': Sys, c: nat)
    requires OwnersOk(s) && OthersSame(s, s', c)
    requires forall e :: Ahead(s', e) ==> Ahead(s, e)
    requires forall e :: InGap(s', c, e) <==> InGap(s, c, e)
    requires !At(s', c).Creating?
    ensures OwnersOk(s')
  {
    hide At, Ahead, OthersSame;
    forall c': nat, e ensures (InGap(s', c', e) <==> InGap(s, c', e)) && (Creates(s', c', e) ==> Creates(s, c', e)) {
      if c' != c { SamePc(s, s', c, c'); OtherGap(s, s', c', e); }
    }
    forall e | Ahead(s', e) ensures HasOwner(s', e) {
      assert HasOwner(s, e);
      var c': nat :| InGap(s, c', e);
      assert InGap(s', c', e);
    }
  }

  // ---- steps that touch neither headers nor configurations ----

  lemma QuietKeeps(s: Sys, s': Sys, c: nat)
    requires Inv(s) && s'.pointers == s.pointers && s'.configs == s.configs && CachesOk(s')
    requires OthersSame(s, s', c) && PcOk(s', At(s', c)) && !At(s', c).Creating?
    requires forall e :: InGap(s', c, e) <==> InGap(s, c, e)
    ensures Inv(s') && Forward(s, s')
  {
    hide OwnersOk, CachesOk, PcOk, At, Valid, OthersSame, InGap;
    assert Forward(s, s');
    forall c': nat ensures Undisturbed(s, s', At(s, c')) {
      PcOf(s, c');
      CreatingFresh(s, At(s, c'));
    }
    OwnersStay(s, s', c);
    Assemble(s, s', c);
  }

  lemma CreatingFresh(s: Sys, pc: Pc)
    requires PcOk(s, pc)
    ensures pc.Creating? ==> (pc.event, 1) !in s.configs
  {}

  lemma CachesOf(s: Sys)
    requires Inv(s)
    ensures CachesOk(s)
  {}

  lemma VersionsOf(s: Sys)
    requires Inv(s)
    ensures VersionsOk(s.pointers, s.configs)
  {}

  lemma OwnersOf(s: Sys)
    requires Inv(s)
    ensures OwnersOk(s)
  {}

  /** A request goes on to `pc`, neither entering nor leaving a gap. */
  lemma QuietBecome(s: Sys, s': Sys, c: nat, pc: Pc)
    requires Inv(s) && s'.pointers == s.pointers && s'.configs == s.configs && s'.clients == s.clients[c := pc]
    requires CachesOk(s')
    requires PcOk(s, pc) && !pc.Creating? && !pc.Moving? && !pc.Dead? && !At(s, c).Moving? && !At(s, c).Dead?
    ensures Inv(s') && Forward(s, s')
  {
    hide Inv, Valid, Forward, CachesOk;
    PcSame(s, s', pc);
    QuietKeeps(s, s', c);
  }

  lemma ForgetStep(s: Sys, c: nat)
    requires Inv(s) && At(s, c).Forgetting?
    ensures Inv(DoForget(s, c)) && Forward(s, DoForget(s, c))
  {
    hide Inv, Valid, Forward, SharedOk, LocalOk, SharedMetaOk, LocalMetaOk;
    PcOf(s, c);
    CachesOf(s);
    var pc := At(s, c);
    FewerShared(s.pointers, s.metaKv, {pc.key.0});
    FewerLocal(s.pointers, s.metaLocal, {(pc.proc, pc.key.0)});
    QuietBecome(s, DoForget(s, c), c,
                if pc.localDone then Holding(pc.proc, pc.key, pc.cfg, false) else pc.(localDone := true));
  }

  lemma FewerShared(pointers: map<EventId, int>, metaKv: map<EventId, int>, gone: set<EventId>)
    requires SharedMetaOk(pointers, metaKv)
    ensures SharedMetaOk(pointers, metaKv - gone)
  {}

  lemma FewerLocal(pointers: map<EventId, int>, metaLocal: map<(nat, EventId), int>, gone: set<(nat, EventId)>)
    requires LocalMetaOk(pointers, metaLocal)
    ensures LocalMetaOk(pointers, metaLocal - gone)
  {}

  lemma FewerConfigs(configs: map<VersionKey, EventConfig>, local: map<(nat, VersionKey), EventConfig>,
          gone: set<(nat, VersionKey)>)
    requires LocalOk(configs, local)
    ensures LocalOk(configs, local - gone)
  {}

  lemma OneMoreConfig(configs: map<VersionKey, EventConfig>, local: map<(nat, VersionKey), EventConfig>, proc: nat,
          key: VersionKey, cfg: EventConfig)
    requires LocalOk(configs, local) && key in configs && configs[key] == cfg
    ensures LocalOk(configs, local[(proc, key) := cfg])
  {}

  lemma OneMoreMeta(pointers: map<EventId, int>, metaLocal: map<(nat, EventId), int>, proc: nat, event: EventId, p: int)
    requires LocalMetaOk(pointers, metaLocal) && event in pointers && 1 <= p <= pointers[event]
    ensures LocalMetaOk(pointers, metaLocal[(proc, event) := p])
  {}

  /** The process's cache with one more entry, emptied first when it has grown too large. */
  ghost function Enlarged(s: Sys, proc: nat, key: VersionKey, cfg: EventConfig): map<(nat, VersionKey), EventConfig> {
    (if |LocalKeys(s, proc)| > MAX_LOCAL_CONFIGS then s.local - LocalKeys(s, proc) else s.local)[(proc, key) := cfg]
  }

  lemma EnlargedOk(s: Sys, proc: nat, key: VersionKey, cfg: EventConfig)
    requires LocalOk(s.configs, s.local) && key in s.configs && s.configs[key] == cfg
    ensures LocalOk(s.configs, Enlarged(s, proc, key, cfg))
  {
    hide LocalKeys, LocalOk;
    FewerConfigs(s.configs, s.local, LocalKeys(s, proc));
    var local := if |LocalKeys(s, proc)| > MAX_LOCAL_CONFIGS then s.local - LocalKeys(s, proc) else s.local;
    OneMoreConfig(s.configs, local, proc, key, cfg);
  }

  lemma RememberStep(s: Sys, c: nat)
    requires Inv(s) && At(s, c).Holding?
    ensures Inv(DoRemember(s, c)) && Forward(s, DoRemember(s, c))
  {
    hide Inv, Valid, Forward, LocalKeys, SharedOk, LocalOk, SharedMetaOk, LocalMetaOk;
    PcOf(s, c);
    CachesOf(s);
    var pc := At(s, c);
    EnlargedOk(s, pc.proc, pc.key, pc.cfg);
    var s' := DoRemember(s, c);
    assert s'.local == Enlarged(s, pc.proc, pc.key, pc.cfg);
    hide Enlarged;
    QuietBecome(s, s', c, if pc.share then Sharing(pc.key, pc.cfg) else Got(pc.key, pc.cfg));
  }

  lemma RememberMetaStep(s: Sys, c: nat)
    requires Inv(s) && At(s, c).HoldingMeta?
    ensures Inv(DoRemember(s, c)) && Forward(s, DoRemember(s, c))
  {
    hide Inv, Valid, Forward, LocalKeys, SharedOk, LocalOk, SharedMetaOk, LocalMetaOk;
    PcOf(s, c);
    CachesOf(s);
    var pc := At(s, c);
    OneMoreMeta(s.pointers, s.metaLocal, pc.proc, pc.event, pc.pointer);
    QuietBecome(s, DoRemember(s, c), c, if pc.share then SharingMeta(pc.event, pc.pointer) else Idle);
  }

  lemma ShareStep(s: Sys, c: nat)
    requires Inv(s) && (At(s, c).Sharing? || At(s, c).SharingMeta?)
    ensures Inv(DoShare(s, c)) && Forward(s, DoShare(s, c))
  {
    hide Inv, Valid, Forward;
    PcOf(s, c);
    CachesOf(s);
    QuietKeeps(s, DoShare(s, c), c);
  }

  /** A request that only takes up new work. */
  lemma BecomeStep(s: Sys, c: nat, pc: Pc)
    requires Inv(s) && PcOk(s, pc) && !pc.Creating? && !pc.Moving? && !pc.Dead? && !At(s, c).Moving? && !At(s, c).Dead?
    ensures Inv(Become(s, c, pc)) && Forward(s, Become(s, c, pc))
  {
    hide Inv, Valid, Forward, CachesOk;
    var s' := Become(s, c, pc);
    CachesOf(s);
    SameCachesOk(s, s');
    PcSame(s, s', pc);
    QuietKeeps(s, s', c);
  }

  lemma SameCachesOk(s: Sys, s': Sys)
    requires CachesOk(s) && SameCaches(s, s') && s'.pointers == s.pointers && s'.configs == s.configs
    ensures CachesOk(s')
  {}

  lemma PcSame(s: Sys, s': Sys, pc: Pc)
    requires PcOk(s, pc) && s'.pointers == s.pointers && s'.configs == s.configs
    ensures PcOk(s', pc)
  {}

  lemma DieStep(s: Sys, c: nat)
    requires Inv(s) && !At(s, c).Dead?
    ensures Inv(DoDie(s, c)) && Forward(s, DoDie(s, c))
  {
    hide Inv, Valid, Forward, CachesOk;
    var s' := DoDie(s, c);
    PcOf(s, c);
    CachesOf(s);
    SameCachesOk(s, s');
    QuietKeeps(s, s', c);
  }

  lemma ExpireStep(s: Sys, keys: set<VersionKey>, events: set<EventId>, locals: set<(nat, EventId)>, c: nat)
    requires Inv(s)
    ensures var s' := s.(kv := s.kv - keys, metaKv := s.metaKv - events, metaLocal := s.metaLocal - locals);
      Inv(s') && Forward(s, s')
  {
    hide VersionsOk, Valid, PcOk;
    var s' := s.(kv := s.kv - keys, metaKv := s.metaKv - events, metaLocal := s.metaLocal - locals);
    forall c: nat ensures PcOk(s', At(s', c)) {
      PcOf(s, c);
      PcSame(s, s', At(s, c));
    }
    OwnersSame(s, s');
  }

  lemma OwnersSame(s: Sys, s': Sys)
    requires OwnersOk(s) && s'.clients == s.clients && s'.pointers == s.pointers && s'.configs == s.configs
    ensures OwnersOk(s')
  {
    forall c: nat, e ensures (InGap(s', c, e) <==> InGap(s, c, e)) && (Creates(s', c, e) <==> Creates(s, c, e)) {}
    forall e | Ahead(s', e) ensures HasOwner(s', e) {
      assert Ahead(s, e) && HasOwner(s, e);
    }
  }

  // ---- the four writes ----

  lemma AddEvent(p: map<EventId, int>, g: map<VersionKey, EventConfig>, e: EventId)
    requires VersionsOk(p, g) && e !in p
    ensures VersionsOk(p[e := 1], g) && (e, 2) !in g
  {
    hide Valid;
  }

  lemma AddFirst(p: map<EventId, int>, g: map<VersionKey, EventConfig>, e: EventId, cfg: EventConfig)
    requires VersionsOk(p, g) && e in p && Valid(cfg)
    ensures VersionsOk(p, g[(e, 1) := cfg])
  {
    hide Valid;
  }

  lemma AddNext(p: map<EventId, int>, g: map<VersionKey, EventConfig>, e: EventId, cfg: EventConfig)
    requires VersionsOk(p, g) && e in p && Valid(cfg)
    ensures VersionsOk(p, g[(e, p[e] + 1) := cfg])
  {
    hide Valid;
  }

  lemma MovePointer(p: map<EventId, int>, g: map<VersionKey, EventConfig>, e: EventId)
    requires VersionsOk(p, g) && e in p && (e, p[e] + 1) in g
    ensures VersionsOk(p[e := p[e] + 1], g) && (e, p[e] + 2) !in g
  {
    hide Valid;
  }

  lemma CreateStep(s: Sys, c: nat, proc: nat, event: EventId, cfg: EventConfig)
    requires Inv(s) && At(s, c).Idle? && Valid(cfg) && event !in s.pointers
    ensures var s' := DoCreate(s, c, proc, event, cfg); Inv(s') && Forward(s, s')
  {
    hide Inv, Valid, CachesOk, VersionsOk, OwnersOk;
    var s' := DoCreate(s, c, proc, event, cfg);
    VersionsOf(s);
    AddEvent(s.pointers, s.configs, event);
    NoVersionYet(s.pointers, s.configs, event);
    CachesOf(s);
    CachesStay(s, s');
    forall c': nat | c' != c ensures Undisturbed(s, s', At(s, c')) {
      PcOf(s, c');
    }
    CreateOwners(s, s', c, event);
    Assemble(s, s', c);
  }

  lemma NoVersionYet(p: map<EventId, int>, g: map<VersionKey, EventConfig>, e: EventId)
    requires VersionsOk(p, g) && e !in p
    ensures forall v :: (e, v) !in g
  {
    hide Valid;
  }

  lemma CreateOwners(s: Sys, s': Sys, c: nat, event: EventId)
    requires Inv(s) && event !in s.pointers && At(s, c).Idle? && OthersSame(s, s', c)
    requires At(s', c).Creating? && At(s', c).event == event && s'.pointers == s.pointers[event := 1]
    requires s'.configs == s.configs
    requires (event, 2) !in s.configs
    ensures OwnersOk(s')
  {
    hide Inv, Valid, VersionsOk, OthersSame;
    OwnersOf(s);
    forall c': nat, e | c' != c
      ensures (InGap(s', c', e) <==> InGap(s, c', e)) && (Creates(s', c', e) <==> Creates(s, c', e))
    {
      SamePc(s, s', c, c');
      OtherGap(s, s', c', e);
    }
    forall c': nat ensures !InGap(s, c', event) && !Creates(s, c', event) {
      PcOf(s, c');
    }
    OwnersElsewhere(s, s', c, event);
  }

  lemma PutFirstStep(s: Sys, c: nat)
    requires Inv(s) && At(s, c).Creating?
    ensures var s' := DoPutFirst(s, c); Inv(s') && Forward(s, s')
  {
    hide Inv, Valid, CachesOk, VersionsOk, OwnersOk;
    PcOf(s, c);
    var pc := At(s, c);
    var s' := DoPutFirst(s, c);
    VersionsOf(s);
    AddFirst(s.pointers, s.configs, pc.event, pc.cfg);
    CachesOf(s);
    CachesStay(s, s');
    OwnersOf(s);
    forall c': nat | c' != c ensures Undisturbed(s, s', At(s, c')) {
      PcOf(s, c');
      SoleCreator(s, c, c', pc.event);
    }
    PointerPositive(s.pointers, s.configs);
    OwnersStay(s, s', c);
    Assemble(s, s', c);
  }

  lemma PointerPositive(p: map<EventId, int>, g: map<VersionKey, EventConfig>)
    requires VersionsOk(p, g)
    ensures forall e :: e in p ==> p[e] >= 1
  {}

  lemma SoleCreator(s: Sys, c: nat, c': nat, event: EventId)
    requires OwnersOk(s) && Creates(s, c, event) && c' != c
    ensures !Creates(s, c', event)
  {}

  /** A publisher finds its number free only if the pointer has not moved since it read it
      and nobody is between the two writes. */
  lemma FreeMeansNext(p: map<EventId, int>, g: map<VersionKey, EventConfig>, e: EventId, seen: int)
    requires VersionsOk(p, g) && e in p && 1 <= seen <= p[e] && (e, seen + 1) !in g
    ensures seen == p[e]
  {
    hide Valid;
  }

  lemma PutNextStep(s: Sys, c: nat)
    requires Inv(s) && At(s, c).Allocating?
    ensures var s' := DoPutNext(s, c); Inv(s') && Forward(s, s')
  {
    hide Inv, Valid, VersionsOk, Forward;
    PcOf(s, c);
    VersionsOf(s);
    var pc := At(s, c);
    if (pc.event, pc.seen + 1) in s.configs {
      BecomeStep(s, c, if pc.attempt + 1 < MAX_PUBLISH_ATTEMPTS then Publishing(pc.proc, pc.event, pc.cfg,
            pc.attempt + 1) else Idle);
    } else {
      FreeMeansNext(s.pointers, s.configs, pc.event, pc.seen);
      PutFreeStep(s, c);
    }
  }

  lemma PutFreeStep(s: Sys, c: nat)
    requires Inv(s) && At(s, c).Allocating? && PcOk(s, At(s, c))
    requires At(s, c).seen == s.pointers[At(s, c).event] && (At(s, c).event, At(s, c).seen + 1) !in s.configs
    ensures var s' := DoPutNext(s, c); Inv(s') && Forward(s, s')
  {
    hide Inv, Valid, CachesOk, VersionsOk, OwnersOk;
    var pc := At(s, c);
    var s' := DoPutNext(s, c);
    VersionsOf(s);
    AddNext(s.pointers, s.configs, pc.event, pc.cfg);
    CachesOf(s);
    CachesStay(s, s');
    OwnersOf(s);
    PointerPositive(s.pointers, s.configs);
    forall c': nat | c' != c ensures Undisturbed(s, s', At(s, c')) {
      PcOf(s, c');
    }
    FreeOwners(s, s', c, pc.event);
    Assemble(s, s', c);
  }

  lemma FreeOwners(s: Sys, s': Sys, c: nat, event: EventId)
    requires Inv(s) && At(s, c).Allocating? && OthersSame(s, s', c) && event in s.pointers
    requires At(s', c).Moving? && At(s', c).event == event && s'.pointers == s.pointers
    requires (event, s.pointers[event] + 1) !in s.configs
    requires forall e, v :: e != event ==> ((e, v) in s'.configs <==> (e, v) in s.configs)
    ensures OwnersOk(s')
  {
    hide Inv, Valid, VersionsOk, OthersSame;
    OwnersOf(s);
    forall c': nat, e | c' != c
      ensures (InGap(s', c', e) <==> InGap(s, c', e)) && (Creates(s', c', e) <==> Creates(s, c', e))
    {
      SamePc(s, s', c, c');
      OtherGap(s, s', c', e);
    }
    forall c': nat ensures !InGap(s, c', event) {
      PcOf(s, c');
    }
    assert InGap(s', c, event);
    OwnersElsewhere(s, s', c, event);
  }

  lemma MoveStep(s: Sys, c: nat)
    requires Inv(s) && At(s, c).Moving?
    ensures var s' := DoMove(s, c); Inv(s') && Forward(s, s')
  {
    hide Inv, Valid, CachesOk, VersionsOk, OwnersOk;
    PcOf(s, c);
    var pc := At(s, c);
    var s' := DoMove(s, c);
    VersionsOf(s);
    MovePointer(s.pointers, s.configs, pc.event);
    CachesOf(s);
    CachesStay(s, s');
    OwnersOf(s);
    forall c': nat | c' != c ensures Undisturbed(s, s', At(s, c')) {
      PcOf(s, c');
      SoleOwner(s, c, c', pc.event);
    }
    MoveOwners(s, s', c, pc.event);
    Assemble(s, s', c);
  }

  lemma SoleOwner(s: Sys, c: nat, c': nat, event: EventId)
    requires OwnersOk(s) && InGap(s, c, event) && c' != c
    ensures !InGap(s, c', event)
  {}

  lemma MoveOwners(s: Sys, s': Sys, c: nat, event: EventId)
    requires Inv(s) && InGap(s, c, event) && OthersSame(s, s', c) && event in s.pointers
    requires At(s', c).Forgetting? && s'.pointers == s.pointers[event := s.pointers[event] + 1]
    requires s'.configs == s.configs
    requires (event, s.pointers[event] + 2) !in s.configs
    ensures OwnersOk(s')
  {
    hide Inv, Valid, VersionsOk, OthersSame;
    OwnersOf(s);
    forall c': nat, e | c' != c
      ensures (InGap(s', c', e) <==> InGap(s, c', e)) && (Creates(s', c', e) <==> Creates(s, c', e))
    {
      SamePc(s, s', c, c');
      OtherGap(s, s', c', e);
    }
    OwnersElsewhere(s, s', c, event);
  }

  // ---- every interleaving ----

  lemma StepKeeps(s: Sys, step: Step)
    requires Inv(s) && Enabled(s, step)
    ensures Inv(Next(s, step)) && Forward(s, Next(s, step))
  {
    hide Inv, Valid, Forward, DoCreate, DoPutFirst, DoReadPointer, DoPutNext, DoMove, DoForget, DoRemember, DoShare,
         DoDie, Become;
    match step
    case Create(c, proc, event, cfg) =>
      if event !in s.pointers { CreateStep(s, c, proc, event, cfg); } else { CreateFails(s, c, proc, event, cfg); }
    case PutFirst(c) => PutFirstStep(s, c);
    case BeginPublish(c, proc, event, cfg) => BecomeStep(s, c, Publishing(proc, event, cfg, 0));
    case ReadPointer(c) => ReadPointerStep(s, c);
    case PutNext(c) => PutNextStep(s, c);
    case Move(c) => MoveStep(s, c);
    case Forget(c) => ForgetStep(s, c);
    case FetchLocal(c, proc, key) => FetchLocalStep(s, c, proc, key);
    case Fetch(c, proc, key) => BecomeStep(s, c, Holding(proc, key, s.configs[key], true));
    case FetchShared(c, proc, key) => FetchSharedStep(s, c, proc, key);
    case Remember(c) => if At(s, c).Holding? { RememberStep(s, c); } else { RememberMetaStep(s, c); }
    case Share(c) => ShareStep(s, c);
    case StartRun(c, run) => RunStep(s, DoStartRun(s, c, run), c);
    case SettleRun(c, run) => RunStep(s, DoSettleRun(s, c, run), c);
    case Drop(c) => BecomeStep(s, c, Idle);
    case FetchMeta(c, proc, event) => FetchMetaStep(s, c, proc, event);
    case FetchSharedMeta(c, proc, event) => FetchSharedMetaStep(s, c, proc, event);
    case Expire(keys, events, locals) => ExpireStep(s, keys, events, locals, 0);
    case Die(c) => DieStep(s, c);
  }

  lemma CreateFails(s: Sys, c: nat, proc: nat, event: EventId, cfg: EventConfig)
    requires event in s.pointers
    ensures DoCreate(s, c, proc, event, cfg) == s && Forward(s, s)
  {}

  lemma ReadPointerStep(s: Sys, c: nat)
    requires Inv(s) && At(s, c).Publishing?
    ensures Inv(DoReadPointer(s, c)) && Forward(s, DoReadPointer(s, c))
  {
    hide Inv, Valid, Forward, VersionsOk;
    PcOf(s, c);
    VersionsOf(s);
    PointerPositive(s.pointers, s.configs);
    var pc := At(s, c);
    BecomeStep(s, c, if pc.event in s.pointers then Allocating(pc.proc, pc.event, pc.cfg, pc.attempt,
          s.pointers[pc.event]) else Idle);
  }

  lemma FetchLocalStep(s: Sys, c: nat, proc: nat, key: VersionKey)
    requires Inv(s) && At(s, c).Idle? && (proc, key) in s.local
    ensures var s' := Become(s, c, Got(key, s.local[(proc, key)])); Inv(s') && Forward(s, s')
  {
    hide Inv, Valid, Forward;
    CachesOf(s);
    BecomeStep(s, c, Got(key, s.local[(proc, key)]));
  }

  /** A step that only records something about a run. */
  lemma RunStep(s: Sys, s': Sys, c: nat)
    requires Inv(s) && At(s, c).Got? && s' == Become(s, c, Idle).(runs := s'.runs)
    ensures Inv(s') && Forward(s, s')
  {
    hide Inv, Valid, Forward, CachesOk;
    CachesOf(s);
    SameCachesOk(s, s');
    QuietKeeps(s, s', c);
  }

  lemma FetchSharedStep(s: Sys, c: nat, proc: nat, key: VersionKey)
    requires Inv(s) && At(s, c).Idle? && key in s.kv
    ensures var s' := Become(s, c, Holding(proc, key, s.kv[key], false)); Inv(s') && Forward(s, s')
  {
    hide Inv, Valid, Forward;
    CachesOf(s);
    BecomeStep(s, c, Holding(proc, key, s.kv[key], false));
  }

  lemma FetchMetaStep(s: Sys, c: nat, proc: nat, event: EventId)
    requires Inv(s) && At(s, c).Idle? && event in s.pointers
    ensures var s' := Become(s, c, HoldingMeta(proc, event, s.pointers[event], true)); Inv(s') && Forward(s, s')
  {
    hide Inv, Valid, Forward, VersionsOk;
    VersionsOf(s);
    PointerPositive(s.pointers, s.configs);
    BecomeStep(s, c, HoldingMeta(proc, event, s.pointers[event], true));
  }

  lemma FetchSharedMetaStep(s: Sys, c: nat, proc: nat, event: EventId)
    requires Inv(s) && At(s, c).Idle? && event in s.metaKv
    ensures var s' := Become(s, c, HoldingMeta(proc, event, s.metaKv[event], false)); Inv(s') && Forward(s, s')
  {
    hide Inv, Valid, Forward;
    CachesOf(s);
    BecomeStep(s, c, HoldingMeta(proc, event, s.metaKv[event], false));
  }

  lemma {:induction false} ExecutionKeeps(states: seq<Sys>, steps: seq<Step>, n: nat)
    requires Execution(states, steps) && n < |states|
    ensures Inv(states[n])
    decreases n
  {
    hide Enabled, Next, Inv;
    if n == 0 {
      StartKeeps(states[0]);
    } else {
      ExecutionKeeps(states, steps, n - 1);
      StepKeeps(states[n - 1], steps[n - 1]);
    }
  }

  lemma StartKeeps(s: Sys)
    requires Init(s)
    ensures Inv(s)
  {
    forall c: nat, e ensures PcOk(s, At(s, c)) && !InGap(s, c, e) && !Creates(s, c, e) {}
  }

  lemma {:induction false} ExecutionForward(states: seq<Sys>, steps: seq<Step>, m: nat, n: nat)
    requires Execution(states, steps) && m <= n < |states|
    ensures Forward(states[m], states[n])
    decreases n
  {
    hide Enabled, Next, Inv;
    if m < n {
      ExecutionForward(states, steps, m, n - 1);
      ExecutionKeeps(states, steps, n - 1);
      StepKeeps(states[n - 1], steps[n - 1]);
    }
  }

  // ---- the theorems ----

  /** In every reachable state the versions from 2 to the pointer all exist, nothing exists
      beyond the one after the pointer, and that one exists exactly while one request, and
      only one, is between storing it and moving the pointer. */
  lemma VersionsAreGapless(states: seq<Sys>, steps: seq<Step>, n: nat, e: EventId)
    requires Execution(states, steps) && n < |states| && e in states[n].pointers
    ensures var s := states[n]; var cv := s.pointers[e];
      && cv >= 1
      && (forall v :: 2 <= v <= cv ==> (e, v) in s.configs)
      && (forall v :: v > cv + 1 || v < 1 ==> (e, v) !in s.configs)
      && ((e, cv + 1) in s.configs <==> HasOwner(s, e))
      && (forall c: nat, c': nat :: InGap(s, c, e) && InGap(s, c', e) ==> c == c')
  {
    hide Execution, Valid, CachesOk;
    ExecutionKeeps(states, steps, n);
    var s := states[n];
    if HasOwner(s, e) {
      var c: nat :| InGap(s, c, e);
      PcOf(s, c);
    }
    if (e, s.pointers[e] + 1) in s.configs {
      assert Ahead(s, e);
    }
  }

  /** Stored versions are never changed, whatever is published later, and pointers never go
      back. */
  lemma VersionsAreImmutable(states: seq<Sys>, steps: seq<Step>, m: nat, n: nat, k: VersionKey)
    requires Execution(states, steps) && m <= n < |states| && k in states[m].configs
    ensures k in states[n].configs && states[n].configs[k] == states[m].configs[k] && Valid(states[m].configs[k])
    ensures k.0 in states[m].pointers && k.0 in states[n].pointers && states[m].pointers[k.0] <= states[n].pointers[k.0]
  {
    hide Execution, Valid, CachesOk, OwnersOk;
    ExecutionForward(states, steps, m, n);
    ExecutionKeeps(states, steps, m);
  }

  /** Whatever a request has in hand or finds in a cache is the stored version. */
  lemma CachesAgree(states: seq<Sys>, steps: seq<Step>, n: nat, k: VersionKey)
    requires Execution(states, steps) && n < |states|
    ensures var s := states[n];
      && (k in s.kv ==> k in s.configs && s.kv[k] == s.configs[k])
      && (forall proc: nat :: (proc, k) in s.local ==> k in s.configs && s.local[(proc, k)] == s.configs[k])
      && (forall c: nat :: At(s, c).Holding? && At(s, c).key == k ==> k in s.configs && At(s, c).cfg == s.configs[k])
  {
    hide Execution, Valid, VersionsOk, OwnersOk;
    ExecutionKeeps(states, steps, n);
    var s := states[n];
    forall c: nat | At(s, c).Holding? && At(s, c).key == k ensures k in s.configs && At(s, c).cfg == s.configs[k] {
      PcOf(s, c);
    }
  }

  // ---- runs keep their configuration ----

  /** A run's version is stored, and is the one it was started with and settled against. */
  ghost predicate PinsOk(s: Sys) {
    forall r :: r in s.runs ==> PinOk(s.configs, s.runs[r])
  }

  ghost predicate PinOk(configs: map<VersionKey, EventConfig>, run: PinnedRun) {
    && run.key in configs && run.started == configs[run.key]
    && (run.settled.Some? ==> run.settled.value == configs[run.key])
  }

  lemma PinsStep(s: Sys, step: Step)
    requires Inv(s) && PinsOk(s) && Enabled(s, step)
    ensures PinsOk(Next(s, step))
  {
    hide Inv, Valid, PinOk, Next, Enabled;
    StepKeeps(s, step);
    var s' := Next(s, step);
    assert Forward(s, s');
    forall r | r in s'.runs ensures PinOk(s'.configs, s'.runs[r]) {
      if step.StartRun? || step.SettleRun? {
        PcOf(s, step.c);
        PinStep(s, step, r);
      } else {
        RunsUntouched(s, step);
        PinStays(s.configs, s'.configs, s.runs[r]);
      }
    }
  }

  lemma PinStays(configs: map<VersionKey, EventConfig>, configs': map<VersionKey, EventConfig>, run: PinnedRun)
    requires PinOk(configs, run) && forall k :: k in configs ==> k in configs' && configs'[k] == configs[k]
    ensures PinOk(configs', run)
  {}

  lemma PinStep(s: Sys, step: Step, r: string)
    requires (step.StartRun? || step.SettleRun?) && Enabled(s, step) && PcOk(s, At(s, step.c)) && PinsOk(s)
    requires r in Next(s, step).runs
    ensures PinOk(Next(s, step).configs, Next(s, step).runs[r])
  {}

  lemma RunsUntouched(s: Sys, step: Step)
    requires Enabled(s, step) && !step.StartRun? && !step.SettleRun?
    ensures Next(s, step).runs == s.runs
  {
    hide Valid, At, Become, DoCreate, DoPutFirst, DoReadPointer, DoPutNext, DoMove, DoForget, DoRemember, DoShare,
         DoDie, DoStartRun, DoSettleRun;
  }

  lemma {:induction false} ExecutionPins(states: seq<Sys>, steps: seq<Step>, n: nat)
    requires Execution(states, steps) && n < |states|
    ensures PinsOk(states[n])
    decreases n
  {
    hide Enabled, Next, Inv, PinOk;
    if n > 0 {
      ExecutionPins(states, steps, n - 1);
      ExecutionKeeps(states, steps, n - 1);
      PinsStep(states[n - 1], steps[n - 1]);
    }
  }

  /** A run records the name of the version it was started with. Whenever it is settled, by
      whatever process and through whichever cache, it is settled against exactly the
      configuration it was started with, the stored one. */
  lemma RunsKeepTheirConfig(states: seq<Sys>, steps: seq<Step>, n: nat, run: string)
    requires Execution(states, steps) && n < |states| && run in states[n].runs
    ensures var s := states[n]; var r := s.runs[run];
      && r.key in s.configs && Valid(s.configs[r.key]) && r.started == s.configs[r.key]
      && (r.settled.Some? ==> r.settled.value == r.started)
  {
    hide Execution, Valid, CachesOk, OwnersOk;
    ExecutionPins(states, steps, n);
    ExecutionKeeps(states, steps, n);
    assert PinOk(states[n].configs, states[n].runs[run]);
  }
}

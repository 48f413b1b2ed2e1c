/** The service programs as they run against the store: the retry loop of a mutation, a
    purchase, a claim, the grants and a distributor pass (player, shop and reward
    services). Other requests may write to the store between the read and the write of each
    attempt; what they write is a parameter. */
module Services {
  import opened Wrappers
  import opened Profiles
  import opened Decisions
  import opened Store
  import opened Protocol

  datatype Failure = Missing | Refused(why: Refusal) | RetriesExhausted | UnknownItem | AlreadyClaimed

  /** The clock readings of one attempt. */
  datatype Times = Times(now: int, later: int)

  // ---- interference ----

  ghost function Rivals(db: Db, writes: seq<Player>): Db {
    if writes == [] then db else UpdatePlayer(Rivals(db, writes[..|writes| - 1]), writes[|writes| - 1]).db
  }

  /** The store after the writes of others in the first `n` attempts. */
  ghost function RivalsIn(db: Db, rivals: seq<seq<Player>>, n: nat): Db
    requires n <= |rivals|
  {
    if n == 0 then db else Rivals(RivalsIn(db, rivals, n - 1), rivals[n - 1])
  }

  /** Versions identify profiles: unless the version has grown, the profile is the same. */
  lemma {:induction false} RivalsMoveVersions(db: Db, writes: seq<Player>, id: PlayerId)
    requires id in db.players
    ensures var db' := Rivals(db, writes);
      && id in db'.players && db'.players[id].version >= db.players[id].version
      && (db'.players[id].version == db.players[id].version ==> db'.players[id] == db.players[id])
    decreases |writes|
  {
    if writes != [] { RivalsMoveVersions(db, writes[..|writes| - 1], id); }
  }

  method Interfere(store: MemoryStore, writes: seq<Player>)
    modifies store
    ensures store.Contents() == Rivals(old(store.Contents()), writes)
  {
    for i := 0 to |writes|
      invariant store.Contents() == Rivals(old(store.Contents()), writes[..i])
    {
      var _ := store.Update(writes[i]);
      assert writes[..i + 1][..i] == writes[..i];
    }
    assert writes[..|writes|] == writes;
  }

  // ---- Mutate ----

  method Carry(p: Player, d: Decision, later: int) returns (r: Result<Player, Refusal>)
    ensures r == Decide(p, d, later)
  {
    hide Taken, Merged, Held;
    match d
    case Charge(cost, boosters) => r := ChargeProfile(p, cost, boosters, later);
    case Credit(reward, coins, extras) => r := CreditProfile(p, reward, coins, extras);
    case Buy(item) => r := BuyItem(p, item);
    case Record(run, score, loot, cracked) =>
      var best := if score > p.stats.bestScore then score else p.stats.bestScore;
      r := Ok(p.(stats := Stats(p.stats.runs + 1, best, p.stats.totalLoot + loot, p.stats.vaultsCracked + cracked)));
  }

  method BuyItem(p: Player, item: Item) returns (r: Result<Player, Refusal>)
    ensures r == Decide(p, Buy(item), 0)
  {
    if p.coins < item.price {
      return Err(InsufficientCoins);
    }
    var q := p;
    if item.life {
      if q.lives >= q.maxLives {
        return Err(LivesFull);
      }
      q := q.(lives := q.lives + 1);
    } else {
      q := q.(boosters := q.boosters[item.id := Held(q.boosters, item.id) + 1]);
    }
    return Ok(q.(coins := q.coins - item.price));
  }

  /** The decision, taken at time `t` on the profile as `db` has it, and nothing else. */
  ghost predicate CommitsOn(db: Db, db': Db, id: PlayerId, d: Decision, t: Times, regen: int, p: Player) {
    && id in db.players
    && Decided(db.players[id], d, t.now, t.later, regen).Ok?
    && p == Decided(db.players[id], d, t.now, t.later, regen).value.(version := db.players[id].version + 1)
    && db' == db.(players := db.players[id := p])
  }

  /** Why a mutation that did not commit failed, on the profile as `db` has it. */
  ghost predicate FailsOn(db: Db, id: PlayerId, d: Decision, t: Times, regen: int, e: Failure) {
    if id !in db.players then e == Missing
    else e.Refused? && Decided(db.players[id], d, t.now, t.later, regen) == Err(e.why)
  }

  ghost predicate VersionGrew(db: Db, db': Db, id: PlayerId, n: int) {
    id in db.players && id in db'.players && db'.players[id].version >= db.players[id].version + n
  }

  /** What a mutation may do to the store: the writes of others in the attempts it made,
      and, if it succeeded, one commit on the profile as those writes left it. It gives up
      only after losing four races. */
  ghost predicate OneCommitOrNone(db: Db, db': Db, id: PlayerId, d: Decision, times: seq<Times>, regen: int,
          rivals: seq<seq<Player>>, ran: nat, r: Result<Player, Failure>)
    requires |rivals| == |times| == MAX_ATTEMPTS
  {
    && ran <= MAX_ATTEMPTS
    && var others := RivalsIn(db, rivals, ran);
    if r.Ok? then ran > 0 && CommitsOn(others, db', id, d, times[ran - 1], regen, r.value)
    else
      && db' == others
      && if r.error == RetriesExhausted then ran == MAX_ATTEMPTS && VersionGrew(db, others, id, MAX_ATTEMPTS)
         else ran < MAX_ATTEMPTS && FailsOn(others, id, d, times[ran], regen, r.error)
  }

  ghost predicate KeysMatch(db: Db) {
    forall id :: id in db.players ==> db.players[id].id == id
  }

  lemma {:induction false} RivalsKeepKeys(db: Db, writes: seq<Player>)
    requires KeysMatch(db)
    ensures KeysMatch(Rivals(db, writes))
    decreases |writes|
  {
    if writes != [] { RivalsKeepKeys(db, writes[..|writes| - 1]); }
  }

  lemma DecidedKeepsId(p: Player, d: Decision, now: int, later: int, regen: int)
    requires Decided(p, d, now, later, regen).Ok?
    ensures var q := Decided(p, d, now, later, regen).value; q.id == p.id && q.version == p.version
  {}

  /** One attempt: read, decide, and write unless somebody else has written. */
  method Attempt(store: MemoryStore, id: PlayerId, d: Decision, t: Times, regen: int, writes: seq<Player>)
    returns (r: Result<Player, Failure>, again: bool, ghost ran: bool)
    requires KeysMatch(store.Contents())
    modifies store
    ensures KeysMatch(store.Contents()) && (again || r.Ok? <==> ran)
    ensures again ==>
      && r.Err? && store.Contents() == Rivals(old(store.Contents()), writes)
      && VersionGrew(old(store.Contents()), store.Contents(), id, 1)
    ensures r.Ok? ==>
      !again && CommitsOn(Rivals(old(store.Contents()), writes), store.Contents(), id, d, t, regen, r.value)
    ensures !again && r.Err? ==>
      store.Contents() == old(store.Contents()) && FailsOn(store.Contents(), id, d, t, regen, r.error)
    ensures writes == [] ==> !again
  {
    hide Decide, Rivals, ApplyRegen;
    r, again, ran := Err(Missing), false, false;
    var got := store.Get(id);
    if got.Err? {
      return;
    }
    var p := ApplyRegen(got.value, t.now, regen);
    var q := Carry(p, d, t.later);
    if q.Err? {
      r := Err(Refused(q.error));
      return;
    }
    DecidedKeepsId(got.value, d, t.now, t.later, regen);
    RivalsMoveVersions(store.Contents(), writes, id);
    RivalsKeepKeys(store.Contents(), writes);
    NoRivals(store.Contents());
    Interfere(store, writes);
    ran := true;
    var w := store.Update(q.value);
    if w.Ok? {
      return Ok(w.value), false, true;
    }
    again := true;
  }

  lemma NoRivals(db: Db)
    ensures Rivals(db, []) == db
  {}

  /** Mutate: at most four attempts. */
  method Mutate(store: MemoryStore, id: PlayerId, d: Decision, times: seq<Times>, regen: int, rivals: seq<seq<Player>>)
    returns (r: Result<Player, Failure>, ghost ran: nat)
    requires |rivals| == |times| == MAX_ATTEMPTS && KeysMatch(store.Contents())
    modifies store
    ensures KeysMatch(store.Contents())
    ensures OneCommitOrNone(old(store.Contents()), store.Contents(), id, d, times, regen, rivals, ran, r)
    ensures rivals[0] == [] ==> r != Err(RetriesExhausted)
  {
    hide Decided, Rivals;
    ghost var db := store.Contents();
    ran := 0;
    for attempt := 0 to MAX_ATTEMPTS
      invariant KeysMatch(store.Contents()) && ran == attempt
      invariant store.Contents() == RivalsIn(db, rivals, attempt)
      invariant attempt > 0 ==> VersionGrew(db, store.Contents(), id, attempt)
      invariant attempt > 0 ==> rivals[0] != []
    {
      var got, again, counted := Attempt(store, id, d, times[attempt], regen, rivals[attempt]);
      if counted { ran := ran + 1; }
      if !again {
        return got, ran;
      }
    }
    return Err(RetriesExhausted), ran;
  }

  // ---- shop ----

  method FindItem(itemId: string) returns (item: Option<Item>)
    ensures item.Some? ==> item.value in CATALOG && item.value.id == itemId
    ensures item.None? ==> forall i :: i in CATALOG ==> i.id != itemId
  {
    for k := 0 to |CATALOG|
      invariant forall j :: 0 <= j < k ==> CATALOG[j].id != itemId
    {
      if CATALOG[k].id == itemId {
        return Some(CATALOG[k]);
      }
    }
    return None;
  }

  method Purchase(store: MemoryStore, id: PlayerId, itemId: string, times: seq<Times>, regen: int,
          rivals: seq<seq<Player>>)
    returns (r: Result<Player, Failure>, ghost ran: nat, ghost bought: Option<Item>)
    requires |rivals| == |times| == MAX_ATTEMPTS && KeysMatch(store.Contents())
    modifies store
    ensures KeysMatch(store.Contents())
    ensures bought.None? <==> forall i :: i in CATALOG ==> i.id != itemId
    ensures bought.None? ==> r == Err(UnknownItem) && store.Contents() == old(store.Contents())
    ensures bought.Some? ==> bought.value in CATALOG && bought.value.id == itemId
    ensures bought.Some? ==>
      OneCommitOrNone(old(store.Contents()), store.Contents(), id, Buy(bought.value), times, regen, rivals, ran, r)
  {
    hide OneCommitOrNone;
    var item := FindItem(itemId);
    bought := item;
    if item.None? {
      return Err(UnknownItem), 0, None;
    }
    r, ran := Mutate(store, id, Buy(item.value), times, regen, rivals);
  }

  // ---- rewards ----

  lemma {:induction false} RivalsKeepRewards(db: Db, rivals: seq<seq<Player>>, n: nat)
    requires n <= |rivals|
    ensures RivalsIn(db, rivals, n).rewards == db.rewards && RivalsIn(db, rivals, n).runs == db.runs
    decreases n
  {
    hide Rivals;
    if n > 0 {
      RivalsKeepRewards(db, rivals, n - 1);
      WritesKeepRewards(RivalsIn(db, rivals, n - 1), rivals[n - 1]);
    }
  }

  lemma {:induction false} WritesKeepRewards(db: Db, writes: seq<Player>)
    ensures Rivals(db, writes).rewards == db.rewards && Rivals(db, writes).runs == db.runs
    decreases |writes|
  {
    if writes != [] { WritesKeepRewards(db, writes[..|writes| - 1]); }
  }

  /** Claim: only the request that flips the reward credits it. Whatever becomes of the
      credit, the reward stays claimed and nobody can flip it again. */
  method Claim(store: MemoryStore, k: RewardKey, times: seq<Times>, regen: int, rivals: seq<seq<Player>>)
    returns (r: Result<Player, Failure>, ghost ran: nat)
    requires |rivals| == |times| == MAX_ATTEMPTS && KeysMatch(store.Contents())
    modifies store
    ensures KeysMatch(store.Contents())
    ensures ClaimReward(old(store.Contents()), k).result.Err? ==> r.Err? && store.Contents() == old(store.Contents())
    ensures ClaimReward(old(store.Contents()), k).result == Err(Conflict) ==> r == Err(AlreadyClaimed)
    ensures ClaimReward(old(store.Contents()), k).result.Ok? ==>
      var flip := ClaimReward(old(store.Contents()), k); var rw := flip.result.value;
      OneCommitOrNone(flip.db, store.Contents(), k.0, Credit(k.1, rw.coins, rw.extras), times, regen, rivals, ran, r)
      && store.rewards == flip.db.rewards && ClaimReward(store.Contents(), k).result == Err(Conflict)
  {
    hide Rivals, RivalsIn, Decided;
    ran := 0;
    var flip := store.Claim(k);
    if flip.Err? {
      return Err(if flip.error == Conflict then AlreadyClaimed else Missing), 0;
    }
    ghost var db := store.Contents();
    r, ran := Mutate(store, k.0, Credit(k.1, flip.value.coins, flip.value.extras), times, regen, rivals);
    RivalsKeepRewards(db, rivals, ran);
  }

  /** Rewards are only ever added. */
  ghost predicate OnlyGrants(db: Db, db': Db) {
    && db'.players == db.players && db'.devices == db.devices && db'.runs == db.runs
    && forall k :: k in db.rewards ==> k in db'.rewards && db'.rewards[k] == db.rewards[k]
  }

  /** Creates a reward, or returns the one that has its name. Granting again changes
      nothing. */
  method GrantOnce(store: MemoryStore, rw: Reward) returns (granted: Reward)
    modifies store
    ensures OnlyGrants(old(store.Contents()), store.Contents())
    ensures (rw.playerId, rw.id) in store.rewards && granted == store.rewards[(rw.playerId, rw.id)]
    ensures store.Contents() == CreateReward(old(store.Contents()), rw).db
    ensures CreateReward(store.Contents(), rw).db == store.Contents()
  {
    var created := store.Grant(rw);
    granted := store.rewards[(rw.playerId, rw.id)];
  }

  method GrantRunLoot(store: MemoryStore, run: Run, score: int) returns (granted: Reward)
    modifies store
    ensures OnlyGrants(old(store.Contents()), store.Contents())
    ensures store.Contents() == CreateReward(old(store.Contents()), LootReward(run, score)).db
    ensures (run.playerId, LootId(run.id)) in store.rewards && granted == store.rewards[(run.playerId, LootId(run.id))]
  {
    hide LootId, RunLootCoins;
    granted := GrantOnce(store, LootReward(run, score));
  }

  method GrantLeaderboard(store: MemoryStore, event: string, player: PlayerId, rank: int)
    returns (granted: Option<Reward>)
    modifies store
    ensures OnlyGrants(old(store.Contents()), store.Contents())
    ensures LeaderboardCoins(rank) == 0 ==> granted.None? && store.Contents() == old(store.Contents())
    ensures LeaderboardCoins(rank) != 0 ==> (player, PodiumId(event)) in store.rewards
    ensures LeaderboardCoins(rank) != 0 ==> granted == Some(store.rewards[(player, PodiumId(event))])
    ensures LeaderboardCoins(rank) != 0 ==>
      store.Contents() == CreateReward(old(store.Contents()), PodiumReward(event, player, rank)).db
  {
    hide PodiumId;
    if LeaderboardCoins(rank) == 0 {
      return None;
    }
    var rw := GrantOnce(store, PodiumReward(event, player, rank));
    return Some(rw);
  }

  // ---- the distributor ----

  /** The podium of an ended event, unless the leaderboard is unavailable. */
  datatype Ended = Ended(event: string, top: Option<seq<(PlayerId, int)>>)

  /** All places that pay have their reward. */
  ghost predicate PaidOut(db: Db, event: string, top: seq<(PlayerId, int)>, n: nat)
    requires n <= |top|
  {
    forall i :: 0 <= i < n && LeaderboardCoins(top[i].1) != 0 ==> (top[i].0, PodiumId(event)) in db.rewards
  }

  /** The places before the first whose grant fails. */
  ghost function PlacesServed(top: seq<(PlayerId, int)>, failing: set<PlayerId>, n: nat): nat
    requires n <= |top|
    decreases |top| - n
  {
    if n == |top| || top[n].0 in failing then n else PlacesServed(top, failing, n + 1)
  }

  /** The places of one event, until a grant fails. */
  method PayEvent(store: MemoryStore, event: string, top: seq<(PlayerId, int)>, failing: set<PlayerId>)
    returns (granted: nat, failed: bool)
    modifies store
    ensures OnlyGrants(old(store.Contents()), store.Contents())
    ensures failed <==> exists i :: 0 <= i < |top| && top[i].0 in failing
    ensures granted == PlacesServed(top, failing, 0)
    ensures !failed ==> PaidOut(store.Contents(), event, top, |top|)
    ensures PaidOut(old(store.Contents()), event, top, |top|) ==> store.Contents() == old(store.Contents())
  {
    hide LeaderboardCoins, PodiumId;
    granted, failed := 0, false;
    for i := 0 to |top|
      invariant granted == i && forall j :: 0 <= j < i ==> top[j].0 !in failing
      invariant PlacesServed(top, failing, 0) == PlacesServed(top, failing, i)
      invariant OnlyGrants(old(store.Contents()), store.Contents()) && PaidOut(store.Contents(), event, top, i)
      invariant PaidOut(old(store.Contents()), event, top, |top|) ==> store.Contents() == old(store.Contents())
    {
      if top[i].0 in failing {
        return granted, true;
      }
      var _ := GrantLeaderboard(store, event, top[i].0, top[i].1);
      granted := granted + 1;
    }
  }

  ghost predicate AllPaid(db: Db, events: seq<Ended>) {
    forall i :: 0 <= i < |events| && events[i].top.Some? ==>
      PaidOut(db, events[i].event, events[i].top.value, |events[i].top.value|)
  }

  lemma PaidStays(db: Db, db': Db, event: string, top: seq<(PlayerId, int)>)
    requires PaidOut(db, event, top, |top|) && OnlyGrants(db, db')
    ensures PaidOut(db', event, top, |top|)
  {}

  /** Its leaderboard can be read and none of its grants fails. */
  ghost predicate Payable(ended: Ended, failing: set<PlayerId>) {
    ended.top.Some? && forall j :: 0 <= j < |ended.top.value| ==> ended.top.value[j].0 !in failing
  }

  ghost predicate FlaggedBy(db: Db, events: seq<Ended>, failing: set<PlayerId>, i: int, e: string) {
    && 0 <= i < |events| && events[i].event == e && Payable(events[i], failing)
    && PaidOut(db, e, events[i].top.value, |events[i].top.value|)
  }

  /** One of the first `n` events has this name, no grant of it fails, and it is paid out. */
  ghost predicate Flagged(db: Db, events: seq<Ended>, failing: set<PlayerId>, n: nat, e: string) {
    exists i :: i < n && FlaggedBy(db, events, failing, i, e)
  }

  ghost function Served(events: seq<Ended>, failing: set<PlayerId>, n: nat): nat
    requires n <= |events|
  {
    if n == 0 then 0
    else
      var top := events[n - 1].top;
      Served(events, failing, n - 1) + if top.None? then 0 else PlacesServed(top.value, failing, 0)
  }

  /** RunOnce: an event is flagged exactly when its leaderboard can be read and none of its
      grants fails, and then all its places that pay have their reward; places are paid at
      most once, and a further pass over paid events changes no reward. It counts the places
      that it came to. */
  method RunOnce(store: MemoryStore, events: seq<Ended>, failing: set<PlayerId>)
    returns (granted: nat, flagged: set<string>)
    modifies store
    ensures OnlyGrants(old(store.Contents()), store.Contents())
    ensures forall e :: e in flagged ==> Flagged(store.Contents(), events, failing, |events|, e)
    ensures forall i :: 0 <= i < |events| && Payable(events[i], failing) ==> events[i].event in flagged
    ensures granted == Served(events, failing, |events|)
    ensures AllPaid(old(store.Contents()), events) ==> store.Contents() == old(store.Contents())
  {
    hide PaidOut, PlacesServed;
    granted, flagged := 0, {};
    for i := 0 to |events|
      invariant OnlyGrants(old(store.Contents()), store.Contents())
      invariant forall e :: e in flagged ==> Flagged(store.Contents(), events, failing, i, e)
      invariant forall k :: 0 <= k < i && Payable(events[k], failing) ==> events[k].event in flagged
      invariant granted == Served(events, failing, i)
      invariant AllPaid(old(store.Contents()), events) ==> store.Contents() == old(store.Contents())
    {
      if events[i].top.None? {
        KeepFlags(store.Contents(), store.Contents(), events, failing, i, flagged);
        continue;
      }
      ghost var db := store.Contents();
      var count, failed := PayEvent(store, events[i].event, events[i].top.value, failing);
      granted := granted + count;
      KeepFlags(db, store.Contents(), events, failing, i, flagged);
      if failed {
        continue;
      }
      assert FlaggedBy(store.Contents(), events, failing, i, events[i].event);
      flagged := flagged + {events[i].event};
    }
  }

  lemma KeepFlags(db: Db, db': Db, events: seq<Ended>, failing: set<PlayerId>, i: nat, flagged: set<string>)
    requires i < |events| && OnlyGrants(db, db')
    requires forall e :: e in flagged ==> Flagged(db, events, failing, i, e)
    ensures forall e :: e in flagged ==> Flagged(db', events, failing, i + 1, e)
  {
    hide PaidOut;
    forall e | e in flagged ensures Flagged(db', events, failing, i + 1, e) {
      var k :| k < i && FlaggedBy(db, events, failing, k, e);
      PaidStays(db, db', e, events[k].top.value);
      assert FlaggedBy(db', events, failing, k, e);
    }
  }

  // ---- accounts ----

  datatype AccountError = NoDevice | IdTaken

  /** CreateOrResume: one account per device, whoever comes first. `rival` is an account
      that another request creates between the lookup and the creation. */
  method CreateOrResume(store: MemoryStore, deviceId: string, candidate: Player, rival: Option<Player>)
    returns (r: Result<Player, AccountError>, created: bool)
    requires DevicesOk(store.Contents()) && candidate.deviceId == deviceId
    modifies store
    ensures DevicesOk(store.Contents())
    ensures deviceId == "" ==> r == Err(NoDevice) && store.Contents() == old(store.Contents())
    ensures deviceId != "" && deviceId in old(store.devices) ==>
      !created && store.Contents() == old(store.Contents()) && r == Ok(store.players[store.devices[deviceId]])
    ensures r.Ok? ==>
      && deviceId in store.devices && store.devices[deviceId] in store.players
      && r.value == store.players[store.devices[deviceId]]
    ensures r.Ok? ==> r.value.deviceId == deviceId && (created ==> r.value == candidate)
    ensures r == Err(IdTaken) ==> deviceId !in store.devices && candidate.id in store.players
    ensures !created && r.Ok? && deviceId !in old(store.devices) ==> rival.Some? && r.value == rival.value
  {
    created := false;
    if deviceId == "" {
      return Err(NoDevice), false;
    }
    if deviceId in store.devices {
      return Ok(store.players[store.devices[deviceId]]), false;
    }
    if rival.Some? {
      CreateKeepsDevices(store.Contents(), rival.value);
      var _ := store.Create(rival.value);
    }
    CreateKeepsDevices(store.Contents(), candidate);
    var made := store.Create(candidate);
    if made.Err? {
      if deviceId in store.devices {
        return Ok(store.players[store.devices[deviceId]]), false;
      }
      return Err(IdTaken), false;
    }
    return Ok(candidate), true;
  }
}

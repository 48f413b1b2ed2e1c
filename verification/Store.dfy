/** The in-memory store of players, runs and rewards (store/memory/memory.go). Every method
    runs under one lock, so it is one atomic step; `Db` is what the maps hold, and the
    functions on it say what each step does. */
module Store {
  import opened Wrappers
  import opened Profiles
  import opened Decisions

  datatype StoreError = NotFound | AlreadyExists | VersionConflict | Conflict

  datatype RunStatus = Active | Finished

  /** The authoritative outcome of a run, as far as payouts and statistics need it. */
  datatype Outcome = Outcome(score: int, loot: int, cracked: int)

  datatype Run = Run(
    id: RunId, playerId: PlayerId, eventId: string, seed: bv32, configVersion: int, boosters: seq<string>,
    status: RunStatus, expiresAt: int, outcome: Option<Outcome>)

  datatype RewardStatus = Pending | Claimed

  datatype Reward = Reward(
    id: RewardId, playerId: PlayerId, coins: int, extras: map<string, int>, status: RewardStatus,
    eventId: string, rank: int)

  type RunKey = (PlayerId, RunId)
  type RewardKey = (PlayerId, RewardId)

  datatype Db = Db(
    players: map<PlayerId, Player>, devices: map<string, PlayerId>, runs: map<RunKey, Run>,
    rewards: map<RewardKey, Reward>, owners: map<PlayerId, seq<RewardId>>)

  /** What a step answers, and the store after it. */
  datatype Reply<T> = Reply(result: Result<T, StoreError>, db: Db)

  // ---- the steps ----

  function CreatePlayer(db: Db, pl: Player): Reply<()> {
    if pl.id in db.players || (pl.deviceId != "" && pl.deviceId in db.devices) then Reply(Err(AlreadyExists), db)
    else Reply(Ok(()), db.(players := db.players[pl.id := pl],
                           devices := if pl.deviceId == "" then db.devices else db.devices[pl.deviceId := pl.id]))
  }

  /** A conditional write: the version must be the stored one, and grows by one. */
  function UpdatePlayer(db: Db, pl: Player): Reply<Player> {
    if pl.id !in db.players then Reply(Err(NotFound), db)
    else if db.players[pl.id].version != pl.version then Reply(Err(VersionConflict), db)
    else var next := pl.(version := pl.version + 1); Reply(Ok(next), db.(players := db.players[pl.id := next]))
  }

  function PutRun(db: Db, run: Run): Db {
    db.(runs := db.runs[(run.playerId, run.id) := run])
  }

  /** A conditional write: only an active run is finished. */
  function FinishRun(db: Db, run: Run): Reply<Run> {
    var k := (run.playerId, run.id);
    if k !in db.runs then Reply(Err(NotFound), db)
    else if db.runs[k].status != Active then Reply(Err(Conflict), db)
    else var done := run.(status := Finished); Reply(Ok(done), db.(runs := db.runs[k := done]))
  }

  function OwnedBy(db: Db, p: PlayerId): seq<RewardId> {
    if p in db.owners then db.owners[p] else []
  }

  function CreateReward(db: Db, rw: Reward): Reply<()> {
    var k := (rw.playerId, rw.id);
    if k in db.rewards then Reply(Err(AlreadyExists), db)
    else Reply(Ok(()), db.(rewards := db.rewards[k := rw],
                           owners := db.owners[rw.playerId := OwnedBy(db, rw.playerId) + [rw.id]]))
  }

  /** A conditional write: only a pending reward is claimed. */
  function ClaimReward(db: Db, k: RewardKey): Reply<Reward> {
    if k !in db.rewards then Reply(Err(NotFound), db)
    else if db.rewards[k].status != Pending then Reply(Err(Conflict), db)
    else var rw := db.rewards[k].(status := Claimed); Reply(Ok(rw), db.(rewards := db.rewards[k := rw]))
  }

  // ---- the store object ----

  class MemoryStore {
    var players: map<PlayerId, Player>
    var devices: map<string, PlayerId>
    var runs: map<RunKey, Run>
    var rewards: map<RewardKey, Reward>
    var owners: map<PlayerId, seq<RewardId>>

    ghost function Contents(): Db
      reads this
    {
      Db(players, devices, runs, rewards, owners)
    }

    constructor ()
      ensures Contents() == Db(map[], map[], map[], map[], map[])
    {
      players, devices, runs, rewards, owners := map[], map[], map[], map[], map[];
    }

    method Create(pl: Player) returns (r: Result<(), StoreError>)
      modifies this
      ensures CreatePlayer(old(Contents()), pl) == Reply(r, Contents())
    {
      if pl.id in players {
        return Err(AlreadyExists);
      }
      if pl.deviceId != "" {
        if pl.deviceId in devices {
          return Err(AlreadyExists);
        }
        devices := devices[pl.deviceId := pl.id];
      }
      players := players[pl.id := pl];
      return Ok(());
    }

    method Get(id: PlayerId) returns (r: Result<Player, StoreError>)
      ensures r == if id in players then Ok(players[id]) else Err(NotFound)
    {
      if id !in players {
        return Err(NotFound);
      }
      return Ok(players[id]);
    }

    method Update(pl: Player) returns (r: Result<Player, StoreError>)
      modifies this
      ensures UpdatePlayer(old(Contents()), pl) == Reply(r, Contents())
    {
      if pl.id !in players {
        return Err(NotFound);
      }
      if players[pl.id].version != pl.version {
        return Err(VersionConflict);
      }
      var next := pl.(version := pl.version + 1);
      players := players[pl.id := next];
      return Ok(next);
    }

    method Put(run: Run)
      modifies this
      ensures Contents() == PutRun(old(Contents()), run)
    {
      runs := runs[(run.playerId, run.id) := run];
    }

    method Finish(run: Run) returns (r: Result<Run, StoreError>)
      modifies this
      ensures FinishRun(old(Contents()), run) == Reply(r, Contents())
    {
      var k := (run.playerId, run.id);
      if k !in runs {
        return Err(NotFound);
      }
      if runs[k].status != Active {
        return Err(Conflict);
      }
      var done := run.(status := Finished);
      runs := runs[k := done];
      return Ok(done);
    }

    method Grant(rw: Reward) returns (r: Result<(), StoreError>)
      modifies this
      ensures CreateReward(old(Contents()), rw) == Reply(r, Contents())
    {
      var k := (rw.playerId, rw.id);
      if k in rewards {
        return Err(AlreadyExists);
      }
      owners := owners[rw.playerId := (if rw.playerId in owners then owners[rw.playerId] else []) + [rw.id]];
      rewards := rewards[k := rw];
      return Ok(());
    }

    method Claim(k: RewardKey) returns (r: Result<Reward, StoreError>)
      modifies this
      ensures ClaimReward(old(Contents()), k) == Reply(r, Contents())
    {
      if k !in rewards {
        return Err(NotFound);
      }
      if rewards[k].status != Pending {
        return Err(Conflict);
      }
      var rw := rewards[k].(status := Claimed);
      rewards := rewards[k := rw];
      return Ok(rw);
    }
  }

  // ---- what every step keeps ----

  ghost predicate KeyedByName(rewards: map<RewardKey, Reward>) {
    forall k :: k in rewards ==> (rewards[k].playerId, rewards[k].id) == k
  }

  ghost predicate ListsAll(db: Db) {
    forall p, id :: (p, id) in db.rewards <==> id in OwnedBy(db, p)
  }

  ghost predicate ListsOnce(db: Db) {
    forall p, i, j :: 0 <= i < j < |OwnedBy(db, p)| ==> OwnedBy(db, p)[i] != OwnedBy(db, p)[j]
  }

  /** Owner lists name exactly the stored rewards, once each. */
  ghost predicate OwnersOk(db: Db) {
    KeyedByName(db.rewards) && ListsAll(db) && ListsOnce(db)
  }

  lemma CreateKeepsOwners(db: Db, rw: Reward)
    requires OwnersOk(db)
    ensures OwnersOk(CreateReward(db, rw).db)
  {
    hide KeyedByName, ListsAll, ListsOnce;
    if (rw.playerId, rw.id) !in db.rewards {
      var db' := CreateReward(db, rw).db;
      OneMoreOwned(db, db', rw);
      OneMoreKeyed(db.rewards, rw);
    }
  }

  lemma OneMoreKeyed(rewards: map<RewardKey, Reward>, rw: Reward)
    requires KeyedByName(rewards)
    ensures KeyedByName(rewards[(rw.playerId, rw.id) := rw])
  {}

  lemma OneMoreOwned(db: Db, db': Db, rw: Reward)
    requires ListsAll(db) && ListsOnce(db) && (rw.playerId, rw.id) !in db.rewards
    requires db'.rewards == db.rewards[(rw.playerId, rw.id) := rw]
    requires db'.owners == db.owners[rw.playerId := OwnedBy(db, rw.playerId) + [rw.id]]
    ensures ListsAll(db') && ListsOnce(db')
  {
    forall p ensures OwnedBy(db', p) == if p == rw.playerId then OwnedBy(db, p) + [rw.id] else OwnedBy(db, p) {}
    assert rw.id !in OwnedBy(db, rw.playerId);
    OnceMore(OwnedBy(db, rw.playerId), rw.id);
    hide OwnedBy;
  }

  lemma OnceMore(ids: seq<RewardId>, id: RewardId)
    requires id !in ids && forall i, j :: 0 <= i < j < |ids| ==> ids[i] != ids[j]
    ensures forall i, j :: 0 <= i < j < |ids + [id]| ==> (ids + [id])[i] != (ids + [id])[j]
  {}

  lemma ClaimKeepsOwners(db: Db, k: RewardKey)
    requires OwnersOk(db)
    ensures OwnersOk(ClaimReward(db, k).db)
  {
    var db' := ClaimReward(db, k).db;
    forall p ensures OwnedBy(db', p) == OwnedBy(db, p) {}
  }

  // ---- devices ----

  /** Every registered device belongs to a stored player that names it, and every player that
      names a device has it registered. */
  ghost predicate DevicesOk(db: Db) {
    && (forall d :: d in db.devices ==> db.devices[d] in db.players && db.players[db.devices[d]].deviceId == d)
    && (forall p :: p in db.players && db.players[p].deviceId != "" ==>
          db.players[p].deviceId in db.devices && db.devices[db.players[p].deviceId] == p)
  }

  lemma CreateKeepsDevices(db: Db, pl: Player)
    requires DevicesOk(db)
    ensures DevicesOk(CreatePlayer(db, pl).db)
  {}

  lemma UpdateKeepsDevices(db: Db, pl: Player)
    requires DevicesOk(db)
    requires pl.id in db.players && db.players[pl.id].version == pl.version ==>
      pl.deviceId == db.players[pl.id].deviceId
    ensures DevicesOk(UpdatePlayer(db, pl).db)
  {}
}

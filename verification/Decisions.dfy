/** The decisions that services take on a freshly read profile: charging a run, a purchase,
    crediting a reward, recording a settled run. */
module Decisions {
  import opened Wrappers
  import opened Profiles

  type RewardId = string
  type RunId = string

  /** A catalogue item: a booster of that name, or a life. */
  datatype Item = Item(id: string, price: int, life: bool)

  const CATALOG := [Item("extra_moves", 300, false), Item("shield", 450, false), Item("life", 200, true)]

  datatype Decision =
    | Charge(cost: int, boosters: seq<string>)
    | Buy(item: Item)
    | Credit(reward: RewardId, coins: int, extras: map<string, int>)
    | Record(run: RunId, score: int, loot: int, cracked: int)

  datatype Refusal = InsufficientLives | InsufficientBoosters | InsufficientCoins | LivesFull

  /** One of each listed booster less. */
  ghost function Taken(m: map<string, int>, bs: seq<string>): map<string, int> {
    if bs == [] then m else var t := Taken(m, bs[..|bs| - 1]); var b := bs[|bs| - 1]; t[b := Held(t, b) - 1]
  }

  /** The extras named in `done` added. */
  ghost function PartlyMerged(m: map<string, int>, extras: map<string, int>, done: set<string>): map<string, int>
    requires done <= extras.Keys
  {
    map b | b in m.Keys + done :: Held(m, b) + if b in done then extras[b] else 0
  }

  ghost function Merged(m: map<string, int>, extras: map<string, int>): map<string, int> {
    PartlyMerged(m, extras, extras.Keys)
  }

  /** What a decision makes of a profile; `later` is the second clock reading of a charge. */
  ghost function Decide(p: Player, d: Decision, later: int): Result<Player, Refusal> {
    match d
    case Charge(cost, boosters) =>
      if p.lives < cost then Err(InsufficientLives)
      else if exists k :: 0 <= k < |boosters| && Held(p.boosters, boosters[k]) <= 0 then Err(InsufficientBoosters)
      else Ok(p.(livesUpdatedAt := if p.lives == p.maxLives && cost > 0 then Some(later) else p.livesUpdatedAt,
                 lives := p.lives - cost, boosters := Taken(p.boosters, boosters)))
    case Buy(item) =>
      if p.coins < item.price then Err(InsufficientCoins)
      else if item.life then
        if p.lives >= p.maxLives then Err(LivesFull) else Ok(p.(lives := p.lives + 1, coins := p.coins - item.price))
      else Ok(p.(boosters := p.boosters[item.id := Held(p.boosters, item.id) + 1], coins := p.coins - item.price))
    case Credit(_, coins, extras) =>
      Ok(p.(coins := p.coins + coins, boosters := Merged(p.boosters, extras)))
    case Record(_, score, loot, cracked) =>
      Ok(p.(stats := Stats(p.stats.runs + 1, if score > p.stats.bestScore then score else p.stats.bestScore,
                           p.stats.totalLoot + loot, p.stats.vaultsCracked + cracked)))
  }

  // ---- the decisions as they are carried out ----

  method ChargeProfile(p: Player, cost: int, boosters: seq<string>, later: int) returns (r: Result<Player, Refusal>)
    ensures r == Decide(p, Charge(cost, boosters), later)
  {
    if p.lives < cost {
      return Err(InsufficientLives);
    }
    for k := 0 to |boosters|
      invariant forall j :: 0 <= j < k ==> Held(p.boosters, boosters[j]) > 0
    {
      if Held(p.boosters, boosters[k]) <= 0 {
        return Err(InsufficientBoosters);
      }
    }
    var q := p;
    if q.lives == q.maxLives && cost > 0 {
      q := q.(livesUpdatedAt := Some(later));
    }
    q := q.(lives := q.lives - cost);
    var bs := q.boosters;
    for k := 0 to |boosters|
      invariant bs == Taken(p.boosters, boosters[..k])
    {
      assert boosters[..k + 1][..k] == boosters[..k];
      bs := bs[boosters[k] := Held(bs, boosters[k]) - 1];
    }
    assert boosters[..|boosters|] == boosters;
    r := Ok(q.(boosters := bs));
  }

  method CreditProfile(p: Player, reward: RewardId, coins: int, extras: map<string, int>)
    returns (r: Result<Player, Refusal>)
    ensures r == Decide(p, Credit(reward, coins, extras), 0)
  {
    hide PartlyMerged, Held;
    var bs := p.boosters;
    var left := extras.Keys;
    NoneMerged(p.boosters, extras);
    while left != {}
      invariant left <= extras.Keys
      invariant bs == PartlyMerged(p.boosters, extras, extras.Keys - left)
      decreases |left|
    {
      var b :| b in left;
      MergeOne(p.boosters, extras, extras.Keys - left, b);
      assert extras.Keys - left + {b} == extras.Keys - (left - {b});
      bs := bs[b := Held(bs, b) + extras[b]];
      left := left - {b};
    }
    assert extras.Keys - left == extras.Keys;
    r := Ok(p.(coins := p.coins + coins, boosters := bs));
  }

  lemma NoneMerged(m: map<string, int>, extras: map<string, int>)
    ensures PartlyMerged(m, extras, extras.Keys - extras.Keys) == m
  {}

  lemma MergeOne(m: map<string, int>, extras: map<string, int>, done: set<string>, b: string)
    requires done <= extras.Keys && b in extras && b !in done
    ensures var t := PartlyMerged(m, extras, done);
      PartlyMerged(m, extras, done + {b}) == t[b := Held(t, b) + extras[b]]
  {}

  // ---- removing duplicates ----

  ghost predicate NoDuplicates(s: seq<string>) {
    forall i, j :: 0 <= i < j < |s| ==> s[i] != s[j]
  }

  /** First occurrences among the first `n` names, in order, without the empty name. */
  ghost function Distinct(names: seq<string>, n: nat): seq<string>
    requires n <= |names|
  {
    if n == 0 then []
    else
      var before := Distinct(names, n - 1);
      if names[n - 1] == "" || names[n - 1] in before then before else before + [names[n - 1]]
  }

  /** The names that are left are in the order of their first occurrences: wherever a later
      one stands in the list, the earlier one stands before it. */
  lemma {:induction false} FirstOccurrences(names: seq<string>, n: nat, i: nat, j: nat, q: nat)
    requires n <= |names| && i < j < |Distinct(names, n)| && q < n && names[q] == Distinct(names, n)[j]
    ensures Distinct(names, n)[i] in names[..q]
    decreases n
  {
    var before := Distinct(names, n - 1);
    DistinctNames(names, n - 1);
    if q == n - 1 {
      assert before[i] in before;
    } else {
      assert names[q] in names[..n - 1];
      if j < |before| { FirstOccurrences(names, n - 1, i, j, q); }
    }
  }

  lemma {:induction false} DistinctNames(names: seq<string>, n: nat)
    requires n <= |names|
    ensures forall b :: b in Distinct(names, n) <==> b in names[..n] && b != ""
    decreases n
  {
    if n > 0 {
      DistinctNames(names, n - 1);
      assert names[..n] == names[..n - 1] + [names[n - 1]];
    }
  }

  method Dedupe(names: seq<string>) returns (out: seq<string>)
    ensures out == Distinct(names, |names|)
    ensures NoDuplicates(out)
    ensures forall b :: b in out <==> b in names && b != ""
  {
    out := [];
    var seen: set<string> := {};
    for k := 0 to |names|
      invariant out == Distinct(names, k)
      invariant NoDuplicates(out)
      invariant forall b :: b in seen <==> b in out
      invariant forall b :: b in out <==> b in names[..k] && b != ""
    {
      assert names[..k + 1] == names[..k] + [names[k]];
      if names[k] == "" || names[k] in seen {
        continue;
      }
      seen := seen + {names[k]};
      out := out + [names[k]];
    }
    assert names[..|names|] == names;
  }

  // ---- bounds ----

  ghost predicate Sound(p: Player) {
    && p.coins >= 0 && 0 <= p.lives <= p.maxLives
    && forall b :: b in p.boosters ==> p.boosters[b] >= 0
  }

  /** What the callers make sure of. */
  ghost predicate Proper(d: Decision) {
    match d
    case Charge(cost, boosters) => cost >= 0 && NoDuplicates(boosters)
    case Buy(item) => item.price >= 0
    case Credit(_, coins, extras) => coins >= 0 && forall b :: b in extras ==> extras[b] >= 0
    case Record(_, _, _, _) => true
  }

  lemma {:induction false} TakenHeld(m: map<string, int>, bs: seq<string>, b: string)
    ensures Held(Taken(m, bs), b) == Held(m, b) - Occurrences(bs, b)
    ensures Taken(m, bs).Keys == m.Keys + set k | k in bs
    decreases |bs|
  {
    if bs != [] {
      TakenHeld(m, bs[..|bs| - 1], b);
      assert bs == bs[..|bs| - 1] + [bs[|bs| - 1]];
    }
  }

  ghost function Occurrences(bs: seq<string>, b: string): nat {
    if bs == [] then 0 else Occurrences(bs[..|bs| - 1], b) + if bs[|bs| - 1] == b then 1 else 0
  }

  lemma {:induction false} OccurrencesBound(bs: seq<string>, b: string)
    ensures Occurrences(bs, b) > 0 <==> b in bs
    ensures NoDuplicates(bs) ==> Occurrences(bs, b) <= 1
    decreases |bs|
  {
    if bs != [] {
      OccurrencesBound(bs[..|bs| - 1], b);
      assert bs == bs[..|bs| - 1] + [bs[|bs| - 1]];
    }
  }

  /** A charge leaves no booster below zero exactly when no booster is listed more often
      than it is held. The check in the charge itself only looks for one of each, which is
      enough once duplicates are removed. */
  lemma ChargeKeepsBoosters(p: Player, cost: int, boosters: seq<string>, later: int)
    requires Sound(p) && Decide(p, Charge(cost, boosters), later).Ok?
    ensures var q := Decide(p, Charge(cost, boosters), later).value;
      (forall b :: b in q.boosters ==> q.boosters[b] >= 0) <==>
        (forall b :: b in boosters ==> Occurrences(boosters, b) <= Held(p.boosters, b))
  {
    hide Taken, Occurrences;
    var t := Taken(p.boosters, boosters);
    forall b
      ensures Held(t, b) == Held(p.boosters, b) - Occurrences(boosters, b)
      ensures Occurrences(boosters, b) > 0 <==> b in boosters
    {
      TakenHeld(p.boosters, boosters, b);
      OccurrencesBound(boosters, b);
    }
    forall b | b in boosters ensures b in t {
      TakenHeld(p.boosters, boosters, b);
    }
    if forall b :: b in t ==> t[b] >= 0 {
      forall b | b in boosters ensures Occurrences(boosters, b) <= Held(p.boosters, b) {
        assert Held(t, b) == t[b] >= 0;
      }
    } else {
      var b :| b in t && t[b] < 0;
      assert Held(t, b) == t[b] && Held(p.boosters, b) >= 0;
      assert b in boosters && Occurrences(boosters, b) > Held(p.boosters, b);
    }
  }

  lemma OneOfEach(p: Player, cost: int, boosters: seq<string>, later: int)
    requires NoDuplicates(boosters) && Decide(p, Charge(cost, boosters), later).Ok?
    ensures forall b :: b in boosters ==> Occurrences(boosters, b) <= Held(p.boosters, b)
  {
    hide Taken, Occurrences;
    forall b | b in boosters ensures Occurrences(boosters, b) <= Held(p.boosters, b) {
      OccurrencesBound(boosters, b);
      var k :| 0 <= k < |boosters| && boosters[k] == b;
      assert Held(p.boosters, boosters[k]) > 0;
    }
  }

  /** Without it, one booster could be charged twice. */
  lemma DuplicatesOvercharge(p: Player, later: int)
    requires p.boosters == map["shield" := 1] && p.lives >= 1
    ensures var r := Decide(p, Charge(1, ["shield", "shield"]), later); r.Ok? && Held(r.value.boosters, "shield") == -1
  {
    TakenHeld(p.boosters, ["shield", "shield"], "shield");
    assert ["shield", "shield"][..1] == ["shield"];
    assert Occurrences(["shield"], "shield") == 1;
  }

  lemma RegenSound(p: Player, now: int, regen: int)
    requires Sound(p)
    ensures Sound(ApplyRegen(p, now, regen))
  {}

  lemma DecideSound(p: Player, d: Decision, later: int)
    requires Sound(p) && Proper(d) && Decide(p, d, later).Ok?
    ensures Sound(Decide(p, d, later).value)
  {
    hide Taken, Occurrences;
    if d.Charge? {
      OneOfEach(p, d.cost, d.boosters, later);
      ChargeKeepsBoosters(p, d.cost, d.boosters, later);
    }
  }

  /** When a decision is taken, and what it leaves alone. A charge needs its lives and one of
      each listed booster, and is refused for the lives first; a purchase needs its price, and
      for a life room for one; nothing else is refused. Only a run that costs lives and starts
      from a full stock sets the clock, and only a record touches the statistics. */
  lemma DecisionTerms(p: Player, d: Decision, later: int)
    ensures var r := Decide(p, d, later);
      && (d.Charge? ==>
            && (r.Ok? <==> p.lives >= d.cost && forall b :: b in d.boosters ==> Held(p.boosters, b) >= 1)
            && (r == Err(InsufficientLives) <==> p.lives < d.cost)
            && (r.Err? ==> r.error == InsufficientLives || r.error == InsufficientBoosters))
      && (d.Buy? ==>
            && (r.Ok? <==> p.coins >= d.item.price && (d.item.life ==> p.lives < p.maxLives))
            && (r == Err(InsufficientCoins) <==> p.coins < d.item.price)
            && (r.Err? ==> r.error == InsufficientCoins || r.error == LivesFull))
      && (d.Credit? || d.Record? ==> r.Ok?)
    ensures var r := Decide(p, d, later); r.Ok? ==>
      var q := r.value;
      && q.id == p.id && q.deviceId == p.deviceId && q.maxLives == p.maxLives && q.version == p.version
      && q.livesUpdatedAt
         == (if d.Charge? && d.cost > 0 && p.lives == p.maxLives then Some(later) else p.livesUpdatedAt)
      && (if !d.Record? then q.stats == p.stats else
            && q.stats.runs == p.stats.runs + 1
            && q.stats.bestScore >= p.stats.bestScore && q.stats.bestScore >= d.score
            && (q.stats.bestScore == p.stats.bestScore || q.stats.bestScore == d.score)
            && q.stats.totalLoot == p.stats.totalLoot + d.loot
            && q.stats.vaultsCracked == p.stats.vaultsCracked + d.cracked)
  {
    hide Taken, Merged;
    if d.Charge? {
      forall k | 0 <= k < |d.boosters| ensures d.boosters[k] in d.boosters {}
    }
  }

  // ---- what a decision does to coins and lives ----

  ghost function CoinDelta(d: Decision): int {
    match d
    case Buy(item) => -item.price
    case Credit(_, coins, _) => coins
    case _ => 0
  }

  lemma CoinsMove(p: Player, d: Decision, later: int)
    requires Decide(p, d, later).Ok?
    ensures Decide(p, d, later).value.coins == p.coins + CoinDelta(d)
  {}

  /** What a decision does to the stock of one booster. */
  ghost function BoosterDelta(d: Decision, b: string): int {
    match d
    case Charge(_, boosters) => -(Occurrences(boosters, b) as int)
    case Buy(item) => if !item.life && item.id == b then 1 else 0
    case Credit(_, _, extras) => Held(extras, b)
    case Record(_, _, _, _) => 0
  }

  lemma BoostersMove(p: Player, d: Decision, later: int, b: string)
    requires Decide(p, d, later).Ok?
    ensures Held(Decide(p, d, later).value.boosters, b) == Held(p.boosters, b) + BoosterDelta(d, b)
  {
    hide Taken, Occurrences;
    if d.Charge? { TakenHeld(p.boosters, d.boosters, b); }
  }

  ghost function LivesSpent(d: Decision): int {
    if d.Charge? then d.cost else 0
  }

  ghost function LivesBought(d: Decision): int {
    if d.Buy? && d.item.life then 1 else 0
  }

  lemma LivesMove(p: Player, d: Decision, later: int)
    requires Decide(p, d, later).Ok?
    ensures Decide(p, d, later).value.lives == p.lives - LivesSpent(d) + LivesBought(d)
  {}

  /** Lives and the progress toward the next one, in time units. */
  ghost function LifeCredit(p: Player, now: int, regen: int): int {
    p.lives * regen + (if p.livesUpdatedAt.Some? then now - p.livesUpdatedAt.value else 0)
  }

  ghost predicate ClockSet(p: Player, now: int) {
    p.livesUpdatedAt.Some? && p.livesUpdatedAt.value <= now
  }

  /** What regeneration gives. A profile that is not full becomes full exactly when its lives
      and the time since its clock make up a full stock; otherwise its credit is unchanged, and
      the clock is moved to less than one life ago. It does nothing else: a full profile and one
      whose clock was never set only have the clock set to now, and a clock that is ahead is
      left alone. */
  lemma RegenGives(p: Player, now: int, regen: int)
    ensures var q := ApplyRegen(p, now, regen);
      && q == p.(lives := q.lives, livesUpdatedAt := q.livesUpdatedAt)
      && (regen <= 0 ==> q == p)
      && (regen > 0 && (p.lives >= p.maxLives || p.livesUpdatedAt.None?) ==>
            q.lives == p.lives && q.livesUpdatedAt == Some(now))
      && (regen > 0 && p.lives < p.maxLives && p.livesUpdatedAt.Some? && p.livesUpdatedAt.value > now ==> q == p)
    ensures regen > 0 && p.lives < p.maxLives && ClockSet(p, now) ==>
      var q := ApplyRegen(p, now, regen);
      && ClockSet(q, now)
      && (q.lives == q.maxLives <==> p.lives * regen + (now - p.livesUpdatedAt.value) >= p.maxLives * regen)
      && (if q.lives == q.maxLives then q.livesUpdatedAt == Some(now)
          else LifeCredit(q, now, regen) == LifeCredit(p, now, regen) && now - q.livesUpdatedAt.value < regen)
  {
    hide Elapsed;
    if regen > 0 && p.livesUpdatedAt.Some? {
      var d := now - p.livesUpdatedAt.value;
      ElapsedFacts(d, regen);
      if p.lives < p.maxLives && d >= 0 {
        FullStock(p.lives, p.maxLives, d, Elapsed(d, regen), regen);
      }
    }
  }

  /** Regeneration makes no credit. */
  lemma RegenCredit(p: Player, now: int, regen: int)
    requires regen > 0 && ClockSet(p, now) && p.lives <= p.maxLives
    ensures var q := ApplyRegen(p, now, regen);
      ClockSet(q, now) && LifeCredit(q, now, regen) <= LifeCredit(p, now, regen)
  {
    hide ApplyRegen;
    RegenGives(p, now, regen);
  }

  /** `g` whole lives have come in the time `d`. */
  lemma FullStock(lives: int, full: int, d: int, g: int, n: int)
    requires n > 0 && g * n <= d < g * n + n
    ensures lives + g >= full <==> lives * n + d >= full * n
    ensures (lives + g) * n == lives * n + g * n
  {
    assert (lives + g) * n == lives * n + g * n;
    if lives + g >= full {
      MultipleAtMost(full, lives + g, n);
    } else {
      MultipleAtMost(lives + g + 1, full, n);
      assert (lives + g + 1) * n == lives * n + g * n + n;
    }
  }

  lemma MultipleAtMost(a: int, b: int, n: int)
    requires a <= b && n > 0
    ensures a * n <= b * n
  {
    assert (b - a) * n >= 0;
  }

  /** A decision costs the lives it spends and adds the lives it buys; a second clock
      reading only loses credit. */
  lemma DecideCredit(p: Player, d: Decision, now: int, later: int, regen: int)
    requires regen > 0 && ClockSet(p, now) && now <= later && Decide(p, d, later).Ok?
    requires p.lives == p.maxLives ==> p.livesUpdatedAt == Some(now)
    ensures var q := Decide(p, d, later).value;
      && ClockSet(q, later)
      && LifeCredit(q, later, regen)
         <= LifeCredit(p, now, regen) + (later - now) - LivesSpent(d) * regen + LivesBought(d) * regen
  {
    hide Taken, Merged;
    LivesMove(p, d, later);
    var q := Decide(p, d, later).value;
    assert q.lives * regen == p.lives * regen - LivesSpent(d) * regen + LivesBought(d) * regen by {
      Distribute(p.lives, LivesSpent(d), LivesBought(d), regen);
    }
  }

  lemma Distribute(a: int, b: int, c: int, n: int)
    ensures (a - b + c) * n == a * n - b * n + c * n
  {}
}

/** Player profiles: life regeneration and the decisions that services take on a profile
    (player/service.go, shop/service.go, gameplay/service.go, reward/service.go). */
module Profiles {
  import opened Arithmetic
  import opened Wrappers

  type PlayerId = string

  datatype Stats = Stats(runs: int, bestScore: int, totalLoot: int, vaultsCracked: int)

  /** Times are instants in nanoseconds; an unset time is None. */
  datatype Player = Player(
    id: PlayerId, deviceId: string, coins: int, lives: int, maxLives: int, livesUpdatedAt: Option<int>,
    boosters: map<string, int>, stats: Stats, version: int)

  const STARTING_COINS := 500

  function Held(boosters: map<string, int>, b: string): int {
    if b in boosters then boosters[b] else 0
  }

  // ---- regeneration ----

  /** Go's duration division, which truncates toward zero. */
  function Elapsed(d: int, regen: int): int
    requires regen > 0
  {
    if d >= 0 then d / regen else -((-d) / regen)
  }

  function ApplyRegen(p: Player, now: int, regen: int): Player {
    if regen <= 0 then p
    else if p.lives >= p.maxLives then p.(livesUpdatedAt := Some(now))
    else if p.livesUpdatedAt.None? then p.(livesUpdatedAt := Some(now))
    else
      var gained := Elapsed(now - p.livesUpdatedAt.value, regen);
      if gained <= 0 then p
      else if p.lives + gained >= p.maxLives then p.(lives := p.maxLives, livesUpdatedAt := Some(now))
      else p.(lives := p.lives + gained, livesUpdatedAt := Some(p.livesUpdatedAt.value + gained * regen))
  }

  /** The profile as an object whose lives are advanced in place. */
  class Lives {
    var lives: int
    var updatedAt: Option<int>
    const maxLives: int

    constructor (p: Player)
      ensures lives == p.lives && updatedAt == p.livesUpdatedAt && maxLives == p.maxLives
    {
      lives, updatedAt, maxLives := p.lives, p.livesUpdatedAt, p.maxLives;
    }

    ghost function On(p: Player): Player
      reads this
    {
      p.(lives := lives, livesUpdatedAt := updatedAt, maxLives := maxLives)
    }

    method Regenerate(ghost p: Player, now: int, regen: int)
      requires On(p) == p
      modifies this
      ensures On(p) == ApplyRegen(p, now, regen)
    {
      if regen <= 0 {
        return;
      }
      if lives >= maxLives {
        updatedAt := Some(now);
        return;
      }
      if updatedAt.None? {
        updatedAt := Some(now);
        return;
      }
      var gained := Elapsed(now - updatedAt.value, regen);
      if gained <= 0 {
        return;
      }
      lives := lives + gained;
      updatedAt := Some(updatedAt.value + gained * regen);
      if lives >= maxLives {
        lives := maxLives;
        updatedAt := Some(now);
      }
    }
  }

  lemma ElapsedFacts(d: int, regen: int)
    requires regen > 0
    ensures d >= 0 ==> 0 <= Elapsed(d, regen) && Elapsed(d, regen) * regen <= d < Elapsed(d, regen) * regen + regen
    ensures d < 0 ==> Elapsed(d, regen) <= 0
    ensures d < regen ==> Elapsed(d, regen) <= 0
  {
    MultipleSize(d / regen, regen);
    MultipleSize((-d) / regen, regen);
  }

  lemma ElapsedShift(d: int, g: int, regen: int)
    requires regen > 0 && g >= 0 && d - g * regen >= 0
    ensures Elapsed(d - g * regen, regen) == Elapsed(d, regen) - g
    ensures d >= 0
  {
    assert g * regen >= 0;
    assert d - g * regen == (d / regen - g) * regen + d % regen;
    Divide(d / regen - g, d % regen, regen);
  }

  lemma ElapsedGrows(d: int, e: int, regen: int)
    requires regen > 0 && d <= e
    ensures Elapsed(d, regen) > 0 ==> Elapsed(d, regen) <= Elapsed(e, regen)
  {
    hide Elapsed;
    ElapsedFacts(d, regen);
    ElapsedFacts(e, regen);
    var a, b := Elapsed(d, regen), Elapsed(e, regen);
    MultipleSize(a - b, regen);
    assert (a - b) * regen == a * regen - b * regen;
  }

  /** Regeneration is a time action: reading at `t1` and again at `t2` leaves what reading
      at `t2` alone leaves, whatever was persisted in between. The only exception is a
      profile that is not full and whose clock was never set, which the first read starts. */
  lemma RegenComposes(p: Player, t1: int, t2: int, regen: int)
    requires t1 <= t2
    ensures ApplyRegen(ApplyRegen(p, t1, regen), t2, regen) == ApplyRegen(p, t2, regen)
      <==> (regen <= 0 || p.lives >= p.maxLives || p.livesUpdatedAt.Some? || t1 == t2)
  {
    hide Elapsed;
    if regen > 0 && p.lives < p.maxLives {
      ElapsedFacts(0, regen);
      ElapsedFacts(t2 - t1, regen);
      if p.livesUpdatedAt.Some? {
        SetClockComposes(p, t1, t2, regen);
      } else {
        UnsetClock(p, t1, t2, regen);
      }
    }
  }

  lemma UnsetClock(p: Player, t1: int, t2: int, regen: int)
    requires t1 <= t2 && regen > 0 && p.lives < p.maxLives && p.livesUpdatedAt.None?
    ensures ApplyRegen(ApplyRegen(p, t1, regen), t2, regen) == ApplyRegen(p, t2, regen) <==> t1 == t2
  {
    ElapsedFacts(t2 - t1, regen);
  }

  lemma SetClockComposes(p: Player, t1: int, t2: int, regen: int)
    requires t1 <= t2 && regen > 0 && p.lives < p.maxLives && p.livesUpdatedAt.Some?
    ensures ApplyRegen(ApplyRegen(p, t1, regen), t2, regen) == ApplyRegen(p, t2, regen)
  {
    hide Elapsed;
    var u := p.livesUpdatedAt.value;
    var g1, g2 := Elapsed(t1 - u, regen), Elapsed(t2 - u, regen);
    ElapsedGrows(t1 - u, t2 - u, regen);
    ElapsedFacts(t1 - u, regen);
    if g1 > 0 && p.lives + g1 < p.maxLives {
      ElapsedShift(t2 - u, g1, regen);
      assert t2 - (u + g1 * regen) == t2 - u - g1 * regen;
      assert g2 > g1 ==> (g2 - g1) * regen == g2 * regen - g1 * regen;
    }
  }
}

/** Conservation of coins over every interleaving. */
module Money {
  import opened Profiles
  import opened Decisions
  import opened Store
  import opened Protocol
  import opened Histories
  import opened Linearity
  import opened Settlement
  import opened Payouts

  ghost function Worth(s: Sys, p: PlayerId, id: RewardId): int {
    if (p, id) in s.db.rewards then s.db.rewards[(p, id)].coins else 0
  }

  ghost predicate IsClaimed(s: Sys, p: PlayerId, id: RewardId) {
    (p, id) in s.db.rewards && s.db.rewards[(p, id)].status == Claimed
  }

  /** Coins of the player's claimed rewards, among the first `n` granted. */
  ghost function ClaimedSum(s: Sys, p: PlayerId, n: nat): int
    requires n <= |OwnedBy(s.db, p)|
  {
    if n == 0 then 0
    else var id := OwnedBy(s.db, p)[n - 1]; ClaimedSum(s, p, n - 1) + if IsClaimed(s, p, id) then Worth(s, p, id) else 0
  }

  /** Coins of the claimed rewards that the profile has not been credited with. */
  ghost function UncreditedSum(s: Sys, p: PlayerId, n: nat): int
    requires n <= |OwnedBy(s.db, p)|
  {
    if n == 0 then 0
    else
      var id := OwnedBy(s.db, p)[n - 1];
      UncreditedSum(s, p, n - 1) + if IsClaimed(s, p, id) && !Credited(LogOf(s, p), id) then Worth(s, p, id) else 0
  }

  ghost function Price(d: Decision): int {
    if d.Buy? then d.item.price else 0
  }

  /** Prices paid in the first `m` commits. */
  ghost function PaidSum(log: seq<Commit>, m: nat): int
    requires m <= |log|
  {
    if m == 0 then 0 else PaidSum(log, m - 1) + Price(log[m - 1].decision)
  }

  ghost function CreditCoins(d: Decision): int {
    if d.Credit? then d.coins else 0
  }

  ghost function CreditSum(log: seq<Commit>, m: nat): int
    requires m <= |log|
  {
    if m == 0 then 0 else CreditSum(log, m - 1) + CreditCoins(log[m - 1].decision)
  }

  lemma {:induction false} CoinsSplit(log: seq<Commit>, m: nat)
    requires m <= |log|
    ensures CoinSum(log, m) == CreditSum(log, m) - PaidSum(log, m)
    decreases m
  {
    if m > 0 { CoinsSplit(log, m - 1); }
  }

  // ---- credits, reward by reward ----

  /** One of the first `m` commits credited the reward. */
  ghost predicate CreditedBy(log: seq<Commit>, m: nat, id: RewardId) {
    exists i :: i < m && CreditedAt(log, i, id)
  }

  /** Coins of the first `n` rewards that the first `m` commits credited. */
  ghost function CreditedSum(s: Sys, p: PlayerId, m: nat, n: nat): int
    requires n <= |OwnedBy(s.db, p)|
  {
    if n == 0 then 0
    else
      var id := OwnedBy(s.db, p)[n - 1];
      CreditedSum(s, p, m, n - 1) + if CreditedBy(LogOf(s, p), m, id) then Worth(s, p, id) else 0
  }

  lemma {:induction false} NoCredits(s: Sys, p: PlayerId, n: nat)
    requires n <= |OwnedBy(s.db, p)|
    ensures CreditedSum(s, p, 0, n) == 0
    decreases n
  {
    hide Worth;
    if n > 0 { NoCredits(s, p, n - 1); }
  }

  /** What commit `m` adds for reward `id`. */
  ghost function Added(s: Sys, p: PlayerId, m: nat, id: RewardId): int
    requires m < |LogOf(s, p)|
  {
    if CreditedAt(LogOf(s, p), m, id) then Worth(s, p, id) else 0
  }

  lemma CreditedByOne(s: Sys, p: PlayerId, m: nat, id: RewardId)
    requires CreditsOk(s) && m < |LogOf(s, p)|
    ensures CreditedBy(LogOf(s, p), m + 1, id) <==> CreditedBy(LogOf(s, p), m, id) || CreditedAt(LogOf(s, p), m, id)
    ensures CreditedAt(LogOf(s, p), m, id) ==> !CreditedBy(LogOf(s, p), m, id)
  {
    hide CreditedAt, LogOf, Matches, Holds, At;
    assert CreditOk(s, p, m, id);
  }

  ghost function AddedSum(s: Sys, p: PlayerId, m: nat, n: nat): int
    requires m < |LogOf(s, p)| && n <= |OwnedBy(s.db, p)|
  {
    if n == 0 then 0 else AddedSum(s, p, m, n - 1) + Added(s, p, m, OwnedBy(s.db, p)[n - 1])
  }

  lemma {:induction false} CreditedGrows(s: Sys, p: PlayerId, m: nat, n: nat)
    requires CreditsOk(s) && m < |LogOf(s, p)| && n <= |OwnedBy(s.db, p)|
    ensures CreditedSum(s, p, m + 1, n) == CreditedSum(s, p, m, n) + AddedSum(s, p, m, n)
    decreases n
  {
    hide Worth, CreditsOk, LogOf, OwnedBy, CreditedBy;
    if n > 0 {
      CreditedGrows(s, p, m, n - 1);
      CreditedByOne(s, p, m, OwnedBy(s.db, p)[n - 1]);
    }
  }

  /** A commit adds the worth of the one reward it credits, if it is among the first `n`. */
  lemma {:induction false} AddedIs(s: Sys, p: PlayerId, m: nat, n: nat, x: int)
    requires m < |LogOf(s, p)| && n <= |OwnedBy(s.db, p)| && OwnersOk(s.db) && LogOf(s, p)[m].decision.Credit?
    requires 0 <= x < |OwnedBy(s.db, p)| && OwnedBy(s.db, p)[x] == LogOf(s, p)[m].decision.reward
    ensures AddedSum(s, p, m, n) == if x < n then Worth(s, p, OwnedBy(s.db, p)[x]) else 0
    decreases n
  {
    hide Worth, LogOf, OwnedBy;
    if n > 0 {
      AddedIs(s, p, m, n - 1, x);
      assert n - 1 != x ==> OwnedBy(s.db, p)[n - 1] != OwnedBy(s.db, p)[x];
    }
  }

  lemma {:induction false} AddedNothing(s: Sys, p: PlayerId, m: nat, n: nat)
    requires m < |LogOf(s, p)| && n <= |OwnedBy(s.db, p)| && !LogOf(s, p)[m].decision.Credit?
    ensures AddedSum(s, p, m, n) == 0
    decreases n
  {
    hide Worth, LogOf, OwnedBy;
    if n > 0 { AddedNothing(s, p, m, n - 1); }
  }

  /** The credits in a history are the worth of the rewards they credited. */
  lemma {:induction false} CreditsAreWorth(s: Sys, p: PlayerId, m: nat)
    requires CreditsOk(s) && OwnersOk(s.db) && m <= |LogOf(s, p)|
    ensures CreditSum(LogOf(s, p), m) == CreditedSum(s, p, m, |OwnedBy(s.db, p)|)
    decreases m
  {
    hide CreditsOk, OwnersOk, LogOf, OwnedBy, CreditedSum, AddedSum;
    var n := |OwnedBy(s.db, p)|;
    if m == 0 {
      NoCredits(s, p, n);
    } else {
      CreditsAreWorth(s, p, m - 1);
      CreditedGrows(s, p, m - 1, n);
      if LogOf(s, p)[m - 1].decision.Credit? {
        var x := CreditIsOwned(s, p, m - 1);
        AddedIs(s, p, m - 1, n, x);
      } else {
        AddedNothing(s, p, m - 1, n);
      }
    }
  }

  lemma CreditIsOwned(s: Sys, p: PlayerId, m: nat) returns (x: int)
    requires CreditsOk(s) && OwnersOk(s.db) && m < |LogOf(s, p)| && LogOf(s, p)[m].decision.Credit?
    ensures 0 <= x < |OwnedBy(s.db, p)| && OwnedBy(s.db, p)[x] == LogOf(s, p)[m].decision.reward
    ensures LogOf(s, p)[m].decision.coins == Worth(s, p, OwnedBy(s.db, p)[x])
  {
    hide LogOf, OwnedBy, At, Holds;
    var id := LogOf(s, p)[m].decision.reward;
    assert CreditedAt(LogOf(s, p), m, id);
    assert CreditOk(s, p, m, id);
    assert id in OwnedBy(s.db, p);
    x :| 0 <= x < |OwnedBy(s.db, p)| && OwnedBy(s.db, p)[x] == id;
  }

  lemma CreditedIsClaimed(s: Sys, p: PlayerId, id: RewardId)
    requires CreditsOk(s) && Credited(LogOf(s, p), id)
    ensures IsClaimed(s, p, id) && CreditedBy(LogOf(s, p), |LogOf(s, p)|, id)
  {
    hide LogOf, At, Holds;
    var i :| CreditedAt(LogOf(s, p), i, id);
    assert CreditOk(s, p, i, id);
  }

  lemma {:induction false} ClaimedSplits(s: Sys, p: PlayerId, n: nat)
    requires CreditsOk(s) && n <= |OwnedBy(s.db, p)|
    ensures ClaimedSum(s, p, n) == CreditedSum(s, p, |LogOf(s, p)|, n) + UncreditedSum(s, p, n)
    decreases n
  {
    hide CreditsOk, LogOf, OwnedBy, Worth, IsClaimed;
    if n > 0 {
      ClaimedSplits(s, p, n - 1);
      var id := OwnedBy(s.db, p)[n - 1];
      if Credited(LogOf(s, p), id) { CreditedIsClaimed(s, p, id); }
    }
  }

  /** Money is conserved: in every reachable state of every interleaving of finishes,
      claims, purchases and distributor passes, a player's coins are the starting coins plus
      everything claimed, less what was claimed but not (or not yet) credited, less the
      prices paid. */
  lemma CoinsAreConserved(states: seq<Sys>, steps: seq<Step>, n: nat, p: PlayerId)
    requires Execution(states, steps) && n < |states| && p in states[n].db.players
    ensures var s := states[n]; var owned := |OwnedBy(s.db, p)|;
      s.db.players[p].coins
        == 500 + ClaimedSum(s, p, owned) - UncreditedSum(s, p, owned) - PaidSum(LogOf(s, p), |LogOf(s, p)|)
  {
    hide Execution, OwnedBy, ClaimedSum, UncreditedSum, CreditedSum, PaidSum, CoinSum, CreditSum, Accepted, After,
         CreditsOk, RunsOk, Snapshots, OwnersOk;
    var s := states[n];
    ExecutionSafe(states, steps, n);
    ProfilesAreLinear(states, steps, n, p);
    StartsWith(s, p);
    var log := s.log[p];
    HistoryCoins(s.created[p], log, |log|, s.regen);
    CoinsSplit(log, |log|);
    CreditsAreWorth(s, p, |log|);
    ClaimedSplits(s, p, |OwnedBy(s.db, p)|);
  }

  lemma StartsWith(s: Sys, p: PlayerId)
    requires Linear(s) && p in s.db.players
    ensures p in s.created && s.created[p].coins == STARTING_COINS && p in s.log && LogOf(s, p) == s.log[p]
  {
    assert LinearAt(s.db.players[p], s.created[p], s.log[p], s.regen, s.clock);
  }

  /** What was claimed but not credited: at most one request has it in hand, so the
      difference is in flight or lost, never paid twice. */
  lemma UncreditedInOneHand(states: seq<Sys>, steps: seq<Step>, n: nat, c: nat, c': nat, k: RewardKey)
    requires Execution(states, steps) && n < |states| && Holds(At(states[n], c), k)
    ensures IsClaimed(states[n], k.0, k.1) && !Credited(LogOf(states[n], k.0), k.1)
    ensures Holds(At(states[n], c'), k) ==> c == c'
  {
    hide Execution, LogOf, Holds, At;
    ExecutionSafe(states, steps, n);
    assert HolderOk(states[n], c, k);
  }
}

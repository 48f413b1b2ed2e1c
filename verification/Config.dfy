/** Tiles, weights and event configurations (config.go). */
module Config {
  const KEY := 0
  const LASER := 1
  const CAMERA := 2
  const MONEY := 3
  const DIAMOND := 4
  const GUARD := 5
  const LOCK := 6
  const EMPTY := -1

  const EXTRA_MOVES_BONUS := 3
  const GUARD_BONUS_CAP := 20

  datatype Booster = ExtraMoves | Shield

  datatype Objectives = Objectives(key: int, laser: int, camera: int)

  datatype Weights = Weights(key: int, laser: int, camera: int, money: int, diamond: int, guard: int) {
    function Total(): int {
      key + laser + camera + money + diamond + guard
    }

    function Ordered(): (s: seq<int>)
      ensures |s| == 6
    {
      [key, laser, camera, money, diamond, guard]
    }

    ghost predicate NonNegative() {
      key >= 0 && laser >= 0 && camera >= 0 && money >= 0 && diamond >= 0 && guard >= 0
    }
  }

  datatype Vault = Vault(moves: int, objectives: Objectives, locks: int, weights: Weights)

  datatype EventConfig = EventConfig(
    seed: bv32, difficulty: real, lootMultiplier: real, livesCost: int, w: int, h: int,
    vaultMultipliers: seq<real>, bustPenalty: real, vaults: seq<Vault>)

  // ---- validation ----

  /** Go's integer division, which truncates toward zero. */
  function Quotient(a: int, b: int): int
    requires b > 0
  {
    if a >= 0 then a / b else -((-a) / b)
  }

  ghost predicate ValidVault(v: Vault, cells: int) {
    && 1 <= v.moves <= 200
    && 0 <= v.locks < Quotient(cells, 2)
    && v.weights.Total() > 0
    && v.weights.NonNegative()
    && v.objectives.key >= 0 && v.objectives.laser >= 0 && v.objectives.camera >= 0
    && (v.objectives.key > 0 || v.objectives.laser > 0 || v.objectives.camera > 0)
    && (v.objectives.key > 0 ==> v.weights.key > 0)
    && (v.objectives.laser > 0 ==> v.weights.laser > 0)
    && (v.objectives.camera > 0 ==> v.weights.camera > 0)
  }

  /** What every stored configuration satisfies. */
  ghost predicate Valid(c: EventConfig) {
    && 4 <= c.w <= 12 && 4 <= c.h <= 12
    && 0.25 <= c.difficulty <= 4.0
    && 0.1 <= c.lootMultiplier <= 10.0
    && 0 <= c.livesCost <= 5
    && 0.0 <= c.bustPenalty <= 1.0
    && 1 <= |c.vaults| <= 10
    && |c.vaultMultipliers| == |c.vaults|
    && (forall i :: 0 <= i < |c.vaultMultipliers| ==> 0.0 < c.vaultMultipliers[i] <= 50.0)
    && (forall i :: 0 <= i < |c.vaults| ==> ValidVault(c.vaults[i], c.w * c.h))
  }

  datatype ConfigError =
    | BadGrid | BadDifficulty | BadLootMultiplier | BadLivesCost | BadBustPenalty | BadVaultCount | BadMultiplierCount
    | BadMultiplier(i: nat) | BadMoves(i: nat) | BadLocks(i: nat) | NoWeight(i: nat) | NegativeWeight(i: nat)
    | NegativeObjective(i: nat) | NoObjective(i: nat) | Unwinnable(i: nat)

  /** What vault `i` has to be reported for. */
  ghost predicate VaultFlaw(v: Vault, cells: int, i: nat, e: ConfigError) {
    var o, ws := v.objectives, v.weights;
    match e
    case BadMoves(k) => k == i && !(1 <= v.moves <= 200)
    case BadLocks(k) => k == i && !(0 <= v.locks < Quotient(cells, 2))
    case NoWeight(k) => k == i && ws.Total() <= 0
    case NegativeWeight(k) => k == i && !ws.NonNegative()
    case NegativeObjective(k) => k == i && (o.key < 0 || o.laser < 0 || o.camera < 0)
    case NoObjective(k) => k == i && o == Objectives(0, 0, 0)
    case Unwinnable(k) =>
      k == i && ((o.key > 0 && ws.key == 0) || (o.laser > 0 && ws.laser == 0) || (o.camera > 0 && ws.camera == 0))
    case _ => false
  }

  /** What a configuration has to be reported for. */
  ghost predicate Flaw(c: EventConfig, e: ConfigError) {
    match e
    case BadGrid => !(4 <= c.w <= 12 && 4 <= c.h <= 12)
    case BadDifficulty => !(0.25 <= c.difficulty <= 4.0)
    case BadLootMultiplier => !(0.1 <= c.lootMultiplier <= 10.0)
    case BadLivesCost => !(0 <= c.livesCost <= 5)
    case BadBustPenalty => !(0.0 <= c.bustPenalty <= 1.0)
    case BadVaultCount => !(1 <= |c.vaults| <= 10)
    case BadMultiplierCount => |c.vaultMultipliers| != |c.vaults|
    case BadMultiplier(k) => k < |c.vaultMultipliers| && !(0.0 < c.vaultMultipliers[k] <= 50.0)
    case _ => SomeVaultFlaw(c, |c.vaults|, e)
  }

  ghost predicate SomeVaultFlaw(c: EventConfig, n: nat, e: ConfigError)
    requires n <= |c.vaults|
  {
    exists i: nat :: i < n && VaultFlaw(c.vaults[i], c.w * c.h, i, e)
  }

  lemma FlawlessVault(v: Vault, cells: int, i: nat)
    ensures ValidVault(v, cells) <==> forall e :: !VaultFlaw(v, cells, i, e)
  {
    if forall e :: !VaultFlaw(v, cells, i, e) {
      assert !VaultFlaw(v, cells, i, BadMoves(i)) && !VaultFlaw(v, cells, i, BadLocks(i));
      assert !VaultFlaw(v, cells, i, NoWeight(i));
      assert !VaultFlaw(v, cells, i, NegativeWeight(i)) && !VaultFlaw(v, cells, i, NegativeObjective(i));
      assert !VaultFlaw(v, cells, i, NoObjective(i)) && !VaultFlaw(v, cells, i, Unwinnable(i));
    }
  }

  /** A configuration is valid exactly when there is nothing to report. */
  lemma FlawlessConfig(c: EventConfig)
    ensures Valid(c) <==> forall e :: !Flaw(c, e)
  {
    hide VaultFlaw, ValidVault;
    if Valid(c) {
      forall e, i: nat | i < |c.vaults| ensures !VaultFlaw(c.vaults[i], c.w * c.h, i, e) {
        FlawlessVault(c.vaults[i], c.w * c.h, i);
      }
    }
    if forall e :: !Flaw(c, e) {
      assert !Flaw(c, BadGrid) && !Flaw(c, BadDifficulty) && !Flaw(c, BadLootMultiplier) && !Flaw(c, BadLivesCost);
      assert !Flaw(c, BadBustPenalty) && !Flaw(c, BadVaultCount) && !Flaw(c, BadMultiplierCount);
      forall k: nat | k < |c.vaultMultipliers| ensures 0.0 < c.vaultMultipliers[k] <= 50.0 {
        assert !Flaw(c, BadMultiplier(k));
      }
      forall i: nat | i < |c.vaults| ensures ValidVault(c.vaults[i], c.w * c.h) {
        NoVaultFlaw(c, i);
      }
    }
  }

  lemma NoVaultFlaw(c: EventConfig, i: nat)
    requires i < |c.vaults| && forall e :: !Flaw(c, e)
    ensures ValidVault(c.vaults[i], c.w * c.h)
  {
    forall e ensures !VaultFlaw(c.vaults[i], c.w * c.h, i, e) {
      assert !Flaw(c, e);
    }
    FlawlessVault(c.vaults[i], c.w * c.h, i);
  }

  /** The list with one more problem, if there is one. */
  function Noted(errs: seq<ConfigError>, bad: bool, e: ConfigError): (r: seq<ConfigError>)
    ensures forall x :: x in r <==> x in errs || (bad && x == e)
  {
    if bad then errs + [e] else errs
  }

  method AnyNegative(ws: Weights) returns (found: bool)
    ensures found <==> !ws.NonNegative()
  {
    var ordered := ws.Ordered();
    for k := 0 to 6
      invariant forall j :: 0 <= j < k ==> ordered[j] >= 0
    {
      if ordered[k] < 0 {
        return true;
      }
    }
    assert ordered[0] >= 0 && ordered[1] >= 0 && ordered[2] >= 0 && ordered[3] >= 0 && ordered[4] >= 0;
    assert ordered[5] >= 0;
    return false;
  }

  method ValidateObjectives(i: nat, v: Vault, errs: seq<ConfigError>) returns (errs': seq<ConfigError>)
    ensures forall e :: e in errs' <==>
      e in errs || ((e.NegativeObjective? || e.NoObjective? || e.Unwinnable?) && VaultFlaw(v, 0, i, e))
  {
    hide Noted, ValidVault, Quotient;
    var o, ws := v.objectives, v.weights;
    errs' := Noted(errs, o.key < 0 || o.laser < 0 || o.camera < 0, NegativeObjective(i));
    errs' := Noted(errs', o.key == 0 && o.laser == 0 && o.camera == 0, NoObjective(i));
    var unwinnable := (o.key > 0 && ws.key == 0) || (o.laser > 0 && ws.laser == 0) || (o.camera > 0 && ws.camera == 0);
    errs' := Noted(errs', unwinnable, Unwinnable(i));
  }

  method ValidateVault(i: nat, v: Vault, cells: int) returns (errs: seq<ConfigError>)
    ensures forall e :: e in errs <==> VaultFlaw(v, cells, i, e)
  {
    hide Noted, ValidVault, Quotient;
    errs := [];
    errs := Noted(errs, v.moves < 1 || v.moves > 200, BadMoves(i));
    errs := Noted(errs, v.locks < 0 || v.locks >= Quotient(cells, 2), BadLocks(i));
    errs := Noted(errs, v.weights.Total() <= 0, NoWeight(i));
    var negative := AnyNegative(v.weights);
    errs := Noted(errs, negative, NegativeWeight(i));
    errs := ValidateObjectives(i, v, errs);
  }

  method ValidateScales(c: EventConfig) returns (errs: seq<ConfigError>)
    ensures forall e :: e in errs <==> Flaw(c, e) && (e.BadGrid? || e.BadDifficulty? || e.BadLootMultiplier?)
  {
    hide VaultFlaw, Noted, Valid, ValidVault, SomeVaultFlaw;
    errs := [];
    errs := Noted(errs, c.w < 4 || c.w > 12 || c.h < 4 || c.h > 12, BadGrid);
    errs := Noted(errs, c.difficulty < 0.25 || c.difficulty > 4.0, BadDifficulty);
    errs := Noted(errs, c.lootMultiplier < 0.1 || c.lootMultiplier > 10.0, BadLootMultiplier);
  }

  method ValidateEvent(c: EventConfig) returns (errs: seq<ConfigError>)
    ensures forall e :: e in errs <==> Flaw(c, e) && !e.BadMultiplier? && !SomeVaultFlaw(c, |c.vaults|, e)
  {
    hide VaultFlaw, Noted, Valid, ValidVault, SomeVaultFlaw;
    errs := ValidateScales(c);
    errs := Noted(errs, c.livesCost < 0 || c.livesCost > 5, BadLivesCost);
    errs := Noted(errs, c.bustPenalty < 0.0 || c.bustPenalty > 1.0, BadBustPenalty);
    errs := Noted(errs, |c.vaults| == 0 || |c.vaults| > 10, BadVaultCount);
    errs := Noted(errs, |c.vaultMultipliers| != |c.vaults|, BadMultiplierCount);
    OnlyVaultFlaws(c);
  }

  lemma OnlyVaultFlaws(c: EventConfig)
    ensures forall e :: SomeVaultFlaw(c, |c.vaults|, e) ==>
      || e.BadMoves? || e.BadLocks? || e.NoWeight? || e.NegativeWeight?
      || e.NegativeObjective? || e.NoObjective? || e.Unwinnable?
  {}

  /** Every problem of a configuration is reported, and nothing else. */
  method Validate(c: EventConfig) returns (errs: seq<ConfigError>)
    ensures forall e :: e in errs <==> Flaw(c, e)
    ensures errs == [] <==> Valid(c)
  {
    hide VaultFlaw, ValidVault, Noted;
    OnlyVaultFlaws(c);
    errs := ValidateEvent(c);
    ghost var before := errs;
    for i := 0 to |c.vaultMultipliers|
      invariant forall e :: e in errs <==> e in before || (e.BadMultiplier? && e.i < i && Flaw(c, e))
    {
      errs := Noted(errs, c.vaultMultipliers[i] <= 0.0 || c.vaultMultipliers[i] > 50.0, BadMultiplier(i));
    }
    before := errs;
    for i := 0 to |c.vaults|
      invariant forall e :: e in errs <==> e in before || SomeVaultFlaw(c, i, e)
    {
      var more := ValidateVault(i, c.vaults[i], c.w * c.h);
      errs := errs + more;
      OneMoreVault(c, i);
    }
    FlawlessConfig(c);
    assert errs != [] ==> errs[0] in errs;
  }

  lemma OneMoreVault(c: EventConfig, n: nat)
    requires n < |c.vaults|
    ensures forall e :: SomeVaultFlaw(c, n + 1, e) <==>
      SomeVaultFlaw(c, n, e) || VaultFlaw(c.vaults[n], c.w * c.h, n, e)
  {}

  // ---- objectives and loot tables ----

  /** The difficulty in percent, rounded half up. */
  function DifficultyPct(c: EventConfig): int {
    (c.difficulty * 100.0 + 0.5).Floor
  }

  function Scale(v: int, pct: int): int {
    if v == 0 then 0 else Quotient(v * pct + 50, 100)
  }

  function ScaledObjectives(base: Objectives, pct: int): Objectives {
    Objectives(Scale(base.key, pct), Scale(base.laser, pct), Scale(base.camera, pct))
  }

  function AllDone(o: Objectives): bool {
    o.key == 0 && o.laser == 0 && o.camera == 0
  }

  function ChainPct(n: int): int {
    if n >= 6 then 300 else if n == 5 then 200 else if n == 4 then 150 else 100
  }

  function BaseLoot(t: int): int {
    if t == KEY || t == LASER || t == CAMERA then 40
    else if t == MONEY then 100
    else if t == DIAMOND then 250
    else if t == GUARD then 30
    else 0
  }

  function RoundHalfUp(x: real): int {
    (x + 0.5).Floor
  }
}

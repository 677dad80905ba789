/** The shape of a weapon catalog: an array of weapon records ordered by the
    number of kills that unlocks each tier, and the properties the kill
    progression relies on. Both catalogs of the game are values of this
    shape. */
module WeaponCatalog {
  import opened Ammo
  import opened Options

  /** The fields of a catalog record that the game logic reads; model,
      offset, animation, audio and zoom fields are presentation only. */
  datatype Weapon = Weapon(
    name: string,
    damage: nat,
    fireRate: nat,           // ms between shots
    range: nat,
    maxAmmo: Ammo,
    reloadTime: nat,         // ms
    spread: real,
    spreadRecoveryTime: nat, // ms
    requiredKills: nat,      // kills that unlock this tier
    headDamage: nat,
    bodyDamage: nat,
    limbDamage: nat,
    victory: bool)           // holding it wins the game

  /** The tiers a fresh player can hold: those unlocked by zero kills. */
  function StartingTiers(c: seq<Weapon>): set<nat>
  {
    set i: nat | i < |c| && c[i].requiredKills == 0
  }

  /** The tiers whose weapon wins the game. */
  function VictoryTiers(c: seq<Weapon>): set<nat>
  {
    set i: nat | i < |c| && c[i].victory
  }

  /** Each tier needs more kills than the one before it. */
  predicate KillsStepUp(c: seq<Weapon>)
  {
    forall i :: 0 < i < |c| ==> c[i - 1].requiredKills < c[i].requiredKills
  }

  /** Any later tier needs more kills than any earlier one. */
  predicate KillsOrdered(c: seq<Weapon>)
  {
    forall i, j :: 0 <= i < j < |c| ==> c[i].requiredKills < c[j].requiredKills
  }

  predicate DistinctNames(c: seq<Weapon>)
  {
    forall i, j :: 0 <= i < j < |c| ==> c[i].name != c[j].name
  }

  /** A head shot deals at least a body shot, a body shot at least a limb
      shot. */
  predicate DamageByLocationOrdered(c: seq<Weapon>)
  {
    forall i :: 0 <= i < |c| ==> c[i].headDamage >= c[i].bodyDamage >= c[i].limbDamage
  }

  /** Checking neighbours is enough: a catalog whose kill thresholds step up
      tier by tier is ordered between any two tiers. */
  lemma {:induction false} StepUpOrdersAll(c: seq<Weapon>)
    requires KillsStepUp(c)
    ensures KillsOrdered(c)
  {
    if |c| > 1 {
      var init := c[..|c| - 1];
      assert KillsStepUp(init) by {
        forall i | 0 < i < |init| ensures init[i - 1].requiredKills < init[i].requiredKills {
          assert init[i - 1] == c[i - 1] && init[i] == c[i];
        }
      }
      StepUpOrdersAll(init);
      forall i, j | 0 <= i < j < |c| ensures c[i].requiredKills < c[j].requiredKills {
        if j < |c| - 1 {
          assert init[i] == c[i] && init[j] == c[j];
        } else if i < j - 1 {
          assert init[i] == c[i] && init[j - 1] == c[j - 1];
        }
      }
    }
  }

  /** The tier a player with `kills` kills has earned: the last tier whose
      threshold `kills` reaches, or none when even the first is out of
      reach. */
  function TierFor(c: seq<Weapon>, kills: nat): (r: Option<nat>)
    ensures r.Some? ==> r.value < |c| && c[r.value].requiredKills <= kills
    ensures r.Some? ==> forall j :: r.value < j < |c| ==> kills < c[j].requiredKills
    ensures r.None? ==> forall j :: 0 <= j < |c| ==> kills < c[j].requiredKills
  {
    if c == [] then None
    else if c[|c| - 1].requiredKills <= kills then Some(|c| - 1)
    else
      var r := TierFor(c[..|c| - 1], kills);
      assert forall j :: 0 <= j < |c| - 1 ==> c[..|c| - 1][j] == c[j];
      r
  }

  /** More kills never lose a tier. */
  lemma TierForMonotone(c: seq<Weapon>, k1: nat, k2: nat)
    requires k1 <= k2 && TierFor(c, k1).Some?
    ensures TierFor(c, k2).Some? && TierFor(c, k1).value <= TierFor(c, k2).value
  {
  }

  /** In an ordered catalog each tier is exactly the one earned at its own
      threshold. */
  lemma TierAtThreshold(c: seq<Weapon>, i: nat)
    requires KillsOrdered(c) && i < |c|
    ensures TierFor(c, c[i].requiredKills) == Some(i)
  {
  }
}

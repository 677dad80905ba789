/** The alternate two-tier catalog: a pistol to start with and a melee
    baguette, earned with the first kill, that wins the game. */
module WeaponsConfigTest {
  import opened Ammo
  import opened WeaponCatalog
  import EntityController

  function Weapons(): (c: seq<Weapon>)
    ensures |c| == 2 && c[0].name == "pistol" && c[1].name == "baguette"
  {
    [
      Weapon("pistol",   15,  500, 25, Rounds(6), 1800, 0.03, 200, 0, 35,  20,  15,  false),
      Weapon("baguette", 100, 2000, 2, Unlimited, 0,    0.0,  0,   1, 100, 100, 100, true)
    ]
  }

  const Pistol: Weapon := Weapons()[0]
  const Baguette: Weapon := Weapons()[1]

  /** Two tiers: the pistol with no kills, the baguette with one. */
  lemma TwoTiers()
    ensures |Weapons()| == 2
    ensures Pistol.name == "pistol" && Pistol.requiredKills == 0
    ensures Baguette.name == "baguette" && Baguette.requiredKills == 1
    ensures StartingTiers(Weapons()) == {0} && KillsOrdered(Weapons())
  {
    assert forall i: nat | i < |Weapons()| && Weapons()[i].requiredKills == 0 :: i == 0;
  }

  /** Only the baguette wins the game. */
  lemma OnlyBaguetteWins()
    ensures VictoryTiers(Weapons()) == {1}
  {
    assert forall i: nat | i < |Weapons()| && Weapons()[i].victory :: i == 1;
  }

  /** Under the damage rule a baguette hit kills a full-health combatant
      wherever it lands. */
  lemma BaguetteOneHitKill(loc: EntityController.HitLocation)
    ensures EntityController.HealthAfterDamage(EntityController.FullHealth,
              EntityController.LocationDamage(loc, Baguette.headDamage, Baguette.bodyDamage, Baguette.limbDamage) as real)
            == 0.0
  {
    EntityController.LethalHit(EntityController.FullHealth, 100.0);
  }

  /** The baguette's magazine is unlimited: the `ammo > 0` gate never blocks
      it however many swings it has made, and a full magazine never asks for
      a reload. */
  lemma BaguetteNeverRunsDry(swings: nat)
    ensures HasRounds(SpendTimes(Baguette.maxAmmo, swings))
    ensures SpendTimes(Baguette.maxAmmo, swings) == Unlimited
    ensures AtLeast(SpendTimes(Baguette.maxAmmo, swings), Baguette.maxAmmo)
  {
    UnlimitedNeverRunsDry(swings);
  }

  /** The baguette has no spread and no recovery time, so the spread update
      always takes its no-division branch and yields 0. */
  lemma BaguetteHasNoSpread(sinceLastShot: int)
    requires 0 <= sinceLastShot
    ensures EntityController.SpreadAfter(Baguette.spread, Baguette.spreadRecoveryTime, sinceLastShot) == 0.0
  {
  }

  /** The pistol's damage falls strictly from head to body to limbs. */
  lemma PistolDamageStrictlyOrdered()
    ensures Pistol.headDamage > Pistol.bodyDamage > Pistol.limbDamage
    ensures Pistol.headDamage == 35 && Pistol.bodyDamage == 20 && Pistol.limbDamage == 15
  {
  }
}

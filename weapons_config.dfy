/** The game's six-tier weapon catalog, from the pistol every player starts
    with to the baguette that wins the game. */
module WeaponsConfig {
  import opened Ammo
  import opened Options
  import opened WeaponCatalog

  function Weapons(): (c: seq<Weapon>)
    ensures |c| == 6 && c[0].name == "pistol" && c[5].name == "baguette"
  {
    [
      Weapon("pistol",   20, 500, 50, Rounds(20), 2200, 0.06,  100, 0, 10, 5, 3, false),
      Weapon("ak47",     15, 100, 70, Rounds(30), 2500, 0.055, 300, 1, 14, 7, 3, false),
      Weapon("shotgun",  15, 100, 70, Rounds(30), 2500, 0.055, 300, 2, 14, 7, 3, false),
      Weapon("awp",      15, 100, 70, Rounds(30), 2500, 0.055, 300, 3, 14, 7, 3, false),
      Weapon("rpg",      15, 100, 70, Rounds(30), 2500, 0.055, 300, 4, 14, 7, 3, false),
      Weapon("baguette", 15, 100, 70, Rounds(30), 2500, 0.055, 300, 5, 14, 7, 3, true)
    ]
  }

  /** Exactly one tier is unlocked with no kills, and it is the pistol. */
  lemma UniqueStartingTier()
    ensures StartingTiers(Weapons()) == {0}
    ensures Weapons()[0].name == "pistol"
  {
    assert forall i: nat | i < |Weapons()| && Weapons()[i].requiredKills == 0 :: i == 0;
  }

  /** The kill thresholds rise strictly from tier to tier. */
  lemma KillsStrictlyIncreasing()
    ensures KillsOrdered(Weapons())
  {
    StepUpOrdersAll(Weapons());
  }

  /** Exactly one weapon wins the game: the baguette, the last and highest
      tier. */
  lemma SingleVictoryWeapon()
    ensures VictoryTiers(Weapons()) == {|Weapons()| - 1}
    ensures Weapons()[|Weapons()| - 1].name == "baguette"
    ensures forall i :: 0 <= i < |Weapons()| ==> Weapons()[i].requiredKills <= Weapons()[|Weapons()| - 1].requiredKills
  {
    assert forall i: nat | i < |Weapons()| && Weapons()[i].victory :: i == |Weapons()| - 1;
  }

  lemma NamesDistinct()
    ensures DistinctNames(Weapons())
  {
  }

  lemma DamageOrdered()
    ensures DamageByLocationOrdered(Weapons())
  {
  }

  /** Every weapon has rounds in a full magazine, a positive fire interval,
      reload time and spread recovery time. */
  lemma PositiveTimings()
    ensures forall i :: 0 <= i < |Weapons()| ==>
              && HasRounds(Weapons()[i].maxAmmo) && Weapons()[i].fireRate > 0
              && Weapons()[i].reloadTime > 0 && Weapons()[i].spreadRecoveryTime > 0
  {
  }

  /** With thresholds 0 to 5, `k` kills earn tier `k`, capped at the
      baguette. */
  lemma TierProgression(k: nat)
    ensures TierFor(Weapons(), k) == Some(if k < 5 then k else 5)
  {
    KillsStrictlyIncreasing();
    var t := if k < 5 then k else 5;
    TierAtThreshold(Weapons(), t);
    if 5 < k {
      TierForMonotone(Weapons(), 5, k);
    }
  }
}

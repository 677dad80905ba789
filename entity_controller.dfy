/** One player's combat state: health and death, the kill-driven switch to
    the AK-47 and the victory message, respawn with the weapon held at death,
    reloading, the fire gate, spread recovery and recoil, and the hit-location
    damage table. The controller keeps its own two-entry weapon table. */
module EntityController {
  import opened Ammo
  import opened Options

  // ---------------------------------------------------------------------
  // The controller's inline weapon table
  // ---------------------------------------------------------------------

  datatype WeaponName = Pistol | Ak47

  /** The fields of the controller's own weapon record that the combat logic
      reads (model, animation and audio names are presentation only). */
  datatype WeaponConfig = WeaponConfig(
    damage: nat,
    fireRate: nat,           // ms between shots
    range: nat,
    maxAmmo: Ammo,
    reloadTime: nat,         // ms
    spread: real,
    spreadRecoveryTime: nat, // ms
    headDamage: nat,
    bodyDamage: nat,
    limbDamage: nat,
    killsRequired: nat,
    victory: bool)

  /** The controller's weapon table: both weapons deal the most to the
      head and the least to the limbs, hold a finite positive magazine and
      have positive timings, and only the AK-47 wins. */
  function Config(w: WeaponName): (c: WeaponConfig)
    ensures 0 < c.limbDamage < c.bodyDamage < c.headDamage
    ensures c.maxAmmo.Rounds? && 0 < c.maxAmmo.n
    ensures 0 < c.fireRate && 0 < c.reloadTime && 0 < c.spreadRecoveryTime && 0.0 < c.spread
    ensures c.victory <==> w == Ak47
  {
    match w
    case Pistol => WeaponConfig(20, 500, 50, Rounds(20), 2200, 0.06, 100, 10, 5, 3, 1, false)
    case Ak47 => WeaponConfig(15, 100, 70, Rounds(30), 2500, 0.055, 300, 14, 7, 3, 0, true)
  }

  const FullHealth: real := 100.0

  /** Seconds shown by the respawn countdown that starts on death. */
  const RespawnSeconds: int := 5

  // ---------------------------------------------------------------------
  // Hit location and damage
  // ---------------------------------------------------------------------

  datatype HitLocation = Head | Body | Limbs

  function Abs(x: real): real { if x < 0.0 then -x else x }

  /** Buckets the height of the hit point relative to the target's position.
      Every height lands in exactly one bucket; the band just under the head
      (the arms) counts as limbs. */
  function GetHitLocation(hitPointY: real, entityY: real): (loc: HitLocation)
    ensures loc == Head <==> hitPointY - entityY > 0.5
    ensures loc == Body <==> -0.3 <= hitPointY - entityY <= 0.3
    ensures loc == Limbs <==> hitPointY - entityY < -0.3 || 0.3 < hitPointY - entityY <= 0.5
  {
    var relativeHitHeight := hitPointY - entityY;
    if relativeHitHeight > 0.5 then Head
    else if relativeHitHeight < -0.3 then Limbs
    else if Abs(relativeHitHeight) <= 0.3 then Body
    else Limbs
  }

  /** The location-to-damage selection shared by every weapon record. */
  function LocationDamage(loc: HitLocation, head: nat, body: nat, limb: nat): nat
  {
    match loc
    case Head => head
    case Limbs => limb
    case Body => body
  }

  /** The damage of weapon `w` at `loc`: the head takes the most, the limbs
      the least, and each location has its own value. */
  function CalculateDamage(w: WeaponName, loc: HitLocation): (d: nat)
    ensures Config(w).limbDamage <= d <= Config(w).headDamage
    ensures d == Config(w).headDamage <==> loc == Head
    ensures d == Config(w).limbDamage <==> loc == Limbs
  {
    LocationDamage(loc, Config(w).headDamage, Config(w).bodyDamage, Config(w).limbDamage)
  }

  /** The damage a shot deals, read off the height of its hit point: head
      damage above 0.5, body damage within 0.3 of the centre, limb damage for
      the rest; and no other height deals more than a head shot. */
  lemma ShotDamageByHeight(w: WeaponName, hitPointY: real, entityY: real)
    ensures var h := hitPointY - entityY;
            var d := CalculateDamage(w, GetHitLocation(hitPointY, entityY));
            && (h > 0.5 ==> d == Config(w).headDamage)
            && (-0.3 <= h <= 0.3 ==> d == Config(w).bodyDamage)
            && (h < -0.3 || 0.3 < h <= 0.5 ==> d == Config(w).limbDamage)
            && 0 < Config(w).limbDamage <= d <= Config(w).headDamage
  {
  }

  // ---------------------------------------------------------------------
  // Health
  // ---------------------------------------------------------------------

  /** `x` has at most one decimal. */
  predicate IsTenth(x: real) {
    (x * 10.0).Floor as real == x * 10.0
  }

  /** `Math.round(x * 10) / 10`: round half up to one decimal. */
  function RoundToTenth(x: real): (r: real)
    ensures x - 0.05 < r <= x + 0.05
    ensures IsTenth(r)
    ensures 0.0 <= x ==> 0.0 <= r
    ensures IsTenth(x) ==> r == x
  {
    var n := (x * 10.0 + 0.5).Floor;
    var r := n as real / 10.0;
    assert r * 10.0 == n as real;
    assert n as real <= x * 10.0 + 0.5 < n as real + 1.0;
    assert (r * 10.0).Floor == n;
    assert IsTenth(x) ==> n == (x * 10.0).Floor by {
      if IsTenth(x) {
        var k := (x * 10.0).Floor;
        assert k as real <= x * 10.0 + 0.5 < k as real + 1.0;
      }
    }
    r
  }

  function Max(a: real, b: real): real { if a < b then b else a }

  /** Health after a hit: clamped at zero, then rounded to one decimal. */
  function HealthAfterDamage(health: real, damage: real): (r: real)
    ensures 0.0 <= r && IsTenth(r)
    ensures r == 0.0 <==> health - damage < 0.05
    ensures health - damage >= 0.05 ==> health - damage - 0.05 < r <= health - damage + 0.05
  {
    RoundToTenth(Max(0.0, health - damage))
  }

  /** With health and damage in tenths there is no rounding: the result is
      exactly `max(0, health - damage)`. */
  lemma HealthAfterDamageExact(health: real, damage: real)
    requires IsTenth(health) && IsTenth(damage)
    ensures HealthAfterDamage(health, damage) == Max(0.0, health - damage)
  {
    var a, b := health * 10.0, damage * 10.0;
    assert (health - damage) * 10.0 == a - b;
    assert IsTenth(health - damage) by {
      assert a.Floor as real == a && b.Floor as real == b;
      assert (a - b).Floor == a.Floor - b.Floor;
    }
    assert IsTenth(0.0);
  }

  /** A hit of at least the victim's health kills, whatever its location. */
  lemma LethalHit(health: real, damage: real)
    requires health <= damage
    ensures HealthAfterDamage(health, damage) == 0.0
  {
  }

  // ---------------------------------------------------------------------
  // Spread and the fire gate
  // ---------------------------------------------------------------------

  /** The spread `sinceLastShot` ms after the last shot: it falls linearly
      from `spread` to 0 over `recoveryTime`, and is 0 afterwards. The source
      divides by `recoveryTime` only when `sinceLastShot < recoveryTime`, so a
      zero recovery time never divides unless the clock ran backwards. */
  function SpreadAfter(spread: real, recoveryTime: nat, sinceLastShot: int): (r: real)
    requires 0 <= sinceLastShot || 0 < recoveryTime
    ensures recoveryTime <= sinceLastShot ==> r == 0.0
    ensures 0 <= sinceLastShot && 0.0 <= spread ==> 0.0 <= r <= spread
    ensures sinceLastShot == 0 < recoveryTime ==> r == spread
  {
    if sinceLastShot < recoveryTime then
      var recoveryProgress := sinceLastShot as real / recoveryTime as real;
      assert 0 <= sinceLastShot ==> 0.0 <= recoveryProgress < 1.0;
      spread * (1.0 - recoveryProgress)
    else 0.0
  }

  /** Spread only recovers: waiting longer never widens it. */
  lemma SpreadRecoveryMonotone(spread: real, recoveryTime: nat, t1: int, t2: int)
    requires 0 <= t1 <= t2 && 0.0 <= spread
    ensures SpreadAfter(spread, recoveryTime, t2) <= SpreadAfter(spread, recoveryTime, t1)
  {
    if t2 < recoveryTime {
      var p1 := t1 as real / recoveryTime as real;
      var p2 := t2 as real / recoveryTime as real;
      assert p1 <= p2 by {
        assert p1 * recoveryTime as real == t1 as real;
        assert p2 * recoveryTime as real == t2 as real;
      }
      assert spread * (1.0 - p2) <= spread * (1.0 - p1);
    }
  }

  /** The fire gate: trigger held, alive, rounds left, not reloading and at
      least the weapon's fire interval since the previous shot. */
  predicate CanFire(trigger: bool, isDead: bool, ammo: Ammo, isReloading: bool,
                    now: int, lastFireTime: int, fireRate: nat)
  {
    trigger && !isDead && HasRounds(ammo) && !isReloading && now - lastFireTime >= fireRate
  }

  /** The weapon a killer holds after a kill that brings its count to
      `killsAfter`: the AK-47 once the count reaches the held weapon's
      `killsRequired`, otherwise the held weapon. */
  function WeaponAfterKill(held: WeaponName, killsAfter: nat): (r: WeaponName)
    ensures r == held || r == Ak47
    ensures r != held <==> held != Ak47 && killsAfter >= Config(held).killsRequired
    ensures Config(held).victory ==> r == held
  {
    if killsAfter >= Config(held).killsRequired then Ak47 else held
  }

  /** With this table every kill upgrades the killer to the AK-47, which is
      the victory weapon, so the first kill already sends the victory
      message. */
  lemma EveryKillWins(held: WeaponName, killsAfter: nat)
    requires 1 <= killsAfter
    ensures WeaponAfterKill(held, killsAfter) == Ak47
    ensures Config(WeaponAfterKill(held, killsAfter)).victory
  {
  }

  // ---------------------------------------------------------------------
  // Inputs from the engine
  // ---------------------------------------------------------------------

  /** The two buttons the combat logic reads: left mouse (fire) and R (reload). */
  datatype PlayerInput = PlayerInput(fire: bool, reload: bool)

  /** The raycast result: nothing, or another player's controller hit at a
      point of the given height, the target standing at `targetY`. */
  datatype RayHit = Miss | Hit(target: MyEntityController, hitPointY: real, targetY: real)

  /** The damage a shot with weapon `w` deals to what the ray hit: the
      weapon's damage at the hit location, and nothing for a miss. */
  function ShotDamage(w: WeaponName, ray: RayHit): (d: real)
    ensures ray.Miss? ==> d == 0.0
    ensures ray.Hit? ==>
              0.0 < Config(w).limbDamage as real <= d <= Config(w).headDamage as real
              && (ray.hitPointY - ray.targetY > 0.5 <==> d == Config(w).headDamage as real)
  {
    if ray.Hit? then CalculateDamage(w, GetHitLocation(ray.hitPointY, ray.targetY)) as real else 0.0
  }

  function HitObjects(ray: RayHit): set<object>
  {
    if ray.Hit? then {ray.target} else {}
  }

  // ---------------------------------------------------------------------
  // The controller
  // ---------------------------------------------------------------------

  class MyEntityController {
    var health: real
    var isDead: bool
    var currentWeapon: WeaponName
    var currentAmmo: Ammo
    var isReloading: bool
    var kills: nat
    var lastFireTime: int
    var lastShotTime: int
    var currentSpread: real
    var lastWeaponBeforeDeath: WeaponName
    /** The reload timer: the weapon whose magazine it refills when it fires. */
    var pendingReload: Option<WeaponName>
    /** The respawn countdown: the next `timeLeft` it reports. */
    var respawnTimer: Option<int>

    ghost predicate Valid()
      reads this
    {
      && 0.0 <= health
      && (isDead ==> health == 0.0)
      && (pendingReload.Some? ==> isReloading)
      && (respawnTimer.Some? ==> isDead && 0 <= respawnTimer.value <= RespawnSeconds)
    }

    constructor ()
      ensures Valid()
      ensures health == FullHealth && !isDead && kills == 0
      ensures currentWeapon == Pistol && currentAmmo == Rounds(20) && lastWeaponBeforeDeath == Pistol
      ensures !isReloading && lastFireTime == 0 && lastShotTime == 0 && currentSpread == 0.0
      ensures pendingReload == None && respawnTimer == None
    {
      health := FullHealth;
      isDead := false;
      currentWeapon := Pistol;
      currentAmmo := Rounds(20);
      isReloading := false;
      kills := 0;
      lastFireTime := 0;
      lastShotTime := 0;
      currentSpread := 0.0;
      lastWeaponBeforeDeath := Pistol;
      pendingReload := None;
      respawnTimer := None;
    }

    /** Attaching to an entity resets the combat stats to a fresh pistol. */
    method Attach()
      requires Valid()
      modifies this
      ensures Valid()
      ensures health == FullHealth && !isDead && kills == 0
      ensures currentWeapon == Pistol && currentAmmo == Config(Pistol).maxAmmo
      ensures isReloading == old(isReloading) && lastFireTime == old(lastFireTime)
      ensures lastShotTime == old(lastShotTime) && currentSpread == old(currentSpread)
      ensures lastWeaponBeforeDeath == old(lastWeaponBeforeDeath)
      ensures pendingReload == old(pendingReload) && respawnTimer == None
    {
      health := FullHealth;
      isDead := false;
      kills := 0;
      currentWeapon := Pistol;
      currentAmmo := Config(currentWeapon).maxAmmo;
      respawnTimer := None;
    }

    method SwitchWeapon(newWeapon: WeaponName)
      modifies this`currentWeapon, this`currentAmmo
      ensures currentWeapon == newWeapon && currentAmmo == Config(newWeapon).maxAmmo
    {
      currentWeapon := newWeapon;
      currentAmmo := Config(newWeapon).maxAmmo;
    }

    /** A hit for `damage`. A dead combatant ignores it. Otherwise health
        becomes the clamped, rounded remainder, and when it reaches zero the
        combatant dies: exactly once per life, because only a living
        combatant can take this branch. */
    method TakeDamage(damage: real, attacker: MyEntityController?) returns (died: bool, victorySent: bool)
      requires Valid()
      requires attacker != null ==> attacker.Valid()
      modifies this, attacker
      ensures Valid()
      ensures attacker != null ==> attacker.Valid()
      ensures old(isDead) ==> unchanged(this) && !died && !victorySent
      ensures old(isDead) && attacker != null ==> unchanged(attacker)
      ensures !old(isDead) ==> health == HealthAfterDamage(old(health), damage)
      ensures died <==> !old(isDead) && HealthAfterDamage(old(health), damage) == 0.0
      ensures isDead == (old(isDead) || died)
      ensures !died && attacker != null && attacker != this ==> unchanged(attacker)
      ensures attacker != null && attacker != this ==> OnlyKillFieldsChanged(attacker)
      ensures !died ==> respawnTimer == old(respawnTimer) && lastWeaponBeforeDeath == old(lastWeaponBeforeDeath)
      ensures !died ==> kills == old(kills) && currentWeapon == old(currentWeapon) && currentAmmo == old(currentAmmo)
      ensures died ==> DeathRecorded(old(currentWeapon))
      ensures died && attacker != null ==>
                attacker.KillCredited(old(attacker.kills), old(attacker.currentWeapon), old(attacker.currentAmmo), victorySent)
      ensures attacker == null ==> !victorySent
      ensures attacker != this ==> kills == old(kills) && currentWeapon == old(currentWeapon) && currentAmmo == old(currentAmmo)
      ensures isReloading == old(isReloading) && pendingReload == old(pendingReload)
      ensures lastFireTime == old(lastFireTime) && lastShotTime == old(lastShotTime)
      ensures currentSpread == old(currentSpread)
    {
      died, victorySent := false, false;
      if isDead {
        return;
      }
      health := HealthAfterDamage(health, damage);
      if health <= 0.0 && !isDead {
        isDead := true;
        died := true;
        victorySent := Die(attacker);
      }
    }

    /** What death leaves on the victim: the weapon held is saved for the
        respawn, and the respawn countdown starts at five seconds. */
    ghost predicate DeathRecorded(heldAtDeath: WeaponName)
      reads this
    {
      isDead && health == 0.0 && lastWeaponBeforeDeath == heldAtDeath
      && respawnTimer == Some(RespawnSeconds)
    }

    /** What a kill leaves on the killer: one more kill, the weapon after
        the kill (with a full magazine when it switched), and the victory
        message exactly when that weapon is the victory weapon. */
    ghost predicate KillCredited(killsBefore: nat, heldBefore: WeaponName, ammoBefore: Ammo, victorySent: bool)
      reads this
    {
      var switched := killsBefore + 1 >= Config(heldBefore).killsRequired;
      && kills == killsBefore + 1
      && currentWeapon == WeaponAfterKill(heldBefore, killsBefore + 1)
      && currentAmmo == (if switched then Config(Ak47).maxAmmo else ammoBefore)
      && victorySent == Config(currentWeapon).victory
    }

    /** Everything about `c` except its kill count, weapon and ammunition is
        as it was: what a kill does to the killer leaves the rest alone. */
    static twostate predicate OnlyKillFieldsChanged(c: MyEntityController)
      reads c
    {
      && c.health == old(c.health) && c.isDead == old(c.isDead)
      && c.isReloading == old(c.isReloading) && c.pendingReload == old(c.pendingReload)
      && c.respawnTimer == old(c.respawnTimer) && c.lastWeaponBeforeDeath == old(c.lastWeaponBeforeDeath)
      && c.lastFireTime == old(c.lastFireTime) && c.lastShotTime == old(c.lastShotTime)
      && c.currentSpread == old(c.currentSpread)
    }

    /** Death: save the weapon, credit the killer, switch the killer's weapon
        when its kill count reaches the threshold, check for victory, start
        the respawn countdown. */
    method Die(attacker: MyEntityController?) returns (victorySent: bool)
      requires Valid() && isDead && health == 0.0
      requires attacker != null ==> attacker.Valid()
      modifies this, attacker
      ensures Valid()
      ensures attacker != null ==> attacker.Valid()
      ensures DeathRecorded(old(currentWeapon))
      ensures attacker != null ==>
                attacker.KillCredited(old(attacker.kills), old(attacker.currentWeapon), old(attacker.currentAmmo), victorySent)
      ensures attacker == null ==> !victorySent
      ensures attacker != null && attacker != this ==> OnlyKillFieldsChanged(attacker)
      ensures attacker != this ==> kills == old(kills) && currentWeapon == old(currentWeapon) && currentAmmo == old(currentAmmo)
      ensures health == old(health) && isReloading == old(isReloading) && pendingReload == old(pendingReload)
      ensures lastFireTime == old(lastFireTime) && lastShotTime == old(lastShotTime)
      ensures currentSpread == old(currentSpread)
    {
      lastWeaponBeforeDeath := currentWeapon;
      victorySent := false;
      if attacker != null {
        attacker.kills := attacker.kills + 1;
        if attacker.kills >= Config(attacker.currentWeapon).killsRequired {
          attacker.SwitchWeapon(Ak47);
        }
        victorySent := Config(attacker.currentWeapon).victory;
      }
      respawnTimer := Some(RespawnSeconds);
    }

    /** One tick of the respawn countdown interval: it reports the seconds
        left, counts down, and after reporting 0 stops and respawns. */
    method RespawnCountdownTick(inWorld: bool) returns (timeLeft: Option<int>)
      requires Valid()
      modifies this
      ensures Valid()
      ensures timeLeft == old(respawnTimer)
      ensures old(respawnTimer) == None ==> unchanged(this)
      ensures old(respawnTimer).Some? && old(respawnTimer).value > 0 ==>
                respawnTimer == Some(old(respawnTimer).value - 1) && isDead
                && health == old(health) && currentWeapon == old(currentWeapon) && currentAmmo == old(currentAmmo)
      ensures old(respawnTimer) == Some(0) ==> respawnTimer == None && Respawned(inWorld, old(health), old(isDead),
                old(currentWeapon), old(currentAmmo), old(lastWeaponBeforeDeath))
      ensures kills == old(kills) && isReloading == old(isReloading) && pendingReload == old(pendingReload)
      ensures lastFireTime == old(lastFireTime) && lastShotTime == old(lastShotTime)
      ensures currentSpread == old(currentSpread) && lastWeaponBeforeDeath == old(lastWeaponBeforeDeath)
    {
      timeLeft := respawnTimer;
      match respawnTimer
      case None =>
      case Some(t) =>
        if t - 1 < 0 {
          respawnTimer := None;
          Respawn(inWorld);
        } else {
          respawnTimer := Some(t - 1);
        }
    }

    /** The state a respawn leaves: without a world nothing changes; in a
        world full health, alive, and the weapon held at death with a full
        magazine. */
    ghost predicate Respawned(inWorld: bool, health0: real, isDead0: bool, weapon0: WeaponName,
                              ammo0: Ammo, savedWeapon: WeaponName)
      reads this
    {
      if inWorld then
        health == FullHealth && !isDead && currentWeapon == savedWeapon
        && currentAmmo == Config(savedWeapon).maxAmmo
      else
        health == health0 && isDead == isDead0 && currentWeapon == weapon0 && currentAmmo == ammo0
    }

    method Respawn(inWorld: bool)
      requires Valid() && respawnTimer == None
      modifies this
      ensures Valid()
      ensures Respawned(inWorld, old(health), old(isDead), old(currentWeapon), old(currentAmmo),
                        old(lastWeaponBeforeDeath))
      ensures kills == old(kills) && isReloading == old(isReloading) && pendingReload == old(pendingReload)
      ensures lastFireTime == old(lastFireTime) && lastShotTime == old(lastShotTime)
      ensures currentSpread == old(currentSpread) && lastWeaponBeforeDeath == old(lastWeaponBeforeDeath)
      ensures respawnTimer == None
    {
      if !inWorld {
        return;
      }
      health := FullHealth;
      isDead := false;
      currentWeapon := lastWeaponBeforeDeath;
      currentAmmo := Config(currentWeapon).maxAmmo;
    }

    /** The respawn as evidently intended: as `Respawn`, and in a world a
        reload left over from the previous life is dropped, so the new life
        can fire and reload. */
    method RespawnIntended(inWorld: bool)
      requires Valid() && respawnTimer == None
      modifies this
      ensures Valid()
      ensures Respawned(inWorld, old(health), old(isDead), old(currentWeapon), old(currentAmmo),
                        old(lastWeaponBeforeDeath))
      ensures inWorld ==> !isReloading && pendingReload == None
      ensures !inWorld ==> isReloading == old(isReloading) && pendingReload == old(pendingReload)
      ensures kills == old(kills) && lastFireTime == old(lastFireTime) && lastShotTime == old(lastShotTime)
      ensures currentSpread == old(currentSpread) && lastWeaponBeforeDeath == old(lastWeaponBeforeDeath)
      ensures respawnTimer == None
    {
      Respawn(inWorld);
      if inWorld {
        isReloading := false;
        pendingReload := None;
      }
    }

    /** The respawn countdown tick with the intended respawn: as
        `RespawnCountdownTick`, except that its final step is
        `RespawnIntended`. */
    method RespawnCountdownTickIntended(inWorld: bool) returns (timeLeft: Option<int>)
      requires Valid()
      modifies this
      ensures Valid()
      ensures timeLeft == old(respawnTimer)
      ensures old(respawnTimer) == None ==> unchanged(this)
      ensures old(respawnTimer).Some? && old(respawnTimer).value > 0 ==>
                respawnTimer == Some(old(respawnTimer).value - 1) && isDead
                && health == old(health) && currentWeapon == old(currentWeapon) && currentAmmo == old(currentAmmo)
                && isReloading == old(isReloading) && pendingReload == old(pendingReload)
      ensures old(respawnTimer) == Some(0) ==>
                && respawnTimer == None
                && Respawned(inWorld, old(health), old(isDead), old(currentWeapon), old(currentAmmo),
                             old(lastWeaponBeforeDeath))
                && (inWorld ==> !isReloading && pendingReload == None)
                && (!inWorld ==> isReloading == old(isReloading) && pendingReload == old(pendingReload))
      ensures kills == old(kills) && lastFireTime == old(lastFireTime) && lastShotTime == old(lastShotTime)
      ensures currentSpread == old(currentSpread) && lastWeaponBeforeDeath == old(lastWeaponBeforeDeath)
    {
      timeLeft := respawnTimer;
      match respawnTimer
      case None =>
      case Some(t) =>
        if t - 1 < 0 {
          respawnTimer := None;
          RespawnIntended(inWorld);
        } else {
          respawnTimer := Some(t - 1);
        }
    }

    /** Starting a reload: nothing while already reloading or with a full
        magazine; otherwise the flag is set and the reload timer is armed for
        the weapon held now. */
    method StartReload()
      requires Valid()
      modifies this`isReloading, this`pendingReload
      ensures Valid()
      ensures old(isReloading) || AtLeast(currentAmmo, Config(currentWeapon).maxAmmo) ==>
                isReloading == old(isReloading) && pendingReload == old(pendingReload)
      ensures !old(isReloading) && !AtLeast(currentAmmo, Config(currentWeapon).maxAmmo) ==>
                isReloading && pendingReload == Some(currentWeapon)
    {
      if isReloading {
        return;
      }
      if AtLeast(currentAmmo, Config(currentWeapon).maxAmmo) {
        return;
      }
      isReloading := true;
      pendingReload := Some(currentWeapon);
    }

    /** The reload timer firing. A living combatant gets the armed weapon's
        full magazine and stops reloading; a dead one is left as it is, so its
        reloading flag stays set. */
    method CompleteReload()
      requires Valid()
      modifies this`isReloading, this`pendingReload, this`currentAmmo
      ensures Valid()
      ensures pendingReload == None
      ensures old(pendingReload).Some? && !isDead ==>
                currentAmmo == Config(old(pendingReload).value).maxAmmo && !isReloading
      ensures old(pendingReload) == None || isDead ==>
                currentAmmo == old(currentAmmo) && isReloading == old(isReloading)
    {
      match pendingReload
      case None =>
      case Some(w) =>
        pendingReload := None;
        if !isDead {
          currentAmmo := Config(w).maxAmmo;
          isReloading := false;
        }
    }

    method UpdateSpread(currentTime: int)
      modifies this`currentSpread
      ensures currentSpread == SpreadAfter(Config(currentWeapon).spread,
                                           Config(currentWeapon).spreadRecoveryTime,
                                           currentTime - lastShotTime)
      ensures currentTime >= lastShotTime ==> 0.0 <= currentSpread <= Config(currentWeapon).spread
    {
      var weaponConfig := Config(currentWeapon);
      currentSpread := SpreadAfter(weaponConfig.spread, weaponConfig.spreadRecoveryTime,
                                   currentTime - lastShotTime);
    }

    method ApplyRecoil()
      modifies this`currentSpread
      ensures currentSpread == Config(currentWeapon).spread
    {
      currentSpread := Config(currentWeapon).spread;
    }

    /** The successful branch of the fire gate: recoil, the hit (if any) with
        the damage of the held weapon at the hit location, one round spent
        (after any weapon switch the kill caused) and both shot times set. */
    method Fire(now: int, ray: RayHit) returns (killed: bool)
      requires Valid() && HasRounds(currentAmmo)
      requires ray.Hit? ==> ray.target != this && ray.target.Valid()
      modifies this, HitObjects(ray)
      ensures Valid()
      ensures ray.Hit? ==> ray.target.Valid()
      ensures lastFireTime == now && lastShotTime == now
      ensures currentSpread == Config(old(currentWeapon)).spread
      ensures killed <==> (ray.Hit? && !old(ray.target.isDead)
                           && HealthAfterDamage(old(ray.target.health), ShotDamage(old(currentWeapon), ray)) == 0.0)
      ensures killed ==> ray.target.DeathRecorded(old(ray.target.currentWeapon))
      ensures !killed ==> kills == old(kills) && currentWeapon == old(currentWeapon)
                          && currentAmmo == Spend(old(currentAmmo))
      ensures killed ==> kills == old(kills) + 1
                         && currentWeapon == WeaponAfterKill(old(currentWeapon), kills)
      ensures killed && kills >= Config(old(currentWeapon)).killsRequired ==>
                currentAmmo == Spend(Config(Ak47).maxAmmo)
      ensures killed && kills < Config(old(currentWeapon)).killsRequired ==>
                currentAmmo == Spend(old(currentAmmo))
      ensures ray.Hit? && !old(ray.target.isDead) ==>
                ray.target.health == HealthAfterDamage(old(ray.target.health), ShotDamage(old(currentWeapon), ray))
      ensures ray.Hit? && old(ray.target.isDead) ==> unchanged(ray.target)
      ensures ray.Hit? ==>
                && ray.target.kills == old(ray.target.kills)
                && ray.target.currentWeapon == old(ray.target.currentWeapon)
                && ray.target.currentAmmo == old(ray.target.currentAmmo)
                && ray.target.isReloading == old(ray.target.isReloading)
                && ray.target.pendingReload == old(ray.target.pendingReload)
                && ray.target.lastFireTime == old(ray.target.lastFireTime)
                && ray.target.lastShotTime == old(ray.target.lastShotTime)
                && ray.target.currentSpread == old(ray.target.currentSpread)
      ensures health == old(health) && isDead == old(isDead) && isReloading == old(isReloading)
      ensures pendingReload == old(pendingReload) && respawnTimer == old(respawnTimer)
      ensures lastWeaponBeforeDeath == old(lastWeaponBeforeDeath)
    {
      ApplyRecoil();
      killed := false;
      if ray.Hit? {
        var hitLocation := GetHitLocation(ray.hitPointY, ray.targetY);
        var damage := CalculateDamage(currentWeapon, hitLocation);
        var victorySent;
        killed, victorySent := ray.target.TakeDamage(damage as real, this);
      }
      currentAmmo := Spend(currentAmmo);
      lastFireTime := now;
      lastShotTime := now;
    }

    /** The combat part of one input tick: nothing for a combatant that is
        dead or not spawned in a world; otherwise a reload request, the spread
        update for `now`, and a shot when the fire gate opens. */
    method TickWithPlayerInput(input: PlayerInput, spawnedInWorld: bool, now: int, ray: RayHit)
      returns (fired: bool, killed: bool)
      requires Valid()
      requires ray.Hit? ==> ray.target != this && ray.target.Valid()
      modifies this, HitObjects(ray)
      ensures Valid()
      ensures ray.Hit? ==> ray.target.Valid()
      ensures !spawnedInWorld || old(isDead) ==> unchanged(this) && unchanged(HitObjects(ray)) && !fired
      ensures fired <==> (spawnedInWorld && !old(isDead) &&
                CanFire(input.fire, false, old(currentAmmo),
                        old(isReloading) || (input.reload && !AtLeast(old(currentAmmo), Config(old(currentWeapon)).maxAmmo)),
                        now, old(lastFireTime), Config(old(currentWeapon)).fireRate))
      ensures killed <==> (fired && ray.Hit? && !old(ray.target.isDead)
                           && HealthAfterDamage(old(ray.target.health), ShotDamage(old(currentWeapon), ray)) == 0.0)
      ensures fired && ray.Hit? && !old(ray.target.isDead) ==>
                ray.target.health == HealthAfterDamage(old(ray.target.health), ShotDamage(old(currentWeapon), ray))
      ensures killed ==> ray.target.DeathRecorded(old(ray.target.currentWeapon))
      ensures ray.Hit? && old(ray.target.isDead) ==> unchanged(ray.target)
      ensures killed ==> kills == old(kills) + 1 && currentWeapon == WeaponAfterKill(old(currentWeapon), kills)
                         && currentAmmo == (if kills >= Config(old(currentWeapon)).killsRequired
                                            then Spend(Config(Ak47).maxAmmo) else Spend(old(currentAmmo)))
      ensures spawnedInWorld && !old(isDead) ==>
                var reloadStarts := !old(isReloading) && input.reload
                                    && !AtLeast(old(currentAmmo), Config(old(currentWeapon)).maxAmmo);
                && isReloading == (old(isReloading) || reloadStarts)
                && pendingReload == (if reloadStarts then Some(old(currentWeapon)) else old(pendingReload))
      ensures !fired ==> lastFireTime == old(lastFireTime) && lastShotTime == old(lastShotTime)
                         && kills == old(kills) && currentWeapon == old(currentWeapon)
                         && currentAmmo == old(currentAmmo) && unchanged(HitObjects(ray))
      ensures !fired && spawnedInWorld && !old(isDead) ==>
                currentSpread == SpreadAfter(Config(old(currentWeapon)).spread,
                                             Config(old(currentWeapon)).spreadRecoveryTime, now - old(lastShotTime))
      ensures fired ==> lastFireTime == now && lastShotTime == now
                        && currentSpread == Config(old(currentWeapon)).spread
      ensures fired && !killed ==> currentAmmo == Spend(old(currentAmmo))
      ensures ray.Hit? ==>
                && ray.target.kills == old(ray.target.kills)
                && ray.target.currentWeapon == old(ray.target.currentWeapon)
                && ray.target.currentAmmo == old(ray.target.currentAmmo)
                && ray.target.isReloading == old(ray.target.isReloading)
                && ray.target.pendingReload == old(ray.target.pendingReload)
                && ray.target.lastFireTime == old(ray.target.lastFireTime)
                && ray.target.lastShotTime == old(ray.target.lastShotTime)
                && ray.target.currentSpread == old(ray.target.currentSpread)
      ensures health == old(health) && isDead == old(isDead) && respawnTimer == old(respawnTimer)
      ensures lastWeaponBeforeDeath == old(lastWeaponBeforeDeath)
    {
      fired, killed := false, false;
      if !spawnedInWorld || isDead {
        return;
      }
      if input.reload && !isReloading {
        StartReload();
      }
      UpdateSpread(now);
      if input.fire && !isDead && HasRounds(currentAmmo) && !isReloading {
        var weaponConfig := Config(currentWeapon);
        if now - lastFireTime >= weaponConfig.fireRate {
          fired := true;
          killed := Fire(now, ray);
        }
      }
    }
  }
  // ---------------------------------------------------------------------
  // Dying in the middle of a reload
  // ---------------------------------------------------------------------

  /** A fresh combatant fires once, starts a reload and is killed before the
      reload timer fires. The timer finds it dead and leaves the reloading
      flag set, and the respawn six countdown ticks later keeps it. The
      combatant is back at full health with a full magazine, yet neither the
      trigger nor the reload key does anything: the weapon is locked for
      good, since no operation clears the flag any more. */
  method DeathMidReloadAsWritten(now: int) returns (c: MyEntityController, fired: bool, reloadArmed: bool)
    ensures c.Valid() && !c.isDead && c.health == FullHealth && c.currentAmmo == Config(Pistol).maxAmmo
    ensures c.isReloading && c.pendingReload == None
    ensures !fired && !reloadArmed
  {
    c := new MyEntityController();
    var _ := c.Fire(now, Miss);
    c.StartReload();
    LethalHit(c.health, FullHealth);
    var died, _ := c.TakeDamage(FullHealth, null);
    c.CompleteReload();
    var i := 0;
    while i < 6
      invariant 0 <= i <= 6
      invariant c.Valid() && c.isReloading && c.pendingReload == None
      invariant c.lastFireTime == now && c.lastWeaponBeforeDeath == Pistol
      invariant i < 6 ==> c.isDead && c.respawnTimer == Some(RespawnSeconds - i)
      invariant i == 6 ==> !c.isDead && c.health == FullHealth && c.currentAmmo == Config(Pistol).maxAmmo
                           && c.currentWeapon == Pistol
    {
      var _ := c.RespawnCountdownTick(true);
      i := i + 1;
    }
    var killed;
    fired, killed := c.TickWithPlayerInput(PlayerInput(true, false), true, now + 6000, Miss);
    var _, _ := c.TickWithPlayerInput(PlayerInput(false, true), true, now + 7000, Miss);
    reloadArmed := c.pendingReload.Some?;
  }

  /** The same life with the intended respawn: after the countdown the
      combatant is no longer reloading, and the trigger fires. */
  method DeathMidReloadIntended(now: int) returns (c: MyEntityController, fired: bool)
    ensures c.Valid() && !c.isDead && c.health == FullHealth && !c.isReloading
    ensures fired && c.currentAmmo == Spend(Config(Pistol).maxAmmo)
  {
    c := new MyEntityController();
    var _ := c.Fire(now, Miss);
    c.StartReload();
    LethalHit(c.health, FullHealth);
    var died, _ := c.TakeDamage(FullHealth, null);
    c.CompleteReload();
    var i := 0;
    while i < 6
      invariant 0 <= i <= 6
      invariant c.Valid() && c.lastFireTime == now && c.lastWeaponBeforeDeath == Pistol
      invariant i < 6 ==> c.isDead && c.respawnTimer == Some(RespawnSeconds - i)
      invariant i == 6 ==> !c.isDead && c.health == FullHealth && c.currentAmmo == Config(Pistol).maxAmmo
                           && c.currentWeapon == Pistol && !c.isReloading && c.pendingReload == None
    {
      var _ := c.RespawnCountdownTickIntended(true);
      i := i + 1;
    }
    var killed;
    fired, killed := c.TickWithPlayerInput(PlayerInput(true, false), true, now + 6000, Miss);
  }
}

# Gun game: combat, rounds and weapon catalogs

A model of the game logic of a multiplayer "gun game" server. It has three parts.

- **The combatant** (`EntityController`, class `MyEntityController`): one player's combat state.
  - Health, and death at zero. Damage is clamped at zero and rounded to a tenth.
  - The kill that credits the attacker, and may switch the attacker to the AK-47 and send the victory message.
  - Respawn with the weapon held at death, through a five-second countdown.
  - Reloading. The reload timer refills the magazine only if the combatant is alive.
  - The fire gate: trigger, alive, rounds left, not reloading, and enough time since the last shot. Also spread recovery and recoil.
  - The hit-location buckets, and the damage lookup by location.

  The controller reads its own two-entry weapon table: a pistol that needs 1 kill, and an AK-47 that wins.
- **The match** (`GunWorldSession`, class `GunWorld`): the round state machine. A one-second tick drives the states WAITING, STARTING, ACTIVE, ENDING and RESTARTING.
  - Joined players, and the per-player score table (a map that keeps insertion order).
  - The score board: a stable sort by descending score, numbered from 1.
  - The freeze flag the world sets on each player's controller.
  - The delayed reset after a win.
  - Messages to players are appended to an outgoing log. This makes "no countdown value is shown twice in a row" a class invariant.
- **The weapon catalogs** (`WeaponCatalog`, `WeaponsConfig`, `WeaponsConfigTest`).
  - The six-tier catalog runs pistol, ak47, shotgun, awp, rpg and baguette.
  - The two-tier alternate catalog has a pistol and a melee baguette with unlimited ammunition.
  - Each is a constant sequence of records. The model proves the table properties that the kill progression relies on.

`Ammo` models a magazine as `Rounds(n)` or `Unlimited`. `Unlimited` stands for the catalog's `Infinity`: JavaScript keeps `Infinity > 0` and `Infinity - 1 == Infinity`, so such a magazine never blocks the fire gate.

How the environment is represented:
- The clock (`Date.now()`) is an explicit `now` parameter.
- The raycast result is a `RayHit` parameter: a miss, or another controller hit at a given height.
- The live player entities are an `entities` parameter; the entity count is its length.
- Timers become explicit completion methods with their state kept in fields:
  - `CompleteReload`, with `pendingReload`;
  - `RespawnCountdownTick`, with `respawnTimer`;
  - `CompleteWinReset`, with `pendingWinResets`.

Points of the combat and scoring code worth knowing, as the model states them:
- **Hit locations**: the thresholds are 0.5 and ±0.3. A hit more than 0.5 above the target's position is a head shot, one within ±0.3 a body shot, and everything else counts as limbs, including the band between 0.3 and 0.5 (the arms).
- **Distance falloff**: a hit deals the same damage at any range.
- **Weapon progression**: the code does not go through a catalog lookup by kill count. It uses the controller's inline table, so any kill switches the killer to the AK-47. The AK-47 is marked as the victory weapon, so the first kill already sends the victory message: `Die` and `TakeDamage` report the message exactly when the killer then holds the victory weapon, and `EveryKillWins` shows that after any kill it does.
- **Scores**: no code shown calls `incrementScore` on a kill.
- **Ammunition on a kill shot**: the decrement after a shot happens after any weapon switch the kill caused. A kill that switches weapons leaves the AK-47's full magazine minus one, not the old count minus one.

Behaviour the contracts expose:
- **Dying mid-reload locks the weapon** (see "## Findings"). A combatant who dies while reloading keeps its reloading flag, because the reload timer does nothing to a dead combatant (`CompleteReload`). Respawn does not clear the flag either (`Respawn`). From then on the fire gate is closed, and a new reload request is ignored while the flag is set (`StartReload`, `TickWithPlayerInput`).
- **ENDING never ends.** The ENDING tick changes nothing (`HandleEndingState`), so under `Tick` ENDING is a final state. Nothing in the match calls `restartGame`.
- **The countdown memory is never reset.** The last countdown value shown is kept across games. If a new countdown starts on the same value, that value is not shown again.

## Model

| member | source | states |
|---|---|---|
| `Ammo.Spend` | MyEntityController.ts:644 | Spending a round from an unlimited magazine leaves it unlimited; a finite one loses exactly one round |
| `Ammo.UnlimitedNeverRunsDry` | weapons/weapons-config-test.ts:35 | After any number of shots an unlimited magazine is still unlimited and still passes the `ammo > 0` gate |
| `Ammo.FiniteMagazineShots` | MyEntityController.ts:587-644 | After `k <= n` gated shots a magazine of `n` rounds holds `n - k`, and the gate is open exactly while `k < n` (ammo never goes below 0) |
| `EntityController.Config` | MyEntityController.ts:53-88 | The inline weapon table: each weapon deals strictly more to the head than to the body and to the body than to the limbs, has a finite non-empty magazine and positive fire interval, reload time, recovery time and spread, and only the AK-47 wins |
| `EntityController.CalculateDamage` | MyEntityController.ts:211-221 | The damage at a location lies between the weapon's limb and head damage; it is the head damage iff the location is the head and the limb damage iff the location is the limbs |
| `EntityController.ShotDamage` | MyEntityController.ts:630-636 | A miss deals nothing; a hit deals the held weapon's location damage, between limb and head damage, and head damage iff the hit is more than 0.5 above the target's position |
| `EntityController.WeaponAfterKill` | MyEntityController.ts:274-277 | After a kill the killer holds its weapon or the AK-47; it switches iff it does not already hold the AK-47 and the new kill count reaches the weapon's `killsRequired`; a victory weapon is never given up |
| `EntityController.CanFire` | MyEntityController.ts:587-589 | The fire gate: the trigger is held, the combatant is alive, the magazine passes `ammo > 0`, no reload is in progress and the fire interval has passed since the last shot |
| `EntityController.MyEntityController.Valid` | MyEntityController.ts:42-52 | The controller's invariant: health is never negative and is 0 when dead, an armed reload timer means a reload in progress, and a running respawn countdown means dead with 0 to 5 seconds left |
| `Ammo.HasRounds` | MyEntityController.ts:587 | `ammo > 0`: an unlimited magazine always passes, a finite one while it holds a round |
| `Ammo.AtLeast` | MyEntityController.ts:400 | `ammo >= max`: the magazine counts as full when it holds at least the maximum; an unlimited magazine always counts as full |
| `EntityController.GetHitLocation` | MyEntityController.ts:463-476 | Every relative height maps to exactly one location: head above 0.5, body within ±0.3, limbs below -0.3 or between 0.3 and 0.5 (each an if-and-only-if) |
| `EntityController.ShotDamageByHeight` | MyEntityController.ts:211-221 | A shot deals the weapon's head, body or limb damage according to the height of the hit, never more than head damage and never less than limb damage |
| `EntityController.RoundToTenth` | MyEntityController.ts:226 | `Math.round(x * 10) / 10` lands within 0.05 of `x`, has one decimal, is non-negative for non-negative `x`, and leaves numbers with one decimal unchanged |
| `EntityController.HealthAfterDamage` | MyEntityController.ts:226 | Health after a hit is never negative and has one decimal; it is 0 exactly when the remainder is below 0.05, and otherwise within 0.05 of the remainder |
| `EntityController.HealthAfterDamageExact` | MyEntityController.ts:226 | With one-decimal health and damage the new health is exactly `max(0, health - damage)` |
| `EntityController.LethalHit` | MyEntityController.ts:226-231 | Damage of at least the current health leaves health 0, so the death branch is taken |
| `EntityController.SpreadAfter` | MyEntityController.ts:432-443 | The spread is 0 once the recovery time has passed; it stays in [0, spread] for non-negative elapsed time and equals the full spread at elapsed time 0 |
| `EntityController.SpreadRecoveryMonotone` | MyEntityController.ts:437-442 | Waiting longer never widens the spread |
| `EntityController.EveryKillWins` | MyEntityController.ts:274-280 | With the inline table, any kill leaves the killer holding the AK-47, which is the victory weapon |
| `EntityController.MyEntityController.constructor` | MyEntityController.ts:42-52 | A fresh controller: alive at 100 health with a 20-round pistol, no kills, not reloading, zero shot times and spread |
| `EntityController.MyEntityController.Attach` | MyEntityController.ts:168-190 | Attaching restores 100 health, alive, no kills, the pistol with a full magazine, and touches nothing else |
| `EntityController.MyEntityController.SwitchWeapon` | MyEntityController.ts:659-664 | After a switch the weapon is the new one and the magazine holds its `maxAmmo` |
| `EntityController.MyEntityController.TakeDamage` | MyEntityController.ts:223-236 | A dead combatant ignores damage. Otherwise health becomes the clamped, rounded remainder, and the combatant dies exactly when that is 0. On death the weapon is saved, the respawn countdown starts, and the attacker is credited one kill. Nothing else of the attacker changes |
| `EntityController.MyEntityController.Die` | MyEntityController.ts:238-307 | The victim's weapon is saved and the 5-second countdown starts. The attacker gets exactly one more kill, switches to the AK-47 iff the new count reaches its weapon's `killsRequired` (with a full magazine), and the victory message is sent iff the weapon it then holds is the victory weapon |
| `EntityController.MyEntityController.RespawnCountdownTick` | MyEntityController.ts:291-306 | Each tick reports the seconds left and counts down; after reporting 0 the countdown stops and the combatant respawns |
| `EntityController.MyEntityController.Respawn` | MyEntityController.ts:309-323 | Outside a world nothing changes; in a world health is 100, the combatant is alive and holds the weapon saved at death with its full magazine |
| `EntityController.MyEntityController.StartReload` | MyEntityController.ts:396-419 | Reloading starts only when not already reloading and the magazine is not full; then the flag is set and the timer is armed for the current weapon |
| `EntityController.MyEntityController.CompleteReload` | MyEntityController.ts:421-429 | When the reload timer fires, a living combatant gets the armed weapon's full magazine and the flag is cleared; for a dead one ammunition and flag are left as they were |
| `EntityController.MyEntityController.UpdateSpread` | MyEntityController.ts:432-443 | The spread becomes the recovery formula for the time since the last shot, within [0, weapon spread] when the clock has not run backwards |
| `EntityController.MyEntityController.ApplyRecoil` | MyEntityController.ts:445-448 | Recoil resets the spread to the weapon's full spread |
| `EntityController.MyEntityController.Fire` | MyEntityController.ts:590-653 | A shot sets recoil and both shot times to now. A hit on a living target leaves it the clamped, rounded remainder of the held weapon's damage at the hit location; a dead target is untouched. The shot kills iff it hits a living target and that remainder is 0, and then the target's death is recorded with the weapon it held. A kill credits exactly one kill and may switch weapons. One round is spent after any switch. The target's kills, weapon, magazine, reload state, shot times and spread are untouched, and so are the shooter's health, death, reload and respawn state |
| `EntityController.MyEntityController.TickWithPlayerInput` | MyEntityController.ts:478-655 | Nothing happens to a dead or unspawned combatant. Otherwise a reload request is handled and the spread is updated. A shot is fired iff trigger, rounds, no reload in progress and the fire interval all allow it. A fired shot damages a living target as `Fire` does and kills iff the target's health reaches 0, recording the target's death, crediting one kill, switching weapons at the threshold and spending the round after the switch. The target's kills, weapon, magazine, reload state, shot times and spread are untouched. Without a shot, kills, weapon, ammunition and shot times are unchanged; the shooter's health, death, respawn countdown and saved weapon never change |
| `EntityController.MyEntityController.RespawnIntended` | MyEntityController.ts:309-316 | Respawn as evidently intended: as `Respawn`, and in a world the respawned combatant is not reloading and has no reload timer armed |
| `EntityController.MyEntityController.RespawnCountdownTickIntended` | MyEntityController.ts:291-306 | The countdown tick with the intended respawn: it reports 5 down to 0 and after reporting 0 respawns; in a world the respawned combatant has no reload in progress, and outside a world the reload state is kept |
| `EntityController.DeathMidReloadAsWritten` | MyEntityController.ts:396-429 | A combatant that fires once, starts a reload and is killed before the timer fires comes back after the countdown at full health and with a full magazine, but still reloading with no timer: the trigger does not fire and the reload key arms nothing |
| `EntityController.DeathMidReloadIntended` | MyEntityController.ts:309-316 | The same life with the intended respawn: after the countdown the combatant is not reloading and the trigger fires, spending one round |
| `GunWorldSession.CeilDiv` | sessions/world.ts:157 | `Math.ceil(a / b)` is the least `r` with `a <= r * b` |
| `GunWorldSession.StartingRemaining` | sessions/world.ts:156-157 | The countdown shows at most 5 seconds and reaches 0 exactly when 5000 ms have passed since the start |
| `GunWorldSession.StartingRemainingMonotone` | sessions/world.ts:156-157 | A later tick never shows more seconds left |
| `GunWorldSession.RoundTimeRemaining` | sessions/world.ts:462-465 | The time left is never negative, is 0 without a round start and exactly when the round time is used up, and does not exceed the round duration while the clock does not run backwards |
| `GunWorldSession.Truthy` | sessions/world.ts:173 | A round start time counts as set only when present and non-zero, as `if (!roundStartTime)` reads it |
| `GunWorldSession.Without` | sessions/world.ts:454 | Removing a player keeps exactly the other players, drops the player, and keeps the list free of repeats |
| `GunWorldSession.WithoutKeepsOrder` | sessions/world.ts:454 | Removal distributes over concatenation, so the remaining players keep their order |
| `GunWorldSession.FrozenAs` | sessions/world.ts:211-219 | Every listed player gets the flag; every other player keeps its flag |
| `GunWorldSession.Lookup` | sessions/world.ts:55 | `scores.get(name)`: the stored score of a present key, nothing for an absent one |
| `GunWorldSession.LookupFindsListed` | sessions/world.ts:55 | In a well-formed table a player has a score exactly when it is listed in the table's order |
| `GunWorldSession.Store` | sessions/world.ts:426 | `scores.set`: the key gets the value, an existing key keeps its place, a new key goes last, and no other score changes |
| `GunWorldSession.Entries` | sessions/world.ts:342 | The entries list the keys in insertion order with their stored scores |
| `GunWorldSession.IncrementedScores` | sessions/world.ts:54-59 | An increment never adds or reorders keys and never changes another player's score |
| `GunWorldSession.ResetScores` | sessions/world.ts:61-66 | A present player's score ends at 0, an absent player stays absent, and no other score or key changes |
| `GunWorldSession.IncrementNonZero` | sessions/world.ts:54-59 | A non-zero score grows by exactly one |
| `GunWorldSession.ZeroScoreStaysZero` | sessions/world.ts:54-59 | A stored 0 is falsy, so any number of increments leaves the table unchanged |
| `GunWorldSession.JoinedScoreStaysZero` | sessions/world.ts:54-59 | A player whose score was set to 0 on joining keeps 0 however often it is incremented |
| `GunWorldSession.IncrementedScoresIntended` | sessions/world.ts:54-59 | The intended increment adds one to any stored score, 0 included, and leaves an absent player absent |
| `GunWorldSession.ScoreCountsIntended` | sessions/world.ts:54-59 | With the intended increment, `k` increments add exactly `k` |
| `GunWorldSession.JoinedScoreCountsIntended` | sessions/world.ts:54-59 | With the intended increment, a joined player's score equals the number of increments |
| `GunWorldSession.Insert` | sessions/world.ts:343 | Insertion adds exactly the one entry (as a multiset) |
| `GunWorldSession.SortByScoreDesc` | sessions/world.ts:342-343 | Sorting permutes the entries |
| `GunWorldSession.InsertSorted` | sessions/world.ts:343 | Inserting into a board sorted by descending score keeps it sorted |
| `GunWorldSession.InsertStable` | sessions/world.ts:343 | Insertion puts the new entry first among equal scores and keeps the order of the others |
| `GunWorldSession.SortedAndStable` | sessions/world.ts:342-343 | The sort yields non-increasing scores and keeps the table order among equal scores |
| `GunWorldSession.Numbered` | sessions/world.ts:344 | Line `i` of the board is numbered `first + i` and carries the `i`-th entry's name and score |
| `GunWorldSession.ScoreList` | sessions/world.ts:342-344 | The board sent to players: the entries sorted by descending score and numbered from 1; `ScoreListSpec` states its properties |
| `GunWorldSession.ScoreListSpec` | sessions/world.ts:342-344 | The board is a permutation of the table, non-increasing in score, stable on ties, and numbered 1, 2, 3, ... |
| `GunWorldSession.GunWorld.Valid` | sessions/world.ts:23-32 | The world's invariant: no player is listed twice, the score table lists each key once with exactly the keys that hold a score, and no countdown value is sent twice in a row |
| `GunWorldSession.GunWorld.constructor` | sessions/world.ts:79-86 | A new world waits from `now` with no players, round 0, the five-minute duration, an empty score table and an empty log |
| `GunWorldSession.GunWorld.BroadcastGameMessage` | sessions/world.ts:358-366 | A message goes to every joined player, and the countdown invariant is kept |
| `GunWorldSession.GunWorld.IncrementScore` | sessions/world.ts:54-59 | The table becomes the as-written increment of the player's score; the table stays well formed |
| `GunWorldSession.GunWorld.ResetScore` | sessions/world.ts:61-66 | The table becomes the as-written reset of the player's score; the table stays well formed |
| `GunWorldSession.GunWorld.Tick` | sessions/world.ts:119-137 | Each state's tick is stated in full. WAITING starts the game iff enough entities are live, sending the announcement. STARTING sends the countdown value when it differs from the last one sent, and at 0 begins round `n + 1` from `now`, unfreezing all and sending "Round Started!". ACTIVE is a no-op without a round start, ends the round when time is up (sending "Round Over!" and the final board) and warns in the last ten seconds. ENDING changes nothing. RESTARTING returns to WAITING with the scores and round cleared. Players and the round duration never change; the scores change only in RESTARTING, the start time only in WAITING, the countdown memory only in STARTING, the round number and round start only in STARTING and RESTARTING, the round end only in ACTIVE and RESTARTING, and the freeze flags only in WAITING and STARTING |
| `GunWorldSession.GunWorld.HandleWaitingState` | sessions/world.ts:139-153 | With enough live entities the game starts; otherwise nothing changes |
| `GunWorldSession.GunWorld.StartGame` | sessions/world.ts:200-222 | From WAITING only: STARTING from `now`, every live player frozen, the announcement sent; from any other state nothing changes |
| `GunWorldSession.GunWorld.CheckGameStart` | sessions/world.ts:510-520 | The game starts iff the state is WAITING and enough entities are live; otherwise nothing changes |
| `GunWorldSession.GunWorld.HandleStartingState` | sessions/world.ts:155-170 | The remaining seconds are shown only when they differ from the last shown; at 0 or less the round begins |
| `GunWorldSession.GunWorld.ShowCountdown` | sessions/world.ts:160-164 | A new countdown value is remembered and sent, keeping the no-repeat invariant |
| `GunWorldSession.GunWorld.BeginRound` | sessions/world.ts:246-265 | ACTIVE from `now`, round number one higher, every live player unfrozen, the announcement sent |
| `GunWorldSession.GunWorld.HandleActiveState` | sessions/world.ts:172-183 | Without a round start nothing changes; with time up the round ends; in the last ten seconds a warning with the seconds left is sent; earlier nothing changes |
| `GunWorldSession.GunWorld.EndRound` | sessions/world.ts:267-275 | ENDING from `now`, then "Round Over!" and the final score board sent to every player |
| `GunWorldSession.GunWorld.CalculateScores` | sessions/world.ts:336-339 | The scores used for the board are the table's entries in insertion order |
| `GunWorldSession.GunWorld.DisplayScores` | sessions/world.ts:341-356 | The numbered, sorted board goes to every joined player, flagged as game over exactly in ENDING |
| `GunWorldSession.GunWorld.BroadcastScores` | sessions/world.ts:348-355 | A score board reaches every joined player, and the countdown invariant is kept |
| `GunWorldSession.GunWorld.HandleEndingState` | sessions/world.ts:185-193 | The ENDING tick changes nothing |
| `GunWorldSession.GunWorld.RestartGame` | sessions/world.ts:277-279 | The state becomes RESTARTING |
| `GunWorldSession.GunWorld.HandleRestartingState` | sessions/world.ts:195-198 | RESTARTING moves to WAITING with an empty score table, round 0 and no round times |
| `GunWorldSession.GunWorld.ResetGame` | sessions/world.ts:281-286 | The score table is emptied, the round number is 0 and both round times are cleared |
| `GunWorldSession.GunWorld.OnPlayerJoin` | sessions/world.ts:392-447 | The player is listed at most once, the score is set to 0 (also on a rejoin), and the player is frozen iff no round is active. The player count is sent, and the game starts iff the state was WAITING with enough live entities |
| `GunWorldSession.GunWorld.Register` | sessions/world.ts:422-433 | The join bookkeeping: listed once, score 0, frozen unless the state is ACTIVE |
| `GunWorldSession.GunWorld.OnPlayerLeave` | sessions/world.ts:452-460 | The player is removed, the others keep their order, the scores are untouched, and the player count is sent |
| `GunWorldSession.GunWorld.GetRoundTimeRemaining` | sessions/world.ts:462-465 | The method returns the time left as `RoundTimeRemaining` defines it |
| `GunWorldSession.GunWorld.HandleGameWin` | sessions/world.ts:467-474 | A win announces the winner and schedules one reset; the play state is not touched |
| `GunWorldSession.GunWorld.CompleteWinReset` | sessions/world.ts:475-506 | The reset gives WAITING from `now` with the same players, round 0, no round times and an empty table. Every joined player is respawned frozen, then the start check runs. The countdown memory is kept. It does nothing when no reset is pending |
| `WeaponCatalog.StepUpOrdersAll` | weapons/weapons-config.ts:3-154 | Thresholds that rise from each tier to the next rise between any two tiers |
| `WeaponCatalog.TierFor` | weapons/weapons-config.ts:3-154 | The tier earned with `k` kills is the last tier whose threshold `k` reaches, or none when no threshold is reached |
| `WeaponCatalog.TierForMonotone` | weapons/weapons-config.ts:3-154 | More kills never earn a lower tier |
| `WeaponCatalog.TierAtThreshold` | weapons/weapons-config.ts:3-154 | In an ordered catalog each tier is exactly the one earned at its own threshold |
| `WeaponsConfig.Weapons` | weapons/weapons-config.ts:3-154 | The six-tier catalog with the source's values, from the pistol (tier 0) to the baguette (tier 5) |
| `WeaponsConfig.UniqueStartingTier` | weapons/weapons-config.ts:17 | Exactly one tier needs no kills, and it is the pistol |
| `WeaponsConfig.KillsStrictlyIncreasing` | weapons/weapons-config.ts:17-142 | `requiredKills` strictly increases from tier to tier |
| `WeaponsConfig.SingleVictoryWeapon` | weapons/weapons-config.ts:27-152 | Exactly one weapon wins: the baguette, the last tier with the highest threshold |
| `WeaponsConfig.NamesDistinct` | weapons/weapons-config.ts:5-130 | No two tiers share a name |
| `WeaponsConfig.DamageOrdered` | weapons/weapons-config.ts:24-151 | Every weapon deals at least as much to the head as to the body, and to the body as to the limbs |
| `WeaponsConfig.PositiveTimings` | weapons/weapons-config.ts:7-141 | Every weapon has rounds in a full magazine and positive fire interval, reload time and spread recovery time |
| `WeaponsConfig.TierProgression` | weapons/weapons-config.ts:3-154 | `k` kills earn tier `min(k, 5)`, so every tier is reachable and the baguette caps the progression |
| `WeaponsConfigTest.Weapons` | weapons/weapons-config-test.ts:3-56 | The two-tier catalog with the source's values: the pistol, then the baguette |
| `WeaponsConfigTest.TwoTiers` | weapons/weapons-config-test.ts:3-56 | Two tiers: the pistol needs no kills and is the only starting tier, the baguette needs one |
| `WeaponsConfigTest.OnlyBaguetteWins` | weapons/weapons-config-test.ts:27-53 | Only the baguette wins the game |
| `WeaponsConfigTest.BaguetteOneHitKill` | weapons/weapons-config-test.ts:50-52 | Under the damage rule one baguette hit anywhere leaves a full-health combatant at 0 |
| `WeaponsConfigTest.BaguetteNeverRunsDry` | weapons/weapons-config-test.ts:35 | The baguette's unlimited magazine stays unlimited and never blocks the gate, and counts as full for reloading |
| `WeaponsConfigTest.BaguetteHasNoSpread` | weapons/weapons-config-test.ts:41-42 | With spread 0 and recovery time 0 the spread update takes the branch without division and yields 0 |
| `WeaponsConfigTest.PistolDamageStrictlyOrdered` | weapons/weapons-config-test.ts:24-26 | The pistol deals 35 to the head, 20 to the body and 15 to the limbs, strictly decreasing |

## Left out

- Movement and physics in the input tick: velocities, jumping, rotation, ground contact, colliders and animation selection. All of this is floating-point numerics plus engine calls.
- The random aim jitter of a follow-up shot and its direction normalisation, and the random spawn positions. These are random and float-based; the raycast is a foreign call, and only its result is modelled.
- Audio, chat, UI messages to a single player, camera setup, weapon model attachment and the kill feed. These are presentation only. Broadcasts to all players are kept as the outgoing log.
- Console logging, including the WAITING tick's memory of the last logged player count. It has no effect on the game.
- The reload progress interval. It only logs.
- Moving a dead combatant off the map and back on respawn. These are engine position calls.
- `join` (sessions/world.ts:368-387) changes no match state; it only hands the player to the engine.
- The GunWorld constructor's map loading, background music, `/leave` chat command and one-second interval. The maximum player count and the maximum waiting time are stored but not read by the game logic shown; the maximum player count is only exposed through the `maxPlayerCount` getter (sessions/world.ts:51), and the `playerCount` getter (sessions/world.ts:52) reports the length of the player list, which the model keeps as `players`. The module-level world registry is glue that builds engine worlds.
- The `resetStats` and `switchWeapon(getStartingWeapon())` calls on every controller in the win reset. `weapons/weapons.ts` and these controller methods are not part of this model. The reset models the world state and the freeze flags only.
- `setFrozen` is not part of this model either. Freezing is modelled as the flag the world sets on each player (`frozen`), not as controller behaviour.
- Player identity: JavaScript compares `Player` objects by reference. The model compares players as values (id and user name).
- `switchWeapon` with a name outside the inline table: that would fail in JavaScript. The model's weapon names are exactly the table's two entries.
- Floating-point rounding: health, damage and spread are exact reals. `Math.round(x * 10) / 10` is floor of `x * 10 + 0.5`, over 10.
- A negative time since the last shot with a zero recovery time. This would divide by zero in the source; `SpreadAfter` requires a clock that does not run backwards in that case.
- A combatant detached mid-timer is not modelled. The completion methods act on a live controller.
- EntityController.MyEntityController.Attach: also clears the model's respawn countdown, to keep "a running countdown means dead". A controller is attached once, to a fresh entity, so no countdown is running at that point.

## Findings

| source | as written | input that shows it | evidently intended | confidence | as-written member | corrected member |
|---|---|---|---|---|---|---|
| MyEntityController.ts:309-316 | respawn restores health, life, weapon and magazine but leaves the reloading flag as it was; the reload timer (MyEntityController.ts:421-429) clears the flag only for a living combatant, and `startReload` (MyEntityController.ts:397) refuses while it is set | a combatant fires once, presses R, and a lethal hit lands before the 2200 ms timer fires; the timer finds it dead, the six-tick countdown respawns it, and from then on neither the trigger nor R does anything | respawn starts the new life without a reload in progress | not executed; high for the stated input | `EntityController.DeathMidReloadAsWritten` | `EntityController.DeathMidReloadIntended` |
| sessions/world.ts:54-59 | `if (score)` treats a stored score of 0 as missing, so only a non-zero score is incremented | a player joins (the score is set to 0 at sessions/world.ts:426), then `incrementScore` for that player: the score stays 0, and no later increment moves it | the test is for a present key: every stored score, 0 included, grows by one | not executed; high for the stated input | `GunWorldSession.JoinedScoreStaysZero` | `GunWorldSession.JoinedScoreCountsIntended` |

`MyEntityController.Respawn` and `RespawnCountdownTick` keep the code's behaviour, since that is the behaviour of the running game. `RespawnIntended` and `RespawnCountdownTickIntended` give the corrected respawn, and `DeathMidReloadIntended` proves that with it the same life can fire again.

`GunWorld.IncrementScore` keeps the code's behaviour, since that is the behaviour of the running game. `IncrementedScoresIntended` gives the corrected increment, and `JoinedScoreCountsIntended` proves that with it a joined player's score counts the increments.

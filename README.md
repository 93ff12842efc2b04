# Gun ammo, reload and fire-gate state machine

A Dafny model of the weapon core of `Gun.cs`, the base class of every gun in
this first-person shooter. The model covers the six fields that make up the
weapon's runtime state: `currentAmmo`, `reserveAmmo`, `maxReserveAmmo`,
`isReloading`, `nextTimeToFire` and `isShooting`. It also covers
`timeBetweenShots`, and every operation that changes those fields:

- `Start`, which initialises the fields;
- the fire and reload decision block at the top of `Update`;
- `TryShoot` and the ammo part of `HandleShoot`;
- `TryReload` and the `Reload` coroutine;
- `AddAmmo` and `SubtractAmmo`.

The project has three modules:

- `Ammo` (`ammo.dfy`) holds the state as a value (`GunState`) and every
  operation as a total function. Each function's contract states what the
  operation promises: a rejected request changes nothing, an accepted shot
  spends exactly one round and arms the cool-down, a completed reload moves
  `min(magazineSize - currentAmmo, reserveAmmo)` rounds and conserves the
  total, `AddAmmo` caps the reserve at `maxReserveAmmo`, and
  `SubtractAmmo` floors it at 0.
- `Weapon` (`gun.dfy`) holds the class `Gun`, whose fields and methods follow
  `Gun.cs` statement by statement. Each method is proved to change the object
  exactly as the matching `Ammo` function changes a value. `TryShoot`,
  `TryReload`, `BeginReload`, `CompleteReload` and `Update` are also proved
  to keep the ammo invariant `Ammo.Inv`; `AddAmmo` and `SubtractAmmo` keep it
  for amounts of at least 0. `HandleShoot` does not keep it on its own: on
  an empty magazine it would drive `currentAmmo` below 0, and only the guard
  of `TryShoot` prevents that.
- `AmmoProperties` (`properties.dfy`) proves properties of whole runs of
  events. An event is an `Update` frame, a direct `TryShoot` or `TryReload`
  call, a reload completing, or `AddAmmo` / `SubtractAmmo`. The run lemmas
  prove three things. The invariant holds in every state reachable from a
  `Start` whose configured reserve lies within its cap, through pickups and
  drains of at least 0 rounds. Over a run without pickups or drains, ammo is
  conserved up to the shots fired. With no reload pending, trigger pulls
  spaced by the cool-down fire until the magazine is empty, and the next pull
  is rejected.

Modelling choices:

- Ammo is an `int`. The source declares the counts and the `AddAmmo` /
  `SubtractAmmo` amounts `float`; the model assumes every amount handed to
  those two is a whole number, and then every count stays whole.
- `Time.time`, `Time.timeScale` and the analog fire value are `real`
  parameters of `Update` (`Ammo.FrameInput`).
- `GunData` keeps the three settings this logic reads: `magazineSize`, `RPM`
  and `isAutomatic`. `Ammo.ValidData` assumes `magazineSize > 0` and
  `RPM > 0`.
- The `Reload` coroutine has two steps:
  - `BeginReload` is the part before its first `yield` (Gun.cs:118-123). It
    runs synchronously inside `StartCoroutine`, so a reload started in a
    frame has already set `isReloading` when that frame's `TryShoot` runs.
  - `CompleteReload` is the part after the wait (Gun.cs:128-134). In a run of
    events it happens only while a reload is pending, that is, while
    `isReloading` holds.
- The amount a reload moves is computed at completion, from the values at that
  moment, as Gun.cs:128-129 do. A pickup or drain during the wait therefore
  changes the transfer (`DrainDuringReloadChangesTransfer`): there, a
  reload that fixed its amount when it began would move 10 rounds, while the
  code moves 5.
- With an empty reserve, `Reload` returns before setting `isReloading`
  (Gun.cs:118-121). So a reload with nothing to transfer is rejected at once,
  with no state change, and does not wait out the reload time.
- The branch `else if (reserveAmmo > 0) TryReload()` at Gun.cs:151-154 cannot
  be reached, because Gun.cs:140 has already returned whenever
  `currentAmmo <= 0`.
  - `Ammo.TryShoot` keeps the branch as written. Its contract
    `r.isReloading == s.isReloading` shows that a shot on an empty magazine
    never starts a reload.
  - `Weapon.Gun.TryShoot` states the same fact as `assert false` in that
    branch.

## Model

| member | source | states |
|---|---|---|
| `Ammo.TimeBetweenShots` | Gun.cs:52 | the cool-down is positive and `RPM` cool-downs make up exactly 60 seconds |
| `Ammo.Min` | Gun.cs:129 | `Mathf.Min` on whole numbers: the result is at most both arguments and equals one of them |
| `Ammo.Max` | Gun.cs:223 | `Mathf.Max` on whole numbers: the result is at least both arguments and equals one of them |
| `Ammo.Start` | Gun.cs:40-54 | a started gun has a full magazine, is not reloading, can fire at time 0, keeps the configured reserve and cap, and satisfies the ammo invariant when the reserve lies within its cap |
| `Ammo.HandleShoot` | Gun.cs:157-164 | a shot spends exactly one round and sets `isShooting`; no other field changes |
| `Ammo.TryShoot` | Gun.cs:138-155 | rejected with no change while reloading or with `currentAmmo <= 0`; otherwise exactly one round spent, `isShooting` set, `nextTimeToFire = now + timeBetweenShots`, and nothing else changed; never starts a reload (the dead branch at 151-154); never drives the magazine negative |
| `Ammo.BeginReload` | Gun.cs:116-123 | only `isReloading` can change; it becomes true exactly when the reserve is positive and the magazine is not full |
| `Ammo.TryReload` | Gun.cs:108-114 | no change when already reloading, the magazine is full or the reserve is empty; otherwise only `isReloading` is set |
| `Ammo.CompleteReload` | Gun.cs:128-134 | moves exactly `min(magazineSize - currentAmmo, reserveAmmo)`, read at completion; conserves `currentAmmo + reserveAmmo`; leaves `currentAmmo <= magazineSize`, `reserveAmmo >= 0`, and either a full magazine or an empty reserve; clears `isReloading`; nothing else changes |
| `Ammo.AddAmmo` | Gun.cs:215-219 | the reserve becomes `reserve + amount` or the cap, whichever is smaller, so it never exceeds `maxReserveAmmo`; no other field changes |
| `Ammo.SubtractAmmo` | Gun.cs:221-225 | the reserve becomes `reserve - amount` or 0, whichever is larger, so it never drops below 0; no other field changes |
| `Ammo.Update` | Gun.cs:56-80 | nothing happens while `timeScale == 0`; a shot fires exactly when the gate is open (`now >= nextTimeToFire`), the trigger asks for one (fresh pull, or held on an automatic weapon), a shot is accepted, and no reload starts in the same frame; a fired frame spends one round, sets `isShooting` and `nextTimeToFire = now + timeBetweenShots` and changes nothing else; a reload begins exactly when the game runs, reload is requested, the gate is open and the reload guards pass; a frame that fires nothing changes only `isShooting` and `isReloading`; with the gate closed only `isShooting` may change; a released trigger on a semi-automatic weapon clears `isShooting`, and every other frame that fires nothing keeps `isShooting` as it was, so the new state is fixed on every frame; the reserve is untouched; the ammo invariant is kept |
| `Weapon.Gun.Start` | Gun.cs:40-54 | the fields after `Start` are `Ammo.Start` of the configuration; the cool-down matches the rate of fire |
| `Weapon.Gun.HandleShoot` | Gun.cs:157-164 | the fields change as `Ammo.HandleShoot` says |
| `Weapon.Gun.TryShoot` | Gun.cs:138-155 | the fields change as `Ammo.TryShoot` says; `fired` reports whether the shot was accepted; an accepted shot sets `nextTimeToFire` to `now` plus 60/RPM; the ammo invariant is kept |
| `Weapon.Gun.BeginReload` | Gun.cs:116-123 | the fields change as `Ammo.BeginReload` says; the ammo invariant is kept |
| `Weapon.Gun.CompleteReload` | Gun.cs:128-134 | the fields change as `Ammo.CompleteReload` says; the ammo invariant is kept |
| `Weapon.Gun.TryReload` | Gun.cs:108-114 | the fields change as `Ammo.TryReload` says; the ammo invariant is kept |
| `Weapon.Gun.AddAmmo` | Gun.cs:215-219 | the fields change as `Ammo.AddAmmo` says; `currentAmmo` and `isReloading` are untouched; a non-negative pickup keeps the invariant |
| `Weapon.Gun.SubtractAmmo` | Gun.cs:221-225 | the fields change as `Ammo.SubtractAmmo` says; `currentAmmo` and `isReloading` are untouched; a non-negative drain keeps the invariant |
| `Weapon.Gun.Update` | Gun.cs:56-80 | the fields and the `fired` event are those of `Ammo.Update`; a fired frame sets `nextTimeToFire` to `now` plus 60/RPM; the ammo invariant is kept |
| `AmmoProperties.Step` | Gun.cs:116-136 | one event: a reload completion only acts while a reload is pending (`isReloading`), the coroutine resuming after its wait at line 125, and clears `isReloading`; without one it changes nothing; only a frame or a direct `TryShoot` fires, spending one round; no event changes `maxReserveAmmo` |
| `AmmoProperties.StepKeepsInv` | Gun.cs:108-225 | every single event whose pickup or drain amount is at least 0 keeps `0 <= currentAmmo <= magazineSize`, `0 <= reserveAmmo <= maxReserveAmmo` and "a pending reload has room to fill" |
| `AmmoProperties.RunKeepsInv` | Gun.cs:108-225 | every sequence of events with non-negative pickup and drain amounts keeps the ammo invariant |
| `AmmoProperties.RunKeepsCap` | Gun.cs:27 | no event changes `maxReserveAmmo` |
| `AmmoProperties.ReachableStatesAreBounded` | Gun.cs:40-160 | from `Start` with a reserve within its cap, every state reachable through pickups and drains of at least 0 rounds has `0 <= currentAmmo <= magazineSize` and `0 <= reserveAmmo <= maxReserveAmmo` |
| `AmmoProperties.StepConservesAmmo` | Gun.cs:128-160 | an event other than a pickup or drain keeps `currentAmmo + reserveAmmo`, except that a shot removes exactly one round |
| `AmmoProperties.RunConservesAmmo` | Gun.cs:128-160 | over a run without pickups or drains, magazine plus reserve plus shots fired stays constant |
| `AmmoProperties.SpacedPullsAllFire` | Gun.cs:62-75 | with no reload pending, trigger pulls spaced at least one cool-down apart, no more than the rounds in the magazine, all fire; each spends exactly one round; the reserve is untouched |
| `AmmoProperties.EmptyMagazineRejectsPull` | Gun.cs:140-143 | with an empty magazine a trigger pull at any time fires nothing and changes nothing |
| `AmmoProperties.MagazineEmptiesAtLastRound` | Gun.cs:42-160 | from `Start`, `magazineSize` spaced pulls all fire and empty the magazine exactly; the next pull is rejected |
| `AmmoProperties.ThirtyRoundsAt600Rpm` | Gun.cs:52-160 | at 600 RPM a 30-round magazine pulled every 0.1 s fires 30 times, and the 31st pull, at 3.0 s, is rejected |
| `AmmoProperties.ReloadRejectsSameFrameShot` | Gun.cs:64-71 | when a reload begins in a frame, the shot of that frame is rejected and the magazine is unchanged |
| `AmmoProperties.TryReloadIdempotent` | Gun.cs:108-123 | a second reload request right after the first changes nothing |
| `AmmoProperties.ReloadExample` | Gun.cs:128-134 | reserve 90 with a deficit of 10: the magazine is full and 80 rounds remain |
| `AmmoProperties.DrainDuringReloadChangesTransfer` | Gun.cs:125-134 | a drain of 85 during the wait leaves only 5 rounds to transfer, because the amount is read at completion |

## Left out

- `Gun.ADS` and `Gun.WeaponSway` (Gun.cs:87-106): floating-point `Lerp` and `SmoothDamp` smoothing and transform writes. They do not touch the ammo or fire-gate state.
- `Gun.Shoot`, `BulletFire`, `BulletHitFX`, `FlashMuzzle` and `PlayerFireSound` (Gun.cs:161-213): ray casts, prefab instantiation, particles and audio. They are engine side effects. The `fired` result of `TryShoot` and `Update` stands for them.
- The reload wait, `WaitForSeconds(reloadTime - 0.5)` (Gun.cs:125): the model has no clock for coroutines. The completion of a reload is an event that the frame scheduler delivers.
- A reload coroutine stopped by the engine, for example when the object is disabled, would leave `isReloading` set. Coroutine cancellation is engine behaviour and is not modelled.
- Reading the input actions (Gun.cs:60-61, 73, 77) and `InputManager.isAiming`: the frame's inputs arrive as a `FrameInput` value.
- The commented-out HUD updates (`UpdateAmmoText`) and the references fetched in `Start` (player controller, camera, input and sound managers): presentation and engine plumbing.
- `RecoilSystem.cs`, `PlayerController.cs`, `AK103.cs`, `SoundManager.cs` and `InputManager.cs` are not part of this model. They hold float animation, physics, ray casts, audio and input plumbing.
- Fractional ammo amounts: `AddAmmo` and `SubtractAmmo` take a `float` (Gun.cs:215, 221), and a fraction breaks the whole-count assumption. `AddAmmo(0.5)` on an empty reserve and magazine, then a reload, moves 0.5 rounds; the next `TryShoot` is accepted and leaves `currentAmmo = -0.5`. The model's `int` amounts cannot express this.
- Floating point: ammo counts are exact integers, and times and the time scale are exact reals. The model does not capture `float` rounding in `now + timeBetweenShots` or in `60 / RPM`.
- `AmmoProperties.RunKeepsInv`: requires non-negative `AddAmmo` / `SubtractAmmo` amounts. The source accepts any value, and a negative pickup can push the reserve below zero. `AddAmmo` and `SubtractAmmo` themselves are modelled for every amount.
- `Weapon.Gun.TryShoot`: the unreachable branch at Gun.cs:151-154 is written as `assert false` rather than as a call to `TryReload`. `Ammo.TryShoot` keeps the call.

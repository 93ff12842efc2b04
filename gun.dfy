/**
 * The gun component of Gun.cs: the fields its ammo, reload and fire-gate
 * logic updates in place, and the methods that update them. Each method is
 * proved to move the object's state exactly as the matching function of
 * module Ammo moves a value, so every property proved there holds here.
 */
module Weapon {
  import Ammo

  class Gun {
    const gunData: Ammo.GunData
    var currentAmmo: int
    var reserveAmmo: int
    var maxReserveAmmo: int
    var isReloading: bool
    var nextTimeToFire: real
    var isShooting: bool
    var timeBetweenShots: real

    /** The fields as one value of the state machine. */
    function State(): (s: Ammo.GunState)
      reads this
    {
      Ammo.GunState(currentAmmo, reserveAmmo, maxReserveAmmo, isReloading,
                    nextTimeToFire, isShooting, timeBetweenShots)
    }

    /** The configuration is valid and the cool-down matches its rate of fire. */
    ghost predicate Valid()
      reads this
    {
      Ammo.ValidData(gunData) && timeBetweenShots == Ammo.TimeBetweenShots(gunData)
    }

    /**
     * Start, with the field initialisers. The reserve and its cap are set on
     * the component before it starts, so they come in as parameters.
     */
    constructor Start(data: Ammo.GunData, reserve: int, maxReserve: int)
      requires Ammo.ValidData(data)
      ensures gunData == data && Valid()
      ensures State() == Ammo.Start(data, reserve, maxReserve)
      ensures 0 <= reserve <= maxReserve ==> Ammo.Inv(State(), gunData)
    {
      gunData := data;
      isShooting := false;
      nextTimeToFire := 0.0;
      isReloading := false;
      reserveAmmo := reserve;
      maxReserveAmmo := maxReserve;
      currentAmmo := data.magazineSize;
      timeBetweenShots := 60.0 / data.rpm;
    }

    /** The ammo part of HandleShoot: the shot itself is the caller's `fired` event. */
    method HandleShoot()
      modifies this
      ensures State() == Ammo.HandleShoot(old(State()))
      // Corollary of the clause above, stated for the reader.
      ensures currentAmmo == old(currentAmmo) - 1 && isShooting
    {
      isShooting := true;
      currentAmmo := currentAmmo - 1;
    }

    /**
     * TryShoot at time `now`; `fired` reports whether HandleShoot ran.
     */
    method TryShoot(now: real) returns (fired: bool)
      requires Valid()
      modifies this
      ensures Valid()
      ensures State() == Ammo.TryShoot(old(State()), gunData, now)
      ensures fired == Ammo.ShotAccepted(old(State()))
      ensures fired ==> nextTimeToFire == now + Ammo.TimeBetweenShots(gunData)
      ensures Ammo.Inv(old(State()), gunData) ==> Ammo.Inv(State(), gunData)
    {
      fired := false;
      if isReloading || currentAmmo <= 0 {
        return;
      }

      if currentAmmo > 0 {
        nextTimeToFire := now + timeBetweenShots;
        HandleShoot();
        fired := true;
      } else {
        // The reload on an empty magazine: the first guard has already
        // returned for every state that would get here.
        assert false;
      }
    }

    /** The part of the Reload coroutine that runs before its first yield. */
    method BeginReload()
      requires Valid()
      modifies this
      ensures Valid()
      ensures State() == Ammo.BeginReload(old(State()), gunData)
      ensures Ammo.Inv(old(State()), gunData) ==> Ammo.Inv(State(), gunData)
    {
      if reserveAmmo <= 0 || currentAmmo == gunData.magazineSize {
        return;
      }
      isReloading := true;
    }

    /** The part of the Reload coroutine that runs when its wait is over. */
    method CompleteReload()
      requires Valid()
      modifies this
      ensures Valid()
      ensures State() == Ammo.CompleteReload(old(State()), gunData)
      ensures Ammo.Inv(old(State()), gunData) ==> Ammo.Inv(State(), gunData)
    {
      var ammoNeeded := gunData.magazineSize - currentAmmo;
      var ammoToTransfer := Ammo.Min(ammoNeeded, reserveAmmo);
      currentAmmo := currentAmmo + ammoToTransfer;
      reserveAmmo := reserveAmmo - ammoToTransfer;
      isReloading := false;
    }

    /** TryReload: start the Reload coroutine unless one runs or the magazine is full. */
    method TryReload()
      requires Valid()
      modifies this
      ensures Valid()
      ensures State() == Ammo.TryReload(old(State()), gunData)
      ensures Ammo.Inv(old(State()), gunData) ==> Ammo.Inv(State(), gunData)
    {
      if !isReloading && currentAmmo < gunData.magazineSize {
        BeginReload();
      }
    }

    /** AddAmmo: raise the reserve, capped at its maximum. */
    method AddAmmo(amount: int)
      requires Valid()
      modifies this
      ensures Valid()
      ensures State() == Ammo.AddAmmo(old(State()), amount)
      // Corollary of the clause above, stated for the reader: the magazine
      // and the reload state are untouched.
      ensures currentAmmo == old(currentAmmo) && isReloading == old(isReloading)
      ensures amount >= 0 && Ammo.Inv(old(State()), gunData) ==> Ammo.Inv(State(), gunData)
    {
      reserveAmmo := Ammo.Min(reserveAmmo + amount, maxReserveAmmo);
    }

    /** SubtractAmmo: lower the reserve, never below zero. */
    method SubtractAmmo(amount: int)
      requires Valid()
      modifies this
      ensures Valid()
      ensures State() == Ammo.SubtractAmmo(old(State()), amount)
      // Corollary of the clause above, stated for the reader: the magazine
      // and the reload state are untouched.
      ensures currentAmmo == old(currentAmmo) && isReloading == old(isReloading)
      ensures amount >= 0 && Ammo.Inv(old(State()), gunData) ==> Ammo.Inv(State(), gunData)
    {
      reserveAmmo := Ammo.Max(reserveAmmo - amount, 0);
    }

    /** The fire and reload block of Update for one frame. */
    method Update(input: Ammo.FrameInput) returns (fired: bool)
      requires Valid()
      modifies this
      ensures Valid()
      ensures Ammo.Outcome(State(), fired) == Ammo.Update(old(State()), gunData, input)
      ensures fired ==> nextTimeToFire == input.now + Ammo.TimeBetweenShots(gunData)
      ensures Ammo.Inv(old(State()), gunData) ==> Ammo.Inv(State(), gunData)
    {
      fired := false;
      if input.timeScale == 0.0 {
        return;
      }

      var fire := input.fireTriggered;
      var reload := input.reloadTriggered;
      var canFire := input.now >= nextTimeToFire;

      if reload && canFire {
        TryReload();
      }

      if fire && canFire {
        fired := TryShoot(input.now);
      } else if gunData.isAutomatic && input.fireValue > 0.0 && canFire {
        fired := TryShoot(input.now);
      } else if !gunData.isAutomatic && input.fireValue == 0.0 {
        isShooting := false;
      }
    }
  }
}

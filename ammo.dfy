/**
 * The ammo, reload and fire-gate state machine of a gun (Gun.cs), as values.
 *
 * Ammo counts are taken to be whole numbers (`int`); the game clock, the time scale and the
 * analog trigger value are `real`s handed in by the caller. Every operation is
 * a total function from the old state to the new one: the source never raises,
 * it silently ignores a request whose guard fails, and so does this model.
 */
module Ammo {

  /** The static per-weapon configuration the state machine reads. */
  datatype GunData = GunData(magazineSize: int, rpm: real, isAutomatic: bool)

  /** A weapon has a non-empty magazine and a positive rate of fire. */
  predicate ValidData(d: GunData)
  {
    d.magazineSize > 0 && d.rpm > 0.0
  }

  /** Seconds between two shots: `rpm` shots take one minute. */
  function TimeBetweenShots(d: GunData): (r: real)
    requires d.rpm > 0.0
    ensures r > 0.0
    ensures r * d.rpm == 60.0
  {
    60.0 / d.rpm
  }

  /** The mutable fields of one gun instance. */
  datatype GunState = GunState(
    currentAmmo: int,
    reserveAmmo: int,
    maxReserveAmmo: int,
    isReloading: bool,
    nextTimeToFire: real,
    isShooting: bool,
    timeBetweenShots: real)

  function Min(a: int, b: int): (m: int)
    ensures m <= a && m <= b && (m == a || m == b)
  {
    if a <= b then a else b
  }

  function Max(a: int, b: int): (m: int)
    ensures m >= a && m >= b && (m == a || m == b)
  {
    if a >= b then a else b
  }

  /**
   * What one frame hands to Update: the time scale, the clock, whether the
   * fire and reload actions were triggered this frame, and the analog value of
   * the fire action.
   */
  datatype FrameInput = FrameInput(
    timeScale: real,
    now: real,
    fireTriggered: bool,
    reloadTriggered: bool,
    fireValue: real)

  /** The state after a frame and whether a shot left the barrel in it. */
  datatype Outcome = Outcome(state: GunState, fired: bool)

  /** A shot request is accepted exactly when no reload runs and a round is chambered. */
  predicate ShotAccepted(s: GunState)
  {
    !s.isReloading && s.currentAmmo > 0
  }

  /** A reload request actually starts a reload: both guards of the request and of the coroutine pass. */
  predicate ReloadBegins(s: GunState, d: GunData)
  {
    !s.isReloading && s.currentAmmo < d.magazineSize && s.reserveAmmo > 0
  }

  /** The ammo-accounting invariant every operation keeps. */
  predicate Inv(s: GunState, d: GunData)
  {
    0 <= s.currentAmmo <= d.magazineSize &&
    0 <= s.reserveAmmo <= s.maxReserveAmmo &&
    (s.isReloading ==> s.currentAmmo < d.magazineSize)
  }

  /**
   * Start: the field initialisers (not reloading, no cool-down, not shooting),
   * the reserve and its cap as configured, a full magazine and the derived
   * time between shots.
   */
  function Start(d: GunData, reserveAmmo: int, maxReserveAmmo: int): (s: GunState)
    requires ValidData(d)
    ensures s.currentAmmo == d.magazineSize && ShotAccepted(s)
    ensures s.reserveAmmo == reserveAmmo && s.maxReserveAmmo == maxReserveAmmo
    ensures s.nextTimeToFire == 0.0 && !s.isShooting
    ensures s.timeBetweenShots * d.rpm == 60.0
    ensures 0 <= reserveAmmo <= maxReserveAmmo ==> Inv(s, d)
  {
    GunState(d.magazineSize, reserveAmmo, maxReserveAmmo, false, 0.0, false, TimeBetweenShots(d))
  }

  /** HandleShoot, ammo part: mark the gun as shooting and spend one round. */
  function HandleShoot(s: GunState): (r: GunState)
    ensures r.currentAmmo + 1 == s.currentAmmo && r.isShooting
    ensures r.(currentAmmo := s.currentAmmo, isShooting := s.isShooting) == s
  {
    s.(isShooting := true, currentAmmo := s.currentAmmo - 1)
  }

  /**
   * TryShoot at time `now`. Rejected without any change while reloading or
   * with an empty magazine; otherwise it arms the cool-down and shoots. The
   * last branch (reload on an empty magazine) is kept as written although the
   * first guard already returned for every state that could reach it.
   */
  function TryShoot(s: GunState, d: GunData, now: real): (r: GunState)
    ensures !ShotAccepted(s) ==> r == s
    ensures ShotAccepted(s) ==>
      r == s.(currentAmmo := s.currentAmmo - 1,
              isShooting := true,
              nextTimeToFire := now + s.timeBetweenShots)
    ensures r.isReloading == s.isReloading && r.reserveAmmo == s.reserveAmmo
    ensures s.currentAmmo >= 0 ==> r.currentAmmo >= 0
  {
    if s.isReloading || s.currentAmmo <= 0 then s
    else if s.currentAmmo > 0 then HandleShoot(s.(nextTimeToFire := now + s.timeBetweenShots))
    else if s.reserveAmmo > 0 then TryReload(s, d)
    else s
  }

  /**
   * The synchronous part of the Reload coroutine, before its first yield:
   * give up with an empty reserve or a full magazine, else enter the reload.
   */
  function BeginReload(s: GunState, d: GunData): (r: GunState)
    ensures r.(isReloading := s.isReloading) == s
    ensures r.isReloading <==>
      s.isReloading || (s.reserveAmmo > 0 && s.currentAmmo != d.magazineSize)
  {
    if s.reserveAmmo <= 0 || s.currentAmmo == d.magazineSize then s
    else s.(isReloading := true)
  }

  /**
   * TryReload: start the Reload coroutine unless one already runs or the
   * magazine is full. It changes the state only when a reload actually begins.
   */
  function TryReload(s: GunState, d: GunData): (r: GunState)
    ensures !ReloadBegins(s, d) ==> r == s
    ensures ReloadBegins(s, d) ==> r == s.(isReloading := true)
  {
    if !s.isReloading && s.currentAmmo < d.magazineSize then BeginReload(s, d) else s
  }

  /**
   * The rest of the Reload coroutine, after the wait: move what the
   * magazine lacks, but no more than the reserve holds, both read now, and
   * leave the reloading state.
   */
  function CompleteReload(s: GunState, d: GunData): (r: GunState)
    ensures r.currentAmmo - s.currentAmmo == Min(d.magazineSize - s.currentAmmo, s.reserveAmmo)
    ensures r.currentAmmo + r.reserveAmmo == s.currentAmmo + s.reserveAmmo
    ensures r.currentAmmo <= d.magazineSize && r.reserveAmmo >= 0
    ensures r.currentAmmo == d.magazineSize || r.reserveAmmo == 0
    ensures s.currentAmmo <= d.magazineSize && s.reserveAmmo >= 0 ==>
      s.currentAmmo <= r.currentAmmo && r.reserveAmmo <= s.reserveAmmo
    ensures !r.isReloading
    ensures r.(currentAmmo := s.currentAmmo, reserveAmmo := s.reserveAmmo, isReloading := s.isReloading) == s
  {
    var ammoNeeded := d.magazineSize - s.currentAmmo;
    var ammoToTransfer := Min(ammoNeeded, s.reserveAmmo);
    s.(currentAmmo := s.currentAmmo + ammoToTransfer,
       reserveAmmo := s.reserveAmmo - ammoToTransfer,
       isReloading := false)
  }

  /** AddAmmo: grow the reserve by `amount`, capped at the maximum reserve. */
  function AddAmmo(s: GunState, amount: int): (r: GunState)
    ensures r.reserveAmmo <= s.maxReserveAmmo
    ensures r.reserveAmmo <= s.reserveAmmo + amount
    ensures r.reserveAmmo == s.reserveAmmo + amount || r.reserveAmmo == s.maxReserveAmmo
    ensures r.(reserveAmmo := s.reserveAmmo) == s
  {
    s.(reserveAmmo := Min(s.reserveAmmo + amount, s.maxReserveAmmo))
  }

  /** SubtractAmmo: shrink the reserve by `amount`, never below zero. */
  function SubtractAmmo(s: GunState, amount: int): (r: GunState)
    ensures r.reserveAmmo >= 0
    ensures r.reserveAmmo >= s.reserveAmmo - amount
    ensures r.reserveAmmo == s.reserveAmmo - amount || r.reserveAmmo == 0
    ensures r.(reserveAmmo := s.reserveAmmo) == s
  {
    s.(reserveAmmo := Max(s.reserveAmmo - amount, 0))
  }

  /** The trigger asks for a shot this frame: a fresh pull, or a held trigger on an automatic weapon. */
  predicate PullsTrigger(d: GunData, input: FrameInput)
  {
    input.fireTriggered || (d.isAutomatic && input.fireValue > 0.0)
  }

  /**
   * The frame reaches the branch that clears `isShooting`: the game runs, the
   * weapon is semi-automatic, the trigger is fully released, and no shot was
   * requested through an open gate.
   */
  predicate ReleasesTrigger(s: GunState, d: GunData, input: FrameInput)
  {
    input.timeScale != 0.0 && !d.isAutomatic && input.fireValue == 0.0 &&
    !(input.fireTriggered && input.now >= s.nextTimeToFire)
  }

  /**
   * The fire and reload decisions at the top of Update. Nothing happens while
   * the game is paused. The cool-down is read once; a reload request comes
   * first, so a reload it starts rejects the shot of the same frame. On a
   * semi-automatic weapon a released trigger clears `isShooting`.
   */
  function Update(s: GunState, d: GunData, input: FrameInput): (o: Outcome)
    ensures input.timeScale == 0.0 ==> o == Outcome(s, false)
    ensures o.fired <==>
      input.timeScale != 0.0 && input.now >= s.nextTimeToFire && PullsTrigger(d, input) &&
      ShotAccepted(s) && !(input.reloadTriggered && ReloadBegins(s, d))
    ensures o.fired ==>
      o.state == s.(currentAmmo := s.currentAmmo - 1,
                    isShooting := true,
                    nextTimeToFire := input.now + s.timeBetweenShots)
    ensures !o.fired ==> o.state.(isShooting := s.isShooting, isReloading := s.isReloading) == s
    ensures o.state.isReloading ==
      (s.isReloading || (input.timeScale != 0.0 && input.reloadTriggered &&
                         input.now >= s.nextTimeToFire && ReloadBegins(s, d)))
    ensures ReleasesTrigger(s, d, input) ==> !o.state.isShooting
    ensures !o.fired && !ReleasesTrigger(s, d, input) ==> o.state.isShooting == s.isShooting
    // Corollaries of the clauses above, stated for the reader: with the gate
    // closed only `isShooting` may change, a frame that fires nothing keeps
    // the magazine, and no frame touches the reserve or the cool-down length.
    ensures input.now < s.nextTimeToFire ==> o.state.(isShooting := s.isShooting) == s
    ensures !o.fired ==> o.state.currentAmmo == s.currentAmmo
    ensures o.state.reserveAmmo == s.reserveAmmo && o.state.timeBetweenShots == s.timeBetweenShots
    ensures Inv(s, d) ==> Inv(o.state, d)
  {
    if input.timeScale == 0.0 then Outcome(s, false)
    else
      var canFire := input.now >= s.nextTimeToFire;
      var s1 := if input.reloadTriggered && canFire then TryReload(s, d) else s;
      if input.fireTriggered && canFire then
        Outcome(TryShoot(s1, d, input.now), ShotAccepted(s1))
      else if d.isAutomatic && input.fireValue > 0.0 && canFire then
        Outcome(TryShoot(s1, d, input.now), ShotAccepted(s1))
      else if !d.isAutomatic && input.fireValue == 0.0 then
        Outcome(s1.(isShooting := false), false)
      else
        Outcome(s1, false)
  }
}

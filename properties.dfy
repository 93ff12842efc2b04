/**
 * Properties of the gun state machine over whole runs: every sequence of
 * frames, direct requests, reload completions and ammo pickups keeps the
 * ammo invariant; without pickups or drains the ammo is conserved up to the
 * shots fired; with no reload pending, trigger pulls spaced by the cool-down
 * each fire until the magazine is empty, and the next one does not.
 */
module AmmoProperties {
  import opened Ammo

  /** Everything that can happen to a gun between two observations. */
  datatype Event =
    | Frame(input: FrameInput)  // one Update
    | Shoot(now: real)          // a direct TryShoot call
    | Reload                    // a direct TryReload call
    | ReloadFinished            // the pending Reload coroutine resumes after its wait
    | Pickup(amount: int)       // AddAmmo
    | Drain(amount: int)        // SubtractAmmo

  /** A run's final state and the number of shots fired on the way. */
  datatype RunResult = RunResult(state: GunState, shots: nat)

  /**
   * One event. A reload completes only while one is pending, that is while
   * `isReloading` holds: nothing else clears it, and nothing else sets it.
   */
  function Step(s: GunState, d: GunData, e: Event): (o: Outcome)
    ensures e.ReloadFinished? && !s.isReloading ==> o == Outcome(s, false)
    ensures e.ReloadFinished? && s.isReloading ==> !o.state.isReloading
    ensures o.fired ==> (e.Frame? || e.Shoot?) && o.state.currentAmmo == s.currentAmmo - 1
    ensures o.state.maxReserveAmmo == s.maxReserveAmmo
  {
    match e
    case Frame(input) => Update(s, d, input)
    case Shoot(now) => Outcome(TryShoot(s, d, now), ShotAccepted(s))
    case Reload => Outcome(TryReload(s, d), false)
    case ReloadFinished => Outcome(if s.isReloading then CompleteReload(s, d) else s, false)
    case Pickup(a) => Outcome(AddAmmo(s, a), false)
    case Drain(a) => Outcome(SubtractAmmo(s, a), false)
  }

  function Run(s: GunState, d: GunData, es: seq<Event>): (r: RunResult)
    decreases |es|
  {
    if es == [] then RunResult(s, 0)
    else
      var o := Step(s, d, es[0]);
      var rest := Run(o.state, d, es[1..]);
      RunResult(rest.state, rest.shots + if o.fired then 1 else 0)
  }

  /** Pickups and drains move ammo in the direction their names say. */
  predicate NonNegativeAmount(e: Event)
  {
    match e
    case Pickup(a) => a >= 0
    case Drain(a) => a >= 0
    case _ => true
  }

  predicate IsPickupOrDrain(e: Event)
  {
    e.Pickup? || e.Drain?
  }

  /** Each event keeps the ammo invariant. */
  lemma StepKeepsInv(s: GunState, d: GunData, e: Event)
    requires Inv(s, d) && NonNegativeAmount(e)
    ensures Inv(Step(s, d, e).state, d)
  {
  }

  /** Every run keeps the ammo invariant. */
  lemma {:induction false} RunKeepsInv(s: GunState, d: GunData, es: seq<Event>)
    requires Inv(s, d)
    requires forall e :: e in es ==> NonNegativeAmount(e)
    ensures Inv(Run(s, d, es).state, d)
    decreases |es|
  {
    if es != [] {
      StepKeepsInv(s, d, es[0]);
      assert forall e :: e in es[1..] ==> e in es;
      RunKeepsInv(Step(s, d, es[0]).state, d, es[1..]);
    }
  }

  /**
   * From Start with a configured reserve within its cap, the magazine stays
   * within [0, magazineSize] and the reserve within [0, maxReserveAmmo]
   * whatever happens next.
   */
  lemma ReachableStatesAreBounded(d: GunData, reserve: int, maxReserve: int, es: seq<Event>)
    requires ValidData(d) && 0 <= reserve <= maxReserve
    requires forall e :: e in es ==> NonNegativeAmount(e)
    ensures var s := Run(Start(d, reserve, maxReserve), d, es).state;
      0 <= s.currentAmmo <= d.magazineSize && 0 <= s.reserveAmmo <= maxReserve &&
      s.maxReserveAmmo == maxReserve
  {
    RunKeepsInv(Start(d, reserve, maxReserve), d, es);
    RunKeepsCap(Start(d, reserve, maxReserve), d, es);
  }

  /** No event changes the reserve's cap. */
  lemma {:induction false} RunKeepsCap(s: GunState, d: GunData, es: seq<Event>)
    ensures Run(s, d, es).state.maxReserveAmmo == s.maxReserveAmmo
    decreases |es|
  {
    if es != [] {
      RunKeepsCap(Step(s, d, es[0]).state, d, es[1..]);
    }
  }

  /** Without a pickup or a drain, an event moves ammo only by firing one round. */
  lemma StepConservesAmmo(s: GunState, d: GunData, e: Event)
    requires !IsPickupOrDrain(e)
    ensures var o := Step(s, d, e);
      o.state.currentAmmo + o.state.reserveAmmo + (if o.fired then 1 else 0) ==
        s.currentAmmo + s.reserveAmmo
  {
  }

  /**
   * Without pickups or drains, ammo only leaves the gun by being fired: the
   * magazine and the reserve together lose exactly one round per shot.
   */
  lemma {:induction false} RunConservesAmmo(s: GunState, d: GunData, es: seq<Event>)
    requires forall e :: e in es ==> !IsPickupOrDrain(e)
    ensures var r := Run(s, d, es);
      r.state.currentAmmo + r.state.reserveAmmo + r.shots == s.currentAmmo + s.reserveAmmo
    decreases |es|
  {
    if es != [] {
      assert forall e :: e in es[1..] ==> e in es;
      StepConservesAmmo(s, d, es[0]);
      RunConservesAmmo(Step(s, d, es[0]).state, d, es[1..]);
    }
  }

  /** A fresh pull of the trigger at time `now`, with the game running. */
  function Pull(now: real): (input: FrameInput)
  {
    FrameInput(1.0, now, true, false, 1.0)
  }

  /** One frame with a fresh trigger pull at each of the given times. */
  function Pulls(times: seq<real>): (es: seq<Event>)
    decreases |times|
  {
    if times == [] then [] else [Frame(Pull(times[0]))] + Pulls(times[1..])
  }

  /** Each time is no earlier than the gate opens, and it opens `gap` after the previous one. */
  predicate Spaced(times: seq<real>, gateOpen: real, gap: real)
    decreases |times|
  {
    times == [] || (times[0] >= gateOpen && Spaced(times[1..], times[0] + gap, gap))
  }

  /**
   * Trigger pulls spaced at least one cool-down apart, no more of them than
   * the magazine holds, each fire: the magazine loses exactly one round per
   * pull and nothing else about the ammo changes.
   */
  lemma {:induction false} SpacedPullsAllFire(s: GunState, d: GunData, times: seq<real>)
    requires !s.isReloading && |times| <= s.currentAmmo
    requires Spaced(times, s.nextTimeToFire, s.timeBetweenShots)
    ensures var r := Run(s, d, Pulls(times));
      r.shots == |times| && r.state.currentAmmo == s.currentAmmo - |times| &&
      r.state.reserveAmmo == s.reserveAmmo && !r.state.isReloading &&
      r.state.timeBetweenShots == s.timeBetweenShots
    decreases |times|
  {
    if times != [] {
      var es := Pulls(times);
      assert es[0] == Frame(Pull(times[0])) && es[1..] == Pulls(times[1..]);
      var o := Update(s, d, Pull(times[0]));
      assert o.fired;
      SpacedPullsAllFire(o.state, d, times[1..]);
    }
  }

  /**
   * Once the magazine is empty, a trigger pull at any time is rejected and
   * changes nothing, on an automatic or a semi-automatic weapon alike.
   */
  lemma EmptyMagazineRejectsPull(s: GunState, d: GunData, now: real)
    requires s.currentAmmo == 0
    ensures Update(s, d, Pull(now)) == Outcome(s, false)
  {
  }

  /**
   * From Start, magazineSize pulls spaced one cool-down apart all fire and
   * empty the magazine exactly; the next pull is rejected.
   */
  lemma MagazineEmptiesAtLastRound(d: GunData, reserve: int, maxReserve: int, times: seq<real>, now: real)
    requires ValidData(d) && |times| == d.magazineSize
    requires Spaced(times, 0.0, TimeBetweenShots(d))
    ensures var r := Run(Start(d, reserve, maxReserve), d, Pulls(times));
      r.shots == d.magazineSize && r.state.currentAmmo == 0 &&
      r.state.reserveAmmo == reserve &&
      Update(r.state, d, Pull(now)) == Outcome(r.state, false)
  {
    SpacedPullsAllFire(Start(d, reserve, maxReserve), d, times);
  }

  /** `n` times starting at `t`, one `gap` apart. */
  function EvenlySpaced(t: real, gap: real, n: nat): (times: seq<real>)
    decreases n
  {
    if n == 0 then [] else [t] + EvenlySpaced(t + gap, gap, n - 1)
  }

  lemma {:induction false} EvenlySpacedIsSpaced(t: real, gap: real, n: nat)
    ensures |EvenlySpaced(t, gap, n)| == n
    ensures Spaced(EvenlySpaced(t, gap, n), t, gap)
    decreases n
  {
    if n > 0 {
      var times := EvenlySpaced(t, gap, n);
      EvenlySpacedIsSpaced(t + gap, gap, n - 1);
      assert times[0] == t && times[1..] == EvenlySpaced(t + gap, gap, n - 1);
    }
  }

  /**
   * A 30-round magazine at 600 rounds a minute, pulled every 0.1 s from
   * time 0: thirty shots, an empty magazine, and the 31st pull at 3.0 s is
   * rejected.
   */
  lemma ThirtyRoundsAt600Rpm(reserve: int, maxReserve: int)
    ensures var d := GunData(30, 600.0, false);
      var r := Run(Start(d, reserve, maxReserve), d, Pulls(EvenlySpaced(0.0, 0.1, 30)));
      r.shots == 30 && r.state.currentAmmo == 0 &&
      !Update(r.state, d, Pull(3.0)).fired
  {
    var d := GunData(30, 600.0, false);
    assert TimeBetweenShots(d) == 0.1;
    EvenlySpacedIsSpaced(0.0, 0.1, 30);
    MagazineEmptiesAtLastRound(d, reserve, maxReserve, EvenlySpaced(0.0, 0.1, 30), 3.0);
  }

  /**
   * A reload that starts in a frame rejects the shot of that same frame: the
   * coroutine has set `isReloading` before Update reaches TryShoot.
   */
  lemma ReloadRejectsSameFrameShot(s: GunState, d: GunData, input: FrameInput)
    requires input.timeScale != 0.0 && input.reloadTriggered && input.now >= s.nextTimeToFire
    requires ReloadBegins(s, d)
    ensures var o := Update(s, d, input);
      !o.fired && o.state.isReloading && o.state.currentAmmo == s.currentAmmo
  {
  }

  /** A second reload request while the first is pending is rejected: TryReload is idempotent. */
  lemma TryReloadIdempotent(s: GunState, d: GunData)
    ensures TryReload(TryReload(s, d), d) == TryReload(s, d)
  {
  }

  /** A reserve of 90 and a deficit of 10: the magazine is refilled and 80 rounds remain. */
  lemma ReloadExample()
    ensures var d := GunData(30, 600.0, true);
      var s := GunState(20, 90, 120, false, 0.0, false, 0.1);
      Run(s, d, [Reload, ReloadFinished]).state ==
        s.(currentAmmo := 30, reserveAmmo := 80)
  {
  }

  /**
   * The amount moved is read when the reload completes: a drain of 85 rounds
   * while the reload waits leaves only 5 to transfer, not the 10 missing when
   * it began.
   */
  lemma DrainDuringReloadChangesTransfer()
    ensures var d := GunData(30, 600.0, true);
      var s := GunState(20, 90, 120, false, 0.0, false, 0.1);
      Run(s, d, [Reload, Drain(85), ReloadFinished]).state ==
        s.(currentAmmo := 25, reserveAmmo := 0)
  {
  }
}

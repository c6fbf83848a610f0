/**
 * The records and the browser's pending auto-off timers, as the handlers of
 * the dashboard keep them: which records the registry may hold, how the
 * pending timers relate to the records, and that each handler's change to
 * the records and the timers keeps that relation.
 */
module Timers {
  import opened Coercion
  import opened Registry

  /** Every record passed the checks of `addDevice` and is on only with a start time. */
  predicate AllWellFormed(ds: seq<Device>)
  {
    forall i :: 0 <= i < |ds| ==> WellFormed(ds[i])
  }

  /** Appending a well-formed record keeps the registry well formed. */
  lemma WellFormedAfterAppend(ds: seq<Device>, d: Device)
    requires AllWellFormed(ds) && WellFormed(d)
    ensures AllWellFormed(ds + [d])
  {
  }

  /** Replacing one record by a well-formed one keeps the registry well formed. */
  lemma WellFormedAfterUpdate(ds: seq<Device>, i: nat, d: Device)
    requires AllWellFormed(ds) && i < |ds| && WellFormed(d)
    ensures AllWellFormed(ds[i := d])
  {
  }

  /**
   * The pending timers agree with the records: a pending handle was handed
   * out before `next`, belongs to a device that is on with a truthy usage
   * time, and is the handle that device stores; every stored handle was
   * handed out before `next`; and a device that is on with a truthy usage
   * time has its stored handle pending.
   */
  predicate TimersConsistent(ds: seq<Device>, pending: map<nat, nat>, next: nat)
  {
    && (forall h :: h in pending ==>
          && h < next
          && pending[h] < |ds|
          && ds[pending[h]].isOn
          && Truthy(ds[pending[h]].usageTime)
          && ds[pending[h]].timer == Some(h))
    && (forall i :: 0 <= i < |ds| && ds[i].timer.Some? ==>
          && ds[i].timer.value < next
          && (ds[i].timer.value in pending ==> pending[ds[i].timer.value] == i))
    && (forall i :: 0 <= i < |ds| && ds[i].isOn && Truthy(ds[i].usageTime) ==>
          ds[i].timer.Some? && ds[i].timer.value in pending)
  }

  /** Appending a fresh, switched-off record keeps the timers consistent. */
  lemma TimersAfterAppend(ds: seq<Device>, pending: map<nat, nat>, next: nat, d: Device)
    requires TimersConsistent(ds, pending, next) && d.timer == None && !d.isOn
    ensures TimersConsistent(ds + [d], pending, next)
  {
  }

  /** Switching device `i` on, arming a timer under handle `next` exactly when `arm` holds. */
  lemma TimersAfterSwitchOn(ds: seq<Device>, pending: map<nat, nat>, next: nat, i: nat, now: int, arm: bool)
    requires TimersConsistent(ds, pending, next) && i < |ds| && !ds[i].isOn
    requires arm == Truthy(ds[i].usageTime)
    ensures var d := ds[i].(isOn := true, startTime := Some(now), timer := if arm then Some(next) else ds[i].timer);
      TimersConsistent(ds[i := d], if arm then pending[next := i] else pending, if arm then next + 1 else next)
  {
  }

  /** Switching device `i` off and cancelling the handle it stores. */
  lemma TimersAfterSwitchOff(ds: seq<Device>, pending: map<nat, nat>, next: nat, i: nat)
    requires TimersConsistent(ds, pending, next) && i < |ds| && ds[i].isOn
    ensures var p := if ds[i].timer.Some? then pending - {ds[i].timer.value} else pending;
      && TimersConsistent(ds[i := ds[i].(isOn := false)], p, next)
      && forall h :: h in p ==> p[h] != i
  {
  }

  /** Delivering the pending handle `h`. */
  lemma TimersAfterFire(ds: seq<Device>, pending: map<nat, nat>, next: nat, h: nat)
    requires TimersConsistent(ds, pending, next) && h in pending
    ensures pending[h] < |ds| && ds[pending[h]].timer == Some(h)
    ensures TimersConsistent(ds[pending[h] := ds[pending[h]].(isOn := false)], pending - {h}, next)
  {
  }
}

/**
 * The device records of the dashboard and the on-power total that the
 * admission rule, the total display and the chart all compute with the same
 * `reduce`: the sum of the power of every device that is switched on.
 */
module Registry {
  import opened Coercion

  /**
   * One entry of the global `devices` array. `usageTime` is the auto-off
   * delay in milliseconds (null when none was given), `startTime` the clock
   * reading of the last switch-on (null until the first), `timer` the handle
   * of the last auto-off that was armed (null until the first).
   */
  datatype Device = Device(
    name: string,
    power: int,
    isOn: bool,
    usageTime: Option<int>,
    startTime: Option<int>,
    timer: Option<nat>)

  /** What adding a device guarantees of the record and the switching-on keeps. */
  predicate WellFormed(d: Device)
  {
    && |d.name| > 0
    && d.power > 0
    && (d.usageTime.Some? ==> d.usageTime.value != 0)
    && (d.isOn ==> d.startTime.Some?)
  }

  /** What one device adds to the total: `device.isOn ? device.power : 0`. */
  function Draw(d: Device): int
  {
    if d.isOn then d.power else 0
  }

  /** `devices.reduce((sum, device) => sum + (device.isOn ? device.power : 0), 0)`, a left fold. */
  function OnPower(ds: seq<Device>): int
  {
    if ds == [] then 0 else OnPower(ds[..|ds| - 1]) + Draw(ds[|ds| - 1])
  }

  /** Appending a record adds exactly its own draw to the total. */
  lemma OnPowerAppend(ds: seq<Device>, d: Device)
    ensures OnPower(ds + [d]) == OnPower(ds) + Draw(d)
  {
  }

  /** Replacing one record changes the total by the difference of the two draws. */
  lemma {:induction false} OnPowerUpdate(ds: seq<Device>, i: nat, d: Device)
    requires i < |ds|
    ensures OnPower(ds[i := d]) == OnPower(ds) - Draw(ds[i]) + Draw(d)
    decreases |ds|
  {
    var last := |ds| - 1;
    if i == last {
      assert ds[i := d][..last] == ds[..last];
    } else {
      OnPowerUpdate(ds[..last], i, d);
      assert ds[i := d][..last] == ds[..last][i := d];
    }
  }

  /** With every power positive, as adding a device ensures, the total is never negative. */
  lemma {:induction false} OnPowerNonNegative(ds: seq<Device>)
    requires forall k :: 0 <= k < |ds| ==> ds[k].power > 0
    ensures OnPower(ds) >= 0
    decreases |ds|
  {
    if ds != [] {
      OnPowerNonNegative(ds[..|ds| - 1]);
    }
  }

  /** When no device is on, the total is 0 (the value at page load). */
  lemma {:induction false} OnPowerAllOff(ds: seq<Device>)
    requires forall k :: 0 <= k < |ds| ==> !ds[k].isOn
    ensures OnPower(ds) == 0
    decreases |ds|
  {
    if ds != [] {
      OnPowerAllOff(ds[..|ds| - 1]);
    }
  }

  /**
   * `newTotalEnergy` of the admission check: the on-power of all devices plus
   * the power of the device that is about to be switched on. It is exactly the
   * on-power the registry would have once that device is on.
   */
  function ProjectedTotal(ds: seq<Device>, i: nat): (t: int)
    requires i < |ds| && !ds[i].isOn
    ensures t == OnPower(ds[i := ds[i].(isOn := true)])
  {
    OnPowerUpdate(ds, i, ds[i].(isOn := true));
    OnPower(ds) + ds[i].power
  }

  /**
   * A cap below zero, which the settings form accepts, refuses every
   * switch-on of a well-formed registry.
   */
  lemma NegativeCapRefusesAll(ds: seq<Device>, i: nat, cap: int)
    requires forall k :: 0 <= k < |ds| ==> ds[k].power > 0
    requires i < |ds| && !ds[i].isOn && cap < 0
    ensures ProjectedTotal(ds, i) > cap
  {
    OnPowerNonNegative(ds);
  }
}

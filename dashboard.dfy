/**
 * The dashboard's global state and the handlers that change it: the device
 * array, the settings object, the chart's two arrays and the auto-off timers.
 * The timers are the browser's: `setTimeout` hands out a fresh handle, the
 * handle stays pending until it is delivered (`FireAutoOff`) or cancelled by
 * `clearTimeout`. The clock reading `Date.now()` is a parameter.
 */
module Dashboard {
  import opened Coercion
  import opened Registry
  import opened Chart
  import opened Timers

  const InitialMaxEnergy: int := 2000
  const InitialPeakHours: string := "18:00-22:00"

  class Home {
    var devices: seq<Device>
    var maxEnergy: int
    var peakHours: string
    var labels: seq<string>
    var data: seq<int>
    /** Auto-off timers armed and neither delivered nor cancelled: handle to device index. */
    var pending: map<nat, nat>
    /** The handle the next `setTimeout` returns. */
    var nextTimer: nat

    /** The object invariant: the registry part and the chart part. */
    ghost predicate Valid()
      reads this`devices, this`pending, this`nextTimer, this`labels, this`data
    {
      RegistryValid() && ChartValid()
    }

    ghost predicate RegistryValid()
      reads this`devices, this`pending, this`nextTimer
    {
      AllWellFormed(devices) && TimersConsistent(devices, pending, nextTimer)
    }

    /** The two chart arrays are parallel, never empty and within `Capacity`. */
    ghost predicate ChartValid()
      reads this`labels, this`data
    {
      |labels| == |data| && 0 < |labels| <= Capacity
    }

    /** The number shown as the total and sampled by the chart. */
    function TotalEnergy(): int
      reads this`devices
    {
      OnPower(devices)
    }

    /** The cap holds: the powered-on total does not exceed `maxEnergy`. */
    predicate WithinCap()
      reads this`devices, this`maxEnergy
    {
      TotalEnergy() <= maxEnergy
    }

    /** Device `i` has an auto-off that is still due to fire. */
    predicate AutoOffArmed(i: nat)
      reads this`devices, this`pending
      requires i < |devices|
    {
      devices[i].timer.Some? && devices[i].timer.value in pending
    }

    /** Exactly the devices that are on with a truthy usage time wait for an auto-off. */
    lemma ArmedExactly(i: nat)
      requires Valid() && i < |devices|
      ensures AutoOffArmed(i) <==> devices[i].isOn && Truthy(devices[i].usageTime)
    {
    }

    /**
     * The state after the script has loaded: no devices, the default settings,
     * the chart's initial point and the point added by the first render.
     */
    constructor ()
      ensures Valid()
      ensures devices == [] && pending == map[]
      ensures maxEnergy == InitialMaxEnergy && peakHours == InitialPeakHours
      ensures labels == ["0s", "1s"] && data == [0, 0]
      ensures TotalEnergy() == 0 && WithinCap()
    {
      devices := [];
      maxEnergy := InitialMaxEnergy;
      peakHours := InitialPeakHours;
      labels := ["0s"];
      data := [0];
      pending := map[];
      nextTimer := 1;
      new;
      FirstLabels();
      UpdateChart();
    }

    /**
     * `updateChart`: sample the on-power total under the label built from the
     * number of labels before the push, then drop the oldest sample when more
     * than `Capacity` are held.
     */
    method UpdateChart()
      requires Valid()
      modifies this`labels, this`data
      ensures Valid()
      ensures labels == Roll(old(labels), Label(|old(labels)|))
      ensures data == Roll(old(data), TotalEnergy())
      ensures |labels| == |data| && data[|data| - 1] == TotalEnergy()
      ensures |old(labels)| == Capacity ==> labels == old(labels)[1..] + ["10s"]
    {
      var totalEnergy := OnPower(devices);
      var time := Label(|labels|);
      SampleShape(labels, data, totalEnergy);
      labels := labels + [time];
      data := data + [totalEnergy];
      if |labels| > Capacity {
        labels := labels[1..];
        data := data[1..];
      }
    }

    /**
     * `addDevice`, given the trimmed name and the two parsed numbers (`None`
     * for a failed parse). An empty name or a power that is not positive after
     * the `|| 0` fallback is refused and nothing changes; otherwise one
     * switched-off record is appended and the view is rendered again.
     */
    method AddDevice(name: string, powerInput: Option<int>, usageInput: Option<int>) returns (added: bool)
      requires Valid()
      modifies this`devices, this`labels, this`data
      ensures Valid()
      ensures added <==> |name| > 0 && IntOr(powerInput, 0) > 0
      ensures !added ==> devices == old(devices) && labels == old(labels) && data == old(data)
      ensures added ==>
        devices == old(devices) + [Device(name, IntOr(powerInput, 0), false, UsageMillis(usageInput), None, None)]
      ensures added ==> labels == Roll(old(labels), Label(|old(labels)|)) && data == Roll(old(data), TotalEnergy())
      ensures TotalEnergy() == old(TotalEnergy())
      ensures old(WithinCap()) ==> WithinCap()
    {
      var devicePower := IntOr(powerInput, 0);
      var usageTimeInput := if Truthy(usageInput) then Some(usageInput.value) else None;
      if name == "" || devicePower <= 0 {
        added := false;
        return;
      }
      var usageTime := if usageTimeInput.Some? then Some(usageTimeInput.value * 60 * 1000) else None;
      assert usageTime == UsageMillis(usageInput);
      var d := Device(name, devicePower, false, usageTime, None, None);
      WellFormedAfterAppend(devices, d);
      OnPowerAppend(devices, d);
      TimersAfterAppend(devices, pending, nextTimer, d);
      devices := devices + [d];
      added := true;
      UpdateChart();
    }

    /**
     * `toggleDevice`: the handler of a row's button, which only ever passes the
     * index of a rendered row. Switching on is admitted only when the on-power
     * total plus this device's power stays within `maxEnergy`; a refusal
     * changes nothing and is reported in `refused`. An admitted switch-on is
     * `SwitchOn`, a switch-off is `SwitchOff`.
     */
    method ToggleDevice(index: nat, now: int) returns (refused: bool)
      requires Valid() && index < |devices|
      modifies this`devices, this`pending, this`nextTimer, this`labels, this`data
      ensures Valid()
      ensures |devices| == |old(devices)|
      ensures forall j :: 0 <= j < |devices| && j != index ==> devices[j] == old(devices[j])
      ensures refused <==>
        !old(devices[index].isOn) && ProjectedTotal(old(devices), index) > maxEnergy
      ensures refused ==>
        && devices == old(devices) && pending == old(pending) && nextTimer == old(nextTimer)
        && labels == old(labels) && data == old(data)
      ensures !refused && !old(devices[index].isOn) ==>
        var arm := Truthy(old(devices[index].usageTime));
        && devices == old(devices)[index := old(devices[index]).(
             isOn := true,
             startTime := Some(now),
             timer := if arm then Some(old(nextTimer)) else old(devices[index].timer))]
        && pending == (if arm then old(pending)[old(nextTimer) := index] else old(pending))
        && nextTimer == (if arm then old(nextTimer) + 1 else old(nextTimer))
        && WithinCap()
      ensures old(devices[index].isOn) ==>
        && devices == old(devices)[index := old(devices[index]).(isOn := false)]
        && pending == (if old(devices[index].timer).Some? then old(pending) - {old(devices[index].timer).value} else old(pending))
        && nextTimer == old(nextTimer)
      ensures !refused ==> labels == Roll(old(labels), Label(|old(labels)|)) && data == Roll(old(data), TotalEnergy())
      ensures TotalEnergy() == old(TotalEnergy()) - old(Draw(devices[index])) + Draw(devices[index])
      ensures AutoOffArmed(index) <==> devices[index].isOn && Truthy(devices[index].usageTime)
      ensures old(WithinCap()) ==> WithinCap()
    {
      var currentDevice := devices[index];
      if !currentDevice.isOn {
        var newTotalEnergy := ProjectedTotal(devices, index);
        if newTotalEnergy > maxEnergy {
          refused := true;
          return;
        }
        OnPowerUpdate(devices, index, currentDevice.(isOn := true));
        SwitchOn(index, now);
        refused := false;
      } else {
        OnPowerUpdate(devices, index, devices[index].(isOn := false));
        SwitchOff(index);
        refused := false;
      }
      ArmedExactly(index);
    }

    /**
     * The admitted switching-on of `toggleDevice`: record `now`, arm an
     * auto-off under a fresh handle when the device's usage time is truthy,
     * and render the view again. The caller has checked the cap.
     */
    method SwitchOn(index: nat, now: int)
      requires Valid() && index < |devices| && !devices[index].isOn
      requires TotalEnergy() + devices[index].power <= maxEnergy
      modifies this`devices, this`pending, this`nextTimer, this`labels, this`data
      ensures Valid()
      ensures devices == old(devices)[index := old(devices[index]).(
                isOn := true,
                startTime := Some(now),
                timer := if Truthy(old(devices[index].usageTime)) then Some(old(nextTimer)) else old(devices[index].timer))]
      ensures pending == if Truthy(old(devices[index].usageTime)) then old(pending)[old(nextTimer) := index] else old(pending)
      ensures nextTimer == if Truthy(old(devices[index].usageTime)) then old(nextTimer) + 1 else old(nextTimer)
      ensures TotalEnergy() == old(TotalEnergy()) + old(devices[index].power)
      ensures WithinCap()
      ensures AutoOffArmed(index) <==> Truthy(devices[index].usageTime)
      ensures labels == Roll(old(labels), Label(|old(labels)|)) && data == Roll(old(data), TotalEnergy())
    {
      var currentDevice := devices[index];
      var switched := currentDevice.(isOn := true, startTime := Some(now));
      var arm := Truthy(switched.usageTime);
      TimersAfterSwitchOn(devices, pending, nextTimer, index, now, arm);
      if arm {
        switched := switched.(timer := Some(nextTimer));
        pending := pending[nextTimer := index];
        nextTimer := nextTimer + 1;
      }
      WellFormedAfterUpdate(devices, index, switched);
      OnPowerUpdate(devices, index, switched);
      devices := devices[index := switched];
      UpdateChart();
    }

    /**
     * The switching-off branch of `toggleDevice`: cancel the handle stored in
     * the record, switch the device off and render the view again. No pending
     * auto-off refers to the device afterwards.
     */
    method SwitchOff(index: nat)
      requires Valid() && index < |devices| && devices[index].isOn
      modifies this`devices, this`pending, this`labels, this`data
      ensures Valid()
      ensures devices == old(devices)[index := old(devices[index]).(isOn := false)]
      ensures pending == if old(devices[index].timer).Some? then old(pending) - {old(devices[index].timer).value} else old(pending)
      ensures forall h :: h in pending ==> pending[h] != index
      ensures TotalEnergy() == old(TotalEnergy()) - old(devices[index].power)
      ensures labels == Roll(old(labels), Label(|old(labels)|)) && data == Roll(old(data), TotalEnergy())
    {
      var currentDevice := devices[index];
      TimersAfterSwitchOff(devices, pending, nextTimer, index);
      if currentDevice.timer.Some? {
        pending := pending - {currentDevice.timer.value};
      }
      var switched := currentDevice.(isOn := false);
      WellFormedAfterUpdate(devices, index, switched);
      OnPowerUpdate(devices, index, switched);
      devices := devices[index := switched];
      UpdateChart();
    }

    /**
     * The browser delivers the auto-off timer `handle`. A handle that was
     * cancelled or already delivered does nothing. Otherwise its device is
     * switched off and the view rendered again; the record keeps the
     * delivered handle in its `timer` field.
     */
    method FireAutoOff(handle: nat) returns (fired: bool)
      requires Valid()
      modifies this`devices, this`pending, this`labels, this`data
      ensures Valid()
      ensures fired <==> handle in old(pending)
      ensures !fired ==> devices == old(devices) && pending == old(pending) && labels == old(labels) && data == old(data)
      ensures fired ==>
        && old(pending[handle]) < |old(devices)|
        && devices == old(devices)[old(pending[handle]) := old(devices[pending[handle]]).(isOn := false)]
        && devices[old(pending[handle])].timer == Some(handle)
        && pending == old(pending) - {handle}
        && TotalEnergy() == old(TotalEnergy()) - old(devices[pending[handle]].power)
        && labels == Roll(old(labels), Label(|old(labels)|)) && data == Roll(old(data), TotalEnergy())
      ensures old(WithinCap()) ==> WithinCap()
    {
      if handle !in pending {
        fired := false;
        return;
      }
      TimersAfterFire(devices, pending, nextTimer, handle);
      var index := pending[handle];
      var switched := devices[index].(isOn := false);
      OnPowerUpdate(devices, index, switched);
      devices := devices[index := switched];
      pending := pending - {handle};
      fired := true;
      UpdateChart();
    }

    /**
     * `saveSettings`, given the parsed cap (`None` for a failed parse) and the
     * trimmed peak-hours text. A cap of 0 or a failed parse keeps the old cap,
     * an empty text keeps the old peak hours. The cap is not checked against
     * the devices already on.
     */
    method SaveSettings(maxInput: Option<int>, peakInput: string)
      requires Valid()
      modifies this`maxEnergy, this`peakHours
      ensures Valid()
      ensures maxEnergy == if Truthy(maxInput) then maxInput.value else old(maxEnergy)
      ensures peakHours == if peakInput == "" then old(peakHours) else peakInput
      ensures old(maxEnergy) != 0 ==> maxEnergy != 0
      ensures old(peakHours) != "" ==> peakHours != ""
    {
      var maxEnergyInput := IntOr(maxInput, maxEnergy);
      var peakHoursInput := TextOr(peakInput, peakHours);
      maxEnergy := maxEnergyInput;
      peakHours := peakHoursInput;
    }
  }
}

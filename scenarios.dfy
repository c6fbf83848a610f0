/**
 * Client code: sequences of handler calls, as a user and the browser's timers
 * would make them, whose outcomes follow from the contracts of `Home` alone.
 * Each starts from a dashboard with no devices and any chart history.
 */
module Scenarios {
  import opened Coercion
  import opened Registry
  import opened Dashboard

  /** A dashboard as the script leaves it after loading, with the chart's history left open. */
  ghost predicate JustLoaded(home: Home)
    reads home
  {
    home.Valid() && home.devices == [] && home.maxEnergy == InitialMaxEnergy
  }

  /**
   * The budget example: cap 2000 W, A drawing 1500 W and B 600 W.
   * First A and B are added and A goes on.
   */
  method BudgetStart(home: Home, now: int) returns (firstOn: bool)
    requires JustLoaded(home)
    modifies home
    ensures firstOn && BudgetHalfway(home)
  {
    var added := home.AddDevice("A", Some(1500), None);
    added := home.AddDevice("B", Some(600), None);
    OnPowerAllOff(home.devices);
    assert home.TotalEnergy() == 0 && |home.devices| == 2;
    var refused := home.ToggleDevice(0, now);
    firstOn := home.devices[0].isOn;
    assert home.TotalEnergy() == 1500;
  }

  /** Then B is refused, since 1500 + 600 > 2000, and the state is as before. */
  method BudgetRefusal(home: Home, now: int) returns (refusedB: bool)
    requires BudgetHalfway(home)
    modifies home
    ensures refusedB && BudgetHalfway(home)
    ensures home.devices == old(home.devices) && home.labels == old(home.labels) && home.data == old(home.data)
  {
    refusedB := home.ToggleDevice(1, now);
  }

  /** The state between the two halves of the budget example. */
  ghost predicate BudgetHalfway(home: Home)
    reads home
  {
    && home.Valid() && home.maxEnergy == InitialMaxEnergy && |home.devices| == 2
    && home.devices[0].isOn && home.devices[0].power == 1500
    && !home.devices[1].isOn && home.devices[1].power == 600
    && home.TotalEnergy() == 1500
  }

  /** Finally A goes off; now B goes on, leaving 600 W. */
  method BudgetSwap(home: Home, now: int) returns (bOn: bool, total: int)
    requires BudgetHalfway(home)
    modifies home
    ensures bOn && total == 600
  {
    var refused := home.ToggleDevice(0, now);
    assert home.TotalEnergy() == 0;
    refused := home.ToggleDevice(1, now);
    bOn := home.devices[1].isOn;
    total := home.TotalEnergy();
  }

  /**
   * A device added with a usage time of one minute and switched on has an
   * auto-off pending; when it is delivered the device is off.
   */
  method AutoOffExample(home: Home, now: int) returns (armed: bool, fired: bool, onAfter: bool)
    requires JustLoaded(home)
    modifies home
    ensures armed && fired && !onAfter
  {
    var added := home.AddDevice("Fan", Some(60), Some(1));
    OnPowerAllOff(home.devices);
    var refused := home.ToggleDevice(0, now);
    armed := home.AutoOffArmed(0);
    fired := home.FireAutoOff(home.devices[0].timer.value);
    onAfter := home.devices[0].isOn;
  }

  /** Switching a device off by hand cancels its auto-off: delivering the handle afterwards does nothing. */
  method CancelledAutoOffExample(home: Home, now: int) returns (fired: bool, onAfter: bool)
    requires JustLoaded(home)
    modifies home
    ensures !fired && !onAfter
  {
    var added := home.AddDevice("Fan", Some(60), Some(1));
    OnPowerAllOff(home.devices);
    var refused := home.ToggleDevice(0, now);
    var handle := home.devices[0].timer.value;
    refused := home.ToggleDevice(0, now + 1000);
    fired := home.FireAutoOff(handle);
    onAfter := home.devices[0].isOn;
  }

  /** A negative usage time is truthy: it is stored negative and still arms an auto-off. */
  method NegativeUsageExample(home: Home, now: int) returns (usage: Option<int>, armed: bool)
    requires JustLoaded(home)
    modifies home
    ensures usage == Some(-120000) && armed
  {
    var added := home.AddDevice("Kettle", Some(2000), Some(-2));
    OnPowerAllOff(home.devices);
    usage := home.devices[0].usageTime;
    var refused := home.ToggleDevice(0, now);
    armed := home.AutoOffArmed(0);
  }

  /** Saving a cap below the powered-on total is accepted and leaves the cap exceeded. */
  method LoweredCapExample(home: Home, now: int) returns (withinBefore: bool, withinAfter: bool)
    requires JustLoaded(home)
    modifies home
    ensures withinBefore && !withinAfter
  {
    var added := home.AddDevice("Heater", Some(1500), None);
    OnPowerAllOff(home.devices);
    var refused := home.ToggleDevice(0, now);
    assert home.TotalEnergy() == 1500;
    withinBefore := home.WithinCap();
    home.SaveSettings(Some(1000), "");
    withinAfter := home.WithinCap();
  }

  /** A failed parse or a zero keeps the old cap, a negative number replaces it, an empty text keeps the peak hours. */
  method SettingsFallbackExample() returns (capAfterNaN: int, capAfterZero: int, capAfterNegative: int, peak: string)
    ensures capAfterNaN == 2000 && capAfterZero == 2000 && capAfterNegative == -5
    ensures peak == "18:00-22:00"
  {
    var home := new Home();
    home.SaveSettings(None, "");
    capAfterNaN := home.maxEnergy;
    home.SaveSettings(Some(0), "");
    capAfterZero := home.maxEnergy;
    home.SaveSettings(Some(-5), "");
    capAfterNegative := home.maxEnergy;
    peak := home.peakHours;
  }

  /** The state after loading satisfies what the other scenarios start from. */
  method LoadedIsJustLoaded() returns (home: Home)
    ensures fresh(home) && JustLoaded(home) && home.labels == ["0s", "1s"]
  {
    home := new Home();
  }
}

# Smart-home dashboard: device registry and power budget

This project models the core of the smart-home dashboard in
`challange3_smarthoem/script.js`. The dashboard keeps an in-memory list of
appliances, each with a power draw and an optional auto-off duration. A user
may switch an appliance on only while the total power of everything switched
on stays within a configurable cap (`maxEnergy`, 2000 W at load). An admitted
switch-on with a duration arms a one-shot timer that switches the appliance
off again. Every re-render of the device table samples the total into a
rolling chart of at most ten points.

The model is imperative where the script is. The global `devices` array, the
`userSettings` object, the chart's `labels` and `data` arrays and the
browser's pending timers are the fields of one class, `Dashboard.Home`. Its
methods are the script's handlers. The `reduce` that sums the power of the
devices that are on is a pure function, `Registry.OnPower`.

- `Coercion`: the `parseInt(...) || fallback` and `trim() || fallback`
  coercions of the form inputs, with JavaScript truthiness made explicit. A
  failed parse is `None`, and both a failed parse and 0 are falsy.
- `Registry`: the device record, the on-power sum as a left fold, how the sum
  responds to appending or replacing one record, and the admission sum
  `newTotalEnergy`.
- `Chart`: one push-then-shift step of a chart array (`Roll`), and the
  `${n}s` labels built from a decimal numeral.
- `Timers`: which records the registry may hold, and how the pending
  auto-off timers relate to the records. Each handler keeps that relation.
- `Dashboard`: class `Home`, with its object invariant `Valid()`, the
  on-power total `TotalEnergy()`, the cap predicate `WithinCap()`, and
  `AutoOffArmed(i)` (device `i` has an auto-off still due). Its methods are
  the load-time state, `UpdateChart`, `AddDevice`, `ToggleDevice` (and its
  two branches `SwitchOn` and `SwitchOff`), the timer delivery `FireAutoOff`,
  and `SaveSettings`.
- `Scenarios`: client code that replays worked examples through the
  handlers. Their outcomes follow from the handlers' contracts alone.

Timers are modelled as the browser keeps them. `setTimeout` hands out a
fresh handle (`nextTimer`), and the handle stays in `pending` (handle to
device index) until it is delivered or cancelled. Delivery is
`FireAutoOff(handle)`, which the environment may call at any time.
`clearTimeout(handle)` removes the handle. The clock reading `Date.now()` is
the parameter `now`.

Behaviour of the script that the model keeps on purpose:

- A negative usage time is truthy. It is stored as a negative number of
  milliseconds, and switching the device on still arms an auto-off.
- The auto-off callback does not clear the record's `timer` field. The
  record keeps the delivered handle, and cancelling it later has no effect.
- A chart label is built from the label count before the push. Once the
  arrays are full, every new label is `"10s"`.
- `saveSettings` accepts any truthy parse, negative ones included. It does
  not compare the new cap with the power already on. So it can leave the
  dashboard over its cap, and a negative cap refuses every later switch-on.
- The chart is sampled by `updateChart`, which only `renderDevices` calls.
  A render happens at load, after a successful add, after every switch that
  is not refused, and after an auto-off. Refused adds and refused switch-ons
  do not render. The chart is not sampled on a timer: the one-second interval
  only refreshes the elapsed-time list.

## Model

| member | source | states |
|---|---|---|
| Coercion.Truthy | challange3_smarthoem/script.js:11-12 | JavaScript truthiness of a parsed number: NaN (`None`) and 0 are falsy. Its consequences are stated by `IntOr`, `UsageMillis` and `ArmedExactly` |
| Coercion.IntOr | challange3_smarthoem/script.js:138 | `parseInt(...) \|\| fallback`: a failed parse or 0 gives the fallback, and any other parsed number is kept, negative ones too. The result is never 0 unless the fallback is, so a cap that starts non-zero can never be set to 0 |
| Coercion.TextOr | challange3_smarthoem/script.js:139 | `trim() \|\| fallback`: only the empty text gives the fallback, and the result is empty only when the fallback is, so the peak hours are never emptied |
| Coercion.UsageMillis | challange3_smarthoem/script.js:12-23 | the stored usage time is null exactly when the minutes input is 0 or not a number; otherwise it is minutes × 60000, is never 0, and keeps the sign of the input |
| Registry.Draw | challange3_smarthoem/script.js:60-61 | the `device.isOn ? device.power : 0` term of the sum; `OnPowerUpdate` and `OnPowerAllOff` state how it enters the total |
| Registry.OnPower | challange3_smarthoem/script.js:60-62 | the `reduce` over the records, as a left fold (the same sum at lines 117 and 132). Its properties are stated by `OnPowerAppend`, `OnPowerUpdate`, `OnPowerNonNegative`, `OnPowerAllOff` and `ProjectedTotal` |
| Registry.OnPowerAppend | challange3_smarthoem/script.js:131-132 | appending a record to the array adds exactly that record's draw to the on-power sum |
| Registry.OnPowerUpdate | challange3_smarthoem/script.js:60-62 | replacing one record changes the on-power sum by the new record's draw minus the old one's; every other record's contribution is untouched |
| Registry.OnPowerNonNegative | challange3_smarthoem/script.js:131-132 | when every power is positive, as `addDevice` ensures, the on-power sum is at least 0 |
| Registry.OnPowerAllOff | challange3_smarthoem/script.js:131-133 | when no device is on, the on-power sum is 0 |
| Registry.ProjectedTotal | challange3_smarthoem/script.js:60-62 | `newTotalEnergy`, the sum over the devices that are on plus the power of the off device being switched on, equals the on-power sum of the registry once that device is on |
| Registry.NegativeCapRefusesAll | challange3_smarthoem/script.js:59-64 | with positive powers and a cap below 0, the projected total of every switch-on exceeds the cap, so every switch-on is refused |
| Chart.Roll | challange3_smarthoem/script.js:120-126 | one push followed by the shift when more than 10 entries are held; its closed form is stated by `RollShape` |
| Chart.RollShape | challange3_smarthoem/script.js:120-126 | one push and conditional shift ends with the new value and keeps the newest entries of the old array plus the new value. It grows by one until 10 entries are held, then drops the oldest, so an array of at most 10 entries stays within 10 |
| Chart.SampleShape | challange3_smarthoem/script.js:116-126 | one sample on both arrays, labelled by the label count: they stay parallel and within 10 entries, the newest data point is the sample, and a full chart drops its oldest point and appends `"10s"` |
| Chart.Decimal | challange3_smarthoem/script.js:118 | the numeral printed for a count is never empty |
| Chart.DecimalDigits | challange3_smarthoem/script.js:118 | the numeral printed for a count consists of decimal digits only |
| Chart.ValueOfDecimal | challange3_smarthoem/script.js:118 | reading the numeral back gives the count |
| Chart.DecimalNoLeadingZero | challange3_smarthoem/script.js:118 | a numeral starts with `0` exactly when it is the numeral of 0, as `String(n)` prints it |
| Chart.Label | challange3_smarthoem/script.js:118 | a label is the numeral of the label count followed by `s`: digits only before the `s`, with no leading zero unless the count is 0 |
| Chart.LabelReadsBack | challange3_smarthoem/script.js:118 | the digits before the `s` read back as the label count |
| Chart.LabelInjective | challange3_smarthoem/script.js:118 | two different counts never give the same label |
| Chart.FirstLabels | challange3_smarthoem/script.js:99 | the first two labels are `"0s"` and `"1s"` |
| Chart.SaturatedLabel | challange3_smarthoem/script.js:118-125 | with 10 labels held before the push, the new label is `"10s"` |
| Timers.TimersConsistent | challange3_smarthoem/script.js:76-89 | the relation between pending auto-offs and records: every pending handle belongs to a device that is on, has a truthy usage time and stores that handle, and every such device has its handle pending. The `TimersAfter...` lemmas state that each handler keeps it |
| Timers.WellFormedAfterAppend | challange3_smarthoem/script.js:14-26 | appending a record that passed the name and power checks keeps every record valid |
| Timers.WellFormedAfterUpdate | challange3_smarthoem/script.js:73-89 | an in-place update to a valid record keeps every record valid |
| Timers.TimersAfterAppend | challange3_smarthoem/script.js:19-26 | a new record without a timer, switched off, keeps the pending timers consistent with the records |
| Timers.TimersAfterSwitchOn | challange3_smarthoem/script.js:73-86 | switching an off device on, and arming a fresh handle exactly when its usage time is truthy, keeps the timers consistent |
| Timers.TimersAfterSwitchOff | challange3_smarthoem/script.js:87-90 | switching a device off and cancelling its stored handle keeps the timers consistent, and afterwards no pending handle belongs to that device |
| Timers.TimersAfterFire | challange3_smarthoem/script.js:77-85 | a delivered handle belongs to a device that stores it, and switching that device off while dropping the handle keeps the timers consistent |
| Dashboard.Home.constructor | challange3_smarthoem/script.js:2-7 | after load there are no devices and no timers, the cap is 2000 and the peak hours are `"18:00-22:00"`. The chart holds `["0s", "1s"]` and `[0, 0]`, which are its initial point (lines 95-114) and the point sampled by the first render (line 167). The total is 0 and within the cap |
| Dashboard.Home.ArmedExactly | challange3_smarthoem/script.js:76-89 | in every valid state a device has an auto-off pending exactly when it is on and its usage time is truthy |
| Dashboard.Home.TotalEnergy | challange3_smarthoem/script.js:131-132 | the on-power total of the current records; the handlers' contracts state how each of them moves it |
| Dashboard.Home.UpdateChart | challange3_smarthoem/script.js:116-129 | both arrays get one push and the conditional shift. The label is built from the old label count and the data point is the current on-power total. The arrays stay parallel and within 10 entries, and at saturation the oldest entry goes and `"10s"` is appended |
| Dashboard.Home.AddDevice | challange3_smarthoem/script.js:9-32 | an add is refused exactly when the name is empty or the power after `\|\| 0` is not positive, and then nothing changes. Otherwise exactly one record is appended (off, no start time, no timer, usage time from the minutes input) and the chart is sampled. The on-power total is unchanged, so the cap keeps holding |
| Dashboard.Home.ToggleDevice | challange3_smarthoem/script.js:56-93 | a switch-on is refused exactly when `newTotalEnergy` (`ProjectedTotal`, the on-power total plus the device's power) exceeds the cap, and then nothing changes. An admitted switch-on sets `isOn` and `startTime := now`, arms a fresh handle when the usage time is truthy, and leaves the cap holding. A switch-off clears `isOn` and cancels the stored handle. Only that device's record changes, the total moves by its power, a holding cap keeps holding, and the device has an auto-off pending exactly when it is on with a truthy usage time |
| Dashboard.Home.SwitchOn | challange3_smarthoem/script.js:73-86 | the admitted branch: the new state of the records, timers and handle counter, the total grown by the device's power and within the cap, and an auto-off pending exactly when the usage time is truthy |
| Dashboard.Home.SwitchOff | challange3_smarthoem/script.js:87-90 | the switch-off branch: only `isOn` of that record changes. The stored handle is removed from the pending timers and no pending timer refers to the device any more, so a later delivery cannot switch it off. The total drops by exactly its power |
| Dashboard.Home.FireAutoOff | challange3_smarthoem/script.js:77-85 | delivering a cancelled or already delivered handle does nothing. Delivering a pending one switches off exactly the device it was armed for: the record keeps the handle in `timer`, the handle leaves the pending set, the total drops by that device's power, the chart is sampled, and a holding cap keeps holding |
| Dashboard.Home.SaveSettings | challange3_smarthoem/script.js:137-150 | the cap becomes the parsed input unless that is 0 or not a number, in which case the old cap stays. The peak hours become the input text unless it is empty. No device changes. A non-zero cap stays non-zero and non-empty peak hours stay non-empty |
| Scenarios.BudgetStart | challange3_smarthoem/script.js:56-93 | with a 2000 W cap, adding A (1500 W) and B (600 W) and switching A on succeeds and leaves 1500 W on |
| Scenarios.BudgetRefusal | challange3_smarthoem/script.js:59-71 | B is then refused (1500 + 600 > 2000): the records, the labels and the data points are unchanged, and 1500 W stays on |
| Scenarios.BudgetSwap | challange3_smarthoem/script.js:73-90 | after switching A off, B is admitted and the total is 600 W |
| Scenarios.AutoOffExample | challange3_smarthoem/script.js:76-85 | a device with a one-minute usage time, once switched on, has an auto-off pending, and its delivery switches the device off |
| Scenarios.CancelledAutoOffExample | challange3_smarthoem/script.js:87-89 | after a manual switch-off, delivering the device's old handle does nothing |
| Scenarios.NegativeUsageExample | challange3_smarthoem/script.js:12-23 | a usage input of -2 minutes is stored as -120000 ms and still arms an auto-off |
| Scenarios.LoweredCapExample | challange3_smarthoem/script.js:137-142 | saving a 1000 W cap while 1500 W is on is accepted and leaves the cap exceeded |
| Scenarios.SettingsFallbackExample | challange3_smarthoem/script.js:138-142 | a failed parse and a 0 keep the cap at 2000, -5 replaces it, and an empty text keeps the peak hours |
| Scenarios.LoadedIsJustLoaded | challange3_smarthoem/script.js:2-7 | the load-time state is the empty, 2000 W dashboard the other scenarios start from |

## Left out

- DOM output is not modelled: the table built by `renderDevices`, the
  elapsed-seconds list of `updateUsageTime`, the total's text, and the
  clearing of the input fields. A render is modelled only through the chart
  sample it takes.
- The dialogs are not modelled. A refused add or switch-on shows up as the
  `added` or `refused` result and an unchanged state.
- The chart library is not modelled. Only the two arrays it draws are.
- Timer delivery is not tied to time. `FireAutoOff` may deliver any pending
  handle at any moment, so the model does not relate delivery to the usage
  time (a negative delay fires at once in a browser). The one-second
  `setInterval` only feeds the elapsed-time display and is left out with it.
- The clock is not modelled: `Date.now()` is the parameter `now`. Text
  parsing is not modelled either. The handlers receive the trimmed name and
  `parseInt`'s result (`None` for NaN). `parseInt`'s partial parses
  (`"12abc"` is 12) happen before the model.
- JavaScript numbers are doubles, and the model uses unbounded integers.
  Powers, caps and usage times beyond 2^53, where the script's sums and
  products would round, are not modelled.
- Dashboard.Home.ToggleDevice: requires an index of an existing record. The
  only caller is a rendered row's button, and the script would throw a
  `TypeError` on any other index.
- `peakHours` is stored and nothing else; no logic of the script reads it.

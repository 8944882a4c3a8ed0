# take-it-easy: the activity and heart-rate decision layer

A Dafny model of the decision logic in the Pebble watchface
`src/take-it-easy.c`. The watchface's globals are a small immutable record
`App(state, currHr, subscribed, bluetooth)`:

- `state` is the `ActivityState`: Started, NoVibration or Stopped.
- `currHr` is the `uint16_t` heart rate.
- `subscribed` says whether the health-event handler is registered.
- `bluetooth` is the connectivity flag.

Every callback that changes the globals is a pure function from one record
to the next:

- the select click with `prv_start_activity` and `prv_end_activity`;
- the health-event callback;
- the Bluetooth callback.

Every update procedure that only reads them is a total function from the
record to what it shows:

- the progress bucket and its "HRM is off" branch;
- the BPM label;
- the status icon;
- the Bluetooth icon;
- the vibration-enabled dot.

The vibration guard of the tick handler is a function from the record and
`tm_sec` to the pattern it enqueues, if any.

Modules:

- `Numeric` (numeric.dfy): the C integer widths. The `(int16_t)` narrowing
  and the `uint16_t` store of the health callback, and C's truncating `%`,
  are written out explicitly.
- `DecimalText` (decimal.dfy): `%lu` rendering and its inverse.
- `Activity` (activity.dfy): the state record, the launch values and the
  select-button state machine.
- `Display` (display.dfy): what the layer update procedures choose to show.
- `Callbacks` (callbacks.dfy): the tick's vibration decision, the
  Bluetooth callback and the health callback.
- `Session` (session.dfy): runs of host events. The host's event loop is
  not in the source. One assumption about it is made explicit in
  `Session.Step`: health events reach the app only while it is subscribed.

Three behaviours of the code are easy to misread, and the model keeps
them:

- The status icon switches to "vibrate" at 110 BPM and above (`hr < 110`
  selects "ok"). The vibration guard fires only above 110 (`> 110`).
  Both thresholds are kept, and `Display.IconVersusFullBar` and
  `Callbacks.IconWithoutVibrationAt110` pin down where they disagree.
- At launch the state is Started with heart rate 0, but nothing subscribes
  to health events. The subscription invariant ("subscribed exactly when
  not Stopped") is therefore false at launch. It stays false after the
  first click (Started to NoVibration). It first holds after the second
  click, which passes through `prv_end_activity`, and holds from then on.
  A freshly launched watchface receives no heart rate, and so never
  vibrates, before the third click.
- Three clicks give back exactly the same globals when, and only when, the
  heart rate is 0 and the subscription matches the state. Otherwise the
  cycle passes through Stopped, which zeroes the heart rate and fixes the
  subscription.

## Model

| member | source | states |
|---|---|---|
| Activity.StartActivity | src/take-it-easy.c:208-219 | starting sets Started and subscribes; it keeps the heart rate and Bluetooth flag; it always establishes both invariants |
| Activity.EndActivity | src/take-it-easy.c:221-233 | stopping sets Stopped, zeroes the heart rate and unsubscribes; it keeps the Bluetooth flag; it always establishes both invariants |
| Activity.SelectClick | src/take-it-easy.c:235-250 | a click always changes the state, to its successor in the cycle; it never touches Bluetooth; it preserves the subscription invariant and the stopped-is-reset invariant |
| Activity.ClickCycle | src/take-it-easy.c:235-250 | the cycle is Stopped to Started to NoVibration to Stopped, and three steps return to the same state |
| Activity.ClicksState | src/take-it-easy.c:235-250 | after n clicks the state depends only on n modulo 3 |
| Activity.PauseKeepsData | src/take-it-easy.c:241-244 | Started to NoVibration changes only the state: heart rate, subscription and Bluetooth flag are unchanged |
| Activity.ClickResetsOnStop | src/take-it-easy.c:208-250 | a click into Stopped zeroes the heart rate and unsubscribes; a click into Started subscribes and keeps the heart rate |
| Activity.ThreeClicksFromStopped | src/take-it-easy.c:208-250 | three clicks from Stopped give Stopped with the heart rate zeroed and no subscription; from a reset Stopped state they are the identity |
| Activity.ThreeClicksWhileMonitoring | src/take-it-easy.c:208-250 | three clicks from Started or NoVibration, when the subscription is consistent, restore everything except the heart rate, which is lost |
| Activity.ThreeClicksIdentity | src/take-it-easy.c:208-250 | three clicks leave every global unchanged exactly when the heart rate is 0 and the subscription matches the state |
| Activity.SubscriptionFromLaunch | src/take-it-easy.c:24-25 | after n clicks from launch, the subscription invariant holds exactly when n >= 2 |
| Activity.StartAfterEnd | src/take-it-easy.c:208-233 | stopping then starting gives Started, heart rate 0 and subscribed; starting and stopping are each idempotent |
| Display.ProgressBucket | src/take-it-easy.c:153-164 | the bucket is one of 0, 25, 50, 75, 100; it is 0 exactly at 70 BPM or less; it is 100 exactly above 110 BPM |
| Display.BucketCountsThresholds | src/take-it-easy.c:153-164 | the branch chain equals an independent definition: 25 times the number of thresholds 70, 80, 90, 110 strictly exceeded |
| Display.BucketMonotone | src/take-it-easy.c:153-164 | the bucket never decreases as the heart rate rises |
| Display.BpmLabel | src/take-it-easy.c:184-185 | the label fits the 8-byte buffer (at most 7 characters); it is a prefix of the decimal rate followed by " BPM"; it is complete exactly below 1000 BPM, and from 1000 up it is exactly 7 characters |
| Display.BpmLabelTruncated | src/take-it-easy.c:184-185 | 999 shows "999 BPM", 1000 shows "1000 BP" and 65535 shows "65535 B" |
| Display.BpmLabelShowsRate | src/take-it-easy.c:184-185 | for every uint16 rate, the digits at the front of the label read back as that rate; truncation only ever cuts the suffix |
| Display.ProgressLayer | src/take-it-easy.c:150-196 | "HRM is off" exactly when Stopped; otherwise a bar of the rate's bucket with a label whose digits read back as the rate |
| Display.RestartShowsEmptyBar | src/take-it-easy.c:150-196 | after a stop the layer shows "HRM is off"; the next click shows an empty bar labelled "0 BPM" |
| Display.StatusIconFor | src/take-it-easy.c:111-115 | the status icon is "vibrate" exactly from 110 BPM up |
| Display.IconVersusFullBar | src/take-it-easy.c:111-115 | the "vibrate" icon and the full bar agree at every rate except 110, where the icon says "vibrate" and the bar is at 75 |
| Display.VibrationDotShown | src/take-it-easy.c:129-134 | the vibration-enabled dot is drawn exactly in Started, and never alongside "HRM is off" |
| Display.BluetoothIconFor | src/take-it-easy.c:85-89 | the "connected" bitmap is chosen exactly when the Bluetooth flag is set |
| Numeric.ToI16 | src/take-it-easy.c:204 | the int16 narrowing yields the unique int16 congruent to its input modulo 2^16; it keeps in-range values |
| Numeric.I16ToU16 | src/take-it-easy.c:204 | the uint16 store yields the unique uint16 congruent to its input modulo 2^16; it keeps non-negative values |
| Numeric.CRem10 | src/take-it-easy.c:34 | C's `% 10` is congruent to its input, below 10 in magnitude and signed like the dividend; it is zero exactly when 10 divides the input |
| Callbacks.OnTick | src/take-it-easy.c:33-53 | the pattern 100, 400, 100, 100, 100, 200, 100, 400, 100, 200, 100 ms is enqueued exactly when 10 divides the second, the rate is above 110 and the state is Started; otherwise nothing is |
| Callbacks.VibrationNeedsStartedAbove110 | src/take-it-easy.c:34 | no tick vibrates in NoVibration or Stopped, or at 110 BPM or less |
| Callbacks.VibrationAgreesWithDisplay | src/take-it-easy.c:34 | whenever a tick vibrates, the dot is drawn, the icon says "vibrate" and the bar is full; under the invariant, health events are subscribed |
| Callbacks.DotMeansVibrationArmed | src/take-it-easy.c:126-134 | the vibration dot is drawn exactly when a rate above 110 would make a tick vibrate |
| Callbacks.IconWithoutVibrationAt110 | src/take-it-easy.c:34 | at exactly 110 BPM the icon says "vibrate", yet no second vibrates |
| Callbacks.VibrateEveryTenSeconds | src/take-it-easy.c:33-34 | in any ten consecutive seconds, a Started watch above 110 BPM vibrates exactly once; any other watch never vibrates |
| Callbacks.BluetoothCallback | src/take-it-easy.c:98-104 | the flag becomes the reported connectivity and nothing else changes; the icon then follows the report |
| Callbacks.BluetoothLastWins | src/take-it-easy.c:98-104 | of two successive reports only the last matters |
| Callbacks.OnHealthData | src/take-it-easy.c:201-206 | a heart-rate update stores the peeked value modulo 2^16; the stored rate equals the peeked value exactly when it lies in 0..65535; every other event type leaves the globals unchanged |
| Session.Step | src/take-it-easy.c:201-250 | a click advances the state; a tick changes nothing; a health event changes nothing while unsubscribed, and while subscribed a heart-rate update stores the peeked value modulo 2^16; a report sets the Bluetooth flag; only clicks change the state or subscription, only reports change Bluetooth |
| Session.Launch | src/take-it-easy.c:301-302 | after the window loads, the app is Started with rate 0 and not subscribed; the Bluetooth flag is the peeked connectivity |
| Session.RunKeepsStoppedReset | src/take-it-easy.c:221-233 | every run of events from a reset state keeps Stopped states with rate 0 and no subscription |
| Session.RunKeepsSubscriptionInvariant | src/take-it-easy.c:208-250 | once subscription matches "not Stopped", every run of events keeps it |
| Session.RunStateFollowsClicks | src/take-it-easy.c:235-250 | after any run, the state is the start state advanced by the number of clicks |
| Session.RunBluetoothIsLastReported | src/take-it-easy.c:98-104 | after any run, the Bluetooth flag is the last connectivity reported, or the initial flag if none |
| Session.UnsubscribedRateStaysZero | src/take-it-easy.c:201-219 | an unsubscribed app with rate 0 keeps rate 0 and no subscription until enough clicks reach `prv_start_activity` |
| Session.LaunchNeedsThreeClicks | src/take-it-easy.c:24-25 | after launch, with fewer than three clicks, the rate stays 0 and no second can vibrate |
| DecimalText.ParseDecimal | src/take-it-easy.c:185 | reading back the `%lu` digits of n gives n |
| DecimalText.DecimalLength | src/take-it-easy.c:185 | n takes at most k digits exactly when n < 10^k |

## Left out

- Drawing: the rectangles, tick marks, the circle geometry, fonts, text
  layers and colours. The model keeps only what each update procedure
  chooses to show: the bucket, the label text, the branch, and which bitmap
  or dot.
- The time, day and date text written by `strftime`. It depends on the
  host's locale, the 12/24-hour setting and `struct tm`; only the vibration
  guard of `update_time` is modelled.
- The battery percentage read by `battery_state_service_peek`. It is a
  host call; only the vibration dot of that layer is modelled.
- Bitmap creation and destruction, window load and unload, and app
  init and deinit. These are SDK resource plumbing. From window load, only
  the `bluetooth_callback` of the peeked connectivity is kept, as
  `Session.Launch`.
- The real tick, health, Bluetooth and vibration services, and the
  heart-rate sampling-period setting. Subscription is the boolean
  `subscribed`; enqueuing a vibration is the pattern that `OnTick` returns.
- The debug logging and the host's heap queries.
- The `text_layer_destroy` of a text layer that is never created, in the
  progress update procedure. It is a resource call with no effect on the
  globals.
- Callbacks.VibrateEveryTenSeconds: takes `tm_sec` to be the wall-clock
  second modulo 60. It ignores leap seconds and the local time-zone offset.
- Numeric.ToI16: narrowing an out-of-range `int32_t` to `int16_t` is
  implementation-defined in C. The model follows the usual two's-complement
  truncation of the watch's compiler.

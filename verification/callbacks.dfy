/** The host callbacks that touch the decision layer: the per-second tick
    (vibration only; the time and date text is left out), the Bluetooth
    connectivity callback and the health-event callback. */
module Callbacks {
  import opened Numeric
  import opened Activity
  import opened Display

  datatype Option<T> = None | Some(value: T)

  /** The custom vibration pattern, alternating vibrate and pause
      durations in milliseconds, starting and ending with a vibration. */
  const VibePattern: seq<nat> := [100, 400, 100, 100, 100, 200, 100, 400, 100, 200, 100]

  /** The guard in `update_time`: on a second that is a multiple of ten,
      above 110 BPM, and only while Started. `sec` is `tm_sec`. */
  predicate VibrationFires(a: App, sec: int) {
    CRem10(sec) == 0 && a.currHr > 110 && a.state == Started
  }

  /** The vibration part of `update_time`: the pattern enqueued, if any.
      A tick changes none of the globals. */
  function OnTick(a: App, sec: int): (r: Option<seq<nat>>)
    ensures r.Some? <==> sec % 10 == 0 && a.currHr > 110 && a.state == Started
    ensures r.Some? ==> r.value == [100, 400, 100, 100, 100, 200, 100, 400, 100, 200, 100]
  {
    if VibrationFires(a, sec) then Some(VibePattern) else None
  }

  /** Vibration never fires without monitoring with vibration on, nor at
      110 BPM or below. */
  lemma VibrationNeedsStartedAbove110(a: App, sec: int)
    requires a.state != Started || a.currHr <= 110
    ensures OnTick(a, sec) == None
  {
  }

  /** Whenever the watch vibrates the screen already says so: the dot is
      drawn, the icon reads "vibrate", the bar is full and health events
      are arriving (under the subscription invariant). */
  lemma VibrationAgreesWithDisplay(a: App, sec: int)
    requires VibrationFires(a, sec)
    ensures VibrationDotShown(a)
    ensures StatusIconFor(a.currHr) == VibrateIcon
    ensures ProgressLayer(a) == Bar(100, BpmLabel(a.currHr))
    ensures SubscriptionInvariant(a) ==> a.subscribed
  {
  }

  /** The battery layer's dot is drawn exactly when a heart rate above
      110 BPM would make the next multiple-of-ten second vibrate. */
  lemma DotMeansVibrationArmed(a: App)
    ensures VibrationDotShown(a) <==> OnTick(a.(currHr := 111), 0).Some?
  {
  }

  /** At exactly 110 BPM the status icon shows "vibrate" but no tick ever
      vibrates. */
  lemma IconWithoutVibrationAt110(a: App, sec: int)
    requires a.currHr == 110
    ensures StatusIconFor(a.currHr) == VibrateIcon
    ensures !VibrationFires(a, sec)
  {
  }

  /** Number of ticks at wall-clock seconds `t`, `t+1`, ..., `t+n-1` that
      vibrate; `tm_sec` is the second within the minute. */
  function FiringsFrom(a: App, t: int, n: nat): (c: nat)
    ensures c <= n
    decreases n
  {
    if n == 0 then 0
    else (if VibrationFires(a, t % 60) then 1 else 0) + FiringsFrom(a, t + 1, n - 1)
  }

  /** Count of multiples of ten among `t .. t+n-1`, in closed form. */
  lemma {:induction false} FiringsClosedForm(a: App, t: int, n: nat)
    requires a.state == Started && a.currHr > 110
    ensures FiringsFrom(a, t, n) == (t + n + 9) / 10 - (t + 9) / 10
    decreases n
  {
    if n > 0 {
      FiringsClosedForm(a, t + 1, n - 1);
      SecondOfMinute(t);
      TenthsStep(t);
    }
  }

  /** The second within the minute is a multiple of ten exactly when the
      wall-clock second is. */
  lemma SecondOfMinute(t: int)
    ensures (t % 60) % 10 == t % 10
  {
    var k := t / 60;
    assert t % 60 == t - 10 * (6 * k);
  }

  /** Stepping past `t` adds one multiple of ten exactly when `t` is one. */
  lemma TenthsStep(t: int)
    ensures (t + 10) / 10 - (t + 9) / 10 == if t % 10 == 0 then 1 else 0
  {
    var q, r := t / 10, t % 10;
    assert t + 9 == 10 * q + (r + 9);
    assert t + 10 == 10 * (q + 1) + r;
  }

  /** "Vibrate every 10 seconds": in any ten consecutive ticks an active
      watch vibrates exactly once, an inactive one never. */
  lemma VibrateEveryTenSeconds(a: App, t: int)
    ensures a.state == Started && a.currHr > 110 ==> FiringsFrom(a, t, 10) == 1
    ensures !(a.state == Started && a.currHr > 110) ==> FiringsFrom(a, t, 10) == 0
  {
    if a.state == Started && a.currHr > 110 {
      FiringsClosedForm(a, t, 10);
    } else {
      NoFirings(a, t, 10);
    }
  }

  lemma {:induction false} NoFirings(a: App, t: int, n: nat)
    requires !(a.state == Started && a.currHr > 110)
    ensures FiringsFrom(a, t, n) == 0
    decreases n
  {
    if n > 0 {
      NoFirings(a, t + 1, n - 1);
    }
  }

  /** `bluetooth_callback`: record the connectivity, touch nothing else
      (marking the icon layer dirty is a host call). */
  function BluetoothCallback(a: App, connected: bool): (r: App)
    ensures r.bluetooth == connected
    ensures r.(bluetooth := a.bluetooth) == a
    ensures BluetoothIconFor(r) == (if connected then BtOn else BtOff)
  {
    a.(bluetooth := connected)
  }

  /** Only the last of two connectivity reports matters. */
  lemma BluetoothLastWins(a: App, c1: bool, c2: bool)
    ensures BluetoothCallback(BluetoothCallback(a, c1), c2) == BluetoothCallback(a, c2)
  {
  }

  /** The SDK's `HealthEventType` values. */
  datatype HealthEventType =
    | SignificantUpdate
    | MovementUpdate
    | SleepUpdate
    | MetricAlert
    | HeartRateUpdate

  /** `prv_on_health_data`: on a heart-rate update, store the raw BPM value
      `peeked` (the result of the host's health peek, a `HealthValue`)
      through the `(int16_t)` cast into the `uint16_t` global. */
  function OnHealthData(a: App, kind: HealthEventType, peeked: I32): (r: App)
    ensures kind == HeartRateUpdate ==> r == a.(currHr := peeked % 0x1_0000)
    ensures kind != HeartRateUpdate ==> r == a
    ensures kind == HeartRateUpdate && 0 <= peeked < 0x1_0000 ==> r.currHr == peeked
  {
    if kind == HeartRateUpdate then a.(currHr := I16ToU16(ToI16(peeked))) else a
  }
}

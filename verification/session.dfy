/** Sequences of host events applied to the globals. The host's event loop
    is not part of the source; this module makes one assumption about it
    explicit: health events reach `prv_on_health_data` only while the app
    is subscribed to them. */
module Session {
  import opened Numeric
  import opened Activity
  import opened Callbacks

  /** A select-button click, a second tick (`sec` is `tm_sec`), a health
      event with the value the host's heart-rate peek returns, or a
      connectivity report. */
  datatype Event =
    | SelectPressed
    | SecondTick(sec: int)
    | Health(kind: HealthEventType, peeked: I32)
    | Connectivity(connected: bool)

  /** One event dispatched by the host. */
  function Step(a: App, e: Event): (r: App)
    ensures e.SecondTick? ==> r == a
    ensures e.Health? && !a.subscribed ==> r == a
    ensures !e.SelectPressed? ==> r.state == a.state && r.subscribed == a.subscribed
    ensures !e.Connectivity? ==> r.bluetooth == a.bluetooth
    ensures e.Health? && a.subscribed && e.kind == HeartRateUpdate ==>
              r.currHr == e.peeked % 0x1_0000
    ensures e.Health? && a.subscribed && e.kind != HeartRateUpdate ==> r == a
    ensures e.Connectivity? ==> r.bluetooth == e.connected
    ensures e.SelectPressed? ==> r.state == NextState(a.state)
  {
    match e
    case SelectPressed => SelectClick(a)
    case SecondTick(_) => a
    case Health(kind, peeked) => if a.subscribed then OnHealthData(a, kind, peeked) else a
    case Connectivity(c) => BluetoothCallback(a, c)
  }

  /** The globals after the events `es`, in order. */
  function Run(a: App, es: seq<Event>): App
    decreases |es|
  {
    if |es| == 0 then a else Run(Step(a, es[0]), es[1..])
  }

  function ClickCount(es: seq<Event>): nat {
    if |es| == 0 then 0 else (if es[0].SelectPressed? then 1 else 0) + ClickCount(es[1..])
  }

  /** The connectivity most recently reported in `es`, or `dflt` if none. */
  function LastConnectivity(es: seq<Event>, dflt: bool): bool
    decreases |es|
  {
    if |es| == 0 then dflt
    else LastConnectivity(es[1..], if es[0].Connectivity? then es[0].connected else dflt)
  }

  /** The app at launch once the window has loaded: `prv_window_load` reports
      the connectivity the host's peek returns through `bluetooth_callback`. */
  function Launch(connected: bool): (r: App)
    ensures r.state == Started && r.currHr == 0 && !r.subscribed
    ensures r.bluetooth == connected
  {
    BluetoothCallback(Init, connected)
  }

  /** Every event keeps a stopped watchface reset. */
  lemma StepKeepsStoppedReset(a: App, e: Event)
    requires StoppedIsReset(a)
    ensures StoppedIsReset(Step(a, e))
  {
  }

  lemma {:induction false} RunKeepsStoppedReset(a: App, es: seq<Event>)
    requires StoppedIsReset(a)
    ensures StoppedIsReset(Run(a, es))
    decreases |es|
  {
    if |es| > 0 {
      StepKeepsStoppedReset(a, es[0]);
      RunKeepsStoppedReset(Step(a, es[0]), es[1..]);
    }
  }

  /** Once health subscription matches monitoring, every run keeps it so. */
  lemma {:induction false} RunKeepsSubscriptionInvariant(a: App, es: seq<Event>)
    requires SubscriptionInvariant(a)
    ensures SubscriptionInvariant(Run(a, es))
    decreases |es|
  {
    if |es| > 0 {
      RunKeepsSubscriptionInvariant(Step(a, es[0]), es[1..]);
    }
  }

  /** The activity state depends only on how many clicks the run holds. */
  lemma {:induction false} RunStateFollowsClicks(a: App, es: seq<Event>)
    ensures Run(a, es).state == StateAfter(a.state, ClickCount(es))
    decreases |es|
  {
    if |es| > 0 {
      RunStateFollowsClicks(Step(a, es[0]), es[1..]);
      if es[0].SelectPressed? {
        StateAfterShift(a.state, ClickCount(es[1..]));
      }
    }
  }

  lemma {:induction false} StateAfterShift(st: ActivityState, n: nat)
    ensures StateAfter(NextState(st), n) == StateAfter(st, n + 1)
  {
    if n > 0 {
      StateAfterShift(st, n - 1);
    }
  }

  /** The Bluetooth flag is the last connectivity reported. */
  lemma {:induction false} RunBluetoothIsLastReported(a: App, es: seq<Event>)
    ensures Run(a, es).bluetooth == LastConnectivity(es, a.bluetooth)
    decreases |es|
  {
    if |es| > 0 {
      RunBluetoothIsLastReported(Step(a, es[0]), es[1..]);
    }
  }

  /** Clicks still needed, from an unsubscribed state, before the next pass
      through `prv_start_activity`. */
  function ClicksToSubscribe(st: ActivityState): (n: nat)
    ensures 1 <= n <= 3
    ensures StateAfter(st, n) == Started
  {
    match st
    case Stopped => 1
    case NoVibration => 2
    case Started => 3
  }

  /** Without a subscription, the heart rate stays 0 until enough clicks
      have passed through `prv_start_activity`. */
  lemma {:induction false} UnsubscribedRateStaysZero(a: App, es: seq<Event>)
    requires !a.subscribed && a.currHr == 0
    requires ClickCount(es) < ClicksToSubscribe(a.state)
    ensures Run(a, es).currHr == 0 && !Run(a, es).subscribed
    decreases |es|
  {
    if |es| > 0 {
      var b := Step(a, es[0]);
      if es[0].SelectPressed? {
        assert b.state == NextState(a.state);
        assert ClicksToSubscribe(b.state) == ClicksToSubscribe(a.state) - 1;
      }
      UnsubscribedRateStaysZero(b, es[1..]);
    }
  }

  /** A freshly launched watchface shows Started but receives no heart
      rate, and so never vibrates, until the third click. */
  lemma LaunchNeedsThreeClicks(connected: bool, es: seq<Event>)
    requires ClickCount(es) < 3
    ensures Run(Launch(connected), es).currHr == 0
    ensures forall sec :: !VibrationFires(Run(Launch(connected), es), sec)
  {
    UnsubscribedRateStaysZero(Launch(connected), es);
  }
}

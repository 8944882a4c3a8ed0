/** The watchface's process-wide state and the activity state machine
    driven by the select button. */
module Activity {
  import opened Numeric

  /** `ActivityState`: monitoring with vibration, monitoring without
      vibration, or monitoring off. */
  datatype ActivityState = Started | NoVibration | Stopped

  /** The globals the decision layer reads and writes. `subscribed` stands
      for "the health-event handler is registered with the host" (the real
      subscription and the sampling-period setting are host calls). */
  datatype App = App(state: ActivityState, currHr: U16, subscribed: bool, bluetooth: bool)

  /** The globals at launch: `s_app_state` is initialised to Started and
      `s_curr_hr` to 0, `bluetooth` is a zero-initialised static, and
      nothing subscribes to health events during start-up. */
  const Init: App := App(Started, 0, false, false)

  /** Health events are subscribed exactly while monitoring is on. */
  predicate SubscriptionInvariant(a: App) {
    a.subscribed <==> a.state != Stopped
  }

  /** A stopped watchface holds no heart rate and no subscription. */
  predicate StoppedIsReset(a: App) {
    a.state == Stopped ==> !a.subscribed && a.currHr == 0
  }

  /** `prv_start_activity`: switch to Started and subscribe to health
      events (at the fastest sampling period, a host setting). */
  function StartActivity(a: App): (r: App)
    ensures r.state == Started && r.subscribed
    ensures r.currHr == a.currHr && r.bluetooth == a.bluetooth
    ensures SubscriptionInvariant(r) && StoppedIsReset(r)
  {
    a.(state := Started, subscribed := true)
  }

  /** `prv_end_activity`: switch to Stopped, forget the heart rate and
      unsubscribe from health events. */
  function EndActivity(a: App): (r: App)
    ensures r.state == Stopped && !r.subscribed && r.currHr == 0
    ensures r.bluetooth == a.bluetooth
    ensures SubscriptionInvariant(r) && StoppedIsReset(r)
  {
    a.(state := Stopped, currHr := 0, subscribed := false)
  }

  /** The activity state that follows `st` on a select click. */
  function NextState(st: ActivityState): (n: ActivityState)
    ensures n != st
  {
    match st
    case Stopped => Started
    case Started => NoVibration
    case NoVibration => Stopped
  }

  /** `prv_select_click_handler`. */
  function SelectClick(a: App): (r: App)
    ensures r.state == NextState(a.state)
    ensures r.bluetooth == a.bluetooth
    ensures SubscriptionInvariant(a) ==> SubscriptionInvariant(r)
    ensures StoppedIsReset(a) ==> StoppedIsReset(r)
  {
    match a.state
    case Stopped => StartActivity(a)
    case Started => a.(state := NoVibration)
    case NoVibration => EndActivity(a)
  }

  /** The globals after `n` select clicks. */
  function Clicks(a: App, n: nat): App {
    if n == 0 then a else SelectClick(Clicks(a, n - 1))
  }

  /** The activity state after `n` clicks from `st`. */
  function StateAfter(st: ActivityState, n: nat): ActivityState {
    if n == 0 then st else NextState(StateAfter(st, n - 1))
  }

  /** The click cycle: Stopped -> Started -> NoVibration -> Stopped. */
  lemma ClickCycle(st: ActivityState)
    ensures st == Stopped ==> NextState(st) == Started
    ensures st == Started ==> NextState(st) == NoVibration
    ensures st == NoVibration ==> NextState(st) == Stopped
    ensures NextState(NextState(NextState(st))) == st
  {
  }

  /** After `n` clicks the activity state depends only on `n` modulo 3. */
  lemma {:induction false} ClicksState(a: App, n: nat)
    ensures Clicks(a, n).state == StateAfter(a.state, n % 3)
  {
    if n > 0 {
      ClicksState(a, n - 1);
      ClickCycle(StateAfter(a.state, (n - 1) % 3));
    }
  }

  /** Pausing vibration (Started -> NoVibration) changes the state only. */
  lemma PauseKeepsData(a: App)
    requires a.state == Started
    ensures SelectClick(a).state == NoVibration
    ensures SelectClick(a).currHr == a.currHr
    ensures SelectClick(a).subscribed == a.subscribed
    ensures SelectClick(a).bluetooth == a.bluetooth
  {
  }

  /** Entering Stopped by click resets; entering Started by click
      subscribes and keeps the heart rate. */
  lemma ClickResetsOnStop(a: App)
    ensures SelectClick(a).state == Stopped ==>
              SelectClick(a).currHr == 0 && !SelectClick(a).subscribed
    ensures SelectClick(a).state == Started ==>
              SelectClick(a).subscribed && SelectClick(a).currHr == a.currHr
  {
  }

  /** Three clicks from Stopped come back to Stopped with the heart rate
      and the subscription cleared; from a reset Stopped state they return
      every global to its value. */
  lemma {:induction false} ThreeClicksFromStopped(a: App)
    requires a.state == Stopped
    ensures Clicks(a, 3) == a.(currHr := 0, subscribed := false)
    ensures StoppedIsReset(a) ==> Clicks(a, 3) == a
  {
    assert Clicks(a, 1) == StartActivity(a);
    assert Clicks(a, 2) == StartActivity(a).(state := NoVibration);
  }

  /** Three clicks from a monitoring state come back to the same state and
      subscription but pass through Stopped, so the heart rate is lost. */
  lemma {:induction false} ThreeClicksWhileMonitoring(a: App)
    requires a.state != Stopped
    requires SubscriptionInvariant(a)
    ensures Clicks(a, 3) == a.(currHr := 0)
  {
    if a.state == Started {
      assert Clicks(a, 1) == a.(state := NoVibration);
      assert Clicks(a, 2) == EndActivity(a);
    } else {
      assert Clicks(a, 1) == EndActivity(a);
      assert Clicks(a, 2) == EndActivity(a).(state := Started, subscribed := true);
    }
  }

  /** Three clicks give back exactly the same globals when, and only when,
      the heart rate is 0 and the subscription matches the state. */
  lemma {:induction false} ThreeClicksIdentity(a: App)
    ensures Clicks(a, 3) == a <==> a.currHr == 0 && SubscriptionInvariant(a)
  {
    if a.state == Stopped {
      ThreeClicksFromStopped(a);
    } else if SubscriptionInvariant(a) {
      ThreeClicksWhileMonitoring(a);
    } else {
      ClicksState(a, 3);
      assert Clicks(a, 3).state == a.state;
      assert SubscriptionInvariant(Clicks(a, 3)) by {
        if a.state == Started {
          assert Clicks(a, 1) == a.(state := NoVibration);
          assert Clicks(a, 2) == EndActivity(a);
        } else {
          assert Clicks(a, 1) == EndActivity(a);
          assert Clicks(a, 2) == StartActivity(EndActivity(a));
        }
      }
    }
  }

  /** At launch the state is Started but nothing is subscribed, so the
      subscription invariant fails; it first holds after the second click
      (the first pass through `prv_end_activity`) and holds ever after. */
  lemma {:induction false} SubscriptionFromLaunch(n: nat)
    ensures SubscriptionInvariant(Clicks(Init, n)) <==> n >= 2
  {
    if n == 0 {
    } else if n == 1 {
      assert Clicks(Init, 1) == Init.(state := NoVibration);
    } else if n == 2 {
      assert Clicks(Init, 1) == Init.(state := NoVibration);
    } else {
      SubscriptionFromLaunch(n - 1);
    }
  }

  /** Whatever the globals, starting or ending an activity establishes the
      subscription invariant, and ending then starting is a clean start. */
  lemma StartAfterEnd(a: App)
    ensures StartActivity(EndActivity(a)) == App(Started, 0, true, a.bluetooth)
    ensures EndActivity(EndActivity(a)) == EndActivity(a)
    ensures StartActivity(StartActivity(a)) == StartActivity(a)
  {
  }
}

/** The sleep/wake policy engine as a value: the state the app delegate
    keeps, one transition function per handler, and properties of single
    handlers and of whole runs of events. */
module PolicyEngine {
  import opened PowerUpActions

  /** The workspace notifications the engine subscribes to. */
  datatype Notification = WillSleep | WillPowerOff | DidWake

  /** The two notification handlers. */
  datatype Handler = OnPowerDown | OnPowerUp

  /** The subscription table: both pre-sleep notifications go to the
      power-down handler, the wake notification to the power-up handler. */
  function HandlerFor(n: Notification): (h: Handler)
    ensures h == OnPowerDown <==> n == WillSleep || n == WillPowerOff
    ensures h == OnPowerUp <==> n == DidWake
  {
    match n
    case WillSleep => OnPowerDown
    case WillPowerOff => OnPowerDown
    case DidWake => OnPowerUp
  }

  /** The controller power value written for an on/off request. */
  function ControllerValue(powerOn: bool): (v: int)
    ensures v == 0 || v == 1
    ensures v != 0 <==> powerOn
  {
    if powerOn then 1 else 0
  }

  /** The wake decision, per policy: Always turns the radio on, Remember
      turns it on exactly when the latched state is non-zero, Never does not. */
  function ShouldPowerOn(action: PowerUpAction, prevState: int): (r: bool)
    ensures action == Always ==> r
    ensures action == Remember ==> (r <==> prevState != 0)
    ensures action == Never ==> !r
  {
    action == Always || (action == Remember && prevState != 0)
  }

  /** Everything the handlers read or write: the controller power state, the
      latch, the policy, the persistent and registration domains of the
      defaults store, and the three policy menu checkmarks. */
  datatype State = State(
    radio: int,
    prevState: int,
    powerUpAction: PowerUpAction,
    store: map<string, int>,
    registered: map<string, int>,
    rememberOn: bool,
    alwaysOn: bool,
    neverOn: bool)

  /** Whether the menu item of policy a is checked. */
  function Checked(s: State, a: PowerUpAction): bool
  {
    match a
    case Remember => s.rememberOn
    case Always => s.alwaysOn
    case Never => s.neverOn
  }

  /** The item of policy a is checked and the other two are not. */
  predicate OnlyChecked(s: State, a: PowerUpAction)
  {
    forall b: PowerUpAction :: Checked(s, b) <==> b == a
  }

  /** The policy in memory is the one a relaunch would load from the store. */
  predicate Persisted(s: State)
  {
    LoadPolicy(s.store) == s.powerUpAction
  }

  function SetBluetooth(s: State, powerOn: bool): State
  {
    s.(radio := ControllerValue(powerOn))
  }

  /** Sample the controller state into the latch, then switch the radio off. */
  function PowerDown(s: State): State
  {
    SetBluetooth(s.(prevState := s.radio), false)
  }

  /** Switch the radio on when the wake decision says so; otherwise no write. */
  function PowerUp(s: State): State
  {
    if ShouldPowerOn(s.powerUpAction, s.prevState) then SetBluetooth(s, true) else s
  }

  /** A notification delivered through the subscription table. */
  function Handle(s: State, n: Notification): State
  {
    match HandlerFor(n)
    case OnPowerDown => PowerDown(s)
    case OnPowerUp => PowerUp(s)
  }

  /** A policy menu click: set the policy, store its raw value, and check the
      chosen item only. */
  function Select(s: State, a: PowerUpAction): State
  {
    s.(powerUpAction := a,
       store := s.store[PowerUpActionKey := RawValue(a)],
       rememberOn := a == Remember,
       alwaysOn := a == Always,
       neverOn := a == Never)
  }

  /** Finishing launch: register the default, load and decode the policy,
      and check the matching item (the others keep their initial state). */
  function Launch(s: State): State
  {
    var registered := RegisterDefaults(s.registered);
    var p := Decode(IntegerForKey(s.store, registered, PowerUpActionKey));
    s.(registered := registered,
       powerUpAction := p,
       rememberOn := s.rememberOn || p == Remember,
       alwaysOn := s.alwaysOn || p == Always,
       neverOn := s.neverOn || p == Never)
  }

  /** Whatever happens after launch: a workspace notification, a click on one
      of the three policy items, or the user switching the radio to v outside
      the app (from the system's Bluetooth controls). */
  datatype Event = Notify(n: Notification) | Click(a: PowerUpAction) | Toggle(v: int)

  function Step(s: State, e: Event): State
  {
    match e
    case Notify(n) => Handle(s, n)
    case Click(a) => Select(s, a)
    case Toggle(v) => s.(radio := v)
  }

  function Run(s: State, events: seq<Event>): State
    decreases |events|
  {
    if events == [] then s else Run(Step(s, events[0]), events[1..])
  }

  // ---------------------------------------------------------------------
  // Single handlers

  /** Power-down latches the radio state it found, leaves the radio at 0, and
      changes nothing else. */
  lemma PowerDownEffect(s: State)
    ensures PowerDown(s).prevState == s.radio
    ensures PowerDown(s).radio == 0
    ensures PowerDown(s) == s.(prevState := s.radio, radio := 0)
  {
  }

  /** Power-up writes 1 exactly when the wake decision holds and otherwise
      leaves the whole state alone; it never touches the latch or the policy. */
  lemma PowerUpEffect(s: State)
    ensures ShouldPowerOn(s.powerUpAction, s.prevState) ==> PowerUp(s) == s.(radio := 1)
    ensures !ShouldPowerOn(s.powerUpAction, s.prevState) ==> PowerUp(s) == s
    ensures s.powerUpAction == Never ==> PowerUp(s) == s
    ensures PowerUp(s).prevState == s.prevState && PowerUp(s).powerUpAction == s.powerUpAction
  {
  }

  /** Both pre-sleep notifications behave identically, as power-down; the
      wake notification behaves as power-up. */
  lemma RoutingBehaviour(s: State)
    ensures Handle(s, WillSleep) == Handle(s, WillPowerOff) == PowerDown(s)
    ensures Handle(s, DidWake) == PowerUp(s)
  {
  }

  /** One sleep/wake cycle from a pre-sleep radio value s.radio. */
  lemma SleepWakeCycle(s: State)
    ensures s.powerUpAction == Remember ==> (PowerUp(PowerDown(s)).radio != 0 <==> s.radio != 0)
    ensures s.powerUpAction == Remember ==> PowerUp(PowerDown(s)).radio == ControllerValue(s.radio != 0)
    ensures s.powerUpAction == Always ==> PowerUp(PowerDown(s)).radio == 1
    ensures s.powerUpAction == Never ==> PowerUp(PowerDown(s)).radio == 0
  {
  }

  /** Two power-downs with no wake between overwrite the latch with 0, so a
      following wake under Remember leaves the radio off. */
  lemma DoublePowerDown(s: State)
    ensures PowerDown(PowerDown(s)).prevState == 0
    ensures s.powerUpAction == Remember ==> PowerUp(PowerDown(PowerDown(s))).radio == 0
  {
  }

  /** A click sets the policy and the stored raw value, checks exactly the
      chosen item, leaves the radio, the latch and every other stored key as
      they were, and is a store the next launch loads back. */
  lemma SelectEffect(s: State, a: PowerUpAction)
    ensures Select(s, a).powerUpAction == a
    ensures PowerUpActionKey in Select(s, a).store && Select(s, a).store[PowerUpActionKey] == RawValue(a)
    ensures OnlyChecked(Select(s, a), a)
    ensures Select(s, a).radio == s.radio && Select(s, a).prevState == s.prevState
    ensures Select(s, a).registered == s.registered
    ensures forall k :: k in s.store && k != PowerUpActionKey ==> k in Select(s, a).store && Select(s, a).store[k] == s.store[k]
    ensures Select(s, a).store.Keys == s.store.Keys + {PowerUpActionKey}
    ensures Persisted(Select(s, a))
  {
    StoreLoadRoundTrip(a, s.store);
  }

  /** Running a click handler twice gives the same state as running it once. */
  lemma SelectIdempotent(s: State, a: PowerUpAction)
    ensures Select(Select(s, a), a) == Select(s, a)
  {
  }

  /** Launch loads exactly what a fresh process reads from the store, checks
      the matching item, and leaves the radio, the latch and the store alone. */
  lemma LaunchEffect(s: State)
    ensures Launch(s).powerUpAction == LoadPolicy(s.store)
    ensures Checked(Launch(s), Launch(s).powerUpAction)
    ensures Persisted(Launch(s))
    ensures Launch(s).store == s.store && Launch(s).radio == s.radio && Launch(s).prevState == s.prevState
    ensures PowerUpActionKey !in s.store ==> Launch(s).powerUpAction == Remember
  {
  }

  // ---------------------------------------------------------------------
  // Runs of events

  /** Running two event sequences one after the other is running their
      concatenation. */
  lemma {:induction false} RunAppend(s: State, xs: seq<Event>, ys: seq<Event>)
    ensures Run(s, xs + ys) == Run(Run(s, xs), ys)
    decreases |xs|
  {
    if xs == [] {
      assert xs + ys == ys;
    } else {
      assert (xs + ys)[0] == xs[0];
      assert (xs + ys)[1..] == xs[1..] + ys;
      RunAppend(Step(s, xs[0]), xs[1..], ys);
    }
  }

  /** Once the policy in memory agrees with the store, every later click and
      notification keeps them in agreement: a restart at any point comes back
      with the policy that was in force. */
  lemma {:induction false} RunKeepsPersisted(s: State, events: seq<Event>)
    requires Persisted(s)
    ensures Persisted(Run(s, events))
    decreases |events|
  {
    if events != [] {
      match events[0] {
        case Notify(n) =>
        case Click(a) => SelectEffect(s, a);
        case Toggle(v) =>
      }
      RunKeepsPersisted(Step(s, events[0]), events[1..]);
    }
  }

  /** The item of the policy in force stays checked through any run. */
  lemma {:induction false} RunKeepsCheckmark(s: State, events: seq<Event>)
    requires Checked(s, s.powerUpAction)
    ensures Checked(Run(s, events), Run(s, events).powerUpAction)
    decreases |events|
  {
    if events != [] {
      RunKeepsCheckmark(Step(s, events[0]), events[1..]);
    }
  }

  /** Once only the item of the policy in force is checked (after any
      click), that stays so through any run. */
  lemma {:induction false} RunKeepsOnlyChecked(s: State, events: seq<Event>)
    requires OnlyChecked(s, s.powerUpAction)
    ensures OnlyChecked(Run(s, events), Run(s, events).powerUpAction)
    decreases |events|
  {
    if events != [] {
      var t := Step(s, events[0]);
      match events[0] {
        case Notify(n) =>
          assert t.rememberOn == s.rememberOn && t.alwaysOn == s.alwaysOn && t.neverOn == s.neverOn;
          forall b: PowerUpAction ensures Checked(t, b) == Checked(s, b) {
          }
        case Click(a) => SelectEffect(s, a);
        case Toggle(v) =>
          forall b: PowerUpAction ensures Checked(t, b) == Checked(s, b) {
          }
      }
      RunKeepsOnlyChecked(t, events[1..]);
    }
  }

  /** No event in the sequence is a policy click. */
  predicate NoClicks(events: seq<Event>)
  {
    forall i :: 0 <= i < |events| ==> !events[i].Click?
  }

  /** Sleep, wake and outside radio switches never change the policy, the
      store, the registration domain or the checkmarks: only the radio and
      the latch. */
  lemma {:induction false} PowerEventsKeepConfiguration(s: State, events: seq<Event>)
    requires NoClicks(events)
    ensures Run(s, events) == s.(radio := Run(s, events).radio, prevState := Run(s, events).prevState)
    decreases |events|
  {
    if events != [] {
      assert !events[0].Click?;
      assert NoClicks(events[1..]) by {
        forall i | 0 <= i < |events[1..]| ensures !events[1..][i].Click? {
          assert events[1..][i] == events[i + 1];
        }
      }
      PowerEventsKeepConfiguration(Step(s, events[0]), events[1..]);
    }
  }

  /** Every outside radio switch in the sequence sets the radio to 0 or 1. */
  predicate BinaryToggles(events: seq<Event>)
  {
    forall i :: 0 <= i < |events| && events[i].Toggle? ==> events[i].v == 0 || events[i].v == 1
  }

  /** The engine only ever writes 0 or 1 to the controller: a radio that
      starts at 0 or 1 stays at 0 or 1 through any run whose outside switches
      also write 0 or 1. */
  lemma {:induction false} RunKeepsRadioBinary(s: State, events: seq<Event>)
    requires s.radio == 0 || s.radio == 1
    requires BinaryToggles(events)
    ensures Run(s, events).radio == 0 || Run(s, events).radio == 1
    decreases |events|
  {
    if events != [] {
      assert BinaryToggles(events[1..]) by {
        forall i | 0 <= i < |events[1..]| && events[1..][i].Toggle?
          ensures events[1..][i].v == 0 || events[1..][i].v == 1
        {
          assert events[1..][i] == events[i + 1];
        }
      }
      RunKeepsRadioBinary(Step(s, events[0]), events[1..]);
    }
  }

  /** Under Remember, whatever the user last set the radio to before sleep is
      what wake restores: on iff that value was non-zero. */
  lemma RememberRestoresUserChoice(s: State, events: seq<Event>, v: int)
    requires s.powerUpAction == Remember
    requires NoClicks(events)
    ensures Run(s, events + [Toggle(v), Notify(WillSleep), Notify(DidWake)]).radio == ControllerValue(v != 0)
  {
    PowerEventsKeepConfiguration(s, events);
    RunAppend(s, events, [Toggle(v), Notify(WillSleep), Notify(DidWake)]);
    var t := Run(s, events);
    var cycle := [Toggle(v), Notify(WillSleep), Notify(DidWake)];
    assert cycle[1..] == [Notify(WillSleep), Notify(DidWake)];
    assert cycle[1..][1..] == [Notify(DidWake)];
    assert Run(t, cycle) == Run(t.(radio := v), cycle[1..]);
    assert Run(t.(radio := v), cycle[1..]) == Run(PowerDown(t.(radio := v)), [Notify(DidWake)]);
    assert Run(PowerDown(t.(radio := v)), [Notify(DidWake)]) == PowerUp(PowerDown(t.(radio := v)));
  }

  /** Whatever happened before, a run that ends with a pre-sleep notification
      leaves the radio off and the latch holding the radio state it found. */
  lemma RunEndingInPowerDown(s: State, events: seq<Event>, n: Notification)
    requires n == WillSleep || n == WillPowerOff
    ensures Run(s, events + [Notify(n)]).radio == 0
    ensures Run(s, events + [Notify(n)]).prevState == Run(s, events).radio
  {
    RunAppend(s, events, [Notify(n)]);
    assert Run(Run(s, events), [Notify(n)]) == Step(Run(s, events), Notify(n));
  }
}

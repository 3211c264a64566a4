# Bluesnooze sleep/wake policy engine in Dafny

Bluesnooze is a macOS menu-bar agent. It switches Bluetooth off when the Mac
goes to sleep or powers off. On wake it may switch Bluetooth back on, depending
on a policy the user picks from its menu:

- **remember**: turn the radio back on only if it was on before sleep;
- **always**: turn the radio on after every wake;
- **never**: leave the radio off.

The policy is stored as an integer (1, 2 or 3) under the defaults key
`powerUpAction` and is read again at launch.

This project models that engine, which lives in `AppDelegate`:

- `power_up_action.dfy`, module `PowerUpActions`: the policy enum, its raw
  values and its key; the defaults lookup (persistent domain, then registered
  defaults, then 0); the registration of the default; and the decode
  `PowerUpAction(rawValue:) ?? .always`.
- `policy_engine.dfy`, module `PolicyEngine`: the delegate's state as a value.
  It holds the radio, the `prevState` latch, the policy, the two defaults
  domains and the three menu checkmarks. There is one transition function per
  handler, plus the subscription table from notification to handler, and
  `Run` over a sequence of notifications, menu clicks and outside radio
  switches. The lemmas state
  what each handler does and what every run preserves.
- `app_delegate.dfy`, module `App`: class `AppDelegate` holds these fields and
  updates them in place. Each method is verified to leave the object in the
  state the matching `PolicyEngine` transition gives. Each one's `modifies`
  clause names exactly the fields the Swift handler writes.

The IOBluetooth power state is the integer field `radio`, because
`IOBluetoothPreferenceGetControllerPowerState` returns an integer. Wake checks
`prevState != 0`, and `setBluetooth` writes 1 or 0. UserDefaults is modelled as
two maps: `store` is the persistent domain, written by `set(_:forKey:)`, and
`registered` is the registration domain, written by `register(defaults:)`.
The registration domain is not persisted, so every launch starts with it
empty.

Two things the code does that are easy to get wrong:

- An unrecognised stored integer such as 0 or 99 decodes to **always**
  (`?? .always`, AppDelegate.swift line 46). Only an absent key gives
  remember, through the registered default 1.
- The radio and latch values are integers tested with `!= 0`.

Runs of events also include the user switching Bluetooth to any value from
outside the app, between the engine's own events.

## Model

| member | source | states |
|---|---|---|
| PowerUpActions.RawValue | Bluesnooze/AppDelegate.swift:15-19 | every policy is backed by an integer in 1..3 |
| PowerUpActions.RawValueInjective | Bluesnooze/AppDelegate.swift:15-19 | two policies have the same raw value iff they are the same policy |
| PowerUpActions.FromRawValue | Bluesnooze/AppDelegate.swift:15-19 | the raw-value initialiser succeeds iff the integer is 1, 2 or 3, and then returns the case backed by that integer |
| PowerUpActions.Decode | Bluesnooze/AppDelegate.swift:46 | a recognised raw value decodes to its own case; every other integer decodes to always |
| PowerUpActions.IntegerForKey | Bluesnooze/AppDelegate.swift:45 | integer lookup: the persistent value if present, else the registered default, else 0 |
| PowerUpActions.RegisterDefaults | Bluesnooze/AppDelegate.swift:41-43 | registration adds the policy key with remember's raw value 1 and keeps the other registered defaults |
| PowerUpActions.LoadPolicy | Bluesnooze/AppDelegate.swift:41-46 | after registration, an absent key loads remember and a present key loads the decode of its value |
| PowerUpActions.DecodeTable | Bluesnooze/AppDelegate.swift:41-46 | 1, 2 and 3 give remember, always and never; 0, 99 and -1 give always; an absent key gives remember and a stored 99 gives always |
| PowerUpActions.DecodePreimage | Bluesnooze/AppDelegate.swift:46 | an integer decodes to a policy iff it is that policy's raw value, or the policy is always and the integer is outside 1..3 |
| PowerUpActions.StoreLoadRoundTrip | Bluesnooze/AppDelegate.swift:45-46 | storing a policy's raw value under the key and loading it back gives that policy, whatever else the store holds |
| PolicyEngine.HandlerFor | Bluesnooze/AppDelegate.swift:104-107 | will-sleep and will-power-off map to the power-down handler, and did-wake maps to the power-up handler |
| PolicyEngine.ControllerValue | Bluesnooze/AppDelegate.swift:129-131 | the value written to the controller is 0 or 1, and it is non-zero iff power-on was requested |
| PolicyEngine.ShouldPowerOn | Bluesnooze/AppDelegate.swift:124 | the wake decision: always powers on; remember powers on iff the latch is non-zero; never does not power on |
| PolicyEngine.SetBluetooth | Bluesnooze/AppDelegate.swift:129-131 | sets the radio to the controller value of the request (1 for on, 0 for off) and changes nothing else; see ControllerValue |
| PolicyEngine.PowerDown | Bluesnooze/AppDelegate.swift:118-121 | latch := radio, then radio := 0; see PowerDownEffect, SleepWakeCycle and DoublePowerDown |
| PolicyEngine.PowerUp | Bluesnooze/AppDelegate.swift:123-127 | radio := 1 when the wake decision holds, otherwise the state as it was; see PowerUpEffect and SleepWakeCycle |
| PolicyEngine.Handle | Bluesnooze/AppDelegate.swift:103-107 | runs the handler the subscription table names for a notification; see RoutingBehaviour |
| PolicyEngine.Select | Bluesnooze/AppDelegate.swift:59-90 | the common effect of the three click handlers: policy := a, stored key := raw value of a, only a's item checked; see SelectEffect and SelectIdempotent |
| PolicyEngine.Launch | Bluesnooze/AppDelegate.swift:41-54 | registers the default, sets the policy to the decoded stored value and checks its item; see LaunchEffect |
| PolicyEngine.PowerDownEffect | Bluesnooze/AppDelegate.swift:118-121 | power-down latches the radio value it found and leaves the radio at 0; nothing else changes |
| PolicyEngine.PowerUpEffect | Bluesnooze/AppDelegate.swift:123-127 | power-up sets the radio to 1 when the wake decision holds; otherwise the state is unchanged, so under never it is always unchanged; the latch and the policy are never touched |
| PolicyEngine.RoutingBehaviour | Bluesnooze/AppDelegate.swift:104-107 | will-sleep and will-power-off both behave as power-down, and did-wake behaves as power-up |
| PolicyEngine.SleepWakeCycle | Bluesnooze/AppDelegate.swift:118-127 | power-down then power-up from radio value s: under remember the radio ends on iff s != 0, under always it ends at 1, under never it ends at 0 |
| PolicyEngine.DoublePowerDown | Bluesnooze/AppDelegate.swift:118-127 | a second power-down with no wake in between latches 0, so a following wake under remember leaves the radio off |
| PolicyEngine.SelectEffect | Bluesnooze/AppDelegate.swift:59-90 | a policy click sets the policy and stores its raw value under the key; exactly the chosen item is checked; radio, latch, registration domain and other stored keys are unchanged; the store loads back the chosen policy |
| PolicyEngine.SelectIdempotent | Bluesnooze/AppDelegate.swift:59-90 | running a policy click handler twice gives the same state as running it once |
| PolicyEngine.LaunchEffect | Bluesnooze/AppDelegate.swift:41-54 | launch sets the policy that a fresh process loads from the store (remember if the key is absent) and checks its item; store, radio and latch are unchanged |
| PolicyEngine.RunKeepsPersisted | Bluesnooze/AppDelegate.swift:59-90 | once the in-memory policy agrees with the stored one, any sequence of clicks and notifications keeps them in agreement, so a relaunch restores the policy that was in force |
| PolicyEngine.RunKeepsCheckmark | Bluesnooze/AppDelegate.swift:48-90 | if the item of the current policy is checked, it stays checked through any sequence of events |
| PolicyEngine.RunKeepsOnlyChecked | Bluesnooze/AppDelegate.swift:59-90 | once exactly the current policy's item is checked, that holds after any sequence of events |
| PolicyEngine.PowerEventsKeepConfiguration | Bluesnooze/AppDelegate.swift:103-127 | any sequence of sleep, power-off and wake notifications and outside radio switches changes only the radio and the latch; policy, stores and checkmarks stay the same |
| PolicyEngine.RunKeepsRadioBinary | Bluesnooze/AppDelegate.swift:118-131 | the engine only writes 0 or 1, so a radio that starts at 0 or 1 stays at 0 or 1 through any run whose outside switches also write 0 or 1 |
| PolicyEngine.RememberRestoresUserChoice | Bluesnooze/AppDelegate.swift:118-127 | under remember, after any run without clicks, if the user last sets the radio to v before a sleep and wake, the wake leaves the radio on iff v != 0 |
| PolicyEngine.RunEndingInPowerDown | Bluesnooze/AppDelegate.swift:118-121 | after any run (outside radio switches included) that ends in a pre-sleep notification, the radio is 0 and the latch holds the radio value just before that notification |
| App.AppDelegate.constructor | Bluesnooze/AppDelegate.swift:33-34 | on creation, the latch is the controller state at that moment, the policy is remember and the registration domain is empty |
| App.AppDelegate.ApplicationDidFinishLaunching | Bluesnooze/AppDelegate.swift:41-54 | registers the default, sets the policy to the store's decoded value (remember if absent), turns on the matching checkmark and keeps the others; policy and store agree afterwards |
| App.AppDelegate.PowerUpActionRememberClicked | Bluesnooze/AppDelegate.swift:59-68 | the policy is remember; the store maps the key to 1; only the remember item is checked; nothing else changes |
| App.AppDelegate.PowerUpActionAlwaysClicked | Bluesnooze/AppDelegate.swift:70-79 | the policy is always; the store maps the key to 2; only the always item is checked; nothing else changes |
| App.AppDelegate.PowerUpActionNeverClicked | Bluesnooze/AppDelegate.swift:81-90 | the policy is never; the store maps the key to 3; only the never item is checked; nothing else changes |
| App.AppDelegate.Notify | Bluesnooze/AppDelegate.swift:103-107 | a notification runs the handler the subscription table names: pre-sleep notifications latch the radio and switch it off, and wake leaves the latch alone |
| App.AppDelegate.OnPowerDown | Bluesnooze/AppDelegate.swift:118-121 | sets prevState to the radio value before the call and the radio to 0; only those two fields change |
| App.AppDelegate.OnPowerUp | Bluesnooze/AppDelegate.swift:123-127 | writes radio := 1 exactly when the wake decision holds, otherwise writes nothing; only the radio may change |
| App.AppDelegate.SetBluetooth | Bluesnooze/AppDelegate.swift:129-131 | the radio becomes 1 for power-on and 0 for power-off |

## Left out

- Status-bar icon and menu construction (`initStatusItem`, the `hideIcon` default): user-interface only.
- Launch at login (`launchAtLoginClicked`, `setLaunchAtLoginState`): it calls the external LaunchAtLogin library, whose implementation is not part of this model.
- `quitClicked` and application termination: not part of the policy logic.
- Observer registration with the workspace notification center: only the table from notification to handler is modelled, as `HandlerFor` and `AppDelegate.Notify`.
- The IOBluetooth private API and the real UserDefaults: they are the integer field `radio` and the two maps `store` and `registered`. The model assumes a write to the controller is read back unchanged. Outside changes to the radio appear in runs as `Toggle` events; the class `AppDelegate` has no method for them, because the app has no such handler.
- PowerUpActions.IntegerForKey: models only the persistent and registration domains, each holding integers. The real `integer(forKey:)` also searches the launch-argument and global domains. It also converts non-integer values: a numeric string is parsed, a Boolean true reads as 1, a float is truncated, and anything else reads as 0. So a present but non-integer stored value cannot be expressed, and `DecodeTable`'s "every integer outside 1..3" covers only stored integers.
- Concurrency: the handlers run one at a time on the main thread, so they are plain sequential methods.
- App.AppDelegate.ApplicationDidFinishLaunching: the checkmarks of the two non-matching items keep their state from menu construction, which comes from the nib file and is not visible. The constructor takes that state as parameters.
- Menu items always report checked or unchecked; the third control state, mixed, is not modelled.

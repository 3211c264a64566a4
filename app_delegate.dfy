/** The application delegate: the object whose fields the notification and
    click handlers update in place. Each handler is proved to take the
    object's state to the corresponding transition of PolicyEngine. */
module App {
  import opened PowerUpActions
  import PolicyEngine

  class AppDelegate {
    /** The Bluetooth controller power state (0 is off). */
    var radio: int
    /** The controller state sampled by the last power-down. */
    var prevState: int
    var powerUpAction: PowerUpAction
    /** The persistent domain of the defaults store. */
    var store: map<string, int>
    /** The registration domain of the defaults store (not persisted). */
    var registered: map<string, int>
    /** The checkmarks of the three policy menu items. */
    var rememberItemOn: bool
    var alwaysItemOn: bool
    var neverItemOn: bool

    /** The object's state as a PolicyEngine value. */
    function State(): PolicyEngine.State
      reads this
    {
      PolicyEngine.State(radio, prevState, powerUpAction, store, registered,
                         rememberItemOn, alwaysItemOn, neverItemOn)
    }

    /** Object creation: the latch starts as the controller state at that
        moment, the policy as Remember, and the registration domain empty;
        the checkmarks are whatever the menu was built with. */
    constructor (controllerState: int, persisted: map<string, int>,
                 rememberInitial: bool, alwaysInitial: bool, neverInitial: bool)
      ensures radio == controllerState && prevState == controllerState
      ensures powerUpAction == Remember
      ensures store == persisted && registered == map[]
      ensures rememberItemOn == rememberInitial && alwaysItemOn == alwaysInitial && neverItemOn == neverInitial
    {
      radio := controllerState;
      prevState := controllerState;
      powerUpAction := Remember;
      store := persisted;
      registered := map[];
      rememberItemOn, alwaysItemOn, neverItemOn := rememberInitial, alwaysInitial, neverInitial;
    }

    /** Launch: register the default, decode the stored policy, check its
        item. The policy loaded is the one any fresh launch reads from the
        store, so it agrees with the store afterwards. */
    method ApplicationDidFinishLaunching()
      modifies this`registered, this`powerUpAction, this`rememberItemOn, this`alwaysItemOn, this`neverItemOn
      ensures registered == RegisterDefaults(old(registered))
      ensures powerUpAction == LoadPolicy(store)
      ensures PowerUpActionKey !in store ==> powerUpAction == Remember
      ensures rememberItemOn == (old(rememberItemOn) || powerUpAction == Remember)
      ensures alwaysItemOn == (old(alwaysItemOn) || powerUpAction == Always)
      ensures neverItemOn == (old(neverItemOn) || powerUpAction == Never)
      ensures PolicyEngine.Persisted(State())
      ensures State() == PolicyEngine.Launch(old(State()))
    {
      registered := RegisterDefaults(registered);
      var rawPowerUpAction := IntegerForKey(store, registered, PowerUpActionKey);
      powerUpAction := Decode(rawPowerUpAction);
      if powerUpAction == Remember {
        rememberItemOn := true;
      } else if powerUpAction == Always {
        alwaysItemOn := true;
      } else if powerUpAction == Never {
        neverItemOn := true;
      }
    }

    method PowerUpActionRememberClicked()
      modifies this`powerUpAction, this`store, this`rememberItemOn, this`alwaysItemOn, this`neverItemOn
      ensures powerUpAction == Remember
      ensures store == old(store)[PowerUpActionKey := RawValue(Remember)]
      ensures rememberItemOn && !alwaysItemOn && !neverItemOn
      ensures LoadPolicy(store) == Remember
      ensures State() == PolicyEngine.Select(old(State()), Remember)
    {
      powerUpAction := Remember;
      store := store[PowerUpActionKey := RawValue(powerUpAction)];
      rememberItemOn := true;
      alwaysItemOn := false;
      neverItemOn := false;
      StoreLoadRoundTrip(Remember, old(store));
    }

    method PowerUpActionAlwaysClicked()
      modifies this`powerUpAction, this`store, this`rememberItemOn, this`alwaysItemOn, this`neverItemOn
      ensures powerUpAction == Always
      ensures store == old(store)[PowerUpActionKey := RawValue(Always)]
      ensures !rememberItemOn && alwaysItemOn && !neverItemOn
      ensures LoadPolicy(store) == Always
      ensures State() == PolicyEngine.Select(old(State()), Always)
    {
      powerUpAction := Always;
      store := store[PowerUpActionKey := RawValue(powerUpAction)];
      rememberItemOn := false;
      alwaysItemOn := true;
      neverItemOn := false;
      StoreLoadRoundTrip(Always, old(store));
    }

    method PowerUpActionNeverClicked()
      modifies this`powerUpAction, this`store, this`rememberItemOn, this`alwaysItemOn, this`neverItemOn
      ensures powerUpAction == Never
      ensures store == old(store)[PowerUpActionKey := RawValue(Never)]
      ensures !rememberItemOn && !alwaysItemOn && neverItemOn
      ensures LoadPolicy(store) == Never
      ensures State() == PolicyEngine.Select(old(State()), Never)
    {
      powerUpAction := Never;
      store := store[PowerUpActionKey := RawValue(powerUpAction)];
      rememberItemOn := false;
      alwaysItemOn := false;
      neverItemOn := true;
      StoreLoadRoundTrip(Never, old(store));
    }

    /** A workspace notification delivered to the handler the subscription
        table names for it. */
    method Notify(n: PolicyEngine.Notification)
      modifies this`radio, this`prevState
      ensures State() == PolicyEngine.Handle(old(State()), n)
      ensures n == PolicyEngine.DidWake ==> prevState == old(prevState)
      ensures n != PolicyEngine.DidWake ==> prevState == old(radio) && radio == 0
    {
      match PolicyEngine.HandlerFor(n)
      case OnPowerDown => OnPowerDown();
      case OnPowerUp => OnPowerUp();
    }

    /** Latch the controller state, then switch the radio off. */
    method OnPowerDown()
      modifies this`radio, this`prevState
      ensures prevState == old(radio)
      ensures radio == 0
      ensures State() == PolicyEngine.PowerDown(old(State()))
    {
      prevState := radio;
      SetBluetooth(false);
    }

    /** Switch the radio on under Always, or under Remember when the latch is
        non-zero; otherwise write nothing. */
    method OnPowerUp()
      modifies this`radio
      ensures PolicyEngine.ShouldPowerOn(powerUpAction, prevState) ==> radio == 1
      ensures !PolicyEngine.ShouldPowerOn(powerUpAction, prevState) ==> radio == old(radio)
      ensures powerUpAction == Never ==> radio == old(radio)
      ensures State() == PolicyEngine.PowerUp(old(State()))
    {
      if PolicyEngine.ShouldPowerOn(powerUpAction, prevState) {
        SetBluetooth(true);
      }
    }

    method SetBluetooth(powerOn: bool)
      modifies this`radio
      ensures radio == PolicyEngine.ControllerValue(powerOn)
      ensures radio != 0 <==> powerOn
      ensures State() == PolicyEngine.SetBluetooth(old(State()), powerOn)
    {
      radio := PolicyEngine.ControllerValue(powerOn);
    }
  }
}

/** The wake policy, its integer raw values and how it is kept in the
    defaults store between launches. */
module PowerUpActions {

  datatype Option<+T> = None | Some(value: T)

  /** What to do with the Bluetooth radio when the machine wakes. */
  datatype PowerUpAction = Remember | Always | Never

  /** The defaults key under which the chosen policy is stored. */
  const PowerUpActionKey: string := "powerUpAction"

  /** The integer each policy case is backed by. */
  function RawValue(a: PowerUpAction): (r: int)
    ensures 1 <= r <= 3
  {
    match a
    case Remember => 1
    case Always => 2
    case Never => 3
  }

  /** Distinct policies have distinct raw values. */
  lemma RawValueInjective(a: PowerUpAction, b: PowerUpAction)
    ensures RawValue(a) == RawValue(b) <==> a == b
  {
  }

  /** The failable initialiser from a raw integer: it succeeds on exactly the
      three raw values and then gives back the case with that raw value. */
  function FromRawValue(raw: int): (r: Option<PowerUpAction>)
    ensures r.Some? <==> 1 <= raw <= 3
    ensures r.Some? ==> RawValue(r.value) == raw
  {
    if raw == 1 then Some(Remember)
    else if raw == 2 then Some(Always)
    else if raw == 3 then Some(Never)
    else None
  }

  /** Decoding with the launch code's fallback: a recognised raw value gives
      its own case, every other integer gives Always. */
  function Decode(raw: int): (r: PowerUpAction)
    ensures 1 <= raw <= 3 ==> RawValue(r) == raw
    ensures !(1 <= raw <= 3) ==> r == Always
  {
    match FromRawValue(raw)
    case Some(a) => a
    case None => Always
  }

  /** Integer lookup in a defaults store: the persistent domain wins, then the
      registered defaults, and a key found in neither reads as 0. */
  function IntegerForKey(domain: map<string, int>, registered: map<string, int>, key: string): (r: int)
    ensures key in domain ==> r == domain[key]
    ensures key !in domain && key in registered ==> r == registered[key]
    ensures key !in domain && key !in registered ==> r == 0
  {
    if key in domain then domain[key]
    else if key in registered then registered[key]
    else 0
  }

  /** The registration made at launch: the policy key defaults to the raw
      value of Remember, and every other registered default is kept. */
  function RegisterDefaults(registered: map<string, int>): (r: map<string, int>)
    ensures r.Keys == registered.Keys + {PowerUpActionKey}
    ensures r[PowerUpActionKey] == RawValue(Remember)
    ensures forall k :: k in registered && k != PowerUpActionKey ==> r[k] == registered[k]
  {
    registered[PowerUpActionKey := RawValue(Remember)]
  }

  /** The policy a launch reads from the persistent domain, once its defaults
      are registered: an absent key gives Remember, a present one is decoded. */
  function LoadPolicy(domain: map<string, int>): (r: PowerUpAction)
    ensures PowerUpActionKey !in domain ==> r == Remember
    ensures PowerUpActionKey in domain ==> r == Decode(domain[PowerUpActionKey])
  {
    Decode(IntegerForKey(domain, RegisterDefaults(map[]), PowerUpActionKey))
  }

  /** The decode table: 1, 2 and 3 give their cases; 0, 99 and -1 give
      Always; an absent key gives Remember and a stored 99 gives Always. */
  lemma DecodeTable(domain: map<string, int>)
    ensures Decode(1) == Remember && Decode(2) == Always && Decode(3) == Never
    ensures Decode(0) == Always && Decode(99) == Always && Decode(-1) == Always
    ensures PowerUpActionKey !in domain ==> LoadPolicy(domain) == Remember
    ensures PowerUpActionKey in domain && domain[PowerUpActionKey] == 99 ==> LoadPolicy(domain) == Always
  {
  }

  /** Exactly which integers decode to a given policy. */
  lemma DecodePreimage(raw: int, a: PowerUpAction)
    ensures Decode(raw) == a <==> raw == RawValue(a) || (a == Always && (raw < 1 || 3 < raw))
  {
  }

  /** Storing a policy's raw value under the key and loading it back gives the
      same policy, whatever else the domain holds. */
  lemma StoreLoadRoundTrip(a: PowerUpAction, domain: map<string, int>)
    ensures FromRawValue(RawValue(a)) == Some(a)
    ensures Decode(RawValue(a)) == a
    ensures LoadPolicy(domain[PowerUpActionKey := RawValue(a)]) == a
  {
  }
}

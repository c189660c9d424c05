/**
 * The key envelope: one random MasterKey, wrapped by a passphrase, a PIN and recovery codes,
 * and wrapping the vault keys.
 * Several clients share one account.
 */
module KeyModel {
  import opened Types
  import RecoveryCode

  // ----- octets -----

  /** What lies in a byte slice: plain bytes, or an ideal ciphertext, which takes one cell. */
  datatype Octet = Plain(b: int) | Sealed(kek: Kek, nonce: nat, text: Octets)

  type Octets = seq<Octet>

  /** Key derivation is ideal: different inputs give different keys. */
  datatype Kek =
    | FromPassphrase(pass: string, salt: Octets, params: Octets)
    | FromPin(pin: string, pinSalt: Octets, pinParams: Octets)
    | FromCode(code: string)
    | FromMaster(master: Octets)

  function Wrap(key: Octets, kek: Kek, nonce: nat): Octets {
    [Octet.Sealed(kek, nonce, key)]
  }

  function Unwrap(wrapped: Octets, kek: Kek): Option<Octets> {
    if |wrapped| == 1 && wrapped[0].Sealed? && wrapped[0].kek == kek then Some(wrapped[0].text) else None
  }

  // ----- state -----

  datatype Envelope = Envelope(salt: Octets, params: Octets, master: Octets)

  datatype PinMaterial = PinMaterial(wrapped: Octets, salt: Octets, params: Octets)

  /** The keys in the memory of one process. */
  datatype Keys = Keys(master: Option<Octets>, vaults: map<VaultId, Octets>, pin: Option<PinMaterial>)

  /** One client: its session, the envelope it knows, and the copy of it that it keeps on disk. */
  datatype Device = Device(keys: Keys, envelope: Option<Envelope>, cached: Option<Envelope>)

  datatype CodeRecord = CodeRecord(wrapped: Octets, used: bool)

  /** The server side of an account; recovery codes are found by their digest, which stands for the code itself. */
  datatype Account = Account(envelope: Option<Envelope>, codes: map<string, CodeRecord>, vaults: map<VaultId, Octets>)

  /** What becomes of a call: it never arrives, its answer is lost, or all goes well. */
  datatype Fate = Unreachable | AnswerLost | Delivered

  datatype Failure =
    | EmptyPassphrase | NotSetUp | WrongPassphrase | Locked | PinTooShort | EmptyPin | PinNotSet | InvalidPin
    | Remote | UnknownCode | InvalidCode

  datatype Outcome<+T> = Done(value: T) | Failed(why: Failure)

  const MIN_PIN_LENGTH := 4
  const RECOVERY_CODE_COUNT := 5

  /** The parameters that every new salt is used with. */
  const DEFAULT_PARAMS: Octets := [Plain(1)]

  /** The random values that one call draws. */
  datatype Random = Random(key: Octets, salt: Octets, nonce: nat)

  /** A session with an empty key counts as locked. */
  function Held(master: Octets): Option<Octets> {
    if master == [] then None else Some(master)
  }

  /** An envelope with an empty part counts as none. */
  function Known(e: Option<Envelope>): Option<Envelope> {
    if e.Some? && e.value.salt != [] && e.value.params != [] && e.value.master != [] then e else None
  }

  // ----- operations of a client -----

  function SetupEncryption(d: Device, a: Account, pass: string, r: Random, fate: Fate)
    : (Device, Account, Outcome<Unit>)
  {
    if pass == "" then (d, a, Failed(EmptyPassphrase))
    else
      var master := if d.keys.master.Some? then d.keys.master.value else r.key;
      var envelope :=
        Envelope(r.salt, DEFAULT_PARAMS, Wrap(master, FromPassphrase(pass, r.salt, DEFAULT_PARAMS), r.nonce));
      var a' := if fate == Unreachable then a else a.(envelope := Some(envelope));
      if fate != Delivered then (d, a', Failed(Remote))
      else (FetchedEnvelope(d.(keys := d.keys.(master := Held(master))), Some(envelope)), a', Done(Unit))
  }

  /** What is known is kept on disk as well; knowing nothing leaves the disk alone. */
  function FetchedEnvelope(d: Device, e: Option<Envelope>): Device {
    d.(envelope := Known(e), cached := if Known(e).Some? then Known(e) else d.cached)
  }

  /** Login and refresh bring the envelope of the account, if it has one. */
  function FetchEnvelope(d: Device, a: Account, fate: Fate): (Device, Outcome<Unit>) {
    if fate != Delivered then (d, Failed(Remote))
    else (FetchedEnvelope(d, a.envelope), Done(Unit))
  }

  function LoadCached(d: Device): (Device, Outcome<Unit>) {
    if Known(d.cached).None? then (d, Failed(NotSetUp)) else (d.(envelope := d.cached), Done(Unit))
  }

  function Unlock(d: Device, pass: string): (Device, Outcome<Unit>) {
    if pass == "" then (d, Failed(EmptyPassphrase))
    else if d.envelope.None? then (d, Failed(NotSetUp))
    else
      var e := d.envelope.value;
      match Unwrap(e.master, FromPassphrase(pass, e.salt, e.params))
      case None => (d, Failed(WrongPassphrase))
      case Some(master) => (d.(keys := d.keys.(master := Held(master))), Done(Unit))
  }

  function SetPin(k: Keys, pin: string, r: Random): (Keys, Outcome<Unit>) {
    if |pin| < MIN_PIN_LENGTH then (k, Failed(PinTooShort))
    else if k.master.None? then (k, Failed(Locked))
    else
      var wrapped := Wrap(k.master.value, FromPin(pin, r.salt, DEFAULT_PARAMS), r.nonce);
      (k.(pin := Some(PinMaterial(wrapped, r.salt, DEFAULT_PARAMS))), Done(Unit))
  }

  function UnlockWithPin(k: Keys, pin: string): (Keys, Outcome<Unit>) {
    if pin == "" then (k, Failed(EmptyPin))
    else if k.pin.None? then (k, Failed(PinNotSet))
    else
      var p := k.pin.value;
      match Unwrap(p.wrapped, FromPin(pin, p.salt, p.params))
      case None => (k, Failed(InvalidPin))
      case Some(master) => (k.(master := Held(master)), Done(Unit))
  }

  /** The server drops the old codes before it stores the new ones; a code that comes twice replaces itself. */
  function StoreCodes(master: Octets, codes: seq<string>, nonces: seq<nat>): map<string, CodeRecord>
    requires |codes| == |nonces|
    decreases |codes|
  {
    if codes == [] then map[]
    else
      var n := |codes| - 1;
      StoreCodes(master, codes[..n], nonces[..n])
        [codes[n] := CodeRecord(Wrap(master, FromCode(codes[n]), nonces[n]), false)]
  }

  /** stored says how many codes the server got to store before it failed; it matters only if the call fails midway. */
  function GenerateRecoveryCodes(d: Device, a: Account, codes: seq<string>, nonces: seq<nat>, fate: Fate, stored: nat)
    : (Account, Outcome<seq<string>>)
    requires |codes| == |nonces| == RECOVERY_CODE_COUNT && stored <= RECOVERY_CODE_COUNT
  {
    if d.keys.master.None? then (a, Failed(Locked))
    else
      var n := if fate == Delivered then |codes| else stored;
      var a' := if fate == Unreachable then a
                else a.(codes := StoreCodes(d.keys.master.value, codes[..n], nonces[..n]));
      if fate != Delivered then (a', Failed(Remote))
      else (a', Done(seq(|codes|, i requires 0 <= i < |codes| => RecoveryCode.Format(codes[i]))))
  }

  /** A failure to mark the code as used is ignored. */
  function RecoverWithCode(d: Device, a: Account, typed: string, fate: Fate, markFate: Fate)
    : (Device, Account, Outcome<Unit>)
  {
    var code := RecoveryCode.Normalize(typed);
    if fate != Delivered then (d, a, Failed(Remote))
    else if code !in a.codes || a.codes[code].used then (d, a, Failed(UnknownCode))
    else
      match Unwrap(a.codes[code].wrapped, FromCode(code))
      case None => (d, a, Failed(InvalidCode))
      case Some(master) =>
        var a' := if markFate == Unreachable then a else a.(codes := a.codes[code := a.codes[code].(used := true)]);
        (d.(keys := d.keys.(master := Held(master))), a', Done(Unit))
  }

  /** Locking for good forgets everything; the soft lock keeps what a PIN needs. */
  function Lock(k: Keys): Keys {
    Keys(None, map[], None)
  }

  function SoftLock(k: Keys): Keys {
    Keys(None, map[], k.pin)
  }

  function CreateVault(d: Device, a: Account, id: VaultId, r: Random, fate: Fate): (Device, Account, Outcome<Unit>) {
    if d.keys.master.None? then (d, a, Failed(Locked))
    else if id in a.vaults then (d, a, Failed(Remote))
    else
      var wrapped := Wrap(r.key, FromMaster(d.keys.master.value), r.nonce);
      var a' := if fate == Unreachable then a else a.(vaults := a.vaults[id := wrapped]);
      if fate != Delivered then (d, a', Failed(Remote))
      else (d.(keys := d.keys.(vaults := d.keys.vaults[id := r.key])), a', Done(Unit))
  }

  /** The vaults whose keys the MasterKey unwraps; the others are skipped. */
  function Unwrapped(vaults: map<VaultId, Octets>, master: Octets): map<VaultId, Octets> {
    map id | id in vaults && Unwrap(vaults[id], FromMaster(master)).Some?
      :: Unwrap(vaults[id], FromMaster(master)).value
  }

  function ListVaults(d: Device, a: Account, fate: Fate): (Device, Outcome<set<VaultId>>) {
    if d.keys.master.None? then (d, Failed(Locked))
    else if fate != Delivered then (d, Failed(Remote))
    else
      var found := Unwrapped(a.vaults, d.keys.master.value);
      (d.(keys := d.keys.(vaults := d.keys.vaults + found)), Done(found.Keys))
  }
}

/** Who gets in: a locked client is opened by a right credential and by nothing else, and every refusal is told. */
module KeyAccess {
  import opened Types
  import opened KeyModel
  import opened KeyLaws
  import RecoveryCode

  // ----- credentials -----

  predicate MadeWith(e: Option<Envelope>, pass: string) {
    && e.Some? && pass != "" && |e.value.master| == 1 && e.value.master[0].Sealed?
    && e.value.master[0].kek == FromPassphrase(pass, e.value.salt, e.value.params)
  }

  predicate PinnedWith(p: Option<PinMaterial>, pin: string) {
    && p.Some? && pin != "" && |p.value.wrapped| == 1 && p.value.wrapped[0].Sealed?
    && p.value.wrapped[0].kek == FromPin(pin, p.value.salt, p.value.params)
  }

  predicate Unused(a: Account, code: string) {
    code in a.codes && !a.codes[code].used
  }

  /** The passphrase of the envelope in memory, the PIN that was set, or an unused code that reaches the server. */
  predicate RightCredential(d: Device, a: Account, m: Move) {
    match m
    case UnlockBy(pass) => MadeWith(d.envelope, pass)
    case PinUnlock(pin) => PinnedWith(d.keys.pin, pin)
    case Recover(typed, fate, _) => fate == Delivered && Unused(a, RecoveryCode.Normalize(typed))
    case _ => false
  }

  // ----- what a client is told -----

  function Told<T>(o: Outcome<T>): Outcome<Unit> {
    match o
    case Done(_) => Done(Unit)
    case Failed(why) => Failed(why)
  }

  function Answer(d: Device, a: Account, m: Move): Outcome<Unit> {
    match m
    case Setup(pass, r, fate) => SetupEncryption(d, a, pass, r, fate).2
    case Fetch(fate) => FetchEnvelope(d, a, fate).1
    case Load => LoadCached(d).1
    case UnlockBy(pass) => Unlock(d, pass).1
    case PinSet(pin, r) => SetPin(d.keys, pin, r).1
    case PinUnlock(pin) => UnlockWithPin(d.keys, pin).1
    case Generate(codes, nonces, fate, stored) =>
      if |codes| == |nonces| == RECOVERY_CODE_COUNT && stored <= RECOVERY_CODE_COUNT
      then Told(GenerateRecoveryCodes(d, a, codes, nonces, fate, stored).1) else Done(Unit)
    case Recover(typed, fate, markFate) => RecoverWithCode(d, a, typed, fate, markFate).2
    case Create(id, r, fate) => CreateVault(d, a, id, r, fate).2
    case List(fate) => Told(ListVaults(d, a, fate).1)
    case FullLock | AutoLock | Restart => Done(Unit)
  }

  /** The server has heard of the move although its answer was lost. */
  predicate AnswerIsLost(m: Move) {
    (m.Setup? || m.Generate? || m.Create?) && m.fate == AnswerLost
  }

  /** A refusal changes nothing anywhere, unless only its answer was lost; and then nothing on the client. */
  lemma RefusalChangesNothing(d: Device, a: Account, m: Move)
    requires Answer(d, a, m).Failed?
    ensures Apply(d, a, m).0 == d && (AnswerIsLost(m) || Apply(d, a, m).1 == a)
  {
  }

  /** What each move needs to succeed. */
  predicate Granted(d: Device, a: Account, m: Move) {
    match m
    case Setup(pass, _, fate) => pass != "" && fate == Delivered
    case Fetch(fate) => fate == Delivered
    case Load => d.cached.Some?
    case PinSet(pin, _) => |pin| >= MIN_PIN_LENGTH && d.keys.master.Some?
    case Generate(codes, nonces, fate, stored) =>
      |codes| == |nonces| == RECOVERY_CODE_COUNT && stored <= RECOVERY_CODE_COUNT ==>
        d.keys.master.Some? && fate == Delivered
    case Create(id, _, fate) => d.keys.master.Some? && id !in a.vaults && fate == Delivered
    case List(fate) => d.keys.master.Some? && fate == Delivered
    case FullLock | AutoLock | Restart => true
    case _ => RightCredential(d, a, m)
  }

  /** In every state that a run reaches, a move succeeds if and only if it is granted. */
  lemma SucceedsIff(d: Device, a: Account, m: Move, master: Octets)
    requires AccountOk(a, master) && DeviceOk(d, a, master)
    ensures Answer(d, a, m).Done? <==> Granted(d, a, m)
  {
  }

  /** What a reason says about the state in which it is given. */
  predicate Explains(d: Device, a: Account, m: Move, why: Failure) {
    match why
    case EmptyPassphrase => (m.Setup? || m.UnlockBy?) && m.pass == ""
    case NotSetUp => (m.UnlockBy? && d.envelope.None?) || (m.Load? && d.cached.None?)
    case WrongPassphrase => m.UnlockBy? && m.pass != "" && d.envelope.Some? && !MadeWith(d.envelope, m.pass)
    case Locked => (m.PinSet? || m.Generate? || m.Create? || m.List?) && d.keys.master.None?
    case PinTooShort => m.PinSet? && |m.pin| < MIN_PIN_LENGTH
    case EmptyPin => m.PinUnlock? && m.pin == ""
    case PinNotSet => m.PinUnlock? && d.keys.pin.None?
    case InvalidPin => m.PinUnlock? && m.pin != "" && d.keys.pin.Some? && !PinnedWith(d.keys.pin, m.pin)
    case UnknownCode => m.Recover? && !Unused(a, RecoveryCode.Normalize(m.typed))
    case InvalidCode => false
    case Remote =>
      || (m.Create? && m.id in a.vaults)
      || ((m.Setup? || m.Fetch? || m.Generate? || m.Recover? || m.Create? || m.List?) && m.fate != Delivered)
  }

  /** The reason of a refusal is true. In particular a code that the server finds is never invalid. */
  lemma ReasonsAreTrue(d: Device, a: Account, m: Move, master: Octets)
    requires AccountOk(a, master) && DeviceOk(d, a, master) && Answer(d, a, m).Failed?
    ensures Explains(d, a, m, Answer(d, a, m).why)
  {
  }

  // ----- the way in -----

  /** A credential opens a locked client, to the one MasterKey, if and only if it is right. */
  lemma OpensIff(s: System, who: nat, m: Move, master: Octets)
    requires Keeps(s, master) && who in s.devices && s.devices[who].keys.master.None? && Disciplined(s, (who, m))
    ensures var after := Step(s, (who, m)).devices[who].keys.master;
            if RightCredential(s.devices[who], s.account, m) then after == Some(master) else after == None
  {
    assert DeviceOk(s.devices[who], s.account, master);
  }

  /** A client that holds no key of any kind. */
  predicate Shut(s: System, who: nat) {
    who in s.devices && s.devices[who].keys.master.None? && s.devices[who].keys.vaults == map[]
  }

  /** No turn of this client in the run brings a right credential, or sets up the encryption. */
  predicate NoneOpens(s: System, turns: seq<Turn>, who: nat)
    decreases |turns|
  {
    || turns == []
    || (&& (turns[0].0 == who && who in s.devices ==>
              !turns[0].1.Setup? && !RightCredential(s.devices[who], s.account, turns[0].1))
        && NoneOpens(Step(s, turns[0]), turns[1..], who))
  }

  lemma StepLeavesShut(s: System, t: Turn, who: nat)
    requires Shut(s, who)
    requires t.0 == who ==> !t.1.Setup? && !RightCredential(s.devices[who], s.account, t.1)
    ensures Shut(Step(s, t), who)
    ensures Step(s, t).devices[who].keys.pin in {None, s.devices[who].keys.pin}
  {
  }

  /** Whatever it and the others do, a client that is shut stays so until it is given a right credential. */
  lemma {:induction false} StaysShut(s: System, turns: seq<Turn>, who: nat)
    requires Shut(s, who) && NoneOpens(s, turns, who)
    ensures Shut(Run(s, turns), who)
    ensures Run(s, turns).devices[who].keys.pin in {None, s.devices[who].keys.pin}
    decreases |turns|
  {
    if turns != [] {
      StepLeavesShut(s, turns[0], who);
      StaysShut(Step(s, turns[0]), turns[1..], who);
    }
  }

  /** Any lock and any restart shuts the client; after a full lock or a restart no PIN opens it either. */
  lemma LockShuts(s: System, who: nat, m: Move, turns: seq<Turn>, pin: string)
    requires who in s.devices && (m.FullLock? || m.AutoLock? || m.Restart?)
    requires NoneOpens(Step(s, (who, m)), turns, who)
    ensures var end := Run(Step(s, (who, m)), turns);
            Shut(end, who) && (!m.AutoLock? ==> !RightCredential(end.devices[who], end.account, PinUnlock(pin)))
  {
    StaysShut(Step(s, (who, m)), turns, who);
  }

  // ----- without a network -----

  /** The turns that can change what a client keeps on disk. */
  predicate SparesDisk(t: Turn, who: nat) {
    t.0 == who ==> !t.1.Setup? && !t.1.Fetch?
  }

  predicate AllSpareDisk(turns: seq<Turn>, who: nat) {
    forall t :: t in turns ==> SparesDisk(t, who)
  }

  lemma {:induction false} DiskSurvives(s: System, turns: seq<Turn>, who: nat)
    requires who in s.devices && AllSpareDisk(turns, who)
    ensures who in Run(s, turns).devices && Run(s, turns).devices[who].cached == s.devices[who].cached
    decreases |turns|
  {
    if turns != [] {
      assert SparesDisk(turns[0], who);
      DiskSurvives(Step(s, turns[0]), turns[1..], who);
    }
  }

  /**
   * Once a client has set up or fetched the envelope, a new process unlocks from disk alone, with the passphrase of
   * that envelope and with no other, whatever happened in between and whatever the account holds by then.
   */
  lemma DiskUnlocks(s: System, who: nat, first: Move, turns: seq<Turn>, pass: string, tried: string, master: Octets)
    requires Keeps(s, master) && who in s.devices && Disciplined(s, (who, first))
    requires (first.Fetch? || (first.Setup? && first.pass != "")) && first.fate == Delivered
    requires MadeWith(Step(s, (who, first)).account.envelope, pass)
    requires DisciplinedRun(Step(s, (who, first)), turns) && AllSpareDisk(turns, who)
    ensures var end := Run(Step(s, (who, first)), turns);
            && who in end.devices
            && var loaded := LoadCached(Restarted(end.devices[who]));
               && loaded.1 == Done(Unit)
               && Unlock(loaded.0, tried).1.Done? == (tried == pass)
               && (tried == pass ==> Unlock(loaded.0, tried).0.keys.master == Some(master))
  {
    var s1 := Step(s, (who, first));
    StepKeeps(s, (who, first), master);
    assert DeviceOk(s1.devices[who], s1.account, master);
    assert s1.devices[who].cached == s1.account.envelope;
    DiskSurvives(s1, turns, who);
  }

  // ----- new codes -----

  lemma {:induction false} StoredAreNew(master: Octets, codes: seq<string>, nonces: seq<nat>)
    requires |codes| == |nonces|
    ensures StoreCodes(master, codes, nonces).Keys == set code | code in codes
    decreases |codes|
  {
    if codes != [] {
      var n := |codes| - 1;
      StoredAreNew(master, codes[..n], nonces[..n]);
      assert codes == codes[..n] + [codes[n]];
    }
  }

  /** New recovery codes replace all earlier ones: exactly the new ones are unused afterwards. */
  lemma NewCodesReplaceOld(
      d: Device, a: Account, codes: seq<string>, nonces: seq<nat>, stored: nat, code: string)
    requires |codes| == |nonces| == RECOVERY_CODE_COUNT && stored <= RECOVERY_CODE_COUNT && d.keys.master.Some?
    ensures Unused(GenerateRecoveryCodes(d, a, codes, nonces, Delivered, stored).0, code) <==> code in codes
  {
    assert codes[..|codes|] == codes && nonces[..|codes|] == nonces;
    StoredAreNew(d.keys.master.value, codes, nonces);
    StoredCodesOk(d.keys.master.value, codes, nonces);
  }
}

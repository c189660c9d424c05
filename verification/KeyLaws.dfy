/** One MasterKey for good: what every run of several clients on one account keeps. */
module KeyLaws {
  import opened Types
  import opened KeyModel
  import RecoveryCode

  // ----- runs -----

  datatype Move =
    | Setup(pass: string, r: Random, fate: Fate)
    | Fetch(fate: Fate)
    | Load
    | UnlockBy(pass: string)
    | PinSet(pin: string, r: Random)
    | PinUnlock(pin: string)
    | Generate(codes: seq<string>, nonces: seq<nat>, fate: Fate, stored: nat)
    | Recover(typed: string, fate: Fate, markFate: Fate)
    | FullLock
    | AutoLock
    | Create(id: VaultId, r: Random, fate: Fate)
    | List(fate: Fate)
    | Restart

  /** A new process starts with an empty session and an empty memory; only the disk stays. */
  function Restarted(d: Device): Device {
    Device(Keys(None, map[], None), None, d.cached)
  }

  function Apply(d: Device, a: Account, m: Move): (Device, Account) {
    match m
    case Setup(pass, r, fate) => var (d', a', _) := SetupEncryption(d, a, pass, r, fate); (d', a')
    case Fetch(fate) => (FetchEnvelope(d, a, fate).0, a)
    case Load => (LoadCached(d).0, a)
    case UnlockBy(pass) => (Unlock(d, pass).0, a)
    case PinSet(pin, r) => (d.(keys := SetPin(d.keys, pin, r).0), a)
    case PinUnlock(pin) => (d.(keys := UnlockWithPin(d.keys, pin).0), a)
    case Generate(codes, nonces, fate, stored) =>
      if |codes| == |nonces| == RECOVERY_CODE_COUNT && stored <= RECOVERY_CODE_COUNT
      then (d, GenerateRecoveryCodes(d, a, codes, nonces, fate, stored).0) else (d, a)
    case Recover(typed, fate, markFate) => var (d', a', _) := RecoverWithCode(d, a, typed, fate, markFate); (d', a')
    case FullLock => (d.(keys := Lock(d.keys)), a)
    case AutoLock => (d.(keys := SoftLock(d.keys)), a)
    case Create(id, r, fate) => var (d', a', _) := CreateVault(d, a, id, r, fate); (d', a')
    case List(fate) => (ListVaults(d, a, fate).0, a)
    case Restart => (Restarted(d), a)
  }

  datatype System = System(devices: map<nat, Device>, account: Account)

  /** The client that moves, and what it does. */
  type Turn = (nat, Move)

  function Step(s: System, t: Turn): System {
    if t.0 !in s.devices then s
    else
      var (d, a) := Apply(s.devices[t.0], s.account, t.1);
      System(s.devices[t.0 := d], a)
  }

  function Run(s: System, turns: seq<Turn>): System
    decreases |turns|
  {
    if turns == [] then s else Run(Step(s, turns[0]), turns[1..])
  }

  /** Random values are never empty. */
  predicate Drawn(r: Random) {
    r.key != [] && r.salt != []
  }

  /** On an account that is set up, encryption is set up again only by a client that is unlocked. */
  predicate Disciplined(s: System, t: Turn) {
    t.1.Setup? && t.0 in s.devices ==>
      Drawn(t.1.r) && (s.account.envelope.Some? ==> s.devices[t.0].keys.master.Some?)
  }

  predicate DisciplinedRun(s: System, turns: seq<Turn>)
    decreases |turns|
  {
    turns == [] || (Disciplined(s, turns[0]) && DisciplinedRun(Step(s, turns[0]), turns[1..]))
  }

  // ----- the invariant -----

  predicate SealsMaster(w: Octets, master: Octets) {
    |w| == 1 && w[0].Sealed? && w[0].text == master
  }

  /** The envelope opens to the MasterKey, with the salt and the parameters that lie beside it. */
  predicate EnvelopeOk(e: Option<Envelope>, master: Octets) {
    e.Some? ==>
      && Known(e) == e
      && SealsMaster(e.value.master, master)
      && e.value.master[0].kek.FromPassphrase?
      && e.value.master[0].kek.salt == e.value.salt && e.value.master[0].kek.params == e.value.params
      && e.value.master[0].kek.pass != ""
  }

  predicate PinOk(p: Option<PinMaterial>, master: Octets) {
    p.Some? ==>
      && SealsMaster(p.value.wrapped, master)
      && p.value.wrapped[0].kek.FromPin?
      && p.value.wrapped[0].kek.pinSalt == p.value.salt && p.value.wrapped[0].kek.pinParams == p.value.params
  }

  predicate VaultOk(w: Octets, master: Octets) {
    |w| == 1 && w[0].Sealed? && w[0].kek == FromMaster(master)
  }

  ghost predicate CodesOk(codes: map<string, CodeRecord>, master: Octets) {
    forall code :: code in codes ==>
      SealsMaster(codes[code].wrapped, master) && codes[code].wrapped[0].kek == FromCode(code)
  }

  ghost predicate AccountOk(a: Account, master: Octets) {
    && a.envelope.Some? && EnvelopeOk(a.envelope, master)
    && CodesOk(a.codes, master)
    && (forall id :: id in a.vaults ==> VaultOk(a.vaults[id], master))
  }

  ghost predicate KeysOk(k: Keys, a: Account, master: Octets) {
    && (k.master.Some? ==> k.master.value == master)
    && PinOk(k.pin, master)
    && (forall id :: id in k.vaults ==>
          id in a.vaults && VaultOk(a.vaults[id], master) && a.vaults[id][0].text == k.vaults[id])
  }

  ghost predicate DeviceOk(d: Device, a: Account, master: Octets) {
    EnvelopeOk(d.envelope, master) && EnvelopeOk(d.cached, master) && KeysOk(d.keys, a, master)
  }

  /** Everything that anyone holds belongs to this MasterKey. */
  ghost predicate Keeps(s: System, master: Octets) {
    && master != []
    && AccountOk(s.account, master)
    && (forall who :: who in s.devices ==> DeviceOk(s.devices[who], s.account, master))
  }

  // ----- every move keeps it -----

  lemma {:induction false} StoredCodesOk(master: Octets, codes: seq<string>, nonces: seq<nat>)
    requires |codes| == |nonces|
    ensures CodesOk(StoreCodes(master, codes, nonces), master)
    ensures forall code :: code in codes ==>
      code in StoreCodes(master, codes, nonces) && !StoreCodes(master, codes, nonces)[code].used
    decreases |codes|
  {
    if codes != [] {
      var n := |codes| - 1;
      StoredCodesOk(master, codes[..n], nonces[..n]);
      assert codes == codes[..n] + [codes[n]];
    }
  }

  /** Vaults stay as they were created. */
  predicate Grows(a: Account, a': Account) {
    forall id :: id in a.vaults ==> id in a'.vaults && a'.vaults[id] == a.vaults[id]
  }

  lemma VaultsNeverChange(d: Device, a: Account, m: Move)
    ensures Grows(a, Apply(d, a, m).1)
  {
  }

  lemma SetupKeeps(d: Device, a: Account, master: Octets, pass: string, r: Random, fate: Fate)
    requires AccountOk(a, master) && DeviceOk(d, a, master) && master != []
    requires Drawn(r) && d.keys.master.Some?
    ensures var (d', a', _) := SetupEncryption(d, a, pass, r, fate);
            AccountOk(a', master) && DeviceOk(d', a', master)
  {
  }

  lemma RecoverKeeps(d: Device, a: Account, master: Octets, typed: string, fate: Fate, markFate: Fate)
    requires AccountOk(a, master) && DeviceOk(d, a, master) && master != []
    ensures var (d', a', _) := RecoverWithCode(d, a, typed, fate, markFate);
            AccountOk(a', master) && DeviceOk(d', a', master)
  {
  }

  lemma CreateKeepsAccount(d: Device, a: Account, master: Octets, m: Move)
    requires AccountOk(a, master) && KeysOk(d.keys, a, master) && m.Create?
    ensures AccountOk(Apply(d, a, m).1, master)
  {
  }

  lemma CreateKeepsDevice(d: Device, a: Account, master: Octets, m: Move)
    requires DeviceOk(d, a, master) && m.Create?
    ensures DeviceOk(Apply(d, a, m).0, Apply(d, a, m).1, master)
  {
    VaultsNeverChange(d, a, m);
  }

  lemma CreateMoveKeeps(d: Device, a: Account, master: Octets, m: Move)
    requires AccountOk(a, master) && DeviceOk(d, a, master) && m.Create?
    ensures var (d', a') := Apply(d, a, m); AccountOk(a', master) && DeviceOk(d', a', master)
  {
    CreateKeepsAccount(d, a, master, m);
    CreateKeepsDevice(d, a, master, m);
  }

  lemma ListMoveKeeps(d: Device, a: Account, master: Octets, m: Move)
    requires AccountOk(a, master) && DeviceOk(d, a, master) && master != [] && m.List?
    ensures var (d', a') := Apply(d, a, m); AccountOk(a', master) && DeviceOk(d', a', master)
  {
  }

  lemma ApplyKeeps(d: Device, a: Account, master: Octets, m: Move)
    requires AccountOk(a, master) && DeviceOk(d, a, master) && master != []
    requires m.Setup? ==> Drawn(m.r) && d.keys.master.Some?
    ensures var (d', a') := Apply(d, a, m); AccountOk(a', master) && DeviceOk(d', a', master)
  {
    match m
    case Setup(pass, r, fate) => SetupKeeps(d, a, master, pass, r, fate);
    case Recover(typed, fate, markFate) => RecoverKeeps(d, a, master, typed, fate, markFate);
    case Generate(codes, nonces, fate, stored) =>
      if d.keys.master.Some? && |codes| == |nonces| == RECOVERY_CODE_COUNT && stored <= RECOVERY_CODE_COUNT {
        var n := if fate == Delivered then |codes| else stored;
        StoredCodesOk(master, codes[..n], nonces[..n]);
      }
    case Create(_, _, _) => CreateMoveKeeps(d, a, master, m);
    case List(_) => ListMoveKeeps(d, a, master, m);
    case _ =>
  }

  lemma StepKeeps(s: System, t: Turn, master: Octets)
    requires Keeps(s, master) && Disciplined(s, t)
    ensures Keeps(Step(s, t), master)
  {
    if t.0 in s.devices {
      ApplyKeeps(s.devices[t.0], s.account, master, t.1);
      VaultsNeverChange(s.devices[t.0], s.account, t.1);
    }
  }

  /**
   * Over every disciplined run, whoever unlocks in whatever way holds the same MasterKey, and every vault opens with
   * it.
   */
  lemma {:induction false} RunKeeps(s: System, turns: seq<Turn>, master: Octets)
    requires Keeps(s, master) && DisciplinedRun(s, turns)
    ensures Keeps(Run(s, turns), master)
    decreases |turns|
  {
    if turns != [] {
      StepKeeps(s, turns[0], master);
      RunKeeps(Step(s, turns[0]), turns[1..], master);
    }
  }

  // ----- from the registration on -----

  predicate BlankDevice(d: Device) {
    d == Device(Keys(None, map[], None), None, None)
  }

  predicate BlankAccount(a: Account) {
    a == Account(None, map[], map[])
  }

  predicate Blank(s: System) {
    BlankAccount(s.account) && forall who :: who in s.devices ==> BlankDevice(s.devices[who])
  }

  /**
   * On a new account only setting up encryption gets anywhere, and that fixes the MasterKey even if its answer is lost.
   */
  lemma BlankStep(s: System, t: Turn)
    requires Blank(s) && Disciplined(s, t)
    ensures Blank(Step(s, t)) || (t.1.Setup? && Keeps(Step(s, t), t.1.r.key))
  {
    if t.0 in s.devices {
      match t.1
      case Setup(pass, r, fate) =>
        if pass != "" && fate != Unreachable {
          assert Step(s, t).account.envelope.Some?;
        }
      case _ =>
        assert Apply(s.devices[t.0], s.account, t.1) == (s.devices[t.0], s.account);
    }
  }

  lemma {:induction false} RunFromRegistration(s: System, turns: seq<Turn>)
    requires Blank(s) && DisciplinedRun(s, turns)
    ensures Blank(Run(s, turns)) || exists master :: Keeps(Run(s, turns), master)
    decreases |turns|
  {
    if turns != [] {
      BlankStep(s, turns[0]);
      if Blank(Step(s, turns[0])) {
        RunFromRegistration(Step(s, turns[0]), turns[1..]);
      } else {
        RunKeeps(Step(s, turns[0]), turns[1..], turns[0].1.r.key);
      }
    }
  }

  // ----- the three ways back in -----

  /** A passphrase opens exactly the envelope that was made with it, and then to the MasterKey. */
  lemma UnlockRestores(s: System, who: nat, pass: string, master: Octets)
    requires Keeps(s, master) && who in s.devices
    ensures var d := s.devices[who];
            var (d', r) := Unlock(d, pass);
            && (r.Done? <==> d.envelope.Some? && d.envelope.value.master[0].kek.pass == pass)
            && (r.Done? ==> d'.keys.master == Some(master))
            && (r.Failed? ==> d' == d)
  {
    assert DeviceOk(s.devices[who], s.account, master);
  }

  /**
   * A new passphrase, even one whose acknowledgement was lost, works on every client that fetches the envelope, and the
   * old one works there no more.
   */
  lemma NewPassphraseReachesOthers(
      s: System, changer: nat, other: nat, pass: string, tried: string, r: Random, fate: Fate, master: Octets)
    requires Keeps(s, master) && changer in s.devices && other in s.devices && pass != "" && Drawn(r)
    requires s.devices[changer].keys.master.Some? && fate != Unreachable
    ensures var s' := Run(s, [(changer, Setup(pass, r, fate)), (other, Fetch(Delivered))]);
            && other in s'.devices
            && var (d, result) := Unlock(s'.devices[other], tried);
               if tried == pass then result == Done(Unit) && d.keys.master == Some(master)
               else result.Failed? && d == s'.devices[other]
  {
    var t0, t1 := (changer, Setup(pass, r, fate)), (other, Fetch(Delivered));
    var s1 := Step(s, t0);
    StepKeeps(s, t0, master);
    var s2 := Step(s1, t1);
    StepKeeps(s1, t1, master);
    var turns: seq<Turn> := [t0, t1];
    assert turns[1..] == [t1];
    assert Run(s, turns) == Run(s1, turns[1..]) == Run(s2, turns[1..][1..]) == s2;
    assert s1.account.envelope.value.master[0].kek.pass == pass;
    UnlockRestores(s2, other, tried, master);
  }

  /** The turns that can take a client's PIN away or replace it. */
  predicate SparesPin(t: Turn, who: nat) {
    t.0 == who ==> !t.1.PinSet? && !t.1.FullLock? && !t.1.Restart?
  }

  predicate AllSparePin(turns: seq<Turn>, who: nat) {
    forall t :: t in turns ==> SparesPin(t, who)
  }

  lemma {:induction false} PinSurvives(s: System, turns: seq<Turn>, who: nat)
    requires who in s.devices && AllSparePin(turns, who)
    ensures who in Run(s, turns).devices && Run(s, turns).devices[who].keys.pin == s.devices[who].keys.pin
    decreases |turns|
  {
    if turns != [] {
      assert SparesPin(turns[0], who);
      PinSurvives(Step(s, turns[0]), turns[1..], who);
    }
  }

  /**
   * A PIN, once set, unlocks to the same MasterKey after any number of automatic locks and whatever else happens, and
   * no other PIN does.
   */
  lemma PinRestores(s: System, who: nat, pin: string, r: Random, turns: seq<Turn>, tried: string, master: Octets)
    requires Keeps(s, master) && who in s.devices && s.devices[who].keys.master.Some? && |pin| >= MIN_PIN_LENGTH
    requires DisciplinedRun(Step(s, (who, PinSet(pin, r))), turns) && AllSparePin(turns, who)
    ensures var s2 := Run(Step(s, (who, PinSet(pin, r))), turns);
            && who in s2.devices
            && var (k, result) := UnlockWithPin(s2.devices[who].keys, tried);
               if tried == pin then result == Done(Unit) && k.master == Some(master)
               else result.Failed? && k == s2.devices[who].keys
  {
    PinSurvives(Step(s, (who, PinSet(pin, r))), turns, who);
  }

  // ----- recovery codes -----

  /** The turns that can use a code up or replace the set of codes. */
  predicate SparesCode(t: Turn, code: string) {
    !t.1.Generate? && (t.1.Recover? ==> RecoveryCode.Normalize(t.1.typed) != code)
  }

  predicate AllSpareCode(turns: seq<Turn>, code: string) {
    forall t :: t in turns ==> SparesCode(t, code)
  }

  predicate Fresh(s: System, code: string) {
    code in s.account.codes && !s.account.codes[code].used
  }

  lemma {:induction false} CodeSurvives(s: System, turns: seq<Turn>, code: string)
    requires Fresh(s, code) && AllSpareCode(turns, code)
    ensures Fresh(Run(s, turns), code)
    decreases |turns|
  {
    if turns != [] {
      assert SparesCode(turns[0], code);
      CodeSurvives(Step(s, turns[0]), turns[1..], code);
    }
  }

  /** An unused code recovers the MasterKey on any client, and once it is marked it never does again. */
  lemma FreshCodeRecovers(s: System, who: nat, typed: string, markFate: Fate, master: Octets)
    requires Keeps(s, master) && who in s.devices && Fresh(s, RecoveryCode.Normalize(typed))
    ensures var (d, a, result) := RecoverWithCode(s.devices[who], s.account, typed, Delivered, markFate);
            && result == Done(Unit) && d.keys.master == Some(master)
            && (markFate != Unreachable ==>
                  forall d2: Device ::
                    RecoverWithCode(d2, a, typed, Delivered, markFate) == (d2, a, Failed(UnknownCode)))
  {
  }

  /** Each of the codes shown to the owner recovers the MasterKey, whatever happened in between. */
  lemma ShownCodesRecover(s: System, who: nat, codes: seq<string>, nonces: seq<nat>, stored: nat, turns: seq<Turn>,
      i: nat, later: nat, markFate: Fate, master: Octets)
    requires Keeps(s, master) && who in s.devices && s.devices[who].keys.master.Some?
    requires |codes| == |nonces| == RECOVERY_CODE_COUNT && stored <= RECOVERY_CODE_COUNT && i < |codes|
    requires RecoveryCode.HexCode(codes[i])
    requires var s1 := Step(s, (who, Generate(codes, nonces, Delivered, stored)));
             DisciplinedRun(s1, turns) && later in Run(s1, turns).devices && AllSpareCode(turns, codes[i])
    ensures var shown := GenerateRecoveryCodes(s.devices[who], s.account, codes, nonces, Delivered, stored).1;
            var s2 := Run(Step(s, (who, Generate(codes, nonces, Delivered, stored))), turns);
            && shown.Done? && |shown.value| == |codes|
            && var (d, _, result) :=
                   RecoverWithCode(s2.devices[later], s2.account, shown.value[i], Delivered, markFate);
               result == Done(Unit) && d.keys.master == Some(master)
  {
    var t := (who, Generate(codes, nonces, Delivered, stored));
    StepKeeps(s, t, master);
    StoredCodesOk(master, codes[..5], nonces[..5]);
    assert codes[..5] == codes && nonces[..5] == nonces;
    assert codes[i] in codes;
    CodeSurvives(Step(s, t), turns, codes[i]);
    RunKeeps(Step(s, t), turns, master);
    RecoveryCode.ReadsBack(codes[i]);
    FreshCodeRecovers(Run(Step(s, t), turns), later, RecoveryCode.Format(codes[i]), markFate, master);
  }

  // ----- the vaults -----

  /** Listing the vaults opens every one of them, each with the key that lies in its wrap. */
  lemma EveryVaultOpens(s: System, who: nat, master: Octets)
    requires Keeps(s, master) && who in s.devices && s.devices[who].keys.master.Some?
    ensures var (d, result) := ListVaults(s.devices[who], s.account, Delivered);
            && result == Done(s.account.vaults.Keys)
            && d.keys.vaults == map id | id in s.account.vaults :: s.account.vaults[id][0].text
  {
    var k := s.devices[who].keys;
    var found := Unwrapped(s.account.vaults, master);
    assert DeviceOk(s.devices[who], s.account, master);
    assert found.Keys == s.account.vaults.Keys;
    assert k.vaults + found == map id | id in s.account.vaults :: s.account.vaults[id][0].text;
  }

  lemma {:induction false} RunGrows(s: System, turns: seq<Turn>)
    ensures Grows(s.account, Run(s, turns).account)
    decreases |turns|
  {
    if turns != [] {
      if turns[0].0 in s.devices { VaultsNeverChange(s.devices[turns[0].0], s.account, turns[0].1); }
      RunGrows(Step(s, turns[0]), turns[1..]);
    }
  }

  /** A vault once created opens for good, on every unlocked client, with the key that was drawn for it. */
  lemma CreatedVaultOpens(s: System, who: nat, id: VaultId, r: Random, fate: Fate, turns: seq<Turn>, later: nat,
      master: Octets)
    requires Keeps(s, master) && who in s.devices && s.devices[who].keys.master.Some?
    requires id !in s.account.vaults && fate != Unreachable
    requires DisciplinedRun(Step(s, (who, Create(id, r, fate))), turns)
    requires later in Run(Step(s, (who, Create(id, r, fate))), turns).devices
    requires Run(Step(s, (who, Create(id, r, fate))), turns).devices[later].keys.master.Some?
    ensures var end := Run(Step(s, (who, Create(id, r, fate))), turns);
            var (d, result) := ListVaults(end.devices[later], end.account, Delivered);
            result.Done? && id in result.value && id in d.keys.vaults && d.keys.vaults[id] == r.key
  {
    var t := (who, Create(id, r, fate));
    StepKeeps(s, t, master);
    RunKeeps(Step(s, t), turns, master);
    RunGrows(Step(s, t), turns);
    assert Step(s, t).account.vaults[id] == Wrap(r.key, FromMaster(master), r.nonce);
    EveryVaultOpens(Run(Step(s, t), turns), later, master);
  }

  // ----- the discipline is needed -----

  /** Setting up again keeps everything exactly when the client is unlocked, unless chance draws the old key again. */
  lemma SetupKeepsIff(s: System, who: nat, pass: string, r: Random, fate: Fate, master: Octets)
    requires Keeps(s, master) && who in s.devices && pass != "" && fate != Unreachable && Drawn(r) && r.key != master
    ensures Keeps(Step(s, (who, Setup(pass, r, fate))), master) <==> s.devices[who].keys.master.Some?
  {
    var t := (who, Setup(pass, r, fate));
    if s.devices[who].keys.master.Some? {
      StepKeeps(s, t, master);
    } else {
      assert Step(s, t).account.envelope.value.master[0].text == r.key;
    }
  }

  /**
   * A locked client that sets up encryption on an account with vaults loses all of them, although it is unlocked then.
   */
  lemma LockedSetupOrphansVaults(s: System, who: nat, pass: string, r: Random, master: Octets)
    requires Keeps(s, master) && who in s.devices && pass != "" && Drawn(r) && r.key != master
    requires s.devices[who].keys.master.None?
    ensures var s' := Step(s, (who, Setup(pass, r, Delivered)));
            && s'.devices[who].keys.master == Some(r.key)
            && s'.account.vaults == s.account.vaults
            && ListVaults(s'.devices[who], s'.account, Delivered).1 == Done({})
  {
    assert Unwrapped(s.account.vaults, r.key).Keys == {};
  }
}

/**
 * The client's auth use cases over a session and the account on the server (setup_encryption.go, login.go, pin.go,
 * recovery.go).
 */
module KeyEnvelope {
  import opened Types
  import opened KeyModel
  import opened KeySession
  import RecoveryCode

  /** The account on the server, reached by calls that may fail. */
  class KeyServer {
    var account: Account

    method SetupEncryption(envelope: Envelope, fate: Fate) returns (ok: bool)
      modifies this
      ensures account == if fate == Unreachable then old(account) else old(account).(envelope := Some(envelope))
      ensures ok == (fate == Delivered)
    {
      if fate != Unreachable {
        account := account.(envelope := Some(envelope));
      }
      return fate == Delivered;
    }

    /** The old codes are deleted first; then the new ones are stored one by one. */
    method StoreRecoveryCodes(
        codes: seq<string>, wrapped: seq<Octets>, ghost master: Octets, ghost nonces: seq<nat>, fate: Fate, stored: nat)
      returns (ok: bool)
      requires |codes| == |wrapped| == |nonces| && stored <= |codes|
      requires forall i :: 0 <= i < |codes| ==> wrapped[i] == Wrap(master, FromCode(codes[i]), nonces[i])
      modifies this
      ensures var n := if fate == Delivered then |codes| else stored;
              account == if fate == Unreachable then old(account)
                         else old(account).(codes := StoreCodes(master, codes[..n], nonces[..n]))
      ensures ok == (fate == Delivered)
    {
      if fate == Unreachable { return false; }
      var n := if fate == Delivered then |codes| else stored;
      account := account.(codes := map[]);
      var i := 0;
      while i < n
        invariant i <= n && account == old(account).(codes := StoreCodes(master, codes[..i], nonces[..i]))
      {
        account := account.(codes := account.codes[codes[i] := CodeRecord(wrapped[i], false)]);
        assert codes[..i + 1][..i] == codes[..i] && nonces[..i + 1][..i] == nonces[..i];
        i := i + 1;
      }
      return fate == Delivered;
    }

    method GetRecoveryBlob(code: string, fate: Fate) returns (r: Outcome<Octets>)
      ensures r == if fate != Delivered then Failed(Remote)
                   else if code in account.codes && !account.codes[code].used then Done(account.codes[code].wrapped)
                   else Failed(UnknownCode)
    {
      if fate != Delivered { return Failed(Remote); }
      if code !in account.codes || account.codes[code].used { return Failed(UnknownCode); }
      return Done(account.codes[code].wrapped);
    }

    method MarkRecoveryCodeUsed(code: string, fate: Fate)
      requires code in account.codes
      modifies this
      ensures account == if fate == Unreachable then old(account)
                         else old(account).(codes :=
                                old(account).codes[code := old(account).codes[code].(used := true)])
    {
      if fate != Unreachable {
        account := account.(codes := account.codes[code := account.codes[code].(used := true)]);
      }
    }
  }

  class Auth {
    const sess: Session
    const server: KeyServer
    var encKDFSalt: Octets
    var encKDFParams: Octets
    var encMasterKey: Octets
    var cached: Option<Envelope>

    constructor (sess: Session, server: KeyServer, cached: Option<Envelope>)
      ensures this.sess == sess && this.server == server && this.cached == cached && InMemory() == None
    {
      this.sess, this.server, this.cached := sess, server, cached;
      encKDFSalt, encKDFParams, encMasterKey := [], [], [];
    }

    ghost function InMemory(): Option<Envelope>
      reads this
    {
      Known(Some(Envelope(encKDFSalt, encKDFParams, encMasterKey)))
    }

    /** This client as a value. */
    ghost function Me(): Device
      reads this, sess, sess.KeyArrays(), sess.PinArrays()
    {
      Device(sess.State(), InMemory(), cached)
    }

    method PersistEncryption()
      modifies this`cached
      ensures cached == if InMemory().Some? then InMemory() else old(cached)
    {
      if |encKDFSalt| > 0 && |encKDFParams| > 0 && |encMasterKey| > 0 {
        cached := Some(Envelope(encKDFSalt, encKDFParams, encMasterKey));
      }
    }

    method Remember(e: Envelope)
      modifies this
      ensures InMemory() == Known(Some(e)) && cached == if Known(Some(e)).Some? then Known(Some(e)) else old(cached)
    {
      encKDFSalt, encKDFParams, encMasterKey := e.salt, e.params, e.master;
      assert Envelope(encKDFSalt, encKDFParams, encMasterKey) == e;
      PersistEncryption();
    }

    /** After the server agreed, the key goes into the session and the envelope into memory and onto the disk. */
    method Adopt(masterKey: array<Octet>, envelope: Envelope)
      requires sess.Valid() && masterKey !in sess.PinArrays()
      modifies this, sess`masterKey
      ensures sess.Valid()
      ensures Me() ==
              FetchedEnvelope(old(Me()).(keys := old(Me()).keys.(master := Held(masterKey[..]))), Some(envelope))
    {
      sess.SetMasterKey(masterKey);
      ghost var keys := sess.State();
      Remember(envelope);
      assert sess.State() == keys;
    }

    /** The MasterKey that the session holds, or else this fresh one. */
    method HeldOr(key: Octets) returns (masterKey: array<Octet>)
      requires sess.Valid()
      ensures masterKey !in sess.PinArrays()
      ensures masterKey[..] == if sess.State().master.Some? then sess.State().master.value else key
    {
      var held, ok := sess.MasterKey();
      if ok { return held; }
      masterKey := Slice(key);
    }

    /** A session that holds a MasterKey keeps it; only a locked one gets a new key. */
    method SetupEncryption(pass: string, r: Random, fate: Fate) returns (result: Outcome<Unit>)
      requires sess.Valid()
      modifies this, sess`masterKey, server
      ensures sess.Valid()
      ensures (Me(), server.account, result) == KeyModel.SetupEncryption(old(Me()), old(server.account), pass, r, fate)
    {
      if pass == "" { return Failed(EmptyPassphrase); }
      var masterKey := HeldOr(r.key);
      var envelope :=
        Envelope(r.salt, DEFAULT_PARAMS, Wrap(masterKey[..], FromPassphrase(pass, r.salt, DEFAULT_PARAMS), r.nonce));
      var sent := server.SetupEncryption(envelope, fate);
      assert Me() == old(Me());
      if !sent { return Failed(Remote); }
      Adopt(masterKey, envelope);
      return Done(Unit);
    }

    /** The part of login and refresh that concerns the envelope. */
    method FetchEnvelope(fate: Fate) returns (result: Outcome<Unit>)
      modifies this
      ensures (Me(), result) == KeyModel.FetchEnvelope(old(Me()), server.account, fate)
    {
      if fate != Delivered { return Failed(Remote); }
      match server.account.envelope {
        case None =>
          encKDFSalt, encKDFParams, encMasterKey := [], [], [];
          PersistEncryption();
        case Some(e) =>
          Remember(e);
      }
      assert sess.State() == old(sess.State());
      return Done(Unit);
    }

    method LoadCachedEncryption() returns (result: Outcome<Unit>)
      modifies this
      ensures (Me(), result) == KeyModel.LoadCached(old(Me()))
    {
      if cached.None? || |cached.value.salt| == 0 || |cached.value.params| == 0 || |cached.value.master| == 0 {
        return Failed(NotSetUp);
      }
      encKDFSalt, encKDFParams, encMasterKey := cached.value.salt, cached.value.params, cached.value.master;
      assert Envelope(encKDFSalt, encKDFParams, encMasterKey) == cached.value;
      assert sess.State() == old(sess.State());
      return Done(Unit);
    }

    /** A freshly unwrapped key goes into an array of its own. */
    method Hold(master: Octets)
      requires sess.Valid()
      modifies sess`masterKey
      ensures sess.Valid() && Me() == old(Me()).(keys := old(Me()).keys.(master := Held(master)))
    {
      var a := Slice(master);
      sess.SetMasterKey(a);
    }

    method Unlock(pass: string) returns (result: Outcome<Unit>)
      requires sess.Valid()
      modifies sess`masterKey
      ensures sess.Valid() && (Me(), result) == KeyModel.Unlock(old(Me()), pass)
    {
      if pass == "" { return Failed(EmptyPassphrase); }
      if |encKDFSalt| == 0 || |encKDFParams| == 0 || |encMasterKey| == 0 { return Failed(NotSetUp); }
      var master := Unwrap(encMasterKey, FromPassphrase(pass, encKDFSalt, encKDFParams));
      if master.None? { return Failed(WrongPassphrase); }
      Hold(master.value);
      return Done(Unit);
    }

    method SetPIN(pin: string, r: Random) returns (result: Outcome<Unit>)
      requires sess.Valid()
      modifies sess`pinWrapped, sess`pinSalt, sess`pinParams
      ensures sess.Valid() && (sess.State(), result) == KeyModel.SetPin(old(sess.State()), pin, r)
    {
      if |pin| < MIN_PIN_LENGTH { return Failed(PinTooShort); }
      var masterKey, ok := sess.MasterKey();
      if !ok { return Failed(Locked); }
      var wrapped := Slice(Wrap(masterKey[..], FromPin(pin, r.salt, DEFAULT_PARAMS), r.nonce));
      var salt := Slice(r.salt);
      var params := Slice(DEFAULT_PARAMS);
      sess.SetPINMaterial(wrapped, salt, params);
      return Done(Unit);
    }

    method UnlockWithPIN(pin: string) returns (result: Outcome<Unit>)
      requires sess.Valid()
      modifies sess`masterKey
      ensures sess.Valid() && (sess.State(), result) == KeyModel.UnlockWithPin(old(sess.State()), pin)
    {
      if pin == "" { return Failed(EmptyPin); }
      var wrapped, salt, params, ok := sess.PINMaterial();
      if !ok { return Failed(PinNotSet); }
      var master := Unwrap(wrapped[..], FromPin(pin, salt[..], params[..]));
      if master.None? { return Failed(InvalidPin); }
      Hold(master.value);
      return Done(Unit);
    }

    /** codes are the hex forms of the random bytes. */
    method GenerateRecoveryCodes(codes: seq<string>, nonces: seq<nat>, fate: Fate, stored: nat)
      returns (result: Outcome<seq<string>>)
      requires |codes| == |nonces| == RECOVERY_CODE_COUNT && stored <= RECOVERY_CODE_COUNT
      modifies server
      ensures (server.account, result)
           == KeyModel.GenerateRecoveryCodes(Me(), old(server.account), codes, nonces, fate, stored)
    {
      var masterKey, ok := sess.MasterKey();
      if !ok { return Failed(Locked); }
      var shown: seq<string> := [];
      var entries: seq<Octets> := [];
      var i := 0;
      while i < RECOVERY_CODE_COUNT
        invariant |shown| == |entries| == i <= RECOVERY_CODE_COUNT && server.account == old(server.account)
        invariant forall j :: 0 <= j < i ==> shown[j] == RecoveryCode.Format(codes[j])
        invariant forall j :: 0 <= j < i ==> entries[j] == Wrap(masterKey[..], FromCode(codes[j]), nonces[j])
      {
        var text := RecoveryCode.FormatRecoveryCode(codes[i]);
        shown := shown + [text];
        entries := entries + [Wrap(masterKey[..], FromCode(codes[i]), nonces[i])];
        i := i + 1;
      }
      ghost var master := masterKey[..];
      var sent := server.StoreRecoveryCodes(codes, entries, master, nonces, fate, stored);
      assert sess.State() == old(sess.State()) && Me().keys.master == Some(master);
      if !sent { return Failed(Remote); }
      assert shown == seq(|codes|, j requires 0 <= j < |codes| => RecoveryCode.Format(codes[j]));
      return Done(shown);
    }

    method RecoverWithCode(typed: string, fate: Fate, markFate: Fate) returns (result: Outcome<Unit>)
      requires sess.Valid()
      modifies sess`masterKey, server
      ensures sess.Valid()
      ensures (Me(), server.account, result) ==
              KeyModel.RecoverWithCode(old(Me()), old(server.account), typed, fate, markFate)
    {
      var code := RecoveryCode.NormalizeCode(typed);
      var blob := server.GetRecoveryBlob(code, fate);
      if blob.Failed? { return Failed(blob.why); }
      var master := Unwrap(blob.value, FromCode(code));
      if master.None? { return Failed(InvalidCode); }
      server.MarkRecoveryCodeUsed(code, markFate);
      assert Me() == old(Me());
      Hold(master.value);
      return Done(Unit);
    }
  }
}

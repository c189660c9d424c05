/** Keys in memory: arrays that are shared, copied and wiped in place (session.go). */
module KeySession {
  import opened Types
  import opened KeyModel

  /** Nothing but zero bytes. */
  ghost predicate Wiped(a: array<Octet>)
    reads a
  {
    forall i :: 0 <= i < a.Length ==> a[i] == Plain(0)
  }

  method Zero(b: array<Octet>)
    modifies b
    ensures Wiped(b)
  {
    for i := 0 to b.Length
      invariant forall j :: 0 <= j < i ==> b[j] == Plain(0)
    {
      b[i] := Plain(0);
    }
  }

  method Copy(a: array<Octet>) returns (c: array<Octet>)
    ensures fresh(c) && c[..] == a[..]
  {
    c := new Octet[a.Length](i requires 0 <= i < a.Length reads a => a[i]);
  }

  method Slice(s: Octets) returns (a: array<Octet>)
    ensures fresh(a) && a[..] == s
  {
    a := new Octet[|s|](i requires 0 <= i < |s| => s[i]);
  }

  /** A slice that nothing is held in; nil and the empty slice are one. */
  method Nil() returns (a: array<Octet>)
    ensures fresh(a) && a.Length == 0
  {
    a := new Octet[0];
  }

  class Session {
    var masterKey: array<Octet>
    var vaultKeys: map<VaultId, array<Octet>>
    var pinWrapped: array<Octet>
    var pinSalt: array<Octet>
    var pinParams: array<Octet>

    /** The arrays that a soft lock wipes. */
    ghost function KeyArrays(): set<array<Octet>>
      reads this
    {
      {masterKey} + vaultKeys.Values
    }

    ghost function PinArrays(): set<array<Octet>>
      reads this
    {
      {pinWrapped, pinSalt, pinParams}
    }

    /** No array serves both as a key and as PIN material. */
    ghost predicate Valid()
      reads this
    {
      KeyArrays() !! PinArrays()
    }

    ghost function PinState(): Option<PinMaterial>
      reads this, PinArrays()
    {
      if pinWrapped.Length == 0 then None else Some(PinMaterial(pinWrapped[..], pinSalt[..], pinParams[..]))
    }

    ghost function State(): Keys
      reads this, KeyArrays(), PinArrays()
    {
      Keys(Held(masterKey[..]), map id | id in vaultKeys :: vaultKeys[id][..], PinState())
    }

    constructor ()
      ensures Valid() && fresh(KeyArrays()) && fresh(PinArrays())
      ensures State() == Keys(None, map[], None)
    {
      var none := new Octet[0];
      masterKey, vaultKeys := none, map[];
      var w, s, p := new Octet[0], new Octet[0], new Octet[0];
      pinWrapped, pinSalt, pinParams := w, s, p;
    }

    /** The array itself is kept, not a copy. */
    method SetMasterKey(mk: array<Octet>)
      requires Valid() && mk !in PinArrays()
      modifies this`masterKey
      ensures Valid() && masterKey == mk && State() == old(State()).(master := Held(mk[..]))
    {
      masterKey := mk;
    }

    method MasterKey() returns (mk: array<Octet>, ok: bool)
      ensures mk == masterKey && ok == State().master.Some?
      ensures ok ==> State().master == Some(mk[..])
    {
      return masterKey, masterKey.Length > 0;
    }

    method OpenVault(id: VaultId, key: array<Octet>)
      requires Valid() && key !in PinArrays()
      modifies this`vaultKeys
      ensures Valid() && State() == old(State()).(vaults := old(State()).vaults[id := key[..]])
    {
      vaultKeys := vaultKeys[id := key];
    }

    /** The material is copied, so that whoever hands it in may do with it what they like. */
    method SetPINMaterial(wrapped: array<Octet>, salt: array<Octet>, params: array<Octet>)
      requires Valid()
      modifies this`pinWrapped, this`pinSalt, this`pinParams
      ensures Valid() && fresh(PinArrays())
      ensures State() == old(State()).(
        pin := if wrapped.Length == 0 then None else Some(PinMaterial(wrapped[..], salt[..], params[..])))
    {
      var w := Copy(wrapped);
      var s := Copy(salt);
      var p := Copy(params);
      pinWrapped, pinSalt, pinParams := w, s, p;
    }

    /** Copies again: a caller cannot damage the material. */
    method PINMaterial() returns (wrapped: array<Octet>, salt: array<Octet>, params: array<Octet>, ok: bool)
      ensures fresh(wrapped) && fresh(salt) && fresh(params) && ok == PinState().Some?
      ensures ok ==> PinState() == Some(PinMaterial(wrapped[..], salt[..], params[..]))
    {
      if pinWrapped.Length == 0 {
        wrapped := Nil();
        salt := Nil();
        params := Nil();
        return wrapped, salt, params, false;
      }
      wrapped := Copy(pinWrapped);
      salt := Copy(pinSalt);
      params := Copy(pinParams);
      ok := true;
    }

    /** Each vault key is wiped before it is dropped. */
    method ZeroVaultKeys()
      modifies this`vaultKeys, vaultKeys.Values
      ensures vaultKeys == map[] && forall a :: a in old(vaultKeys.Values) ==> Wiped(a)
    {
      while vaultKeys != map[]
        invariant vaultKeys.Values <= old(vaultKeys.Values)
        invariant forall id :: id in old(vaultKeys) ==>
                    Wiped(old(vaultKeys)[id]) ||
                    (id in vaultKeys && vaultKeys[id] == old(vaultKeys)[id])
        decreases |vaultKeys|
      {
        var id :| id in vaultKeys;
        Zero(vaultKeys[id]);
        vaultKeys := vaultKeys - {id};
      }
    }

    /** Every key array is wiped in place, however often it is shared; nothing else is touched. */
    method ZeroKeys()
      modifies this`masterKey, this`vaultKeys, KeyArrays()
      ensures vaultKeys == map[] && fresh(masterKey) && masterKey.Length == 0
      ensures forall a :: a in old(KeyArrays()) ==> Wiped(a)
    {
      Zero(masterKey);
      ghost var mk := masterKey;
      masterKey := Nil();
      ZeroVaultKeys();
      assert Wiped(mk);
    }

    /** The keys are wiped in place; the PIN material keeps every byte. */
    method SoftLock()
      requires Valid()
      modifies this`masterKey, this`vaultKeys, KeyArrays()
      ensures Valid() && State() == KeyModel.SoftLock(old(State()))
      ensures forall a :: a in old(KeyArrays()) ==> Wiped(a)
    {
      ZeroKeys();
    }

    /** The PIN material is wiped and dropped. */
    method ZeroPin()
      modifies this`pinWrapped, this`pinSalt, this`pinParams, PinArrays()
      ensures fresh(PinArrays()) && PinState() == None
      ensures forall a :: a in old(PinArrays()) ==> Wiped(a)
    {
      ghost var w, s, p := pinWrapped, pinSalt, pinParams;
      Zero(pinWrapped);
      Zero(pinSalt);
      Zero(pinParams);
      pinWrapped := Nil();
      pinSalt := Nil();
      pinParams := Nil();
      assert Wiped(w) && Wiped(s) && Wiped(p);
    }

    /** Nothing is left, neither reachable nor in the arrays. */
    method Lock()
      requires Valid()
      modifies this, KeyArrays(), PinArrays()
      ensures Valid() && State() == KeyModel.Lock(old(State()))
      ensures forall a :: a in old(KeyArrays() + PinArrays()) ==> Wiped(a)
    {
      ZeroKeys();
      ZeroPin();
    }
  }
}

/** The client's local store, updated in place by its statements. */
module LocalStorage {
  import opened Types
  import opened S = StoreModel

  class LocalStore {
    var vaults: map<VaultId, CachedVault>
    var secrets: map<SecretId, CachedSecret>
    var outbox: seq<Entry>
    var nextId: nat

    function State(): Store
      reads this
    {
      Store(vaults, secrets, outbox, nextId)
    }

    constructor ()
      ensures State() == NO_STORE
    {
      vaults, secrets, outbox, nextId := map[], map[], [], 1;
    }

    method UpsertSecretRow(id: SecretId, row: CachedSecret)
      modifies this`secrets
      ensures State() == S.UpsertSecretRow(old(State()), id, row)
    {
      if id in secrets {
        var cached := secrets[id];
        if cached.version != row.version {
          secrets := secrets[id :=
            row.(tiers := Tiers(row.tiers.row, Empty, Empty), indexLoaded := false, payloadLoaded := false)];
        } else {
          secrets := secrets[id := row.(tiers := cached.tiers.(row := row.tiers.row),
                                        indexLoaded := cached.indexLoaded, payloadLoaded := cached.payloadLoaded)];
        }
      } else {
        secrets := secrets[id := row];
      }
    }

    method SetSecretPayload(id: SecretId, encPayload: Blob, version: int)
      modifies this`secrets
      ensures State() == S.SetSecretPayload(old(State()), id, encPayload, version)
    {
      if id in secrets && secrets[id].version == version {
        var row := secrets[id];
        secrets := secrets[id := row.(tiers := row.tiers.(payload := encPayload), payloadLoaded := true)];
      }
    }

    method SetSecretIndex(id: SecretId, encIndex: Blob, version: int)
      modifies this`secrets
      ensures State() == S.SetSecretIndex(old(State()), id, encIndex, version)
    {
      if id in secrets && secrets[id].version == version {
        var row := secrets[id];
        secrets := secrets[id := row.(tiers := row.tiers.(index := encIndex), indexLoaded := true)];
      }
    }

    method DeleteSecret(id: SecretId)
      modifies this`secrets
      ensures State() == S.DeleteSecret(old(State()), id)
    {
      secrets := secrets - {id};
    }

    method EnqueueOutbox(id: SecretId, op: Op, status: Status) returns (entry: nat)
      modifies this`outbox, this`nextId
      ensures State() == S.Enqueue(old(State()), id, op, status)
      ensures entry == old(nextId)
    {
      entry := nextId;
      outbox := outbox + [Entry(entry, SECRET, id, op, status)];
      nextId := nextId + 1;
    }

    method ListOutboxByStatus(status: Status) returns (entries: seq<Entry>)
      ensures entries == ByStatus(outbox, status)
    {
      entries := [];
      var k := 0;
      while k < |outbox|
        invariant 0 <= k <= |outbox|
        invariant ByStatus(outbox, status) == entries + ByStatus(outbox[k..], status)
      {
        if outbox[k].status == status {
          entries := entries + [outbox[k]];
        }
        k := k + 1;
      }
    }

    method GetOutbox(entry: nat) returns (found: Option<Entry>)
      ensures found == Find(outbox, entry)
    {
      var k := 0;
      while k < |outbox|
        invariant 0 <= k <= |outbox|
        invariant Find(outbox, entry) == Find(outbox[k..], entry)
      {
        if outbox[k].id == entry {
          return Some(outbox[k]);
        }
        k := k + 1;
      }
      return None;
    }

    method SetOutboxStatus(entry: nat, status: Status) returns (r: Result<Unit>)
      modifies this`outbox
      ensures match S.SetOutboxStatus(old(State()), entry, status)
              case Ok(after) => r == Ok(Unit) && State() == after
              case Err(e) => r == Err(e) && State() == old(State())
    {
      var k, marked, affected := 0, [], false;
      while k < |outbox|
        invariant 0 <= k <= |outbox|
        invariant |marked| == k
        invariant forall i :: 0 <= i < k ==>
                    marked[i] == if outbox[i].id == entry then outbox[i].(status := status) else outbox[i]
        invariant affected <==> exists i :: 0 <= i < k && outbox[i].id == entry
      {
        var e := outbox[k];
        affected := affected || e.id == entry;
        marked := marked + [if e.id == entry then e.(status := status) else e];
        k := k + 1;
      }
      if !affected {
        return Err(EntryNotFound);
      }
      assert marked == Restatus(outbox, entry, status);
      outbox := marked;
      return Ok(Unit);
    }

    method RemoveOutbox(entry: nat)
      modifies this`outbox
      ensures State() == S.RemoveOutbox(old(State()), entry)
    {
      var k, rest := 0, [];
      while k < |outbox|
        invariant 0 <= k <= |outbox|
        invariant Without(outbox, entry) == rest + Without(outbox[k..], entry)
      {
        if outbox[k].id != entry {
          rest := rest + [outbox[k]];
        }
        k := k + 1;
      }
      outbox := rest;
    }

    method UpsertVault(id: VaultId, vault: CachedVault)
      modifies this`vaults
      ensures State() == S.UpsertVault(old(State()), id, vault)
    {
      if id in vaults {
        vaults := vaults[id := vaults[id].(version := vault.version)];
      } else {
        vaults := vaults[id := vault];
      }
    }

    method DeleteVault(id: VaultId)
      modifies this`vaults
      ensures State() == S.DeleteVault(old(State()), id)
    {
      vaults := vaults - {id};
    }

    method SetVaultSyncedVersion(id: VaultId, synced: int)
      modifies this`vaults
      ensures State() == SetSyncedVersion(old(State()), id, synced)
    {
      if id in vaults {
        vaults := vaults[id := vaults[id].(syncedVersion := synced)];
      }
    }

    method SetVaultSyncEnabled(id: VaultId, enabled: bool)
      modifies this`vaults
      ensures State() == SetSyncEnabled(old(State()), id, enabled)
    {
      if id in vaults {
        vaults := vaults[id := vaults[id].(syncEnabled := enabled)];
      }
    }
  }
}

/** The client's local store as a value, and the effect of each of its statements. */
module StoreModel {
  import opened Types

  datatype CachedVault = CachedVault(version: int, syncedVersion: int, syncEnabled: bool)

  datatype CachedSecret = CachedSecret(
    vault: VaultId, kind: int, tiers: Tiers, version: int, indexLoaded: bool, payloadLoaded: bool, dirty: bool)

  datatype Status = Pending | InConflict

  datatype Op =
    | CreateOp(vault: VaultId, kind: int, tiers: Tiers)
    | UpdateOp(vault: VaultId, kind: int, base: int, tiers: Tiers)
    | DeleteOp(vault: VaultId, base: int)
    | BlobOp(vault: VaultId)

  /** One deferred operation; entity says which table entityId belongs to. */
  datatype Entry = Entry(id: nat, entity: string, entityId: string, op: Op, status: Status)

  const SECRET := "secret"

  /** outbox is ordered by id; nextId is the AUTOINCREMENT counter. */
  datatype Store = Store(
    vaults: map<VaultId, CachedVault>, secrets: map<SecretId, CachedSecret>, outbox: seq<Entry>, nextId: nat)

  const NO_STORE := Store(map[], map[], [], 1)

  // ----- secrets -----

  function Loaded(vault: VaultId, kind: int, tiers: Tiers, version: int, dirty: bool): CachedSecret {
    CachedSecret(vault, kind, tiers, version, tiers.index.Sealed?, tiers.payload.Sealed?, dirty)
  }

  /**
   * INSERT ... ON CONFLICT(id): an update keeps the loaded tiers if the version stands still and drops them otherwise.
   */
  function MergeRow(cached: CachedSecret, row: CachedSecret): CachedSecret {
    if cached.version == row.version
    then row.(tiers := Tiers(row.tiers.row, cached.tiers.index, cached.tiers.payload),
              indexLoaded := cached.indexLoaded, payloadLoaded := cached.payloadLoaded)
    else row.(tiers := Tiers(row.tiers.row, Empty, Empty), indexLoaded := false, payloadLoaded := false)
  }

  function UpsertSecretRow(s: Store, id: SecretId, row: CachedSecret): Store {
    s.(secrets := s.secrets[id := if id in s.secrets then MergeRow(s.secrets[id], row) else row])
  }

  function SetSecretIndex(s: Store, id: SecretId, encIndex: Blob, version: int): Store {
    if id in s.secrets && s.secrets[id].version == version
    then s.(secrets := s.secrets[id :=
              s.secrets[id].(tiers := s.secrets[id].tiers.(index := encIndex), indexLoaded := true)])
    else s
  }

  function SetSecretPayload(s: Store, id: SecretId, encPayload: Blob, version: int): Store {
    if id in s.secrets && s.secrets[id].version == version
    then s.(secrets := s.secrets[id :=
              s.secrets[id].(tiers := s.secrets[id].tiers.(payload := encPayload), payloadLoaded := true)])
    else s
  }

  function DeleteSecret(s: Store, id: SecretId): Store {
    s.(secrets := s.secrets - {id})
  }

  // ----- outbox -----

  function Enqueue(s: Store, id: SecretId, op: Op, status: Status): Store {
    s.(outbox := s.outbox + [Entry(s.nextId, SECRET, id, op, status)], nextId := s.nextId + 1)
  }

  function ByStatus(outbox: seq<Entry>, status: Status): seq<Entry> {
    if outbox == [] then []
    else
      var rest := ByStatus(outbox[1..], status);
      if outbox[0].status == status then [outbox[0]] + rest else rest
  }

  function Without(outbox: seq<Entry>, id: nat): seq<Entry> {
    if outbox == [] then []
    else if outbox[0].id == id then Without(outbox[1..], id)
    else [outbox[0]] + Without(outbox[1..], id)
  }

  function RemoveOutbox(s: Store, id: nat): Store {
    s.(outbox := Without(s.outbox, id))
  }

  function Find(outbox: seq<Entry>, id: nat): (found: Option<Entry>)
    ensures found.Some? ==> found.value in outbox && found.value.id == id
    ensures found.None? ==> forall e :: e in outbox ==> e.id != id
  {
    if outbox == [] then None
    else if outbox[0].id == id then Some(outbox[0])
    else Find(outbox[1..], id)
  }

  function Restatus(outbox: seq<Entry>, id: nat, status: Status): (result: seq<Entry>)
    ensures |result| == |outbox|
    ensures forall i :: 0 <= i < |outbox| ==>
              result[i] == if outbox[i].id == id then outbox[i].(status := status) else outbox[i]
  {
    if outbox == [] then []
    else [if outbox[0].id == id then outbox[0].(status := status) else outbox[0]] + Restatus(outbox[1..], id, status)
  }

  /** Fails when no entry has the id. */
  function SetOutboxStatus(s: Store, id: nat, status: Status): Result<Store> {
    if Find(s.outbox, id).Some? then Ok(s.(outbox := Restatus(s.outbox, id, status))) else Err(EntryNotFound)
  }

  /** The secrets that have an outbox entry, pending or in conflict. */
  function Outstanding(outbox: seq<Entry>): set<SecretId> {
    set e | e in outbox && e.entity == SECRET :: e.entityId
  }

  // ----- vaults -----

  function DeleteVault(s: Store, id: VaultId): Store {
    s.(vaults := s.vaults - {id})
  }

  /** An update keeps synced_version and sync_enabled; an insert takes those given. */
  function UpsertVault(s: Store, id: VaultId, vault: CachedVault): Store {
    s.(vaults := s.vaults[id := if id in s.vaults then s.vaults[id].(version := vault.version) else vault])
  }

  function SetSyncedVersion(s: Store, id: VaultId, synced: int): Store {
    if id in s.vaults then s.(vaults := s.vaults[id := s.vaults[id].(syncedVersion := synced)]) else s
  }

  function SetSyncEnabled(s: Store, id: VaultId, enabled: bool): Store {
    if id in s.vaults then s.(vaults := s.vaults[id := s.vaults[id].(syncEnabled := enabled)]) else s
  }
}

/**
 * The server's tables updated in place: SQL statements, and the transactions of the secret use case built from them.
 */
module DatabaseTables {
  import opened Types
  import M = ServerModel
  import opened ServerModel

  class Database {
    var vaults: map<VaultId, VaultRow>
    var secrets: map<SecretId, SecretRow>
    var vaultOrder: seq<VaultId>
    var secretOrder: seq<SecretId>

    function State(): Tables
      reads this
    {
      Tables(vaults, secrets, vaultOrder, secretOrder)
    }

    constructor ()
      ensures State() == NO_TABLES
    {
      vaults, secrets, vaultOrder, secretOrder := map[], map[], [], [];
    }

    method BumpVaultVersion(vault: VaultId)
      modifies this`vaults
      ensures State() == M.BumpVaultVersion(old(State()), vault)
    {
      if vault in vaults {
        vaults := vaults[vault := vaults[vault].(version := vaults[vault].version + 1)];
      }
    }

    method InsertSecret(id: SecretId, vault: VaultId, kind: int, tiers: Tiers)
      modifies this`secrets, this`secretOrder
      ensures State() == M.InsertSecret(old(State()), id, vault, kind, tiers)
    {
      secrets := secrets[id := SecretRow(vault, kind, tiers, None, INITIAL_VERSION, false)];
      secretOrder := secretOrder + [id];
    }

    method UpdateFields(id: SecretId, tiers: Tiers) returns (version: int)
      requires id in secrets
      modifies this`secrets
      ensures State() == M.UpdateFields(old(State()), id, tiers)
      ensures version == secrets[id].version
    {
      version := secrets[id].version + 1;
      secrets := secrets[id := secrets[id].(tiers := tiers, version := version)];
    }

    method SoftDelete(id: SecretId) returns (version: int)
      requires id in secrets
      modifies this`secrets
      ensures State() == M.SoftDelete(old(State()), id)
      ensures version == secrets[id].version
    {
      version := secrets[id].version + 1;
      secrets := secrets[id := secrets[id].(deleted := true, version := version)];
    }

    method SetBlobRef(id: SecretId, blobRef: string) returns (version: int)
      requires id in secrets
      modifies this`secrets
      ensures State() == M.SetBlobRef(old(State()), id, blobRef)
      ensures version == secrets[id].version
    {
      secrets := secrets[id := secrets[id].(blobRef := Some(blobRef))];
      version := secrets[id].version;
    }

    method GetForUpdate(user: UserId, id: SecretId) returns (row: Option<SecretRow>)
      ensures row == if Owns(State(), user, id) then Some(secrets[id]) else None
    {
      if id in secrets && secrets[id].vault in vaults && vaults[secrets[id].vault].user == user {
        return Some(secrets[id]);
      }
      return None;
    }

    method CreateVault(user: UserId, vault: VaultId) returns (reply: Reply)
      modifies this`vaults, this`vaultOrder
      ensures (State(), reply) == ExecCreateVault(old(State()), user, vault)
    {
      if user == "" { return Fault(InvalidArgument); }
      if vault in vaults { return Fault(Internal); }
      vaults := vaults[vault := VaultRow(user, INITIAL_VERSION)];
      vaultOrder := vaultOrder + [vault];
      return Done(INITIAL_VERSION);
    }

    method CreateSecret(user: UserId, id: SecretId, vault: VaultId, kind: int, tiers: Tiers) returns (reply: Reply)
      modifies this
      ensures (State(), reply) == ExecCreate(old(State()), user, id, vault, kind, tiers)
    {
      if user == "" || vault == "" || id == "" { return Fault(InvalidArgument); }
      if tiers.row.Empty? || tiers.index.Empty? { return Fault(InvalidArgument); }
      if vault !in vaults || vaults[vault].user != user { return Fault(NotFound); }
      if id in secrets { return Fault(Internal); }
      InsertSecret(id, vault, kind, tiers);
      BumpVaultVersion(vault);
      return Done(INITIAL_VERSION);
    }

    method UpdateSecret(user: UserId, id: SecretId, base: int, tiers: Tiers) returns (reply: Reply)
      modifies this
      ensures (State(), reply) == ExecUpdate(old(State()), user, id, base, tiers)
    {
      if user == "" || id == "" { return Fault(InvalidArgument); }
      if tiers.row.Empty? || tiers.index.Empty? { return Fault(InvalidArgument); }
      var current := GetForUpdate(user, id);
      if current.None? || current.value.deleted { return Fault(NotFound); }
      if current.value.version != base { return Fault(Conflict(Copy(State(), id))); }
      var version := UpdateFields(id, tiers);
      BumpVaultVersion(current.value.vault);
      return Done(version);
    }

    method DeleteSecret(user: UserId, id: SecretId, base: int) returns (reply: Reply)
      modifies this
      ensures (State(), reply) == ExecDelete(old(State()), user, id, base)
    {
      if user == "" || id == "" { return Fault(InvalidArgument); }
      var current := GetForUpdate(user, id);
      if current.None? || current.value.deleted { return Fault(NotFound); }
      if current.value.version != base { return Fault(Conflict(Copy(State(), id))); }
      var version := SoftDelete(id);
      BumpVaultVersion(current.value.vault);
      return Done(version);
    }

    method AttachBlob(user: UserId, id: SecretId, base: int, blobRef: string) returns (reply: Reply)
      modifies this
      ensures (State(), reply) == ExecAttach(old(State()), user, id, base, blobRef)
    {
      if user == "" || id == "" { return Fault(InvalidArgument); }
      if blobRef == "" { return Fault(Internal); }
      var current := GetForUpdate(user, id);
      if current.None? || current.value.deleted { return Fault(NotFound); }
      if current.value.kind != BINARY_KIND { return Fault(Internal); }
      if current.value.version != base { return Fault(Conflict(Copy(State(), id))); }
      var version := SetBlobRef(id, blobRef);
      BumpVaultVersion(current.value.vault);
      return Done(version);
    }

    method ListSecretRows(user: UserId, vault: VaultId) returns (items: seq<RowItem>)
      ensures items == RowsOf(State(), user, vault, secretOrder)
    {
      items := [];
      var k := 0;
      while k < |secretOrder|
        invariant 0 <= k <= |secretOrder|
        invariant RowsOf(State(), user, vault, secretOrder) == items + RowsOf(State(), user, vault, secretOrder[k..])
      {
        var id := secretOrder[k];
        if Served(State(), user, vault, id) {
          var row := secrets[id];
          items := items + [RowItem(id, row.kind, row.version, row.tiers.row)];
        }
        k := k + 1;
      }
    }

    method ListSecretIndex(user: UserId, vault: VaultId) returns (items: seq<IndexItem>)
      ensures items == IndexesOf(State(), user, vault, secretOrder)
    {
      items := [];
      var k := 0;
      while k < |secretOrder|
        invariant 0 <= k <= |secretOrder|
        invariant IndexesOf(State(), user, vault, secretOrder)
               == items + IndexesOf(State(), user, vault, secretOrder[k..])
      {
        var id := secretOrder[k];
        if Served(State(), user, vault, id) {
          items := items + [IndexItem(id, secrets[id].version, secrets[id].tiers.index)];
        }
        k := k + 1;
      }
    }

    /** One request is served by one transaction or one query. */
    method Serve(req: Request) returns (reply: Reply)
      modifies this
      ensures (State(), reply) == Exec(old(State()), req)
    {
      match req
      case CreateVault(user, vault) => reply := CreateVault(user, vault);
      case Create(user, id, vault, kind, tiers) => reply := CreateSecret(user, id, vault, kind, tiers);
      case Update(user, id, base, tiers) => reply := UpdateSecret(user, id, base, tiers);
      case Delete(user, id, base) => reply := DeleteSecret(user, id, base);
      case Attach(user, id, base, blobRef) => reply := AttachBlob(user, id, base, blobRef);
      case ListRows(user, vault) =>
        if user == "" || vault == "" { return Fault(InvalidArgument); }
        var items := ListSecretRows(user, vault);
        reply := Rows(items);
      case ListIndex(user, vault) =>
        if user == "" || vault == "" { return Fault(InvalidArgument); }
        var items := ListSecretIndex(user, vault);
        reply := Indexes(items);
      case _ => reply := Query(State(), req);
    }
  }
}

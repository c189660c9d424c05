/**
 * The server's tables and the effect of every request on them. One request is one transaction, so one atomic step.
 */
module ServerModel {
  import opened Types

  datatype VaultRow = VaultRow(user: UserId, version: int)

  datatype SecretRow = SecretRow(
    vault: VaultId, kind: int, tiers: Tiers, blobRef: Option<string>, version: int, deleted: bool)

  /** vaultOrder and secretOrder keep the order of creation, in which the list queries answer. */
  datatype Tables = Tables(
    vaults: map<VaultId, VaultRow>,
    secrets: map<SecretId, SecretRow>,
    vaultOrder: seq<VaultId>,
    secretOrder: seq<SecretId>)

  const NO_TABLES := Tables(map[], map[], [], [])

  const BINARY_KIND := 3
  const INITIAL_VERSION := 1

  datatype Request =
    | CreateVault(user: UserId, vault: VaultId)
    | Create(user: UserId, id: SecretId, vault: VaultId, kind: int, tiers: Tiers)
    | Update(user: UserId, id: SecretId, base: int, tiers: Tiers)
    | Delete(user: UserId, id: SecretId, base: int)
    | Attach(user: UserId, id: SecretId, base: int, blobRef: string)
    | Upload(user: UserId, id: SecretId)
    | CheckFreshness(user: UserId)
    | ListVaults(user: UserId)
    | ListRows(user: UserId, vault: VaultId)
    | ListIndex(user: UserId, vault: VaultId)
    | GetPayload(user: UserId, id: SecretId)

  datatype VaultVersion = VaultVersion(id: VaultId, version: int)
  datatype RowItem = RowItem(id: SecretId, kind: int, version: int, encRow: Blob)
  datatype IndexItem = IndexItem(id: SecretId, version: int, encIndex: Blob)

  datatype Reply =
    | Done(version: int)
    | Uploaded(blobRef: string)
    | Vaults(vaults: seq<VaultVersion>)
    | Rows(rows: seq<RowItem>)
    | Indexes(indexes: seq<IndexItem>)
    | Payload(version: int, encPayload: Blob)
    | Fault(error: Error)

  // ----- SQL statements -----

  function BumpVaultVersion(t: Tables, vault: VaultId): Tables {
    if vault in t.vaults
    then t.(vaults := t.vaults[vault := t.vaults[vault].(version := t.vaults[vault].version + 1)])
    else t
  }

  function InsertSecret(t: Tables, id: SecretId, vault: VaultId, kind: int, tiers: Tiers): Tables {
    t.(secrets := t.secrets[id := SecretRow(vault, kind, tiers, None, INITIAL_VERSION, false)],
       secretOrder := t.secretOrder + [id])
  }

  function UpdateFields(t: Tables, id: SecretId, tiers: Tiers): Tables
    requires id in t.secrets
  {
    var row := t.secrets[id];
    t.(secrets := t.secrets[id := row.(tiers := tiers, version := row.version + 1)])
  }

  function SoftDelete(t: Tables, id: SecretId): Tables
    requires id in t.secrets
  {
    var row := t.secrets[id];
    t.(secrets := t.secrets[id := row.(deleted := true, version := row.version + 1)])
  }

  function SetBlobRef(t: Tables, id: SecretId, blobRef: string): Tables
    requires id in t.secrets
  {
    t.(secrets := t.secrets[id := t.secrets[id].(blobRef := Some(blobRef))])
  }

  predicate Owned(t: Tables, user: UserId, v: VaultId) {
    v in t.vaults && t.vaults[v].user == user
  }

  /** SELECT ... FOR UPDATE: the row joined with its vault, if the vault belongs to the user. */
  predicate Owns(t: Tables, user: UserId, id: SecretId) {
    && id in t.secrets
    && t.secrets[id].vault in t.vaults
    && t.vaults[t.secrets[id].vault].user == user
  }

  function Copy(t: Tables, id: SecretId): ServerSecret
    requires id in t.secrets
  {
    var row := t.secrets[id];
    ServerSecret(id, row.kind, row.version, row.tiers)
  }

  // ----- transactions -----

  function ExecCreateVault(t: Tables, user: UserId, vault: VaultId): (Tables, Reply) {
    if user == "" then (t, Fault(InvalidArgument))
    else if vault in t.vaults then (t, Fault(Internal))
    else (t.(vaults := t.vaults[vault := VaultRow(user, INITIAL_VERSION)], vaultOrder := t.vaultOrder + [vault]),
          Done(INITIAL_VERSION))
  }

  function ExecCreate(t: Tables, user: UserId, id: SecretId, vault: VaultId, kind: int, tiers: Tiers): (Tables, Reply) {
    if user == "" || vault == "" || id == "" || tiers.row.Empty? || tiers.index.Empty? then (t, Fault(InvalidArgument))
    else if vault !in t.vaults || t.vaults[vault].user != user then (t, Fault(NotFound))
    else if id in t.secrets then (t, Fault(Internal))
    else (BumpVaultVersion(InsertSecret(t, id, vault, kind, tiers), vault), Done(INITIAL_VERSION))
  }

  function ExecUpdate(t: Tables, user: UserId, id: SecretId, base: int, tiers: Tiers): (Tables, Reply) {
    if user == "" || id == "" || tiers.row.Empty? || tiers.index.Empty? then (t, Fault(InvalidArgument))
    else if !Owns(t, user, id) || t.secrets[id].deleted then (t, Fault(NotFound))
    else if t.secrets[id].version != base then (t, Fault(Conflict(Copy(t, id))))
    else (BumpVaultVersion(UpdateFields(t, id, tiers), t.secrets[id].vault), Done(base + 1))
  }

  function ExecDelete(t: Tables, user: UserId, id: SecretId, base: int): (Tables, Reply) {
    if user == "" || id == "" then (t, Fault(InvalidArgument))
    else if !Owns(t, user, id) || t.secrets[id].deleted then (t, Fault(NotFound))
    else if t.secrets[id].version != base then (t, Fault(Conflict(Copy(t, id))))
    else (BumpVaultVersion(SoftDelete(t, id), t.secrets[id].vault), Done(base + 1))
  }

  function ExecAttach(t: Tables, user: UserId, id: SecretId, base: int, blobRef: string): (Tables, Reply) {
    if user == "" || id == "" then (t, Fault(InvalidArgument))
    else if blobRef == "" then (t, Fault(Internal))
    else if !Owns(t, user, id) || t.secrets[id].deleted then (t, Fault(NotFound))
    else if t.secrets[id].kind != BINARY_KIND then (t, Fault(Internal))
    else if t.secrets[id].version != base then (t, Fault(Conflict(Copy(t, id))))
    else (BumpVaultVersion(SetBlobRef(t, id, blobRef), t.secrets[id].vault), Done(base))
  }

  // ----- queries -----

  /** The versions of the user's vaults, in the order of vaultOrder. */
  function VaultVersions(t: Tables, user: UserId, ids: seq<VaultId>): (items: seq<VaultVersion>)
    ensures forall i :: 0 <= i < |items| ==>
              && items[i].id in t.vaults
              && t.vaults[items[i].id] == VaultRow(user, items[i].version)
  {
    if ids == [] then []
    else
      var rest := VaultVersions(t, user, ids[1..]);
      if ids[0] in t.vaults && t.vaults[ids[0]].user == user
      then [VaultVersion(ids[0], t.vaults[ids[0]].version)] + rest
      else rest
  }

  /** The live secrets of a vault of the user: WHERE vault_id = $1 AND user_id = $2 AND NOT deleted. */
  predicate Served(t: Tables, user: UserId, vault: VaultId, id: SecretId) {
    Owns(t, user, id) && t.secrets[id].vault == vault && !t.secrets[id].deleted
  }

  function RowsOf(t: Tables, user: UserId, vault: VaultId, ids: seq<SecretId>): (items: seq<RowItem>)
    ensures forall i :: 0 <= i < |items| ==>
              && Served(t, user, vault, items[i].id)
              && items[i].kind == t.secrets[items[i].id].kind
              && items[i].version == t.secrets[items[i].id].version
              && items[i].encRow == t.secrets[items[i].id].tiers.row
    ensures forall id :: id in ids && Served(t, user, vault, id) ==> exists i :: 0 <= i < |items| && items[i].id == id
  {
    if ids == [] then []
    else
      var rest := RowsOf(t, user, vault, ids[1..]);
      if Served(t, user, vault, ids[0]) then
        var row := t.secrets[ids[0]];
        var items := [RowItem(ids[0], row.kind, row.version, row.tiers.row)] + rest;
        assert forall i :: 0 <= i < |rest| ==> items[i + 1] == rest[i];
        assert items[0].id == ids[0];
        items
      else rest
  }

  function IndexesOf(t: Tables, user: UserId, vault: VaultId, ids: seq<SecretId>): (items: seq<IndexItem>)
    ensures forall i :: 0 <= i < |items| ==>
              && Served(t, user, vault, items[i].id)
              && items[i].version == t.secrets[items[i].id].version
              && items[i].encIndex == t.secrets[items[i].id].tiers.index
    ensures forall id :: id in ids && Served(t, user, vault, id) ==> exists i :: 0 <= i < |items| && items[i].id == id
  {
    if ids == [] then []
    else
      var rest := IndexesOf(t, user, vault, ids[1..]);
      if Served(t, user, vault, ids[0]) then
        var row := t.secrets[ids[0]];
        var items := [IndexItem(ids[0], row.version, row.tiers.index)] + rest;
        assert forall i :: 0 <= i < |rest| ==> items[i + 1] == rest[i];
        assert items[0].id == ids[0];
        items
      else rest
  }

  function ObjectKey(vault: VaultId, id: SecretId): string { vault + "/" + id }

  /** The reply to a request that changes no table. */
  function Query(t: Tables, req: Request): Reply
    requires !IsTransaction(req)
  {
    match req
    case Upload(user, id) =>
      if user == "" || id == "" then Fault(InvalidArgument)
      else if !Owns(t, user, id) then Fault(NotFound)
      else Uploaded(ObjectKey(t.secrets[id].vault, id))
    case CheckFreshness(user) =>
      if user == "" then Fault(InvalidArgument) else Vaults(VaultVersions(t, user, t.vaultOrder))
    case ListVaults(user) =>
      if user == "" then Fault(InvalidArgument) else Vaults(VaultVersions(t, user, t.vaultOrder))
    case ListRows(user, vault) =>
      if user == "" || vault == "" then Fault(InvalidArgument) else Rows(RowsOf(t, user, vault, t.secretOrder))
    case ListIndex(user, vault) =>
      if user == "" || vault == "" then Fault(InvalidArgument) else Indexes(IndexesOf(t, user, vault, t.secretOrder))
    case GetPayload(user, id) =>
      if user == "" || id == "" then Fault(InvalidArgument)
      else if !Owns(t, user, id) || t.secrets[id].deleted then Fault(NotFound)
      else Payload(t.secrets[id].version, t.secrets[id].tiers.payload)
  }

  predicate IsTransaction(req: Request) {
    req.CreateVault? || req.Create? || req.Update? || req.Delete? || req.Attach?
  }

  function Exec(t: Tables, req: Request): (Tables, Reply) {
    match req
    case CreateVault(user, vault) => ExecCreateVault(t, user, vault)
    case Create(user, id, vault, kind, tiers) => ExecCreate(t, user, id, vault, kind, tiers)
    case Update(user, id, base, tiers) => ExecUpdate(t, user, id, base, tiers)
    case Delete(user, id, base) => ExecDelete(t, user, id, base)
    case Attach(user, id, base, blobRef) => ExecAttach(t, user, id, base, blobRef)
    case _ => (t, Query(t, req))
  }

  /** The request changed a table. */
  predicate Accepted(t: Tables, req: Request) {
    IsTransaction(req) && Exec(t, req).1.Done?
  }

  /** A run of requests, from whatever clients, one after the other. */
  function RunAll(t: Tables, reqs: seq<Request>): Tables
    decreases |reqs|
  {
    if reqs == [] then t else RunAll(Exec(t, reqs[0]).0, reqs[1..])
  }
}

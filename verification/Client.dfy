/** The client's use cases as they run: they update the store in place and call the server over the link. */
module Clients {
  import opened Bytes
  import opened Types
  import opened Sealing
  import opened ServerModel
  import opened DatabaseTables
  import S = StoreModel
  import opened StoreModel
  import opened StoreLaws
  import opened LocalStorage
  import M = ClientModel
  import opened ClientModel

  /** The connection to the server: other devices act before each call, and the call meets its fate. */
  class Link {
    const db: Database
    var tape: seq<Net>
    ghost var accepted: seq<Request>

    ghost function State(): Wire
      reads this, db
    {
      Wire(db.State(), tape, accepted)
    }

    constructor (db: Database, tape: seq<Net>)
      ensures this.db == db && State() == Wire(db.State(), tape, [])
    {
      this.db, this.tape, accepted := db, tape, [];
    }

    method ServeOthers(reqs: seq<Request>)
      modifies db
      ensures db.State() == RunAll(old(db.State()), reqs)
    {
      var k := 0;
      while k < |reqs|
        invariant 0 <= k <= |reqs|
        invariant RunAll(old(db.State()), reqs) == RunAll(db.State(), reqs[k..])
      {
        var _ := db.Serve(reqs[k]);
        k := k + 1;
      }
    }

    method Call(req: Request) returns (reply: Reply)
      modifies this`tape, this`accepted, db
      ensures (State(), reply) == M.Call(old(State()), req)
    {
      if tape == [] {
        return Fault(Unavailable);
      }
      var net := tape[0];
      tape := tape[1..];
      ServeOthers(net.others);
      if net.fate.Refuse? {
        return Fault(net.fate.error);
      }
      accepted := accepted + if Accepted(db.State(), req) then [req] else [];
      reply := db.Serve(req);
      if net.fate.LoseReply? {
        reply := Fault(net.fate.error);
      }
    }
  }

  class Client {
    const user: UserId
    const store: LocalStore
    const link: Link
    var open: map<VaultId, Key>
    var staged: set<SecretId>

    ghost function State(): World
      reads this, store, link, link.db
    {
      World(link.State(), store.State(), Session(user, open), staged)
    }

    constructor (user: UserId, store: LocalStore, link: Link)
      ensures this.user == user && this.store == store && this.link == link
      ensures State() == World(link.State(), store.State(), Session(user, map[]), {})
    {
      this.user, this.store, this.link := user, store, link;
      open, staged := map[], {};
    }

    method VaultKey(vault: VaultId) returns (r: Result<Key>)
      ensures r == VaultContext(State().session, vault)
    {
      if vault == "" { return Err(EmptyVaultId); }
      if vault !in open { return Err(VaultLocked); }
      return Ok(open[vault]);
    }

    method OpenVault(vault: VaultId, key: Key)
      modifies this`open
      ensures State() == M.OpenVault(old(State()), vault, key)
    {
      open := open[vault := key];
    }

    /** Every vault that unwraps is opened and cached; what the server did not list leaves the cache. */
    method List(keys: map<VaultId, Key>) returns (r: Result<seq<ListedVault>>)
      modifies this`open, store, link, link.db
      ensures (State(), r) == M.ListAndOpen(old(State()), keys)
    {
      var reply := link.Call(ListVaults(user));
      if !reply.Vaults? { return Err(if reply.Fault? then reply.error else Internal); }
      var shown := OpenListed(reply.vaults, keys);
      PruneStaleVaults(Ids(reply.vaults));
      return Ok(shown);
    }

    method OpenListed(items: seq<VaultVersion>, keys: map<VaultId, Key>) returns (shown: seq<ListedVault>)
      modifies this`open, store
      ensures (State(), shown) == ListInto(old(State()), items, keys)
    {
      shown := [];
      var k := 0;
      assert items[0..] == items;
      while k < |items|
        invariant 0 <= k <= |items|
        invariant link.State() == old(link.State()) && staged == old(staged)
        invariant ListInto(old(State()), items, keys).0 == ListInto(State(), items[k..], keys).0
        invariant ListInto(old(State()), items, keys).1 == shown + ListInto(State(), items[k..], keys).1
      {
        var it := items[k];
        k := k + 1;
        assert items[k - 1..][1..] == items[k..];
        if it.id !in keys { continue; }
        OpenVault(it.id, keys[it.id]);
        store.UpsertVault(it.id, CachedVault(it.version, 0, false));
        ghost var rest := ListInto(State(), items[k..], keys).1;
        AppendAssociates(shown, [ListedVault(it.id, it.version, store.vaults[it.id].syncEnabled)], rest);
        shown := shown + [ListedVault(it.id, it.version, store.vaults[it.id].syncEnabled)];
      }
      assert items[k..] == [] && shown + [] == shown;
    }

    method PruneStaleVaults(seen: set<VaultId>)
      modifies store
      ensures store.State() == Prune(old(store.State()), seen)
    {
      var cached := store.vaults.Keys;
      while cached != {}
        invariant cached <= store.vaults.Keys
        invariant store.secrets == old(store.secrets)
        invariant store.outbox == old(store.outbox) && store.nextId == old(store.nextId)
        invariant store.vaults.Keys <= old(store.vaults.Keys)
        invariant forall v :: v in store.vaults ==> store.vaults[v] == old(store.vaults)[v]
        invariant forall v :: v in old(store.vaults) && (v in cached || v in seen) ==> v in store.vaults
        invariant forall v :: v in store.vaults && v !in cached ==> v in seen
        decreases |cached|
      {
        var v :| v in cached;
        cached := cached - {v};
        if v !in seen {
          store.DeleteVault(v);
        }
      }
    }

    method Lock()
      modifies this`open
      ensures State() == M.Lock(old(State()))
    {
      open := map[];
    }

    // ----- cache helpers -----

    method CacheFullSecret(id: SecretId, vault: VaultId, kind: int, tiers: Tiers, version: int, dirty: bool)
      modifies store
      ensures store.State() == CacheFull(old(store.State()), id, vault, kind, tiers, version, dirty)
    {
      store.UpsertSecretRow(id,
        CachedSecret(vault, kind, tiers, version, tiers.index.Sealed?, tiers.payload.Sealed?, dirty));
      if tiers.index.Sealed? {
        store.SetSecretIndex(id, tiers.index, version);
      }
      if tiers.payload.Sealed? {
        store.SetSecretPayload(id, tiers.payload, version);
      }
    }

    method CacheCreated(id: SecretId, vault: VaultId, kind: int, tiers: Tiers, dirty: bool)
      modifies store
      ensures store.State()
           == S.UpsertSecretRow(old(store.State()), id, Loaded(vault, kind, tiers, INITIAL_VERSION, dirty))
    {
      store.UpsertSecretRow(
        id, CachedSecret(vault, kind, tiers, INITIAL_VERSION, tiers.index.Sealed?, tiers.payload.Sealed?, dirty));
    }

    method CreateOffline(id: SecretId, vault: VaultId, kind: int, tiers: Tiers)
      modifies store
      ensures store.State() == M.CreateOffline(old(store.State()), id, vault, kind, tiers)
    {
      CacheCreated(id, vault, kind, tiers, true);
      var _ := store.EnqueueOutbox(id, CreateOp(vault, kind, tiers), Pending);
    }

    method UpdateOffline(id: SecretId, vault: VaultId, kind: int, base: int, tiers: Tiers)
      modifies store
      ensures store.State() == M.UpdateOffline(old(store.State()), id, vault, kind, base, tiers)
    {
      CacheFullSecret(id, vault, kind, tiers, base + 1, true);
      var _ := store.EnqueueOutbox(id, UpdateOp(vault, kind, base, tiers), Pending);
    }

    method DeleteOffline(id: SecretId, vault: VaultId, base: int)
      modifies store
      ensures store.State() == M.DeleteOffline(old(store.State()), id, vault, base)
    {
      var _ := store.EnqueueOutbox(id, DeleteOp(vault, base), Pending);
      store.DeleteSecret(id);
    }

    // ----- create, update, delete -----

    method CreateVault(vault: VaultId, key: Key) returns (r: Result<Unit>)
      modifies this, store, link, link.db
      ensures (State(), r) == M.CreateVault(old(State()), vault, key)
    {
      var reply := link.Call(ServerModel.CreateVault(user, vault));
      if reply.Fault? { return Err(reply.error); }
      open := open[vault := key];
      store.UpsertVault(vault, CachedVault(INITIAL_VERSION, 0, true));
      return Ok(Unit);
    }

    method CreateTyped(vault: VaultId, id: SecretId, kind: int, content: Content, n: Nonces)
      returns (r: Result<SecretId>)
      modifies store, link, link.db
      ensures (State(), r) == M.CreateTyped(old(State()), vault, id, kind, content, n)
    {
      var key := VaultKey(vault);
      if key.Err? { return Err(key.error); }
      var sealed := EncryptTiers(key.value, vault, id, INITIAL_VERSION, content, n);
      if sealed.Err? { return Err(sealed.error); }
      var tiers := sealed.value;
      var reply := link.Call(Create(user, id, vault, kind, tiers));
      if reply.Fault? {
        if !FallsBackOffline(reply.error) { return Err(reply.error); }
        CreateOffline(id, vault, kind, tiers);
      } else {
        CacheCreated(id, vault, kind, tiers, false);
      }
      return Ok(id);
    }

    method UpdateTyped(vault: VaultId, id: SecretId, base: int, kind: int, content: Content, n: Nonces)
      returns (r: Result<Option<Card>>)
      modifies store, link, link.db
      ensures (State(), r) == M.UpdateTyped(old(State()), vault, id, base, kind, content, n)
    {
      var key := VaultKey(vault);
      if key.Err? { return Err(key.error); }
      var sealed := EncryptTiers(key.value, vault, id, base + 1, content, n);
      if sealed.Err? { return Err(sealed.error); }
      var tiers := sealed.value;
      var reply := link.Call(Update(user, id, base, tiers));
      if reply.Fault? {
        if reply.error.Conflict? {
          return BuildCard(key.value, vault, id, Some(content), reply.error.server, AgainUpdate(kind, content));
        }
        if !FallsBackOffline(reply.error) { return Err(reply.error); }
        UpdateOffline(id, vault, kind, base, tiers);
      } else {
        CacheFullSecret(id, vault, kind, tiers, base + 1, false);
      }
      return Ok(None);
    }

    method DeleteSecret(vault: VaultId, id: SecretId, base: int) returns (r: Result<Option<Card>>)
      modifies store, link, link.db
      ensures (State(), r) == M.DeleteSecret(old(State()), vault, id, base)
    {
      if id == "" { return Err(EmptySecretId); }
      var key := VaultKey(vault);
      if key.Err? { return Err(key.error); }
      var reply := link.Call(Delete(user, id, base));
      if reply.Fault? {
        if reply.error.Conflict? {
          return BuildCard(key.value, vault, id, None, reply.error.server, AgainDelete);
        }
        if !FallsBackOffline(reply.error) { return Err(reply.error); }
        DeleteOffline(id, vault, base);
      } else {
        store.DeleteSecret(id);
      }
      return Ok(None);
    }

    method MarkOtpCodeUsed(vault: VaultId, id: SecretId, mark: string -> Option<string>, n: Nonces)
      returns (r: Result<Unit>)
      modifies store, link, link.db
      ensures (State(), r) == M.MarkOtpCodeUsed(old(State()), vault, id, mark, n)
    {
      if id == "" { return Err(EmptySecretId); }
      var key := VaultKey(vault);
      if key.Err? { return Err(key.error); }
      if id !in store.secrets { return Err(SecretNotCached); }
      var local := store.secrets[id];
      var content := DecryptTiers(key.value, vault, id, local.version, local.tiers);
      if content.Err? { return Err(content.error); }
      var marked := mark(content.value.payload);
      if marked.None? { return Err(OtpCodeRejected); }
      var tiers := Marked(key.value, vault, id, local.version, content.value, marked.value, n);
      var reply := link.Call(Update(user, id, local.version, tiers));
      if reply.Fault? {
        if !IsOffline(reply.error) { return Err(reply.error); }
        UpdateOffline(id, vault, local.kind, local.version, tiers);
      } else {
        CacheFullSecret(id, vault, local.kind, tiers, local.version + 1, false);
      }
      return Ok(Unit);
    }

    // ----- binary secrets -----

    method RetryBlobUpload(id: SecretId, vault: VaultId) returns (r: Result<Unit>)
      modifies this`staged, link, link.db
      ensures (State(), r) == M.RetryBlobUpload(old(State()), id, vault)
    {
      if id !in staged { return Err(NothingStaged); }
      var key := VaultKey(vault);
      if key.Err? { return Err(key.error); }
      var uploaded := link.Call(Upload(user, id));
      if uploaded.Fault? { return Err(uploaded.error); }
      if !uploaded.Uploaded? { return Err(Internal); }
      var attached := link.Call(Attach(user, id, INITIAL_VERSION, uploaded.blobRef));
      if attached.Fault? { return Err(attached.error); }
      staged := staged - {id};
      return Ok(Unit);
    }

    method CreateBinary(vault: VaultId, id: SecretId, content: Content, n: Nonces, staging: Staging)
      returns (made: Option<SecretId>, r: Result<Unit>)
      modifies this`staged, store, link, link.db
      ensures (State(), made, r) == M.CreateBinary(old(State()), vault, id, content, n, staging)
    {
      var created := CreateTyped(vault, id, BINARY_KIND, content, n);
      if created.Err? { return None, Err(created.error); }
      if staging.CopyFails? { return Some(id), Err(StagingFailed); }
      staged := staged + {id};
      if staging.OpenFails? { return Some(id), Err(StagingFailed); }
      var sent := RetryBlobUpload(id, vault);
      if sent.Err? {
        var _ := store.EnqueueOutbox(id, BlobOp(vault), Pending);
        return Some(id), Err(sent.error);
      }
      return Some(id), Ok(Unit);
    }

    // ----- replay -----

    method HandleReplayConflict(entry: nat, e: Error) returns (r: Result<bool>)
      modifies store
      ensures (State(), r) == M.ReplayConflict(old(State()), entry, e)
    {
      if !e.Conflict? { return Err(e); }
      var marked := store.SetOutboxStatus(entry, InConflict);
      if marked.Err? { return Err(marked.error); }
      return Ok(false);
    }

    method ReplayCreate(id: SecretId, vault: VaultId, kind: int, tiers: Tiers) returns (r: Result<bool>)
      modifies store, link, link.db
      ensures (State(), r) == M.ReplayCreate(old(State()), id, vault, kind, tiers)
    {
      var reply := link.Call(Create(user, id, vault, kind, tiers));
      if reply.Fault? { return Err(reply.error); }
      CacheCreated(id, vault, kind, tiers, false);
      return Ok(true);
    }

    method ReplayUpdate(entry: nat, id: SecretId, p: Op) returns (r: Result<bool>)
      requires p.UpdateOp?
      modifies store, link, link.db
      ensures (State(), r) == M.ReplayUpdate(old(State()), entry, id, p)
    {
      var reply := link.Call(Update(user, id, p.base, p.tiers));
      if reply.Fault? {
        r := HandleReplayConflict(entry, reply.error);
      } else {
        store.UpsertSecretRow(id, Loaded(p.vault, p.kind, p.tiers, p.base + 1, false));
        r := Ok(true);
      }
    }

    method ReplayDelete(entry: nat, id: SecretId, base: int) returns (r: Result<bool>)
      modifies store, link, link.db
      ensures (State(), r) == M.ReplayDelete(old(State()), entry, id, base)
    {
      var reply := link.Call(Delete(user, id, base));
      if reply.Fault? {
        r := HandleReplayConflict(entry, reply.error);
      } else {
        store.DeleteSecret(id);
        r := Ok(true);
      }
    }

    method ReplayBlobUpload(id: SecretId, vault: VaultId) returns (r: Result<bool>)
      modifies this`staged, store, link, link.db
      ensures (State(), r) == M.ReplayBlobUpload(old(State()), id, vault)
    {
      var sent := RetryBlobUpload(id, vault);
      match sent
      case Ok(_) => r := Ok(true);
      case Err(e) => r := if IsOffline(e) then Ok(false) else Err(e);
    }

    method ReplayEntry(e: Entry) returns (r: Result<bool>)
      modifies this`staged, store, link, link.db
      ensures (State(), r) == M.ReplayEntry(old(State()), e)
    {
      match e.op
      case CreateOp(vault, kind, tiers) => r := ReplayCreate(e.entityId, vault, kind, tiers);
      case UpdateOp(_, _, _, _) => r := ReplayUpdate(e.id, e.entityId, e.op);
      case DeleteOp(_, base) => r := ReplayDelete(e.id, e.entityId, base);
      case BlobOp(vault) => r := ReplayBlobUpload(e.entityId, vault);
    }

    method ReplayOutbox() returns (r: Result<Unit>)
      modifies this`staged, store, link, link.db
      ensures (State(), r) == M.ReplayOutbox(old(State()))
    {
      var entries := store.ListOutboxByStatus(Pending);
      var k := 0;
      while k < |entries|
        invariant 0 <= k <= |entries|
        invariant ReplayAll(old(State()), entries) == ReplayAll(State(), entries[k..])
      {
        var e := entries[k];
        k := k + 1;
        assert entries[k - 1..][1..] == entries[k..];
        if e.entity != SECRET { continue; }
        var done := ReplayEntry(e);
        if done.Err? {
          if IsOffline(done.error) { return Ok(Unit); }
          return Err(done.error);
        }
        if done.value {
          store.RemoveOutbox(e.id);
        }
      }
      return Ok(Unit);
    }

    // ----- conflicts -----

    method ConflictFromOutboxUpdate(e: Entry) returns (r: Result<Option<Card>>)
      requires e.op.UpdateOp?
      modifies store, link, link.db
      ensures (State(), r) == M.ConflictFromOutboxUpdate(old(State()), e)
    {
      var p, id := e.op, e.entityId;
      var key := VaultKey(p.vault);
      if key.Err? { return Err(key.error); }
      var mine := DecryptTiers(key.value, p.vault, id, p.base + 1, p.tiers);
      if mine.Err? { return Err(mine.error); }
      var reply := link.Call(Update(user, id, p.base, p.tiers));
      if reply.Fault? {
        if !reply.error.Conflict? { return Err(reply.error); }
        return BuildCard(key.value, p.vault, id, Some(mine.value), reply.error.server, AgainOutboxUpdate(e.id, p));
      }
      store.RemoveOutbox(e.id);
      CacheFullSecret(id, p.vault, p.kind, p.tiers, p.base + 1, false);
      return Ok(None);
    }

    method ConflictFromOutboxDelete(e: Entry) returns (r: Result<Option<Card>>)
      requires e.op.DeleteOp?
      modifies store, link, link.db
      ensures (State(), r) == M.ConflictFromOutboxDelete(old(State()), e)
    {
      var key := VaultKey(e.op.vault);
      if key.Err? { return Err(key.error); }
      var reply := link.Call(Delete(user, e.entityId, e.op.base));
      if reply.Fault? {
        if !reply.error.Conflict? { return Err(reply.error); }
        return BuildCard(key.value, e.op.vault, e.entityId, None, reply.error.server, AgainOutboxDelete(e.id));
      }
      store.RemoveOutbox(e.id);
      store.DeleteSecret(e.entityId);
      return Ok(None);
    }

    method ConflictFromOutbox(entry: nat) returns (r: Result<Option<Card>>)
      modifies store, link, link.db
      ensures (State(), r) == M.ConflictFromOutbox(old(State()), entry)
    {
      var found := store.GetOutbox(entry);
      if found.None? || found.value.entity != SECRET { return Err(EntryNotFound); }
      match found.value.op
      case UpdateOp(_, _, _, _) => r := ConflictFromOutboxUpdate(found.value);
      case DeleteOp(_, _) => r := ConflictFromOutboxDelete(found.value);
      case _ => r := Err(EntryNotFound);
    }

    method RetryOutboxUpdate(entry: nat, id: SecretId, p: Op, base: int, n: Nonces) returns (r: Result<Option<Card>>)
      requires p.UpdateOp?
      modifies store, link, link.db
      ensures (State(), r) == M.RetryOutboxUpdate(old(State()), entry, id, p, base, n)
    {
      var key := VaultKey(p.vault);
      if key.Err? { return Err(key.error); }
      var content := DecryptTiers(key.value, p.vault, id, p.base + 1, p.tiers);
      if content.Err? { return Err(content.error); }
      var sealed := EncryptTiers(key.value, p.vault, id, base + 1, content.value, n);
      if sealed.Err? { return Err(sealed.error); }
      r := SendAgain(entry, id, p, base, sealed.value);
    }

    method SendAgain(entry: nat, id: SecretId, p: Op, base: int, tiers: Tiers) returns (r: Result<Option<Card>>)
      requires p.UpdateOp?
      modifies store, link, link.db
      ensures (State(), r) == M.SendAgain(old(State()), entry, id, p, base, tiers)
    {
      var reply := link.Call(Update(user, id, base, tiers));
      if reply.Fault? {
        if !reply.error.Conflict? { return Err(reply.error); }
        var marked := store.SetOutboxStatus(entry, InConflict);
        if marked.Err? { return Err(marked.error); }
        store.RemoveOutbox(entry);
        var requeued := store.EnqueueOutbox(id, p.(base := base, tiers := tiers), InConflict);
        r := ConflictFromOutbox(requeued);
      } else {
        store.RemoveOutbox(entry);
        CacheFullSecret(id, p.vault, p.kind, tiers, base + 1, false);
        r := Ok(None);
      }
    }

    method RetryOutboxDelete(entry: nat, vault: VaultId, id: SecretId, base: int) returns (r: Result<Option<Card>>)
      modifies store, link, link.db
      ensures (State(), r) == M.RetryOutboxDelete(old(State()), entry, vault, id, base)
    {
      r := DeleteSecret(vault, id, base);
      if r.Ok? && r.value.None? {
        store.RemoveOutbox(entry);
      }
    }

    method ResolveConflict(c: Card, choice: Choice, n: Nonces) returns (r: Result<Option<Card>>)
      requires CardFormed(c)
      modifies store, link, link.db
      ensures (State(), r) == M.Resolve(old(State()), c, choice, n)
    {
      if choice.ChoiceServer? {
        CacheFullSecret(c.secret, c.vault, c.server.kind, c.server.tiers, c.server.version, false);
        return Ok(None);
      }
      match c.retry
      case AgainUpdate(kind, content) => r := UpdateTyped(c.vault, c.secret, c.server.version, kind, content, n);
      case AgainDelete => r := DeleteSecret(c.vault, c.secret, c.server.version);
      case AgainOutboxUpdate(entry, op) => r := RetryOutboxUpdate(entry, c.secret, op, c.server.version, n);
      case AgainOutboxDelete(entry) => r := RetryOutboxDelete(entry, c.vault, c.secret, c.server.version);
    }

    // ----- lazy tiers -----

    method LoadIndexes(vault: VaultId) returns (r: Result<Unit>)
      modifies store, link, link.db
      ensures (State(), r) == M.LoadIndexes(old(State()), vault)
    {
      if vault == "" { return Err(EmptyVaultId); }
      var reply := link.Call(ListIndex(user, vault));
      if !reply.Indexes? { return Err(if reply.Fault? then reply.error else Internal); }
      CacheIndexes(reply.indexes);
      return Ok(Unit);
    }

    method CacheIndexes(items: seq<IndexItem>)
      modifies store
      ensures store.State() == FillIndexes(old(store.State()), items)
    {
      var k := 0;
      while k < |items|
        invariant 0 <= k <= |items|
        invariant FillIndexes(old(store.State()), items) == FillIndexes(store.State(), items[k..])
      {
        var it := items[k];
        k := k + 1;
        assert items[k - 1..][1..] == items[k..];
        if it.id !in store.secrets || store.secrets[it.id].dirty || store.secrets[it.id].indexLoaded { continue; }
        store.SetSecretIndex(it.id, it.encIndex, it.version);
      }
    }

    method PayloadCiphertext(id: SecretId) returns (r: Result<(Blob, int)>)
      modifies store, link, link.db
      ensures (State(), r) == M.PayloadCiphertext(old(State()), id)
    {
      if id in store.secrets && store.secrets[id].payloadLoaded {
        return Ok((store.secrets[id].tiers.payload, store.secrets[id].version));
      }
      var reply := link.Call(GetPayload(user, id));
      if !reply.Payload? { return Err(if reply.Fault? then reply.error else Internal); }
      if id in store.secrets {
        store.SetSecretPayload(id, reply.encPayload, reply.version);
      }
      return Ok((reply.encPayload, reply.version));
    }

    method ReadPayload(vault: VaultId, id: SecretId) returns (r: Result<(int, string)>)
      modifies store, link, link.db
      ensures (State(), r) == M.ReadPayload(old(State()), vault, id)
    {
      if id == "" { return Err(EmptySecretId); }
      var key := VaultKey(vault);
      if key.Err? { return Err(key.error); }
      var got := PayloadCiphertext(id);
      if got.Err? { return Err(got.error); }
      var text := Open(key.value, Aad(vault, id, got.value.1, PayloadTier), got.value.0);
      if text.Err? { return Err(text.error); }
      return Ok((got.value.1, text.value));
    }

    method ReadDetail(vault: VaultId, id: SecretId) returns (r: Result<Detail>)
      modifies store, link, link.db
      ensures (State(), r) == M.ReadDetail(old(State()), vault, id)
    {
      if vault !in open { return Err(VaultLocked); }
      var key := open[vault];
      var read := ReadPayload(vault, id);
      if read.Err? { return Err(read.error); }
      var detail := Detail(read.value.0, read.value.1, None, None);
      if id !in store.secrets { return Ok(detail); }
      var local := store.secrets[id];
      var row := Open(key, Aad(vault, id, local.version, RowTier), local.tiers.row);
      if row.Err? { return Err(row.error); }
      detail := detail.(row := Some(row.value));
      if !local.indexLoaded {
        var _ := LoadIndexes(vault);
      }
      if id in store.secrets && store.secrets[id].indexLoaded && store.secrets[id].tiers.index.Sealed? {
        local := store.secrets[id];
        var index := Open(key, Aad(vault, id, local.version, IndexTier), local.tiers.index);
        if index.Err? { return Err(index.error); }
        detail := detail.(index := Some(index.value));
      }
      return Ok(detail);
    }

    /** The rows of one kind, decrypted one after the other; the first that does not open ends the listing. */
    method ListRowsTyped(vault: VaultId, kind: int) returns (r: Result<map<SecretId, (int, string)>>)
      ensures r == ReadRows(State(), vault, kind)
    {
      var key := VaultKey(vault);
      if key.Err? { return Err(key.error); }
      var todo := store.secrets.Keys;
      var rows: map<SecretId, (int, string)> := map[];
      ghost var w := State();
      while todo != {}
        invariant todo <= store.secrets.Keys
        invariant forall id :: id in rows <==>
                    id in store.secrets && id !in todo && Listed(store.State(), vault, kind, id)
        invariant forall id :: id in rows ==>
                    OpenRow(w, key.value, vault, id).Ok?
                    && rows[id] == (store.secrets[id].version, OpenRow(w, key.value, vault, id).value)
        decreases |todo|
      {
        var id :| id in todo;
        todo := todo - {id};
        var sec := store.secrets[id];
        if sec.vault != vault || sec.kind != kind { continue; }
        var text := Open(key.value, Aad(vault, id, sec.version, RowTier), sec.tiers.row);
        if text.Err? {
          assert Listed(store.State(), vault, kind, id) && OpenRow(w, key.value, vault, id).Err?;
          return Err(text.error);
        }
        rows := rows[id := (sec.version, text.value)];
      }
      forall id | Listed(store.State(), vault, kind, id) ensures OpenRow(w, key.value, vault, id).Ok? {
        assert id in rows;
      }
      assert rows == (map id | id in store.secrets && Listed(store.State(), vault, kind, id)
                         :: (store.secrets[id].version, OpenRow(w, key.value, vault, id).value));
      return Ok(rows);
    }

    // ----- pull -----

    method OutstandingSecretIds() returns (ids: set<SecretId>)
      ensures ids == Outstanding(store.outbox)
    {
      var pending := store.ListOutboxByStatus(Pending);
      var conflicts := store.ListOutboxByStatus(InConflict);
      ids := {};
      var k := 0;
      while k < |pending|
        invariant 0 <= k <= |pending|
        invariant ids == Outstanding(pending[..k])
      {
        assert pending[..k + 1] == pending[..k] + [pending[k]];
        if pending[k].entity == SECRET { ids := ids + {pending[k].entityId}; }
        k := k + 1;
      }
      assert pending[..k] == pending;
      k := 0;
      while k < |conflicts|
        invariant 0 <= k <= |conflicts|
        invariant ids == Outstanding(pending) + Outstanding(conflicts[..k])
      {
        assert conflicts[..k + 1] == conflicts[..k] + [conflicts[k]];
        if conflicts[k].entity == SECRET { ids := ids + {conflicts[k].entityId}; }
        k := k + 1;
      }
      assert conflicts[..k] == conflicts;
      OutstandingByStatus(store.outbox);
    }

    method RefreshVaultMeta() returns (r: Result<Unit>)
      modifies store, link, link.db
      ensures (State(), r) == M.RefreshVaultMeta(old(State()))
    {
      var reply := link.Call(ListVaults(user));
      if !reply.Vaults? { return Err(if reply.Fault? then reply.error else Internal); }
      CacheVaults(reply.vaults);
      return Ok(Unit);
    }

    method CacheVaults(items: seq<VaultVersion>)
      modifies store
      ensures store.State() == UpsertVaults(old(store.State()), items)
    {
      var k := 0;
      while k < |items|
        invariant 0 <= k <= |items|
        invariant UpsertVaults(old(store.State()), items) == UpsertVaults(store.State(), items[k..])
      {
        store.UpsertVault(items[k].id, CachedVault(items[k].version, 0, false));
        assert items[k..][1..] == items[k + 1..];
        k := k + 1;
      }
    }

    method PullVaultRows(vault: VaultId, version: int) returns (r: Result<Unit>)
      modifies store, link, link.db
      ensures (State(), r) == M.PullVaultRows(old(State()), vault, version)
    {
      var reply := link.Call(ListRows(user, vault));
      if !reply.Rows? { return Err(if reply.Fault? then reply.error else Internal); }
      var keep := OutstandingSecretIds();
      CacheRows(vault, reply.rows, keep);
      store.SetVaultSyncedVersion(vault, version);
      return Ok(Unit);
    }

    method CacheRows(vault: VaultId, rows: seq<RowItem>, keep: set<SecretId>)
      modifies store
      ensures store.State() == UpsertRows(old(store.State()), vault, rows, keep)
    {
      var k := 0;
      while k < |rows|
        invariant 0 <= k <= |rows|
        invariant UpsertRows(old(store.State()), vault, rows, keep) == UpsertRows(store.State(), vault, rows[k..], keep)
      {
        var row := rows[k];
        k := k + 1;
        assert rows[k - 1..][1..] == rows[k..];
        if row.id in keep { continue; }
        store.UpsertSecretRow(row.id,
          CachedSecret(vault, row.kind, Tiers(row.encRow, Empty, Empty), row.version, false, false, false));
      }
    }

    /** Versions first: the rows that are pulled later are at least as new as the version that is recorded. */
    method PrepareSync() returns (r: Result<seq<VaultVersion>>)
      modifies store, link, link.db
      ensures (State(), r) == M.Prepare(old(State()))
    {
      var reply := link.Call(CheckFreshness(user));
      if !reply.Vaults? { return Err(if reply.Fault? then reply.error else Internal); }
      var versions := reply.vaults;
      var missing, k := false, 0;
      while k < |versions|
        invariant 0 <= k <= |versions|
        invariant missing <==> exists i :: 0 <= i < k && versions[i].id !in store.vaults
      {
        missing := missing || versions[k].id !in store.vaults;
        k := k + 1;
      }
      if missing {
        var refreshed := RefreshVaultMeta();
        if refreshed.Err? { return Err(refreshed.error); }
      }
      return Ok(versions);
    }

    method Sync() returns (r: Result<Unit>)
      modifies store, link, link.db
      ensures (State(), r) == M.Sync(old(State()))
    {
      var prepared := PrepareSync();
      if prepared.Err? { return Err(prepared.error); }
      var versions, local := prepared.value, store.vaults;
      var k := 0;
      ghost var start := State();
      while k < |versions|
        invariant 0 <= k <= |versions|
        invariant PullStale(start, versions, local) == PullStale(State(), versions[k..], local)
      {
        var fv := versions[k];
        k := k + 1;
        assert versions[k - 1..][1..] == versions[k..];
        if fv.id in local && !local[fv.id].syncEnabled { continue; }
        if fv.id in local && local[fv.id].syncedVersion >= fv.version { continue; }
        var pulled := PullVaultRows(fv.id, fv.version);
        if pulled.Err? { return pulled; }
      }
      return Ok(Unit);
    }

    method PullEach(toSync: seq<VaultVersion>) returns (r: Result<Unit>)
      modifies store, link, link.db
      ensures (State(), r) == M.PullEach(old(State()), toSync)
    {
      var k := 0;
      while k < |toSync|
        invariant 0 <= k <= |toSync|
        invariant M.PullEach(old(State()), toSync) == M.PullEach(State(), toSync[k..])
      {
        var pulled := PullVaultRows(toSync[k].id, toSync[k].version);
        assert toSync[k..][1..] == toSync[k + 1..];
        if pulled.Err? { return pulled; }
        k := k + 1;
      }
      return Ok(Unit);
    }

    method LoadEach(toSync: seq<VaultVersion>)
      modifies store, link, link.db
      ensures State() == M.LoadEach(old(State()), toSync)
    {
      var k := 0;
      while k < |toSync|
        invariant 0 <= k <= |toSync|
        invariant M.LoadEach(old(State()), toSync) == M.LoadEach(State(), toSync[k..])
      {
        var _ := LoadIndexes(toSync[k].id);
        assert toSync[k..][1..] == toSync[k + 1..];
        k := k + 1;
      }
    }

    method SelectStale(versions: seq<VaultVersion>, local: map<VaultId, CachedVault>)
      returns (toSync: seq<VaultVersion>)
      ensures toSync == ToSync(versions, local)
    {
      toSync := [];
      var k := 0;
      while k < |versions|
        invariant 0 <= k <= |versions|
        invariant ToSync(versions, local) == toSync + ToSync(versions[k..], local)
      {
        var fv := versions[k];
        k := k + 1;
        if fv.id in local && !local[fv.id].syncEnabled { continue; }
        if fv.id in local && local[fv.id].syncedVersion >= fv.version { continue; }
        toSync := toSync + [fv];
      }
    }

    /** Pulls everything before it loads any index; a failure to load one is ignored. */
    method SyncWithProgress() returns (r: Result<Unit>)
      modifies store, link, link.db
      ensures (State(), r) == M.SyncWithProgress(old(State()))
    {
      var prepared := PrepareSync();
      if prepared.Err? { return Err(prepared.error); }
      var toSync := SelectStale(prepared.value, store.vaults);
      r := PullEach(toSync);
      if r.Err? { return; }
      LoadEach(toSync);
      return Ok(Unit);
    }
  }

  /** Pending and conflicting entries together are all entries. */
  lemma OutstandingByStatus(outbox: seq<Entry>)
    ensures Outstanding(outbox) == Outstanding(ByStatus(outbox, Pending)) + Outstanding(ByStatus(outbox, InConflict))
  {
    var parts := Outstanding(ByStatus(outbox, Pending)) + Outstanding(ByStatus(outbox, InConflict));
    forall e, status | e in ByStatus(outbox, status) ensures e in outbox {
      ByStatusMembers(outbox, status, e);
    }
    forall id | id in Outstanding(outbox) ensures id in parts {
      var e :| e in outbox && e.entity == SECRET && e.entityId == id;
      ByStatusMembers(outbox, e.status, e);
    }
  }
}

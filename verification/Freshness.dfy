/**
 * What the client's synced_version means: as long as it equals the server's version of a vault, every live secret of
 * the vault without an outbox entry is cached as the server has it. Other devices may do anything between two calls.
 */
module Freshness {
  import opened Types
  import opened ServerModel
  import opened ServerLaws
  import opened S = StoreModel
  import opened StoreLaws
  import opened ClientModel

  // ----- the invariant -----

  ghost predicate FreshVault(t: Tables, s: Store, v: VaultId) {
    v in s.vaults ==> s.vaults[v].syncedVersion <= VaultVersionOf(t, v)
  }

  /** The server moved the vault on since the client last pulled it. */
  ghost predicate Behind(t: Tables, s: Store, v: VaultId) {
    v in s.vaults ==> s.vaults[v].syncedVersion < VaultVersionOf(t, v)
  }

  ghost predicate Live(t: Tables, id: SecretId) {
    id in t.secrets && !t.secrets[id].deleted
  }

  /** The cache claims to be up to date for this secret. */
  ghost predicate Claimed(t: Tables, s: Store, id: SecretId) {
    && Live(t, id)
    && t.secrets[id].vault in s.vaults
    && s.vaults[t.secrets[id].vault].syncedVersion == VaultVersionOf(t, t.secrets[id].vault)
    && id !in Outstanding(s.outbox)
  }

  ghost predicate CachedAs(s: Store, id: SecretId, kind: int, version: int, encRow: Blob) {
    && id in s.secrets
    && s.secrets[id].kind == kind && s.secrets[id].version == version && s.secrets[id].tiers.row == encRow
  }

  /** The cached row is the server's. */
  ghost predicate AsServed(t: Tables, s: Store, id: SecretId)
    requires id in t.secrets
  {
    CachedAs(s, id, t.secrets[id].kind, t.secrets[id].version, t.secrets[id].tiers.row)
  }

  /** The cached row is still the one it was, apart from its other tiers. */
  ghost predicate RowKept(s: Store, s': Store, id: SecretId)
    requires id in s.secrets
  {
    CachedAs(s', id, s.secrets[id].kind, s.secrets[id].version, s.secrets[id].tiers.row)
  }

  ghost predicate FreshSecret(t: Tables, s: Store, id: SecretId) {
    Claimed(t, s, id) ==> AsServed(t, s, id)
  }

  ghost predicate Fresh(t: Tables, s: Store) {
    (forall v :: FreshVault(t, s, v)) && (forall id :: FreshSecret(t, s, id))
  }

  ghost predicate FreshWorld(w: World) {
    TablesOk(w.wire.tables) && OutboxOk(w.store) && Fresh(w.wire.tables, w.store)
  }

  // ----- steps of the wire -----

  lemma LaterKeepsFresh(t: Tables, t': Tables, s: Store)
    requires Fresh(t, s) && Later(t, t')
    ensures Fresh(t', s)
  {
    forall v ensures FreshVault(t', s, v) {
      assert FreshVault(t, s, v) && LaterVault(t, t', v);
    }
    forall id ensures FreshSecret(t', s, id) {
      if Claimed(t', s, id) {
        var v := t'.secrets[id].vault;
        assert FreshVault(t, s, v) && LaterVault(t, t', v);
        assert StillWithVault(t, t', id);
        assert FreshSecret(t, s, id);
      }
    }
  }

  lemma CallMovesForward(wire: Wire, req: Request)
    requires TablesOk(wire.tables)
    ensures var after := Call(wire, req).0.tables;
            TablesOk(after) && Later(wire.tables, after)
  {
    LaterIsReflexive(wire.tables);
    if wire.tape != [] {
      var before := RunAll(wire.tables, wire.tape[0].others);
      RunMovesForward(wire.tables, wire.tape[0].others);
      ExecKeepsTablesOk(before, req);
      ExecMovesForward(before, req);
      LaterIsTransitive(wire.tables, before, Exec(before, req).0);
    }
  }

  lemma CallKeepsFresh(w: World, req: Request)
    requires FreshWorld(w)
    ensures FreshWorld(w.(wire := Call(w.wire, req).0))
  {
    CallMovesForward(w.wire, req);
    LaterKeepsFresh(w.wire.tables, Call(w.wire, req).0.tables, w.store);
  }

  predicate Writes(req: Request) {
    req.Create? || req.Update? || req.Delete? || req.Attach?
  }

  /** An acknowledged write bumps the vault, so the client's last pull is behind it. */
  lemma AcknowledgedLeavesBehind(w: World, req: Request)
    requires FreshWorld(w) && Writes(req) && Call(w.wire, req).1.Done?
    ensures var t := Call(w.wire, req).0.tables;
            req.id in t.secrets && Behind(t, w.store, t.secrets[req.id].vault)
  {
    var before := RunAll(w.wire.tables, w.wire.tape[0].others);
    RunMovesForward(w.wire.tables, w.wire.tape[0].others);
    var v := Exec(before, req).0.secrets[req.id].vault;
    assert LaterVault(w.wire.tables, before, v) && FreshVault(w.wire.tables, w.store, v);
  }

  // ----- steps of the store -----

  /** The secret is gone, or its vault was written to since the client pulled it. */
  ghost predicate MovedOn(t: Tables, s: Store, id: SecretId) {
    Live(t, id) ==> Behind(t, s, t.secrets[id].vault)
  }

  /** Nothing can be claimed about this secret. */
  ghost predicate Covered(t: Tables, s: Store, id: SecretId) {
    id in Outstanding(s.outbox) || MovedOn(t, s, id)
  }

  ghost predicate SameOutside(s: Store, s': Store, id: SecretId) {
    && s'.vaults == s.vaults
    && Outstanding(s.outbox) <= Outstanding(s'.outbox) + {id}
    && forall other :: other != id && other in s.secrets ==>
         other in s'.secrets && s'.secrets[other] == s.secrets[other]
  }

  lemma TouchKeepsFresh(t: Tables, s: Store, s': Store, id: SecretId)
    requires Fresh(t, s) && SameOutside(s, s', id)
    requires Covered(t, s', id) || FreshSecret(t, s', id)
    ensures Fresh(t, s')
  {
    forall v ensures FreshVault(t, s', v) {
      assert FreshVault(t, s, v);
    }
    forall other ensures FreshSecret(t, s', other) {
      assert FreshSecret(t, s, other);
    }
  }

  lemma SameRowsKeepsFresh(t: Tables, s: Store, s': Store)
    requires Fresh(t, s) && s'.vaults == s.vaults && Outstanding(s.outbox) <= Outstanding(s'.outbox)
    requires forall id :: id in s.secrets ==> RowKept(s, s', id)
    ensures Fresh(t, s')
  {
    forall v ensures FreshVault(t, s', v) {
      assert FreshVault(t, s, v);
    }
    forall id ensures FreshSecret(t, s', id) {
      assert FreshSecret(t, s, id);
    }
  }

  // ----- steps of the client -----

  /** Whatever the cache claims after the step it claimed before, about the same server row. */
  ghost predicate NoNewClaims(t: Tables, s: Store, t': Tables, s': Store) {
    forall id :: Claimed(t', s', id) ==> Claimed(t, s, id) && t'.secrets[id] == t.secrets[id]
  }

  /** What every operation except a pull does to the world. */
  ghost predicate Quiet(w: World, w': World) {
    && FreshWorld(w')
    && Later(w.wire.tables, w'.wire.tables)
    && EntriesFixed(w.store, w'.store)
    && NoNewClaims(w.wire.tables, w.store, w'.wire.tables, w'.store)
  }

  lemma QuietIsTransitive(w: World, v: World, u: World)
    requires Quiet(w, v) && Quiet(v, u)
    ensures Quiet(w, u)
  {
    LaterIsTransitive(w.wire.tables, v.wire.tables, u.wire.tables);
    forall id | Claimed(u.wire.tables, u.store, id)
      ensures Claimed(w.wire.tables, w.store, id) && u.wire.tables.secrets[id] == w.wire.tables.secrets[id]
    {
      assert Claimed(v.wire.tables, v.store, id);
    }
  }

  /** A call followed by a store step that touches one secret, about which nothing is claimed any more. */
  lemma StepIsQuiet(w: World, req: Request, store: Store, id: SecretId)
    requires FreshWorld(w)
    requires SameOutside(w.store, store, id) && OutboxOk(store) && EntriesFixed(w.store, store)
    requires Covered(Call(w.wire, req).0.tables, store, id)
    ensures Quiet(w, w.(wire := Call(w.wire, req).0, store := store))
  {
    var t, t' := w.wire.tables, Call(w.wire, req).0.tables;
    CallMovesForward(w.wire, req);
    LaterKeepsFresh(t, t', w.store);
    TouchKeepsFresh(t', w.store, store, id);
    forall other | Claimed(t', store, other)
      ensures Claimed(t, w.store, other) && t'.secrets[other] == t.secrets[other]
    {
      var v := t'.secrets[other].vault;
      assert FreshVault(t, w.store, v) && LaterVault(t, t', v) && StillWithVault(t, t', other);
    }
  }

  lemma CallIsQuiet(w: World, req: Request)
    requires FreshWorld(w)
    ensures Quiet(w, w.(wire := Call(w.wire, req).0))
  {
    var t, t' := w.wire.tables, Call(w.wire, req).0.tables;
    CallMovesForward(w.wire, req);
    LaterKeepsFresh(t, t', w.store);
    forall other | Claimed(t', w.store, other)
      ensures Claimed(t, w.store, other) && t'.secrets[other] == t.secrets[other]
    {
      var v := t'.secrets[other].vault;
      assert FreshVault(t, w.store, v) && LaterVault(t, t', v) && StillWithVault(t, t', other);
    }
  }

  /** A store step that keeps every cached version and row, every vault and the outbox. */
  lemma SameRowsIsQuiet(w: World, store: Store)
    requires FreshWorld(w)
    requires store.vaults == w.store.vaults && store.outbox == w.store.outbox && store.nextId == w.store.nextId
    requires forall id :: id in w.store.secrets ==> RowKept(w.store, store, id)
    ensures Quiet(w, w.(store := store))
  {
    SameRowsKeepsFresh(w.wire.tables, w.store, store);
    LaterIsReflexive(w.wire.tables);
  }

  // ----- what each store step touches -----

  lemma CacheFullTouches(s: Store, id: SecretId, vault: VaultId, kind: int, tiers: Tiers, version: int, dirty: bool)
    ensures var s' := CacheFull(s, id, vault, kind, tiers, version, dirty);
            && s'.vaults == s.vaults && s'.outbox == s.outbox && s'.nextId == s.nextId
            && (forall other :: other != id && other in s.secrets ==>
                  other in s'.secrets && s'.secrets[other] == s.secrets[other])
            && CachedAs(s', id, kind, version, tiers.row)
  {
  }

  lemma EnqueueTouches(s: Store, id: SecretId, op: Op, status: Status)
    requires OutboxOk(s)
    ensures var s' := Enqueue(s, id, op, status);
            OutboxOk(s') && EntriesFixed(s, s') && Outstanding(s'.outbox) == Outstanding(s.outbox) + {id}
  {
    EnqueueKeepsOutbox(s, id, op, status);
    EnqueueMakesOutstanding(s, id, op, status);
  }

  lemma RemoveTouches(s: Store, entry: nat, id: SecretId)
    requires OutboxOk(s) && Named(s, entry, id)
    ensures var s' := RemoveOutbox(s, entry);
            OutboxOk(s') && EntriesFixed(s, s') && Outstanding(s.outbox) <= Outstanding(s'.outbox) + {id}
  {
    RemoveKeepsOutbox(s, entry);
    RemoveReleasesOnly(s, entry, id);
    forall x | x in Without(s.outbox, entry) ensures x in s.outbox {
      WithoutMembers(s.outbox, entry, x);
    }
  }

  lemma RestatusTouches(s: Store, entry: nat)
    requires OutboxOk(s)
    ensures var s' := s.(outbox := Restatus(s.outbox, entry, InConflict));
            OutboxOk(s') && EntriesFixed(s, s') && Outstanding(s'.outbox) == Outstanding(s.outbox)
  {
    RestatusKeepsOutbox(s, entry, InConflict);
    RestatusKeepsOutstanding(s.outbox, entry, InConflict);
    var marked := Restatus(s.outbox, entry, InConflict);
    forall x | x in marked ensures Old(s.outbox, x) { RestatusAddsNone(s.outbox, entry, x); }
  }

  // ----- create, update, delete -----

  lemma SendCreateIsQuiet(w: World, vault: VaultId, id: SecretId, kind: int, tiers: Tiers)
    requires FreshWorld(w)
    ensures Quiet(w, SendCreate(w, vault, id, kind, tiers).0)
  {
    var req := Create(w.session.user, id, vault, kind, tiers);
    var reply := Call(w.wire, req).1;
    if reply.Done? {
      AcknowledgedLeavesBehind(w, req);
      StepIsQuiet(w, req, UpsertSecretRow(w.store, id, Loaded(vault, kind, tiers, INITIAL_VERSION, false)), id);
    } else if FallsBackOffline(reply.error) {
      EnqueueTouches(w.store, id, CreateOp(vault, kind, tiers), Pending);
      StepIsQuiet(w, req, CreateOffline(w.store, id, vault, kind, tiers), id);
    } else {
      CallIsQuiet(w, req);
    }
  }

  lemma UpdateOfflineIsQuiet(w: World, req: Request, vault: VaultId, id: SecretId, kind: int, base: int, tiers: Tiers)
    requires FreshWorld(w)
    ensures Quiet(w, w.(wire := Call(w.wire, req).0, store := UpdateOffline(w.store, id, vault, kind, base, tiers)))
  {
    CacheFullTouches(w.store, id, vault, kind, tiers, base + 1, true);
    EnqueueTouches(CacheFull(w.store, id, vault, kind, tiers, base + 1, true), id,
                   UpdateOp(vault, kind, base, tiers), Pending);
    StepIsQuiet(w, req, UpdateOffline(w.store, id, vault, kind, base, tiers), id);
  }

  /**
   * An acknowledged update is cached; s is the store it is cached into, with at most one entry of the secret removed.
   */
  lemma CachedUpdateIsQuiet(w: World, req: Request, s: Store, vault: VaultId, kind: int, tiers: Tiers, version: int)
    requires FreshWorld(w) && Writes(req) && Call(w.wire, req).1.Done?
    requires SameOutside(w.store, s, req.id) && OutboxOk(s) && EntriesFixed(w.store, s)
    ensures Quiet(w, w.(wire := Call(w.wire, req).0, store := CacheFull(s, req.id, vault, kind, tiers, version, false)))
  {
    AcknowledgedLeavesBehind(w, req);
    CacheFullTouches(s, req.id, vault, kind, tiers, version, false);
    StepIsQuiet(w, req, CacheFull(s, req.id, vault, kind, tiers, version, false), req.id);
  }

  lemma SendUpdateIsQuiet(
      w: World, key: Key, vault: VaultId, id: SecretId, base: int, kind: int, content: Content, tiers: Tiers)
    requires FreshWorld(w)
    ensures Quiet(w, SendUpdate(w, key, vault, id, base, kind, content, tiers).0)
    ensures CardGood(SendUpdate(w, key, vault, id, base, kind, content, tiers))
  {
    var req := Update(w.session.user, id, base, tiers);
    var reply := Call(w.wire, req).1;
    if reply.Done? {
      CachedUpdateIsQuiet(w, req, w.store, vault, kind, tiers, base + 1);
    } else if reply.error.Conflict? {
      CallIsQuiet(w, req);
      ConflictIsCurrent(w.wire, req);
    } else if FallsBackOffline(reply.error) {
      UpdateOfflineIsQuiet(w, req, vault, id, kind, base, tiers);
    } else {
      CallIsQuiet(w, req);
    }
  }

  lemma SendDeleteIsQuiet(w: World, key: Key, vault: VaultId, id: SecretId, base: int)
    requires FreshWorld(w)
    ensures Quiet(w, SendDelete(w, key, vault, id, base).0)
    ensures CardGood(SendDelete(w, key, vault, id, base))
  {
    var req := Delete(w.session.user, id, base);
    var reply := Call(w.wire, req).1;
    if reply.Done? {
      AcknowledgedLeavesBehind(w, req);
      StepIsQuiet(w, req, S.DeleteSecret(w.store, id), id);
    } else if reply.error.Conflict? {
      CallIsQuiet(w, req);
      ConflictIsCurrent(w.wire, req);
    } else if FallsBackOffline(reply.error) {
      EnqueueTouches(w.store, id, DeleteOp(vault, base), Pending);
      StepIsQuiet(w, req, DeleteOffline(w.store, id, vault, base), id);
    } else {
      CallIsQuiet(w, req);
    }
  }

  lemma SendMarkedIsQuiet(w: World, vault: VaultId, id: SecretId, kind: int, base: int, tiers: Tiers)
    requires FreshWorld(w)
    ensures Quiet(w, SendMarked(w, vault, id, kind, base, tiers).0)
  {
    var req := Update(w.session.user, id, base, tiers);
    var reply := Call(w.wire, req).1;
    if reply.Done? {
      CachedUpdateIsQuiet(w, req, w.store, vault, kind, tiers, base + 1);
    } else if IsOffline(reply.error) {
      UpdateOfflineIsQuiet(w, req, vault, id, kind, base, tiers);
    } else {
      CallIsQuiet(w, req);
    }
  }

  lemma StayingIsQuiet(w: World)
    requires FreshWorld(w)
    ensures Quiet(w, w)
  {
    LaterIsReflexive(w.wire.tables);
  }

  // ----- what a card tells about the server -----

  ghost predicate CardEntryNamed(s: Store, c: Card) {
    match c.retry
    case AgainOutboxUpdate(entry, op) => op.UpdateOp? && Named(s, entry, c.secret)
    case AgainOutboxDelete(entry) => Named(s, entry, c.secret)
    case _ => true
  }

  /** The card shows a version that the server has, or has left behind. */
  ghost predicate CardSound(t: Tables, c: Card) {
    && c.secret in t.secrets && c.server.kind == t.secrets[c.secret].kind
    && c.server.version <= t.secrets[c.secret].version
    && (c.server.version == t.secrets[c.secret].version ==>
          c.server.tiers == t.secrets[c.secret].tiers && !t.secrets[c.secret].deleted)
  }

  /** As long as the client has not synced since, the card is as new as anything the cache may claim. */
  ghost predicate CardCurrent(t: Tables, s: Store, c: Card) {
    Claimed(t, s, c.secret) ==> c.server.version == t.secrets[c.secret].version
  }

  ghost predicate GoodCard(w: World, c: Card) {
    CardSound(w.wire.tables, c) && CardEntryNamed(w.store, c) && CardCurrent(w.wire.tables, w.store, c)
  }

  ghost predicate CardGood(step: (World, Result<Option<Card>>)) {
    step.1.Ok? && step.1.value.Some? ==> GoodCard(step.0, step.1.value.value)
  }

  /** A conflict shows the server's row as it is when the answer is given. */
  lemma ConflictIsCurrent(wire: Wire, req: Request)
    requires Call(wire, req).1.Fault? && Call(wire, req).1.error.Conflict?
    ensures var t := Call(wire, req).0.tables;
            req.id in t.secrets && !t.secrets[req.id].deleted && Call(wire, req).1.error.server == Copy(t, req.id)
  {
  }

  lemma LaterKeepsSound(t: Tables, t': Tables, c: Card)
    requires CardSound(t, c) && Later(t, t')
    ensures CardSound(t', c)
  {
    assert LaterSecret(t, t', c.secret);
  }

  lemma QuietKeepsCard(w: World, w': World, c: Card)
    requires Quiet(w, w') && GoodCard(w, c)
    ensures GoodCard(w', c)
  {
    LaterKeepsSound(w.wire.tables, w'.wire.tables, c);
    assert Claimed(w'.wire.tables, w'.store, c.secret) ==> Claimed(w.wire.tables, w.store, c.secret);
  }
}

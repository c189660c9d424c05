/**
 * What the list shows of an up-to-date vault: every live secret as the server has it, and besides those that were
 * deleted elsewhere, since a pull removes nothing from the cache.
 */
module ListedSecrets {
  import opened Types
  import opened Sealing
  import opened ServerModel
  import opened ServerLaws
  import opened S = StoreModel
  import opened StoreLaws
  import opened ClientModel
  import opened Coherence
  import opened Freshness
  import opened FreshOperations
  import opened StagedSync
  import opened CatchingUp
  import opened BlockedQueue
  import opened Reading

  /** A live secret of this kind in the vault. */
  ghost predicate LiveIn(t: Tables, vault: VaultId, kind: int, id: SecretId) {
    Live(t, id) && t.secrets[id].vault == vault && t.secrets[id].kind == kind
  }

  /** Cached as of this kind in the vault, but not a live secret any more. */
  ghost predicate Ghost(d: Directory, w: World, vault: VaultId, kind: int, id: SecretId) {
    id in w.store.secrets && d.home(id) == vault && d.kind(id) == kind && !Live(w.wire.tables, id)
  }

  /**
   * The list of an up-to-date vault shows a secret that has no entry if and only if it is live on the server, and then
   * with the server's version and row; or if it is a ghost.
   */
  lemma ListShowsIff(d: Directory, w: World, vault: VaultId, kind: int, id: SecretId)
    requires Inv(d, w) && FreshWorld(w) && vault != "" && vault in w.session.open
    requires UpToDate(w.wire.tables, w.store, vault) && id !in Outstanding(w.store.outbox)
    ensures var t, r := w.wire.tables, ReadRows(w, vault, kind);
            && r.Ok?
            && (id in r.value <==> LiveIn(t, vault, kind, id) || Ghost(d, w, vault, kind, id))
            && (LiveIn(t, vault, kind, id) ==>
                  r.value[id] == (t.secrets[id].version, Plain(t.secrets[id].tiers.row)))
  {
    RowsAreRead(d, w, vault, kind, id);
    assert FreshSecret(w.wire.tables, w.store, id);
  }

  // ----- ghosts -----

  lemma {:induction false} UpsertRowsRemovesNone(
      s: Store, vault: VaultId, rows: seq<RowItem>, keep: set<SecretId>, id: SecretId)
    requires id in s.secrets
    ensures id in UpsertRows(s, vault, rows, keep).secrets
    decreases |rows|
  {
    if rows != [] {
      var r := rows[0];
      var row := CachedSecret(vault, r.kind, Tiers(r.encRow, Empty, Empty), r.version, false, false, false);
      UpsertRowsRemovesNone(if r.id in keep then s else UpsertSecretRow(s, r.id, row), vault, rows[1..], keep, id);
    }
  }

  lemma {:induction false} PullStaleRemovesNone(
      w: World, versions: seq<VaultVersion>, local: map<VaultId, CachedVault>, id: SecretId)
    requires id in w.store.secrets
    ensures id in PullStale(w, versions, local).0.store.secrets
    decreases |versions|
  {
    if versions != [] {
      if !NeedsPull(local, versions[0]) {
        PullStaleRemovesNone(w, versions[1..], local, id);
      } else {
        var w1 := PullVaultRows(w, versions[0].id, versions[0].version).0;
        var reply := Call(w.wire, ListRows(w.session.user, versions[0].id)).1;
        if reply.Rows? {
          UpsertRowsRemovesNone(w.store, versions[0].id, reply.rows, Outstanding(w.store.outbox), id);
        }
        PullStaleRemovesNone(w1, versions[1..], local, id);
      }
    }
  }

  /** No pull removes a cached secret. */
  lemma PullRemovesNone(w: World, id: SecretId)
    requires id in w.store.secrets
    ensures id in Sync(w).0.store.secrets && id in SyncWithProgress(w).0.store.secrets
  {
    PrepareKeepsFlags(w, "");
    var (w1, prepared) := Prepare(w);
    if prepared.Ok? { PullStaleRemovesNone(w1, prepared.value, w1.store.vaults, id); }
    StagedIsSyncThenLoad(w);
    LoadEachOnlyFills(Sync(w).0, AskedBy(w));
  }

  /** After an undisturbed pull that ends well the vault counts as up to date, and a ghost in it is still listed. */
  lemma GhostStaysListed(d: Directory, w: World, vault: VaultId, kind: int, id: SecretId)
    requires Inv(d, w) && CalmWorld(w) && vault != "" && vault in w.session.open && Ghost(d, w, vault, kind, id)
    requires Owned(w.wire.tables, w.session.user, vault)
    requires vault in w.store.vaults && w.store.vaults[vault].syncEnabled
    ensures var (w', r) := Sync(w);
            && r == Ok(Unit) && UpToDate(w'.wire.tables, w'.store, vault) && Ghost(d, w', vault, kind, id)
            && w'.session == w.session && ReadRows(w', vault, kind).Ok? && id in ReadRows(w', vault, kind).value
  {
    PullCatchesUpIff(w, vault);
    PullRemovesNone(w, id);
    SyncKeeps(d, w);
    SyncIsFresh(w);
    RowsAreRead(d, Sync(w).0, vault, kind, id);
  }

  /** Online, a ghost can be neither erased nor edited: the server does not find it, and the cached row stays. */
  lemma GhostCannotBeErased(w: World, vault: VaultId, id: SecretId, base: int)
    requires id != "" && vault != "" && vault in w.session.open && w.session.user != ""
    requires w.wire.tape != [] && w.wire.tape[0] == Net([], Deliver) && !Live(w.wire.tables, id)
    ensures var (w', r) := ClientModel.DeleteSecret(w, vault, id, base);
            r == Err(NotFound) && w'.store == w.store
  {
  }

  lemma GhostCannotBeEdited(
      w: World, vault: VaultId, id: SecretId, base: int, kind: int, content: Content, n: Nonces)
    requires id != "" && vault != "" && vault in w.session.open && w.session.user != ""
    requires |content.index| <= MAX_ENC_INDEX_SIZE
    requires w.wire.tape != [] && w.wire.tape[0] == Net([], Deliver) && !Live(w.wire.tables, id)
    ensures var (w', r) := UpdateTyped(w, vault, id, base, kind, content, n);
            r == Err(NotFound) && w'.store == w.store
  {
  }

  /** Offline, a write of it is queued; and where nothing else waits before it, no replay ever gets past it. */
  lemma GhostBlocks(w: World, vault: VaultId, id: SecretId, base: int, k: nat)
    requires TablesOk(w.wire.tables) && QueueHead(w.store).None?
    requires id in w.wire.tables.secrets && w.wire.tables.secrets[id].deleted
    requires id != "" && vault != "" && vault in w.session.open
    requires w.wire.tape != [] && w.wire.tape[0] == Net([], Refuse(Unavailable))
    ensures var (w', r) := ClientModel.DeleteSecret(w, vault, id, base);
            && r == Ok(None)
            && QueueHead(w'.store) == Some(Entry(w.store.nextId, SECRET, id, DeleteOp(vault, base), Pending))
            && Replays(w', k).store == w'.store
  {
    var w' := ClientModel.DeleteSecret(w, vault, id, base).0;
    var e := Entry(w.store.nextId, SECRET, id, DeleteOp(vault, base), Pending);
    assert w'.store.outbox == w.store.outbox + [e] && w'.wire.tables == w.wire.tables;
    ByStatusAppend(w.store.outbox, e, Pending);
    HeadOfAppended(ByStatus(w.store.outbox, Pending), e);
    BlockedForGood(w', e, k);
  }

  // ----- a ghost -----

  /** The secret was pulled at version 1; another device has deleted it since. */
  function Haunted(): World {
    var tables := Tables(map["v" := VaultRow("u", 3)],
                         map["s" := SecretRow("v", 1, TiersAt(1), None, 2, true)], ["v"], ["s"]);
    var row := CachedSecret("v", 1, TiersAt(1).(index := Empty, payload := Empty), 1, false, false, false);
    var tape := [Net([], Deliver), Net([], Deliver), Net([], Deliver)];
    World(Wire(tables, tape, []), Store(map["v" := CachedVault(2, 2, true)], map["s" := row], [], 1),
          Session("u", map["v" := 0]), {})
  }

  lemma HauntedIsGood(d: Directory)
    requires d.home("s") == "v" && d.kind("s") == 1 && d.key("v") == 0
    ensures Inv(d, Haunted()) && CalmWorld(Haunted()) && Ghost(d, Haunted(), "v", 1, "s")
  {
    var w := Haunted();
    assert w.wire.tables.vaultOrder[0] == "v" && w.wire.tables.secretOrder[0] == "s";
    assert |"index"| == 5;
    assert Fits(d, "s", 1, RowTier, TiersAt(1).row);
  }

  /** A pull that ends well leaves a deleted secret on the list. */
  lemma DeletedIsListed(d: Directory)
    requires d.home("s") == "v" && d.kind("s") == 1 && d.key("v") == 0
    ensures var (w', r) := Sync(Haunted());
            r == Ok(Unit) && UpToDate(w'.wire.tables, w'.store, "v") && w'.wire.tables.secrets["s"].deleted
            && ReadRows(w', "v", 1).Ok? && "s" in ReadRows(w', "v", 1).value
  {
    HauntedIsGood(d);
    GhostStaysListed(d, Haunted(), "v", 1, "s");
    PullCatchesUpIff(Haunted(), "v");
  }
}

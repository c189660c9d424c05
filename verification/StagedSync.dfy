/** The staged pull does what the plain pull does, and afterwards fills indexes that nobody has touched. */
module StagedSync {
  import opened Types
  import opened Sealing
  import opened ServerModel
  import opened ServerLaws
  import opened S = StoreModel
  import opened StoreLaws
  import opened ClientModel
  import opened Coherence
  import opened Freshness
  import opened FreshOperations

  // ----- the same pulls in the same order -----

  lemma {:induction false} PullEachIsPullStale(w: World, versions: seq<VaultVersion>, local: map<VaultId, CachedVault>)
    ensures PullEach(w, ToSync(versions, local)) == PullStale(w, versions, local)
    decreases |versions|
  {
    if versions != [] {
      var toSync := ToSync(versions, local);
      if NeedsPull(local, versions[0]) {
        assert toSync[1..] == ToSync(versions[1..], local);
        PullEachIsPullStale(PullVaultRows(w, versions[0].id, versions[0].version).0, versions[1..], local);
      } else {
        assert toSync == ToSync(versions[1..], local);
        PullEachIsPullStale(w, versions[1..], local);
      }
    }
  }

  /** The vaults that a pull asks for, given the versions it has read. */
  function Asked(w: World, prepared: Result<seq<VaultVersion>>): seq<VaultVersion> {
    if prepared.Ok? then ToSync(prepared.value, w.store.vaults) else []
  }

  function AskedBy(w: World): seq<VaultVersion> {
    Asked(Prepare(w).0, Prepare(w).1)
  }

  lemma StagedFromIsSyncFrom(w: World, prepared: Result<seq<VaultVersion>>)
    ensures var (plain, r) := SyncFrom(w, prepared);
            StagedFrom(w, prepared) == (if r.Ok? then LoadEach(plain, Asked(w, prepared)) else plain, r)
  {
    if prepared.Ok? {
      PullEachIsPullStale(w, prepared.value, w.store.vaults);
      var r := SyncFrom(w, prepared).1;
      assert r.Ok? ==> r.value.Unit?;
    }
  }

  /** Given the same answers, the staged pull reports what the plain one reports, and then loads indexes. */
  lemma StagedIsSyncThenLoad(w: World)
    ensures var (plain, r) := Sync(w);
            SyncWithProgress(w) == (if r.Ok? then LoadEach(plain, AskedBy(w)) else plain, r)
  {
    StagedFromIsSyncFrom(Prepare(w).0, Prepare(w).1);
  }

  // ----- what loading indexes may change -----

  /** A row after indexes were loaded: as before, or clean and unloaded before and now with an index. */
  ghost predicate IndexFilled(row: CachedSecret, row': CachedSecret) {
    || row' == row
    || (!row.dirty && !row.indexLoaded
        && row' == row.(tiers := row.tiers.(index := row'.tiers.index), indexLoaded := true))
  }

  ghost predicate OnlyIndexesFilled(s: Store, s': Store) {
    && s'.vaults == s.vaults && s'.outbox == s.outbox && s'.nextId == s.nextId
    && s'.secrets.Keys == s.secrets.Keys
    && forall id :: id in s.secrets ==> IndexFilled(s.secrets[id], s'.secrets[id])
  }

  lemma {:induction false} FillIndexesOnlyFills(s: Store, items: seq<IndexItem>)
    ensures OnlyIndexesFilled(s, FillIndexes(s, items))
    decreases |items|
  {
    if items != [] {
      var it := items[0];
      var skip := it.id !in s.secrets || s.secrets[it.id].dirty || s.secrets[it.id].indexLoaded;
      var s1 := if skip then s else SetSecretIndex(s, it.id, it.encIndex, it.version);
      FillIndexesOnlyFills(s1, items[1..]);
      assert OnlyIndexesFilled(s, s1);
      OnlyFilledIsTransitive(s, s1, FillIndexes(s, items));
    }
  }

  lemma OnlyFilledIsTransitive(s: Store, s1: Store, s2: Store)
    requires OnlyIndexesFilled(s, s1) && OnlyIndexesFilled(s1, s2)
    ensures OnlyIndexesFilled(s, s2)
  {
    forall id | id in s.secrets ensures IndexFilled(s.secrets[id], s2.secrets[id]) {
      assert IndexFilled(s.secrets[id], s1.secrets[id]) && IndexFilled(s1.secrets[id], s2.secrets[id]);
    }
  }

  lemma {:induction false} LoadEachOnlyFills(w: World, toSync: seq<VaultVersion>)
    ensures OnlyIndexesFilled(w.store, LoadEach(w, toSync).store)
    decreases |toSync|
  {
    if toSync != [] {
      var vault := toSync[0].id;
      var w1 := LoadIndexes(w, vault).0;
      var reply := Call(w.wire, ListIndex(w.session.user, vault)).1;
      if reply.Indexes? {
        FillIndexesOnlyFills(w.store, reply.indexes);
      }
      assert OnlyIndexesFilled(w.store, w1.store);
      LoadEachOnlyFills(w1, toSync[1..]);
      OnlyFilledIsTransitive(w.store, w1.store, LoadEach(w, toSync).store);
    }
  }

  /**
   * The staged pull refines the plain one: the same result, the same vaults with the same synced versions, the same
   * rows under the same versions; it differs only by indexes of clean rows that had none, each sealed under its row's
   * version.
   */
  lemma StagedRefinesSync(d: Directory, w: World)
    requires Inv(d, w)
    ensures var (plain, r) := Sync(w);
            var (staged, r') := SyncWithProgress(w);
            && r' == r
            && OnlyIndexesFilled(plain.store, staged.store)
            && Inv(d, plain) && Inv(d, staged)
  {
    StagedIsSyncThenLoad(w);
    SyncKeeps(d, w);
    LoadEachOnlyFills(Sync(w).0, AskedBy(w));
    LoadEachKeeps(d, Sync(w).0, AskedBy(w));
  }

  // ----- what neither pull touches -----

  /** A secret with an outbox entry keeps its cached row. */
  lemma {:induction false} UpsertRowsSpares(
      s: Store, vault: VaultId, rows: seq<RowItem>, keep: set<SecretId>, id: SecretId)
    requires id in keep || forall i :: 0 <= i < |rows| ==> rows[i].id != id
    ensures var s' := UpsertRows(s, vault, rows, keep);
            && (id in s'.secrets <==> id in s.secrets)
            && (id in s.secrets ==> s'.secrets[id] == s.secrets[id])
            && s'.vaults == s.vaults && s'.outbox == s.outbox
    decreases |rows|
  {
    if rows != [] {
      var r := rows[0];
      var row := CachedSecret(vault, r.kind, Tiers(r.encRow, Empty, Empty), r.version, false, false, false);
      var s1 := if r.id in keep then s else UpsertSecretRow(s, r.id, row);
      assert forall i :: 0 <= i < |rows[1..]| ==> rows[1..][i] == rows[i + 1];
      UpsertRowsSpares(s1, vault, rows[1..], keep, id);
    }
  }

  /** id keeps its cached row, if it has one, and gets none otherwise. */
  ghost predicate Spared(s: Store, s': Store, id: SecretId) {
    && (id in s'.secrets <==> id in s.secrets)
    && (id in s.secrets ==> s'.secrets[id] == s.secrets[id])
  }

  /** The secret is outstanding, or it lives in a vault that this pull does not ask for. */
  ghost predicate OutOfReach(
      d: Directory, s: Store, versions: seq<VaultVersion>, local: map<VaultId, CachedVault>, id: SecretId)
  {
    id in Outstanding(s.outbox) || NotAsked(versions, local, d.home(id))
  }

  ghost predicate NotAsked(versions: seq<VaultVersion>, local: map<VaultId, CachedVault>, v: VaultId) {
    forall i :: 0 <= i < |versions| && versions[i].id == v ==> !NeedsPull(local, versions[i])
  }

  lemma PullSpares(d: Directory, w: World, vault: VaultId, version: int, id: SecretId)
    requires Inv(d, w) && (id in Outstanding(w.store.outbox) || d.home(id) != vault)
    ensures var w' := PullVaultRows(w, vault, version).0;
            Spared(w.store, w'.store, id) && w'.store.outbox == w.store.outbox
  {
    var req := ListRows(w.session.user, vault);
    var reply := Call(w.wire, req).1;
    CallKeeps(d, w.wire, req);
    if reply.Rows? {
      forall i | 0 <= i < |reply.rows| && id !in Outstanding(w.store.outbox) ensures reply.rows[i].id != id {
        assert RowItemOk(d, vault, reply.rows[i]);
      }
      UpsertRowsSpares(w.store, vault, reply.rows, Outstanding(w.store.outbox), id);
    }
  }

  lemma {:induction false} PullStaleSpares(
      d: Directory, w: World, versions: seq<VaultVersion>, local: map<VaultId, CachedVault>, id: SecretId)
    requires Inv(d, w) && OutOfReach(d, w.store, versions, local, id)
    ensures var w' := PullStale(w, versions, local).0;
            Spared(w.store, w'.store, id) && w'.store.outbox == w.store.outbox
    decreases |versions|
  {
    if versions != [] {
      assert forall i :: 0 <= i < |versions[1..]| ==> versions[1..][i] == versions[i + 1];
      if !NeedsPull(local, versions[0]) {
        PullStaleSpares(d, w, versions[1..], local, id);
      } else {
        assert id in Outstanding(w.store.outbox) || d.home(id) != versions[0].id;
        PullSpares(d, w, versions[0].id, versions[0].version, id);
        PullKeeps(d, w, versions[0].id, versions[0].version);
        PullStaleSpares(d, PullVaultRows(w, versions[0].id, versions[0].version).0, versions[1..], local, id);
      }
    }
  }

  lemma {:induction false} UpsertVaultsKeepsFlags(s: Store, items: seq<VaultVersion>, v: VaultId)
    requires v in s.vaults
    ensures var s' := UpsertVaults(s, items);
            && s'.secrets == s.secrets && s'.outbox == s.outbox && v in s'.vaults
            && s'.vaults[v].syncEnabled == s.vaults[v].syncEnabled
            && s'.vaults[v].syncedVersion == s.vaults[v].syncedVersion
    decreases |items|
  {
    if items != [] {
      UpsertVaultsKeepsFlags(UpsertVault(s, items[0].id, CachedVault(items[0].version, 0, false)), items[1..], v);
    }
  }

  lemma {:induction false} UpsertVaultsKeepsSecrets(s: Store, items: seq<VaultVersion>)
    ensures var s' := UpsertVaults(s, items);
            s'.secrets == s.secrets && s'.outbox == s.outbox
    decreases |items|
  {
    if items != [] {
      UpsertVaultsKeepsSecrets(UpsertVault(s, items[0].id, CachedVault(items[0].version, 0, false)), items[1..]);
    }
  }

  lemma PrepareKeepsFlags(w: World, v: VaultId)
    ensures var (w', r) := Prepare(w);
            && w'.store.secrets == w.store.secrets && w'.store.outbox == w.store.outbox
            && (v in w.store.vaults ==>
                  && v in w'.store.vaults
                  && w'.store.vaults[v].syncEnabled == w.store.vaults[v].syncEnabled
                  && w'.store.vaults[v].syncedVersion == w.store.vaults[v].syncedVersion)
  {
    var (wire, reply) := Call(w.wire, CheckFreshness(w.session.user));
    var listed := Call(wire, ListVaults(w.session.user)).1;
    if listed.Vaults? {
      UpsertVaultsKeepsSecrets(w.store, listed.vaults);
      if v in w.store.vaults {
        UpsertVaultsKeepsFlags(w.store, listed.vaults, v);
      }
    }
  }

  predicate SwitchedOff(s: Store, v: VaultId) {
    v in s.vaults && !s.vaults[v].syncEnabled
  }

  /** The plain pull leaves alone every secret with an outbox entry and every secret of a vault that is switched off. */
  lemma SyncSpares(d: Directory, w: World, id: SecretId)
    requires Inv(d, w) && (id in Outstanding(w.store.outbox) || SwitchedOff(w.store, d.home(id)))
    ensures Spared(w.store, Sync(w).0.store, id) && Sync(w).0.store.outbox == w.store.outbox
  {
    PrepareKeeps(d, w);
    PrepareKeepsFlags(w, d.home(id));
    var (w1, prepared) := Prepare(w);
    if prepared.Ok? {
      PullStaleSpares(d, w1, prepared.value, w1.store.vaults, id);
    }
  }

  lemma {:induction false} AskedNeedsPull(versions: seq<VaultVersion>, local: map<VaultId, CachedVault>, i: nat)
    requires i < |ToSync(versions, local)|
    ensures NeedsPull(local, ToSync(versions, local)[i])
    decreases |versions|
  {
    if NeedsPull(local, versions[0]) {
      if i > 0 { AskedNeedsPull(versions[1..], local, i - 1); }
    } else {
      AskedNeedsPull(versions[1..], local, i);
    }
  }

  lemma {:induction false} FillIndexesSpares(s: Store, items: seq<IndexItem>, id: SecretId)
    requires forall i :: 0 <= i < |items| ==> items[i].id != id
    ensures Spared(s, FillIndexes(s, items), id)
    decreases |items|
  {
    if items != [] {
      var it := items[0];
      var skip := it.id !in s.secrets || s.secrets[it.id].dirty || s.secrets[it.id].indexLoaded;
      assert forall i :: 0 <= i < |items[1..]| ==> items[1..][i] == items[i + 1];
      FillIndexesSpares(if skip then s else SetSecretIndex(s, it.id, it.encIndex, it.version), items[1..], id);
    }
  }

  /** Indexes of other vaults do not concern the secret. */
  lemma LoadIndexesSpares(d: Directory, w: World, vault: VaultId, id: SecretId)
    requires Inv(d, w) && vault != d.home(id)
    ensures Spared(w.store, LoadIndexes(w, vault).0.store, id)
  {
    var req := ListIndex(w.session.user, vault);
    var reply := Call(w.wire, req).1;
    CallKeeps(d, w.wire, req);
    if reply.Indexes? {
      forall i | 0 <= i < |reply.indexes| ensures reply.indexes[i].id != id {
        assert IndexItemOk(d, vault, reply.indexes[i]);
      }
      FillIndexesSpares(w.store, reply.indexes, id);
    }
  }

  lemma {:induction false} LoadEachSpares(d: Directory, w: World, toSync: seq<VaultVersion>, id: SecretId)
    requires Inv(d, w) && forall i :: 0 <= i < |toSync| ==> toSync[i].id != d.home(id)
    ensures Spared(w.store, LoadEach(w, toSync).store, id)
    decreases |toSync|
  {
    if toSync != [] {
      LoadIndexesSpares(d, w, toSync[0].id, id);
      LoadIndexesKeeps(d, w, toSync[0].id);
      assert forall i :: 0 <= i < |toSync[1..]| ==> toSync[1..][i] == toSync[i + 1];
      LoadEachSpares(d, LoadIndexes(w, toSync[0].id).0, toSync[1..], id);
    }
  }

  /** Neither pull touches a secret of a vault that the user switched off. */
  lemma PullsSpareSwitchedOff(d: Directory, w: World, id: SecretId)
    requires Inv(d, w) && SwitchedOff(w.store, d.home(id))
    ensures Spared(w.store, Sync(w).0.store, id)
    ensures Spared(w.store, SyncWithProgress(w).0.store, id)
  {
    SyncSpares(d, w, id);
    SyncKeeps(d, w);
    StagedIsSyncThenLoad(w);
    PrepareKeepsFlags(w, d.home(id));
    var (w1, prepared) := Prepare(w);
    forall i | 0 <= i < |AskedBy(w)| ensures AskedBy(w)[i].id != d.home(id) {
      AskedNeedsPull(prepared.value, w1.store.vaults, i);
    }
    LoadEachSpares(d, Sync(w).0, AskedBy(w), id);
  }

  // ----- the flags of a vault -----

  /** The user's switch stays, and so does what was recorded about a vault that is switched off. */
  predicate FlagsKept(s: Store, s': Store, v: VaultId) {
    v in s.vaults ==>
      && v in s'.vaults
      && s'.vaults[v].syncEnabled == s.vaults[v].syncEnabled
      && (!s.vaults[v].syncEnabled ==> s'.vaults[v].syncedVersion == s.vaults[v].syncedVersion)
  }

  lemma {:induction false} UpsertRowsKeepsVaults(s: Store, vault: VaultId, rows: seq<RowItem>, keep: set<SecretId>)
    ensures UpsertRows(s, vault, rows, keep).vaults == s.vaults
    decreases |rows|
  {
    if rows != [] {
      var r := rows[0];
      var row := CachedSecret(vault, r.kind, Tiers(r.encRow, Empty, Empty), r.version, false, false, false);
      UpsertRowsKeepsVaults(if r.id in keep then s else UpsertSecretRow(s, r.id, row), vault, rows[1..], keep);
    }
  }

  lemma {:induction false} PullStaleKeepsFlags(
      w: World, versions: seq<VaultVersion>, local: map<VaultId, CachedVault>, v: VaultId)
    requires SwitchedOff(w.store, v) ==> NotAsked(versions, local, v)
    ensures FlagsKept(w.store, PullStale(w, versions, local).0.store, v)
    decreases |versions|
  {
    if versions != [] {
      assert forall i :: 0 <= i < |versions[1..]| ==> versions[1..][i] == versions[i + 1];
      if !NeedsPull(local, versions[0]) {
        PullStaleKeepsFlags(w, versions[1..], local, v);
      } else {
        var w1 := PullVaultRows(w, versions[0].id, versions[0].version).0;
        var reply := Call(w.wire, ListRows(w.session.user, versions[0].id)).1;
        if reply.Rows? {
          UpsertRowsKeepsVaults(w.store, versions[0].id, reply.rows, Outstanding(w.store.outbox));
        }
        assert FlagsKept(w.store, w1.store, v);
        PullStaleKeepsFlags(w1, versions[1..], local, v);
      }
    }
  }

  /** Both pulls keep the user's switch of every vault, and the recorded version of each that is switched off. */
  lemma PullsKeepFlags(w: World, v: VaultId)
    ensures FlagsKept(w.store, Sync(w).0.store, v)
    ensures FlagsKept(w.store, SyncWithProgress(w).0.store, v)
  {
    PrepareKeepsFlags(w, v);
    var (w1, prepared) := Prepare(w);
    if prepared.Ok? {
      PullStaleKeepsFlags(w1, prepared.value, w1.store.vaults, v);
    }
    StagedIsSyncThenLoad(w);
    LoadEachOnlyFills(Sync(w).0, AskedBy(w));
  }

  // ----- when the staged pull does touch an outstanding secret -----

  predicate Unindexed(s: Store, id: SecretId) {
    id in s.secrets && !s.secrets[id].dirty && !s.secrets[id].indexLoaded
  }

  predicate Lists(items: seq<IndexItem>, id: SecretId, version: int) {
    exists i :: 0 <= i < |items| && items[i].id == id && items[i].version == version
  }

  /** What a listing of a vault's indexes brings; nothing if it fails. */
  function Listing(w: World, vault: VaultId): seq<IndexItem> {
    var reply := Call(w.wire, ListIndex(w.session.user, vault)).1;
    if vault != "" && reply.Indexes? then reply.indexes else []
  }

  /** One of the listings that follow the pull carries the secret at this version. */
  predicate Arrives(w: World, toSync: seq<VaultVersion>, id: SecretId, version: int)
    decreases |toSync|
  {
    toSync != [] &&
    (Lists(Listing(w, toSync[0].id), id, version) || Arrives(LoadIndexes(w, toSync[0].id).0, toSync[1..], id, version))
  }

  /** The row gets an index exactly if it is clean, has none, and is listed at its version. */
  lemma {:induction false} FillIndexesIff(s: Store, items: seq<IndexItem>, id: SecretId)
    requires id in s.secrets
    ensures id in FillIndexes(s, items).secrets
    ensures FillIndexes(s, items).secrets[id] != s.secrets[id] <==>
            Unindexed(s, id) && Lists(items, id, s.secrets[id].version)
    decreases |items|
  {
    FillIndexesOnlyFills(s, items);
    if items != [] {
      var it := items[0];
      var skip := it.id !in s.secrets || s.secrets[it.id].dirty || s.secrets[it.id].indexLoaded;
      var s1 := if skip then s else SetSecretIndex(s, it.id, it.encIndex, it.version);
      FillIndexesIff(s1, items[1..], id);
      FillIndexesOnlyFills(s1, items[1..]);
      ListsFirst(items, id, s.secrets[id].version);
    }
  }

  lemma ListsFirst(items: seq<IndexItem>, id: SecretId, version: int)
    requires items != []
    ensures Lists(items, id, version) <==>
            (items[0].id == id && items[0].version == version) || Lists(items[1..], id, version)
  {
    if Lists(items[1..], id, version) {
      var i :| 0 <= i < |items[1..]| && items[1..][i].id == id && items[1..][i].version == version;
      assert items[i + 1] == items[1..][i];
    }
    if i :| 0 < i < |items| && items[i].id == id && items[i].version == version {
      assert items[1..][i - 1] == items[i];
    }
  }

  lemma LoadIndexesIff(w: World, vault: VaultId, id: SecretId)
    requires id in w.store.secrets
    ensures var s, s' := w.store, LoadIndexes(w, vault).0.store;
            && OnlyIndexesFilled(s, s')
            && (s'.secrets[id] != s.secrets[id] <==>
                  Unindexed(s, id) && Lists(Listing(w, vault), id, s.secrets[id].version))
  {
    FillIndexesOnlyFills(w.store, Listing(w, vault));
    FillIndexesIff(w.store, Listing(w, vault), id);
  }

  lemma {:induction false} LoadEachIff(w: World, toSync: seq<VaultVersion>, id: SecretId)
    requires id in w.store.secrets
    ensures var s, s' := w.store, LoadEach(w, toSync).store;
            && id in s'.secrets
            && (s'.secrets[id] != s.secrets[id] <==> Unindexed(s, id) && Arrives(w, toSync, id, s.secrets[id].version))
    decreases |toSync|
  {
    if toSync != [] {
      var w1 := LoadIndexes(w, toSync[0].id).0;
      LoadIndexesIff(w, toSync[0].id, id);
      LoadEachIff(w1, toSync[1..], id);
      LoadEachOnlyFills(w1, toSync[1..]);
      assert IndexFilled(w1.store.secrets[id], LoadEach(w1, toSync[1..]).store.secrets[id]);
    }
  }

  lemma {:induction false} ArrivesFromHome(
      d: Directory, w: World, toSync: seq<VaultVersion>, id: SecretId, version: int)
    requires Inv(d, w) && Arrives(w, toSync, id, version)
    ensures exists i :: 0 <= i < |toSync| && toSync[i].id == d.home(id)
    decreases |toSync|
  {
    var items := Listing(w, toSync[0].id);
    if Lists(items, id, version) {
      CallKeeps(d, w.wire, ListIndex(w.session.user, toSync[0].id));
      var i :| 0 <= i < |items| && items[i].id == id && items[i].version == version;
      assert IndexItemOk(d, toSync[0].id, items[i]);
    } else {
      LoadIndexesKeeps(d, w, toSync[0].id);
      ArrivesFromHome(d, LoadIndexes(w, toSync[0].id).0, toSync[1..], id, version);
      var i :| 0 <= i < |toSync[1..]| && toSync[1..][i].id == d.home(id);
      assert toSync[i + 1] == toSync[1..][i];
    }
  }

  /**
   * The outbox protects a secret from the pull but not from the index loads behind it. The staged pull changes an
   * outstanding row exactly if the row is clean and has no index, the pull ended well, and a listing of the secret's
   * own vault, which the pull then asked for, carries the row's version.
   */
  lemma StagedTouchesOutstandingIff(d: Directory, w: World, id: SecretId)
    requires Inv(d, w) && id in Outstanding(w.store.outbox) && id in w.store.secrets
    ensures var (plain, r) := Sync(w);
            var row, arrives := w.store.secrets[id], Arrives(plain, AskedBy(w), id, w.store.secrets[id].version);
            && id in SyncWithProgress(w).0.store.secrets
            && (SyncWithProgress(w).0.store.secrets[id] != row <==> r.Ok? && !row.dirty && !row.indexLoaded && arrives)
            && (arrives ==> exists i :: 0 <= i < |AskedBy(w)| && AskedBy(w)[i].id == d.home(id))
  {
    SyncSpares(d, w, id);
    StagedIsSyncThenLoad(w);
    SyncKeeps(d, w);
    LoadEachIff(Sync(w).0, AskedBy(w), id);
    if Arrives(Sync(w).0, AskedBy(w), id, w.store.secrets[id].version) {
      ArrivesFromHome(d, Sync(w).0, AskedBy(w), id, w.store.secrets[id].version);
    }
  }

  function TiersAt(version: int): Tiers {
    SealTiers(0, "v", "s", version, Content("row", "index", "payload"), Nonces(0, 0, 0))
  }

  /** The secret at a version; the vault was created once and bumped by the creation and by every update. */
  function ServerAt(version: int): Tables {
    Tables(map["v" := VaultRow("u", version + 1)],
           map["s" := SecretRow("v", 1, TiersAt(version), None, version, false)],
           ["v"], ["s"])
  }

  /** Of two offline edits the first was acknowledged by a replay, which left a clean row; the second still waits. */
  function HalfReplayed(): World {
    var row := CachedSecret("v", 1, TiersAt(2).(index := Empty, payload := Empty), 2, false, false, false);
    var entry := Entry(2, SECRET, "s", UpdateOp("v", 1, 2, TiersAt(3)), Pending);
    var tape := [Net([], Deliver), Net([], Deliver), Net([], Deliver)];
    World(Wire(ServerAt(2), tape, []), Store(map["v" := CachedVault(1, 2, true)], map["s" := row], [entry], 3),
          Session("u", map["v" := 0]), {})
  }

  lemma HalfReplayedIsGood(d: Directory)
    requires d.home("s") == "v" && d.kind("s") == 1 && d.key("v") == 0
    ensures Inv(d, HalfReplayed()) && FreshWorld(HalfReplayed()) && "s" in Outstanding(HalfReplayed().store.outbox)
  {
    var w := HalfReplayed();
    assert w.wire.tables.vaultOrder[0] == "v" && w.wire.tables.secretOrder[0] == "s";
    assert w.store.outbox[0] in w.store.outbox;
    assert |"index"| == 5;
    assert SealedUnder(d, "s", 2, TiersAt(2)) && SealedUnder(d, "s", 3, TiersAt(3));
  }

  /** The same world after this many calls, with this version recorded for the vault. */
  function HalfReplayedAfter(calls: nat, synced: int): World
    requires calls <= 3
  {
    var w := HalfReplayed();
    w.(wire := w.wire.(tape := w.wire.tape[calls..]), store := SetSyncedVersion(w.store, "v", synced))
  }

  /** A query that is delivered uses up one call, and changes nothing but what other devices change. */
  lemma DeliveredQuery(wire: Wire, req: Request)
    requires !IsTransaction(req) && wire.tape != [] && wire.tape[0].fate == Deliver
    ensures var before := RunAll(wire.tables, wire.tape[0].others);
            Call(wire, req) == (Wire(before, wire.tape[1..], wire.accepted), Query(before, req))
  {
    assert wire.accepted + [] == wire.accepted;
  }

  lemma HalfReplayedPrepares()
    ensures Prepare(HalfReplayed()) == (HalfReplayedAfter(1, 2), Ok([VaultVersion("v", 3)]))
  {
    var w := HalfReplayed();
    var t := w.wire.tables;
    DeliveredQuery(w.wire, CheckFreshness("u"));
    assert VaultVersions(t, "u", t.vaultOrder) == [VaultVersion("v", 3)] + VaultVersions(t, "u", []);
    assert SetSyncedVersion(w.store, "v", 2).vaults == w.store.vaults;
    var (wire, reply) := Call(w.wire, CheckFreshness("u"));
    assert reply == Vaults([VaultVersion("v", 3)]);
    assert !NeedsVaultMeta([VaultVersion("v", 3)], w.store.vaults);
    assert Prepare(w) == (w.(wire := wire), Ok([VaultVersion("v", 3)]));
    assert HalfReplayedAfter(1, 2).store == w.store;
  }

  lemma HalfReplayedPulls()
    ensures PullVaultRows(HalfReplayedAfter(1, 2), "v", 3) == (HalfReplayedAfter(2, 3), Ok(Unit))
  {
    var w := HalfReplayedAfter(1, 2);
    var t := w.wire.tables;
    DeliveredQuery(w.wire, ListRows("u", "v"));
    assert HalfReplayed().wire.tape[1..][1..] == HalfReplayed().wire.tape[2..];
    assert w.store.outbox[0] in w.store.outbox;
    var rows := RowsOf(t, "u", "v", t.secretOrder);
    assert rows == [RowItem("s", 1, 2, TiersAt(2).row)] + RowsOf(t, "u", "v", []);
    var keep := Outstanding(w.store.outbox);
    assert UpsertRows(w.store, "v", rows, keep) == UpsertRows(w.store, "v", rows[1..], keep) == w.store;
    assert SetSyncedVersion(w.store, "v", 3).vaults == HalfReplayedAfter(2, 3).store.vaults;
  }

  lemma HalfReplayedSyncs()
    ensures Sync(HalfReplayed()) == (HalfReplayedAfter(2, 3), Ok(Unit))
    ensures AskedBy(HalfReplayed()) == [VaultVersion("v", 3)]
  {
    HalfReplayedPrepares();
    HalfReplayedPulls();
    var local := HalfReplayedAfter(1, 2).store.vaults;
    assert ToSync([VaultVersion("v", 3)], local) == [VaultVersion("v", 3)] + ToSync([], local);
  }

  lemma HalfReplayedLists()
    ensures Lists(Listing(HalfReplayedAfter(2, 3), "v"), "s", 2)
  {
    var w := HalfReplayedAfter(2, 3);
    var items := IndexesOf(w.wire.tables, "u", "v", w.wire.tables.secretOrder);
    assert Listing(w, "v") == items && items[0] == IndexItem("s", 2, TiersAt(2).index);
  }

  /** There the staged pull fills the index of a row whose next edit is still in the queue. */
  lemma OutstandingRowIsFilled(d: Directory)
    requires d.home("s") == "v" && d.kind("s") == 1 && d.key("v") == 0
    ensures "s" in Outstanding(HalfReplayed().store.outbox)
    ensures Spared(HalfReplayed().store, Sync(HalfReplayed()).0.store, "s")
    ensures !Spared(HalfReplayed().store, SyncWithProgress(HalfReplayed()).0.store, "s")
  {
    HalfReplayedIsGood(d);
    SyncSpares(d, HalfReplayed(), "s");
    StagedTouchesOutstandingIff(d, HalfReplayed(), "s");
    HalfReplayedSyncs();
    HalfReplayedLists();
  }

  lemma {:induction false} LoadEachIsQuiet(w: World, toSync: seq<VaultVersion>)
    requires FreshWorld(w)
    ensures Quiet(w, LoadEach(w, toSync))
    decreases |toSync|
  {
    if toSync == [] {
      StayingIsQuiet(w);
    } else {
      LoadIndexesIsQuiet(w, toSync[0].id);
      var w1 := LoadIndexes(w, toSync[0].id).0;
      LoadEachIsQuiet(w1, toSync[1..]);
      QuietIsTransitive(w, w1, LoadEach(w, toSync));
    }
  }

  lemma StagedIsFresh(w: World)
    requires FreshWorld(w)
    ensures FreshWorld(SyncWithProgress(w).0)
    ensures Later(w.wire.tables, SyncWithProgress(w).0.wire.tables)
    ensures EntriesFixed(w.store, SyncWithProgress(w).0.store)
  {
    StagedIsSyncThenLoad(w);
    SyncIsFresh(w);
    var plain := Sync(w).0;
    LoadEachIsQuiet(plain, AskedBy(w));
    LaterIsTransitive(w.wire.tables, plain.wire.tables, LoadEach(plain, AskedBy(w)).wire.tables);
  }
}

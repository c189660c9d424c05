/** A pull does what it is for: when every call gets through and nobody writes, the cache is then up to date. */
module CatchingUp {
  import opened Types
  import opened ServerModel
  import opened ServerLaws
  import opened S = StoreModel
  import opened StoreLaws
  import opened ClientModel
  import opened Freshness
  import opened FreshOperations
  import opened StagedSync
  import opened VaultListing

  /** The next calls get through, and no other device comes in between. */
  ghost predicate Calm(tape: seq<Net>, calls: nat) {
    |tape| >= calls && forall i :: 0 <= i < calls ==> tape[i] == Net([], Deliver)
  }

  lemma CalmQuery(wire: Wire, req: Request, calls: nat)
    requires Calm(wire.tape, calls) && calls > 0 && !IsTransaction(req)
    ensures var (after, reply) := Call(wire, req);
            after.tables == wire.tables && Calm(after.tape, calls - 1) && reply == Query(wire.tables, req)
  {
    assert wire.tape[0] == Net([], Deliver);
    DeliveredQuery(wire, req);
  }

  predicate UpToDate(t: Tables, s: Store, v: VaultId) {
    v in s.vaults && s.vaults[v].syncedVersion == VaultVersionOf(t, v)
  }

  /** Everything but the synced versions of some vaults stays, and the vaults pulled are recorded. */
  lemma CalmPull(w: World, vault: VaultId, version: int, calls: nat)
    requires Calm(w.wire.tape, calls) && calls > 0 && w.session.user != "" && vault != ""
    ensures var (w', r) := PullVaultRows(w, vault, version);
            && r == Ok(Unit) && w'.wire.tables == w.wire.tables && Calm(w'.wire.tape, calls - 1)
            && w'.session == w.session && w'.store.vaults == SetSyncedVersion(w.store, vault, version).vaults
  {
    var req := ListRows(w.session.user, vault);
    CalmQuery(w.wire, req, calls);
    var reply := Call(w.wire, req).1;
    UpsertRowsKeepsVaults(w.store, vault, reply.rows, Outstanding(w.store.outbox));
  }

  /** The versions are those of the tables, of vaults that a row can be asked of. */
  ghost predicate Current(t: Tables, versions: seq<VaultVersion>) {
    forall i :: 0 <= i < |versions| ==> versions[i].id != "" && versions[i].version == VaultVersionOf(t, versions[i].id)
  }

  lemma {:induction false} CalmPulls(
      w: World, versions: seq<VaultVersion>, local: map<VaultId, CachedVault>, calls: nat, v: VaultId)
    requires Calm(w.wire.tape, calls) && |versions| <= calls && w.session.user != ""
    requires Current(w.wire.tables, versions)
    ensures var (w', r) := PullStale(w, versions, local);
            && r == Ok(Unit) && w'.wire.tables == w.wire.tables
            && (UpToDate(w.wire.tables, w.store, v) ==> UpToDate(w.wire.tables, w'.store, v))
            && (v in w.store.vaults &&
                (exists i :: 0 <= i < |versions| && versions[i].id == v && NeedsPull(local, versions[i]))
                ==> UpToDate(w.wire.tables, w'.store, v))
    decreases |versions|
  {
    if versions != [] {
      var fv, rest := versions[0], versions[1..];
      assert forall i :: 0 <= i < |rest| ==> rest[i] == versions[i + 1];
      assert fv.id != "" && fv.version == VaultVersionOf(w.wire.tables, fv.id);
      if !NeedsPull(local, fv) {
        CalmPulls(w, rest, local, calls, v);
      } else {
        CalmPull(w, fv.id, fv.version, calls);
        CalmPulls(PullVaultRows(w, fv.id, fv.version).0, rest, local, calls - 1, v);
      }
      if i :| 0 <= i < |versions| && versions[i].id == v && NeedsPull(local, versions[i]) {
        assert i > 0 ==> rest[i - 1] == versions[i];
      }
    }
  }

  // ----- what a pull begins with -----

  lemma {:induction false} NoMoreThanAsked(t: Tables, user: UserId, ids: seq<VaultId>)
    ensures |VaultVersions(t, user, ids)| <= |ids|
    decreases |ids|
  {
    if ids != [] { NoMoreThanAsked(t, user, ids[1..]); }
  }

  /** The caller's vault list and its versions as they are on the server. */
  function Versions(w: World): seq<VaultVersion> {
    VaultVersions(w.wire.tables, w.session.user, w.wire.tables.vaultOrder)
  }

  lemma {:induction false} UpsertVaultsAdds(s: Store, items: seq<VaultVersion>, v: VaultId)
    requires v in Ids(items) || v in s.vaults
    ensures var s' := UpsertVaults(s, items);
            v in s'.vaults && SwitchKept(s, s', v)
    decreases |items|
  {
    if items != [] {
      FirstId(items);
      UpsertVaultsAdds(UpsertVault(s, items[0].id, CachedVault(items[0].version, 0, false)), items[1..], v);
    }
  }

  /** Afterwards every vault that the server listed is cached, the new ones switched off and never pulled. */
  lemma CalmPrepare(w: World, calls: nat)
    requires Calm(w.wire.tape, calls) && calls >= 2 && w.session.user != ""
    ensures var (w1, r) := Prepare(w);
            && r == Ok(Versions(w)) && w1.wire.tables == w.wire.tables && Calm(w1.wire.tape, calls - 2)
            && w1.session == w.session
            && forall v :: v in w.store.vaults || v in Ids(Versions(w)) ==>
                 v in w1.store.vaults && SwitchKept(w.store, w1.store, v)
  {
    var user := w.session.user;
    CalmQuery(w.wire, CheckFreshness(user), calls);
    var w1 := w.(wire := Call(w.wire, CheckFreshness(user)).0);
    CalmQuery(w1.wire, ListVaults(user), calls - 1);
    if NeedsVaultMeta(Versions(w), w.store.vaults) {
      forall v | v in w.store.vaults || v in Ids(Versions(w))
        ensures v in Prepare(w).0.store.vaults && SwitchKept(w.store, Prepare(w).0.store, v)
      {
        UpsertVaultsAdds(w.store, Versions(w), v);
      }
    } else {
      forall v | v in Ids(Versions(w)) ensures v in w.store.vaults {
        var it :| it in Versions(w) && it.id == v;
      }
    }
  }

  // ----- the whole pull -----

  /** Time enough for the calls of a pull, a user, and no vault without a name. */
  ghost predicate CalmWorld(w: World) {
    && FreshWorld(w) && Calm(w.wire.tape, 2 + |w.wire.tables.vaultOrder|)
    && w.session.user != "" && "" !in w.wire.tables.vaults
  }

  lemma VersionsAreCurrent(w: World)
    requires CalmWorld(w)
    ensures Current(w.wire.tables, Versions(w)) && |Versions(w)| <= |w.wire.tables.vaultOrder|
    ensures forall v :: v in Ids(Versions(w)) <==> Owned(w.wire.tables, w.session.user, v)
  {
    NoMoreThanAsked(w.wire.tables, w.session.user, w.wire.tables.vaultOrder);
    forall v ensures v in Ids(Versions(w)) <==> Owned(w.wire.tables, w.session.user, v) {
      VersionsListExactly(w.wire.tables, w.session.user, w.wire.tables.vaultOrder, v);
    }
  }

  lemma CalmSync(w: World, v: VaultId)
    requires CalmWorld(w)
    ensures var (w', r) := Sync(w);
            && r == Ok(Unit) && w'.wire.tables == w.wire.tables
            && (Owned(w.wire.tables, w.session.user, v) && v in w.store.vaults && w.store.vaults[v].syncEnabled ==>
                  UpToDate(w.wire.tables, w'.store, v))
  {
    var t := w.wire.tables;
    VersionsAreCurrent(w);
    CalmPrepare(w, 2 + |t.vaultOrder|);
    var w1 := Prepare(w).0;
    CalmPulls(w1, Versions(w), w1.store.vaults, |t.vaultOrder|, v);
    if Owned(t, w.session.user, v) && v in w.store.vaults && w.store.vaults[v].syncEnabled {
      var it :| it in Versions(w) && it.id == v;
      var i :| 0 <= i < |Versions(w)| && Versions(w)[i] == it;
      assert FreshVault(t, w.store, v) && SwitchKept(w.store, w1.store, v);
      assert NeedsPull(w1.store.vaults, Versions(w)[i]) || UpToDate(t, w1.store, v);
    }
  }

  /** A vault that is new to the client stays behind: it is cached switched off. */
  lemma NewStaysBehind(w: World, v: VaultId)
    requires CalmWorld(w) && Owned(w.wire.tables, w.session.user, v) && v !in w.store.vaults
    ensures SwitchedOff(Sync(w).0.store, v) && !UpToDate(w.wire.tables, Sync(w).0.store, v)
  {
    VersionsAreCurrent(w);
    CalmPrepare(w, 2 + |w.wire.tables.vaultOrder|);
    var w1 := Prepare(w).0;
    assert SwitchKept(w.store, w1.store, v);
    PullStaleKeepsFlags(w1, Versions(w), w1.store.vaults, v);
  }

  /**
   * If every call gets through and nobody writes, both pulls end well, and afterwards a vault of the user is up to date
   * if and only if it was cached before and either switched on or up to date already.
   */
  lemma PullCatchesUpIff(w: World, v: VaultId)
    requires CalmWorld(w) && Owned(w.wire.tables, w.session.user, v)
    ensures Sync(w).1 == SyncWithProgress(w).1 == Ok(Unit) && Sync(w).0.wire.tables == w.wire.tables
    ensures UpToDate(w.wire.tables, Sync(w).0.store, v) <==>
            v in w.store.vaults && (w.store.vaults[v].syncEnabled || UpToDate(w.wire.tables, w.store, v))
    ensures UpToDate(w.wire.tables, SyncWithProgress(w).0.store, v) <==> UpToDate(w.wire.tables, Sync(w).0.store, v)
  {
    CalmSync(w, v);
    StagedIsSyncThenLoad(w);
    LoadEachOnlyFills(Sync(w).0, AskedBy(w));
    if v !in w.store.vaults {
      NewStaysBehind(w, v);
    } else {
      PullsKeepFlags(w, v);
    }
  }

  /** So every live secret of a vault that is switched on, unless it has an entry, is cached as the server has it. */
  lemma PullFetches(w: World, id: SecretId)
    requires CalmWorld(w) && Live(w.wire.tables, id) && id !in Outstanding(w.store.outbox)
    requires Owned(w.wire.tables, w.session.user, w.wire.tables.secrets[id].vault)
    requires var v := w.wire.tables.secrets[id].vault; v in w.store.vaults && w.store.vaults[v].syncEnabled
    ensures AsServed(w.wire.tables, Sync(w).0.store, id)
  {
    PullCatchesUpIff(w, w.wire.tables.secrets[id].vault);
    SyncIsFresh(w);
    assert FreshSecret(w.wire.tables, Sync(w).0.store, id);
  }

  /** The user's switch decides: switched on the vault catches up, switched off it stays as far behind as it is. */
  lemma SwitchDecides(w: World, v: VaultId, enabled: bool)
    requires CalmWorld(w) && Owned(w.wire.tables, w.session.user, v) && v in w.store.vaults
    ensures var w1 := w.(store := SetSyncEnabled(w.store, v, enabled));
            UpToDate(w.wire.tables, Sync(w1).0.store, v) <==> enabled || UpToDate(w.wire.tables, w.store, v)
  {
    SetSyncEnabledIsQuiet(w, v, enabled);
    PullCatchesUpIff(w.(store := SetSyncEnabled(w.store, v, enabled)), v);
  }
}

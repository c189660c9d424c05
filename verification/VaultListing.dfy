/**
 * What a listing of the vaults does: vaults that unwrap are opened and cached, vaults that are not listed are dropped.
 */
module VaultListing {
  import opened Types
  import opened Sealing
  import opened ServerModel
  import opened ServerLaws
  import opened S = StoreModel
  import opened ClientModel
  import opened Coherence
  import opened Freshness
  import opened FreshOperations

  lemma FirstId(items: seq<VaultVersion>)
    requires items != []
    ensures Ids(items) == {items[0].id} + Ids(items[1..])
  {
    assert items[0] in items;
    assert forall it :: it in items <==> it == items[0] || it in items[1..];
  }

  lemma {:induction false} VersionsListExactly(t: Tables, user: UserId, ids: seq<VaultId>, v: VaultId)
    ensures v in Ids(VaultVersions(t, user, ids)) <==> v in ids && Owned(t, user, v)
    decreases |ids|
  {
    if ids != [] {
      VersionsListExactly(t, user, ids[1..], v);
      var items, rest := VaultVersions(t, user, ids), VaultVersions(t, user, ids[1..]);
      if Owned(t, user, ids[0]) {
        assert items[1..] == rest;
        FirstId(items);
      }
    }
  }

  /** An answered listing names exactly the vaults of the user. */
  lemma ListingIsComplete(wire: Wire, user: UserId)
    requires Call(wire, ListVaults(user)).1.Vaults? && TablesOk(wire.tables)
    ensures var (after, reply) := Call(wire, ListVaults(user));
            forall v :: v in Ids(reply.vaults) <==> Owned(after.tables, user, v)
  {
    CallMovesForward(wire, ListVaults(user));
    var (after, reply) := Call(wire, ListVaults(user));
    forall v ensures v in Ids(reply.vaults) <==> Owned(after.tables, user, v) {
      VersionsListExactly(after.tables, user, after.tables.vaultOrder, v);
    }
  }

  predicate Opened(items: seq<VaultVersion>, keys: map<VaultId, Key>, v: VaultId) {
    v in Ids(items) && v in keys
  }

  /** What was cached keeps its switch and its recorded version; what is new is switched off and was never pulled. */
  predicate SwitchKept(s: Store, s': Store, v: VaultId)
    requires v in s'.vaults
  {
    if v in s.vaults then
      s'.vaults[v].syncEnabled == s.vaults[v].syncEnabled && s'.vaults[v].syncedVersion == s.vaults[v].syncedVersion
    else !s'.vaults[v].syncEnabled && s'.vaults[v].syncedVersion == 0
  }

  predicate Versioned(items: seq<VaultVersion>, v: VaultId, version: int) {
    exists i :: 0 <= i < |items| && items[i].id == v && items[i].version == version
  }

  lemma VersionedLater(items: seq<VaultVersion>, v: VaultId, version: int)
    requires items != [] && Versioned(items[1..], v, version)
    ensures Versioned(items, v, version)
  {
    var i :| 0 <= i < |items[1..]| && items[1..][i].id == v && items[1..][i].version == version;
    assert items[i + 1] == items[1..][i];
  }

  ghost predicate CachedInto(s: Store, items: seq<VaultVersion>, keys: map<VaultId, Key>, s': Store) {
    && s' == s.(vaults := s'.vaults)
    && (forall v :: v in s'.vaults <==> v in s.vaults || Opened(items, keys, v))
    && (forall v :: v in s'.vaults ==> SwitchKept(s, s', v))
  }

  ghost predicate OpenedInto(
      open: map<VaultId, Key>, items: seq<VaultVersion>, keys: map<VaultId, Key>, open': map<VaultId, Key>)
  {
    && (forall v :: v in open' <==> v in open || Opened(items, keys, v))
    && (forall v :: v in open' ==> open'[v] == if Opened(items, keys, v) then keys[v] else open[v])
  }

  lemma {:induction false} ListIntoCaches(w: World, items: seq<VaultVersion>, keys: map<VaultId, Key>)
    ensures CachedInto(w.store, items, keys, ListInto(w, items, keys).0.store)
    decreases |items|
  {
    if items != [] {
      FirstId(items);
      var it := items[0];
      if it.id !in keys {
        ListIntoCaches(w, items[1..], keys);
      } else {
        var w1 := OpenVault(w, it.id, keys[it.id])
                    .(store := UpsertVault(w.store, it.id, CachedVault(it.version, 0, false)));
        ListIntoCaches(w1, items[1..], keys);
      }
    }
  }

  /** An opened vault is cached with a version from the list; any other keeps the one it had. */
  lemma {:induction false} ListIntoVersions(w: World, items: seq<VaultVersion>, keys: map<VaultId, Key>, v: VaultId)
    ensures var s' := ListInto(w, items, keys).0.store;
            if Opened(items, keys, v) then v in s'.vaults && Versioned(items, v, s'.vaults[v].version)
            else v in w.store.vaults ==> v in s'.vaults && s'.vaults[v] == w.store.vaults[v]
    decreases |items|
  {
    if items != [] {
      FirstId(items);
      var it, rest := items[0], items[1..];
      var w1 := if it.id !in keys then w
                else OpenVault(w, it.id, keys[it.id])
                       .(store := UpsertVault(w.store, it.id, CachedVault(it.version, 0, false)));
      ListIntoVersions(w1, rest, keys, v);
      if Opened(rest, keys, v) {
        VersionedLater(items, v, ListInto(w1, rest, keys).0.store.vaults[v].version);
      }
    }
  }

  lemma {:induction false} ListIntoOpens(w: World, items: seq<VaultVersion>, keys: map<VaultId, Key>)
    ensures var w' := ListInto(w, items, keys).0;
            && w'.wire == w.wire && w'.session.user == w.session.user
            && OpenedInto(w.session.open, items, keys, w'.session.open)
    decreases |items|
  {
    if items != [] {
      FirstId(items);
      var it := items[0];
      if it.id !in keys {
        ListIntoOpens(w, items[1..], keys);
      } else {
        var w1 := OpenVault(w, it.id, keys[it.id])
                    .(store := UpsertVault(w.store, it.id, CachedVault(it.version, 0, false)));
        ListIntoOpens(w1, items[1..], keys);
      }
    }
  }

  predicate Tells(shown: seq<ListedVault>, s: Store, items: seq<VaultVersion>, v: VaultId) {
    exists i :: 0 <= i < |shown| && shown[i].id == v && Versioned(items, v, shown[i].version)
                && v in s.vaults && shown[i].syncEnabled == s.vaults[v].syncEnabled
  }

  /** The user is shown each opened vault with its switch as it is cached. */
  lemma {:induction false} ListIntoTells(w: World, items: seq<VaultVersion>, keys: map<VaultId, Key>, v: VaultId)
    requires Opened(items, keys, v)
    ensures Tells(ListInto(w, items, keys).1, ListInto(w, items, keys).0.store, items, v)
    decreases |items|
  {
    FirstId(items);
    var it, rest := items[0], items[1..];
    var (w', shown) := ListInto(w, items, keys);
    if it.id !in keys {
      ListIntoTells(w, rest, keys, v);
      var i :| 0 <= i < |shown| && shown[i].id == v && Versioned(rest, v, shown[i].version)
               && shown[i].syncEnabled == w'.store.vaults[v].syncEnabled;
      VersionedLater(items, v, shown[i].version);
    } else {
      var w1 := OpenVault(w, it.id, keys[it.id])
                  .(store := UpsertVault(w.store, it.id, CachedVault(it.version, 0, false)));
      ListIntoCaches(w1, rest, keys);
      if v == it.id {
        assert SwitchKept(w1.store, w'.store, v);
        assert shown[0].id == v && shown[0].version == items[0].version;
      } else {
        ListIntoTells(w1, rest, keys, v);
        var later := ListInto(w1, rest, keys).1;
        var i :| 0 <= i < |later| && later[i].id == v && Versioned(rest, v, later[i].version)
                 && later[i].syncEnabled == w'.store.vaults[v].syncEnabled;
        VersionedLater(items, v, later[i].version);
        assert shown[i + 1] == later[i];
      }
    }
  }

  /** What is shown is what the server has and the cache holds. */
  predicate Shows(shown: seq<ListedVault>, v: VaultId, version: int, enabled: bool) {
    exists i :: 0 <= i < |shown| && shown[i] == ListedVault(v, version, enabled)
  }

  lemma TellsServer(t: Tables, user: UserId, shown: seq<ListedVault>, s: Store, items: seq<VaultVersion>, v: VaultId)
    requires items == VaultVersions(t, user, t.vaultOrder) && Tells(shown, s, items, v)
    ensures v in t.vaults && v in s.vaults && Shows(shown, v, t.vaults[v].version, s.vaults[v].syncEnabled)
  {
    var i :| 0 <= i < |shown| && shown[i].id == v && Versioned(items, v, shown[i].version)
             && v in s.vaults && shown[i].syncEnabled == s.vaults[v].syncEnabled;
    var k :| 0 <= k < |items| && items[k].id == v && items[k].version == shown[i].version;
    assert shown[i] == ListedVault(v, t.vaults[v].version, s.vaults[v].syncEnabled);
  }

  /**
   * After an answered listing exactly those vaults of the user are cached that were cached before or unwrap now, the
   * first with the switch and the recorded version that they had, the others switched off and never pulled. Without an
   * answer nothing changes. The cached secrets and the outbox stay in either case.
   */
  lemma ListingCachesExactly(w: World, keys: map<VaultId, Key>)
    requires TablesOk(w.wire.tables)
    ensures var (w', r) := ListAndOpen(w, keys);
            var t, user := w'.wire.tables, w.session.user;
            && w'.store == w.store.(vaults := w'.store.vaults)
            && (r.Err? ==> w'.store.vaults == w.store.vaults && w'.session == w.session)
            && (r.Ok? ==>
                  && (forall v :: v in w'.store.vaults <==> Owned(t, user, v) && (v in w.store.vaults || v in keys))
                  && (forall v :: v in w'.store.vaults ==> SwitchKept(w.store, w'.store, v))
                  && (forall v :: Owned(t, user, v) && v in keys ==>
                        v in w'.session.open && w'.session.open[v] == keys[v]))
  {
    var (wire, reply) := Call(w.wire, ListVaults(w.session.user));
    if reply.Vaults? {
      ListingIsComplete(w.wire, w.session.user);
      ListIntoOpens(w.(wire := wire), reply.vaults, keys);
      ListIntoCaches(w.(wire := wire), reply.vaults, keys);
    }
  }

  lemma ListedTellsServer(
      w: World, t: Tables, items: seq<VaultVersion>, keys: map<VaultId, Key>, v: VaultId)
    requires items == VaultVersions(t, w.session.user, t.vaultOrder) && Opened(items, keys, v)
    ensures var (w', shown) := ListInto(w, items, keys);
            && v in t.vaults && v in w'.store.vaults && w'.store.vaults[v].version == t.vaults[v].version
            && Shows(shown, v, t.vaults[v].version, w'.store.vaults[v].syncEnabled)
  {
    var (w', shown) := ListInto(w, items, keys);
    ListIntoVersions(w, items, keys, v);
    ListIntoTells(w, items, keys, v);
    TellsServer(t, w.session.user, shown, w'.store, items, v);
    var i :| 0 <= i < |items| && items[i].id == v && items[i].version == w'.store.vaults[v].version;
  }

  /** A vault that unwraps is cached and shown with the server's version, and shown with its switch as it is cached. */
  lemma ListingTellsServer(w: World, keys: map<VaultId, Key>, v: VaultId)
    requires TablesOk(w.wire.tables) && v in keys && ListAndOpen(w, keys).1.Ok?
    requires Owned(ListAndOpen(w, keys).0.wire.tables, w.session.user, v)
    ensures var (w', r) := ListAndOpen(w, keys);
            && v in w'.store.vaults && w'.store.vaults[v].version == w'.wire.tables.vaults[v].version
            && Shows(r.value, v, w'.store.vaults[v].version, w'.store.vaults[v].syncEnabled)
  {
    var (wire, reply) := Call(w.wire, ListVaults(w.session.user));
    ListingIsComplete(w.wire, w.session.user);
    ListIntoOpens(w.(wire := wire), reply.vaults, keys);
    assert ListAndOpen(w, keys).0.wire == wire;
    assert v in Ids(reply.vaults);
    ListedTellsServer(w.(wire := wire), wire.tables, reply.vaults, keys, v);
  }

  // ----- the invariants -----

  ghost predicate KeysOk(d: Directory, keys: map<VaultId, Key>) {
    forall v :: v in keys ==> keys[v] == d.key(v)
  }

  lemma ListingKeeps(d: Directory, w: World, keys: map<VaultId, Key>)
    requires Inv(d, w) && KeysOk(d, keys)
    ensures Inv(d, ListAndOpen(w, keys).0)
  {
    CallKeeps(d, w.wire, ListVaults(w.session.user));
    var (wire, reply) := Call(w.wire, ListVaults(w.session.user));
    if reply.Vaults? {
      ListIntoOpens(w.(wire := wire), reply.vaults, keys);
      ListIntoCaches(w.(wire := wire), reply.vaults, keys);
    }
  }

  /** A cache with fewer vaults, or with vaults that were never pulled, claims nothing more. */
  lemma ListingIsQuiet(w: World, keys: map<VaultId, Key>)
    requires FreshWorld(w)
    ensures Quiet(w, ListAndOpen(w, keys).0)
  {
    var (wire, reply) := Call(w.wire, ListVaults(w.session.user));
    var w1, w2 := w.(wire := wire), ListAndOpen(w, keys).0;
    CallIsQuiet(w, ListVaults(w.session.user));
    if reply.Vaults? {
      ListIntoOpens(w1, reply.vaults, keys);
      ListIntoCaches(w1, reply.vaults, keys);
      LaterIsReflexive(wire.tables);
      forall id | Claimed(wire.tables, w2.store, id) ensures Claimed(wire.tables, w1.store, id) {
        assert SwitchKept(w1.store, w2.store, wire.tables.secrets[id].vault);
      }
      forall v ensures FreshVault(wire.tables, w2.store, v) {
        assert FreshVault(wire.tables, w1.store, v);
      }
      forall id ensures FreshSecret(wire.tables, w2.store, id) {
        assert FreshSecret(wire.tables, w1.store, id);
      }
      QuietIsTransitive(w, w1, w2);
    }
  }
}

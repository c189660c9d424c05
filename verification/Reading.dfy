/** What the readers return: the texts of the tiers, each in its place, under the version that they are kept with. */
module Reading {
  import opened Types
  import opened Sealing
  import opened ServerModel
  import opened ServerLaws
  import opened S = StoreModel
  import opened StoreLaws
  import opened ClientModel
  import opened Coherence
  import opened Freshness
  import opened StagedSync
  import opened CatchingUp

  /** The secret can be asked for: it has a name, and its vault is open. */
  ghost predicate Askable(d: Directory, w: World, id: SecretId) {
    id != "" && d.home(id) != "" && d.home(id) in w.session.open
  }

  // ----- one reader after the other -----

  /** A loaded payload is read from the cache, without a call. */
  lemma CachedPayload(d: Directory, w: World, id: SecretId)
    requires Inv(d, w) && Askable(d, w, id) && id in w.store.secrets && w.store.secrets[id].payloadLoaded
    ensures var row := w.store.secrets[id];
            ReadPayload(w, d.home(id), id) == (w, Ok((row.version, Plain(row.tiers.payload))))
  {
    assert CacheOk(d, id, w.store.secrets[id]);
  }

  /** Any other payload is asked of the server, read as the server has it at its answer, and kept if it fits the row. */
  lemma FetchedPayload(d: Directory, w: World, id: SecretId)
    requires Inv(d, w) && Askable(d, w, id)
    requires id in w.store.secrets ==> !w.store.secrets[id].payloadLoaded
    ensures var (w', r) := ReadPayload(w, d.home(id), id);
            var (wire, reply) := Call(w.wire, GetPayload(w.session.user, id));
            && w'.wire == wire
            && (reply.Payload? ==>
                  && Owns(wire.tables, w.session.user, id) && !wire.tables.secrets[id].deleted
                  && r == Ok((wire.tables.secrets[id].version, Plain(wire.tables.secrets[id].tiers.payload))))
            && (reply.Fault? ==> r == Err(reply.error) && w'.store == w.store)
            && (reply.Payload? && id in w.store.secrets && w.store.secrets[id].version == reply.version ==>
                  w'.store.secrets[id].payloadLoaded && w'.store.secrets[id].tiers.payload == reply.encPayload)
  {
    CallKeeps(d, w.wire, GetPayload(w.session.user, id));
  }

  /** The detail is put together from the payload reader, the cached row, and the index if it is there by then. */
  lemma DetailIsRead(d: Directory, w: World, id: SecretId)
    requires Inv(d, w) && Askable(d, w, id)
    ensures var (w', r) := ReadDetail(w, d.home(id), id);
            var read := ReadPayload(w, d.home(id), id).1;
            && (r.Ok? <==> read.Ok?) && (r.Err? ==> r.error == read.error)
            && (r.Ok? ==>
                  && r.value.version == read.value.0 && r.value.payload == read.value.1
                  && (id in w'.store.secrets <==> id in w.store.secrets)
                  && r.value.row == (if id in w.store.secrets then Some(Plain(w.store.secrets[id].tiers.row)) else None)
                  && r.value.index == (if id in w'.store.secrets && w'.store.secrets[id].indexLoaded
                                       then Some(Plain(w'.store.secrets[id].tiers.index)) else None))
  {
    var (w1, read) := ReadPayload(w, d.home(id), id);
    ReadPayloadKeeps(d, w, id);
    PayloadKeepsRow(w, d.home(id), id);
    if read.Ok? && id in w1.store.secrets {
      assert CacheOk(d, id, w1.store.secrets[id]);
      LoadIndexesKeeps(d, w1, d.home(id));
      LoadKeepsRow(w1, d.home(id), id);
      var w2 := LoadIndexes(w1, d.home(id)).0;
      assert CacheOk(d, id, w2.store.secrets[id]);
    }
  }

  /**
   * The detail may mix two versions: it names that of the payload, and its row belongs to that version if and only if
   * the payload was asked of a server that has the cached version still.
   */
  lemma DetailMixesIff(d: Directory, w: World, id: SecretId)
    requires Inv(d, w) && Askable(d, w, id) && id in w.store.secrets && !w.store.secrets[id].payloadLoaded
    requires ReadDetail(w, d.home(id), id).1.Ok?
    ensures var r, row := ReadDetail(w, d.home(id), id).1.value, w.store.secrets[id];
            var wire := Call(w.wire, GetPayload(w.session.user, id)).0;
            && id in wire.tables.secrets && r.version == wire.tables.secrets[id].version
            && r.payload == Plain(wire.tables.secrets[id].tiers.payload) && r.row == Some(Plain(row.tiers.row))
            && (Fits(d, id, r.version, RowTier, row.tiers.row) <==> row.version == wire.tables.secrets[id].version)
  {
    FetchedPayload(d, w, id);
    DetailIsRead(d, w, id);
    assert CacheOk(d, id, w.store.secrets[id]);
  }

  lemma PayloadKeepsRow(w: World, vault: VaultId, id: SecretId)
    ensures var s' := ReadPayload(w, vault, id).0.store;
            && (id in s'.secrets <==> id in w.store.secrets)
            && (id in w.store.secrets ==> s'.secrets[id] == w.store.secrets[id].(
                  tiers := w.store.secrets[id].tiers.(payload := s'.secrets[id].tiers.payload),
                  payloadLoaded := s'.secrets[id].payloadLoaded))
  {
  }

  lemma LoadKeepsRow(w: World, vault: VaultId, id: SecretId)
    requires id in w.store.secrets
    ensures var s' := LoadIndexes(w, vault).0.store;
            id in s'.secrets && IndexFilled(w.store.secrets[id], s'.secrets[id])
  {
    var reply := Call(w.wire, ListIndex(w.session.user, vault)).1;
    if reply.Indexes? { FillIndexesOnlyFills(w.store, reply.indexes); }
  }

  /** The list shows exactly the cached secrets of the kind in the vault, each with its version and its row. */
  lemma RowsAreRead(d: Directory, w: World, vault: VaultId, kind: int, id: SecretId)
    requires Inv(d, w) && vault != "" && vault in w.session.open
    ensures var r := ReadRows(w, vault, kind);
            && r.Ok?
            && (id in r.value <==> id in w.store.secrets && d.home(id) == vault && d.kind(id) == kind)
            && (id in r.value ==> r.value[id] == (w.store.secrets[id].version, Plain(w.store.secrets[id].tiers.row)))
  {
    ReadRowsNeverFails(d, w, vault, kind);
    if id in w.store.secrets { assert CacheOk(d, id, w.store.secrets[id]); }
  }

  // ----- all three together -----

  /** All readers show these texts under this version, and no call is made for them. */
  ghost predicate ReadsAs(w: World, vault: VaultId, kind: int, id: SecretId, version: int, content: Content) {
    && ReadPayload(w, vault, id) == (w, Ok((version, content.payload)))
    && ReadDetail(w, vault, id) == (w, Ok(Detail(version, content.payload, Some(content.row), Some(content.index))))
    && ReadRows(w, vault, kind).Ok?
    && id in ReadRows(w, vault, kind).value && ReadRows(w, vault, kind).value[id] == (version, content.row)
  }

  /** The cache holds all tiers of the secret, sealed from this content. */
  ghost predicate Keeps(s: Store, id: SecretId, version: int, content: Content) {
    && id in s.secrets && s.secrets[id].version == version
    && s.secrets[id].indexLoaded && s.secrets[id].payloadLoaded
    && Readable(s.secrets[id].tiers) && Texts(s.secrets[id].tiers) == content
  }

  lemma KeptIsRead(d: Directory, w: World, id: SecretId, version: int, content: Content)
    requires Inv(d, w) && Askable(d, w, id) && Keeps(w.store, id, version, content)
    ensures ReadsAs(w, d.home(id), d.kind(id), id, version, content)
  {
    CachedPayload(d, w, id);
    DetailIsRead(d, w, id);
    RowsAreRead(d, w, d.home(id), d.kind(id), id);
    assert CacheOk(d, id, w.store.secrets[id]);
    assert ReadDetail(w, d.home(id), id).0 == w;
  }

  // ----- a secret of which only the row was pulled -----

  lemma ListingHasIndex(t: Tables, user: UserId, vault: VaultId, id: SecretId)
    requires TablesOk(t) && Served(t, user, vault, id)
    ensures Lists(IndexesOf(t, user, vault, t.secretOrder), id, t.secrets[id].version)
  {
    var items := IndexesOf(t, user, vault, t.secretOrder);
    var i :| 0 <= i < |items| && items[i].id == id;
    assert items[i].version == t.secrets[id].version;
  }

  /** An index that is loaded from a listing is the one that the listing has. */
  lemma {:induction false} FilledFromListing(s: Store, items: seq<IndexItem>, id: SecretId, encIndex: Blob)
    requires Unindexed(s, id) && Lists(items, id, s.secrets[id].version)
    requires forall i :: 0 <= i < |items| && items[i].id == id ==> items[i].encIndex == encIndex
    ensures var s' := FillIndexes(s, items);
            id in s'.secrets && s'.secrets[id].indexLoaded && s'.secrets[id].tiers.index == encIndex
    decreases |items|
  {
    var it, rest := items[0], items[1..];
    assert forall i :: 0 <= i < |rest| ==> rest[i] == items[i + 1];
    var skip := it.id !in s.secrets || s.secrets[it.id].dirty || s.secrets[it.id].indexLoaded;
    var s1 := if skip then s else SetSecretIndex(s, it.id, it.encIndex, it.version);
    ListsFirst(items, id, s.secrets[id].version);
    if it.id == id && it.version == s.secrets[id].version {
      FillIndexesOnlyFills(s1, rest);
      assert IndexFilled(s1.secrets[id], FillIndexes(s1, rest).secrets[id]);
    } else {
      FilledFromListing(s1, rest, id, encIndex);
    }
  }

  /** Loading the indexes of a vault undisturbed gives a clean, unloaded row the server's index. */
  lemma CalmIndexes(w: World, vault: VaultId, id: SecretId, calls: nat)
    requires TablesOk(w.wire.tables) && Calm(w.wire.tape, calls) && calls > 0 && w.session.user != "" && vault != ""
    requires Served(w.wire.tables, w.session.user, vault, id) && Unindexed(w.store, id)
    requires w.store.secrets[id].version == w.wire.tables.secrets[id].version
    ensures var (w', r) := LoadIndexes(w, vault);
            && r == Ok(Unit) && id in w'.store.secrets && w'.store.secrets[id].indexLoaded
            && w'.store.secrets[id].tiers.index == w.wire.tables.secrets[id].tiers.index
  {
    var t, req := w.wire.tables, ListIndex(w.session.user, vault);
    CalmQuery(w.wire, req, calls);
    ListingHasIndex(t, w.session.user, vault, id);
    FilledFromListing(w.store, IndexesOf(t, w.session.user, vault, t.secretOrder), id, t.secrets[id].tiers.index);
  }

  /**
   * After a pull only rows are cached. If nothing disturbs the two calls that the detail reader makes, it shows the
   * server's three texts under the server's version.
   */
  lemma PulledIsRead(d: Directory, w: World, id: SecretId)
    requires Inv(d, w) && Askable(d, w, id) && Calm(w.wire.tape, 2) && w.session.user != ""
    requires Served(w.wire.tables, w.session.user, d.home(id), id) && AsServed(w.wire.tables, w.store, id)
    requires Unindexed(w.store, id) && !w.store.secrets[id].payloadLoaded
    ensures var row := w.wire.tables.secrets[id];
            && Readable(row.tiers)
            && var texts := Texts(row.tiers);
               ReadDetail(w, d.home(id), id).1 ==
                 Ok(Detail(row.version, texts.payload, Some(texts.row), Some(texts.index)))
  {
    var t := w.wire.tables;
    CalmQuery(w.wire, GetPayload(w.session.user, id), 2);
    FetchedPayload(d, w, id);
    DetailIsRead(d, w, id);
    PayloadKeepsRow(w, d.home(id), id);
    var w1 := ReadPayload(w, d.home(id), id).0;
    CalmIndexes(w1, d.home(id), id, 1);
    assert CacheOk(d, id, w1.store.secrets[id]);
    assert ReadDetail(w, d.home(id), id).0 == LoadIndexes(w1, d.home(id)).0;
  }
}

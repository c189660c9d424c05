/**
 * Every sealed blob, in the cache, in the outbox and on the server, was sealed under exactly the version it is kept
 * with. Each operation keeps this, whatever other devices and the network do, so nothing ever fails to open.
 */
module Coherence {
  import opened Types
  import opened Sealing
  import opened ServerModel
  import opened ServerLaws
  import opened S = StoreModel
  import opened StoreLaws
  import opened ClientModel

  // ----- the invariant -----

  /** A tier that is not loaded is absent; a loaded one fits the row's version. */
  ghost predicate CacheOk(d: Directory, id: SecretId, row: CachedSecret) {
    && row.vault == d.home(id) && row.kind == d.kind(id)
    && Fits(d, id, row.version, RowTier, row.tiers.row)
    && (if row.indexLoaded then Fits(d, id, row.version, IndexTier, row.tiers.index) else row.tiers.index.Empty?)
    && (if row.payloadLoaded then Fits(d, id, row.version, PayloadTier, row.tiers.payload)
            else row.tiers.payload.Empty?)
  }

  /** What is waiting to be sent was sealed under the version that the server will store it at. */
  ghost predicate OpOk(d: Directory, id: SecretId, op: Op) {
    && op.vault == d.home(id)
    && (op.CreateOp? || op.UpdateOp? ==> op.kind == d.kind(id))
    && (op.CreateOp? ==> SealedUnder(d, id, INITIAL_VERSION, op.tiers))
    && (op.UpdateOp? ==> SealedUnder(d, id, op.base + 1, op.tiers))
  }

  ghost predicate StoreOk(d: Directory, s: Store) {
    && (forall id :: id in s.secrets ==> CacheOk(d, id, s.secrets[id]))
    && (forall e :: e in s.outbox && e.entity == SECRET ==> OpOk(d, e.entityId, e.op))
  }

  ghost predicate TapeOk(d: Directory, tape: seq<Net>) {
    forall i :: 0 <= i < |tape| ==> AllHonest(d, tape[i].others)
  }

  ghost predicate WireOk(d: Directory, wire: Wire) {
    TablesOk(wire.tables) && ServerSealed(d, wire.tables) && TapeOk(d, wire.tape)
  }

  ghost predicate SessionOk(d: Directory, s: Session) {
    forall v :: v in s.open ==> s.open[v] == d.key(v)
  }

  ghost predicate Inv(d: Directory, w: World) {
    WireOk(d, w.wire) && StoreOk(d, w.store) && SessionOk(d, w.session)
  }

  predicate Readable(tiers: Tiers) {
    tiers.row.Sealed? && tiers.index.Sealed? && tiers.payload.Sealed?
  }

  /** What the user insists on: the content of an edit, or nothing for an erasure. */
  function MineOf(retry: Retry): Option<Content> {
    match retry
    case AgainUpdate(_, content) => Some(content)
    case AgainOutboxUpdate(_, op) => if op.UpdateOp? && Readable(op.tiers) then Some(Texts(op.tiers)) else None
    case _ => None
  }

  /** What will be written again fits the secret. */
  ghost predicate RetryOk(d: Directory, id: SecretId, retry: Retry) {
    && (retry.AgainUpdate? ==> retry.kind == d.kind(id) && |retry.content.index| <= MAX_ENC_INDEX_SIZE)
    && (retry.AgainOutboxUpdate? ==> retry.op.UpdateOp? && OpOk(d, id, retry.op))
  }

  /** The server's copy is sealed under its version, and both sides are shown as they are. */
  ghost predicate CardOk(d: Directory, c: Card) {
    && CardFormed(c)
    && c.vault == d.home(c.secret)
    && c.server.id == c.secret && c.server.kind == d.kind(c.secret)
    && SealedUnder(d, c.secret, c.server.version, c.server.tiers)
    && c.theirs == Texts(c.server.tiers) && c.mine == MineOf(c.retry)
    && RetryOk(d, c.secret, c.retry)
  }

  /** The operation kept the invariant, did not fail to open anything, and any card it returned opens. */
  ghost predicate Sound(d: Directory, step: (World, Result<Option<Card>>)) {
    && Inv(d, step.0)
    && step.1 != Err(DecryptFailed)
    && (step.1.Ok? && step.1.value.Some? ==> CardOk(d, step.1.value.value))
  }

  // ----- the wire -----

  ghost predicate RowItemOk(d: Directory, vault: VaultId, it: RowItem) {
    d.home(it.id) == vault && d.kind(it.id) == it.kind && Fits(d, it.id, it.version, RowTier, it.encRow)
  }

  ghost predicate IndexItemOk(d: Directory, vault: VaultId, it: IndexItem) {
    d.home(it.id) == vault && Fits(d, it.id, it.version, IndexTier, it.encIndex)
  }

  ghost predicate ReplyOk(d: Directory, req: Request, reply: Reply) {
    match reply
    case Fault(Conflict(server)) =>
      (req.Update? || req.Delete? || req.Attach?) && server.id == req.id && CopySealed(d, server)
    case Fault(error) => !error.DecryptFailed?
    case Rows(rows) => req.ListRows? && forall i :: 0 <= i < |rows| ==> RowItemOk(d, req.vault, rows[i])
    case Indexes(indexes) =>
      req.ListIndex? && forall i :: 0 <= i < |indexes| ==> IndexItemOk(d, req.vault, indexes[i])
    case Payload(version, encPayload) => req.GetPayload? && Fits(d, req.id, version, PayloadTier, encPayload)
    case _ => true
  }

  lemma ExecReplyOk(d: Directory, t: Tables, req: Request)
    requires ServerSealed(d, t)
    ensures ReplyOk(d, req, Exec(t, req).1)
  {
  }

  lemma RunKeepsWire(d: Directory, wire: Wire)
    requires WireOk(d, wire) && wire.tape != []
    ensures var before := RunAll(wire.tables, wire.tape[0].others);
            && TablesOk(before) && ServerSealed(d, before) && Later(wire.tables, before)
            && TapeOk(d, wire.tape[1..])
  {
    RunMovesForward(wire.tables, wire.tape[0].others);
    RunKeepsSealing(d, wire.tables, wire.tape[0].others);
    assert forall i :: 0 <= i < |wire.tape[1..]| ==> wire.tape[1..][i] == wire.tape[i + 1];
  }

  lemma AnswerKeeps(d: Directory, before: Tables, fate: Fate, tape: seq<Net>, accepted: seq<Request>, req: Request)
    requires TablesOk(before) && ServerSealed(d, before) && TapeOk(d, tape) && Honest(d, req)
    ensures var (after, reply) := Answer(before, fate, tape, accepted, req);
            && WireOk(d, after) && ReplyOk(d, req, reply) && Later(before, after.tables)
  {
    ExecKeepsTablesOk(before, req);
    ExecKeepsSealing(d, before, req);
    ExecMovesForward(before, req);
    ExecReplyOk(d, before, req);
    LaterIsReflexive(before);
  }

  lemma CallKeeps(d: Directory, wire: Wire, req: Request)
    requires WireOk(d, wire) && Honest(d, req)
    ensures var (after, reply) := Call(wire, req);
            && WireOk(d, after) && ReplyOk(d, req, reply) && Later(wire.tables, after.tables)
  {
    if wire.tape == [] {
      LaterIsReflexive(wire.tables);
    } else {
      var before := RunAll(wire.tables, wire.tape[0].others);
      RunKeepsWire(d, wire);
      AnswerKeeps(d, before, wire.tape[0].fate, wire.tape[1..], wire.accepted, req);
      LaterIsTransitive(wire.tables, before, Call(wire, req).0.tables);
    }
  }

  // ----- the store -----

  lemma UpsertKeeps(d: Directory, s: Store, id: SecretId, row: CachedSecret)
    requires StoreOk(d, s) && CacheOk(d, id, row)
    ensures StoreOk(d, UpsertSecretRow(s, id, row))
  {
  }

  lemma CacheFullKeeps(d: Directory, s: Store, id: SecretId, kind: int, tiers: Tiers, version: int, dirty: bool)
    requires StoreOk(d, s) && SealedUnder(d, id, version, tiers) && kind == d.kind(id)
    ensures StoreOk(d, CacheFull(s, id, d.home(id), kind, tiers, version, dirty))
  {
    UpsertKeeps(d, s, id, Loaded(d.home(id), kind, tiers, version, dirty));
  }

  lemma UpdateOfflineKeeps(d: Directory, s: Store, id: SecretId, kind: int, base: int, tiers: Tiers)
    requires StoreOk(d, s) && SealedUnder(d, id, base + 1, tiers) && kind == d.kind(id)
    ensures StoreOk(d, UpdateOffline(s, id, d.home(id), kind, base, tiers))
  {
    CacheFullKeeps(d, s, id, kind, tiers, base + 1, true);
  }

  lemma SealingFits(d: Directory, id: SecretId, version: int, content: Content, n: Nonces)
    requires |content.index| <= MAX_ENC_INDEX_SIZE
    ensures SealedUnder(d, id, version, SealTiers(d.key(d.home(id)), d.home(id), id, version, content, n))
  {
  }

  lemma CachedOpens(d: Directory, id: SecretId, row: CachedSecret)
    requires CacheOk(d, id, row)
    ensures var plain := DecryptTiers(d.key(d.home(id)), d.home(id), id, row.version, row.tiers);
            plain.Ok? && |plain.value.index| <= MAX_ENC_INDEX_SIZE
  {
  }

  lemma CallThenStoreKeeps(d: Directory, w: World, req: Request, s: Store)
    requires Inv(d, w) && Honest(d, req) && StoreOk(d, s)
    ensures Inv(d, w.(wire := Call(w.wire, req).0, store := s)) && ReplyOk(d, req, Call(w.wire, req).1)
  {
    CallKeeps(d, w.wire, req);
  }

  /** The card that is built from a conflict opens, and so does what it will send again. */
  lemma ConflictKeeps(d: Directory, w: World, req: Request, mine: Option<Content>, retry: Retry)
    requires Inv(d, w) && Honest(d, req)
    requires Call(w.wire, req).1.Fault? && Call(w.wire, req).1.error.Conflict?
    requires RetryOk(d, req.id, retry) && mine == MineOf(retry)
    ensures var (wire, reply) := Call(w.wire, req);
            && req.id == reply.error.server.id
            && Sound(d, (w.(wire := wire),
                         BuildCard(d.key(d.home(req.id)), d.home(req.id), req.id, mine, reply.error.server, retry)))
  {
    CallKeeps(d, w.wire, req);
    var server := Call(w.wire, req).1.error.server;
    OpensExactlyUnderItsVersion(d, server.id, server.version, server.version, server.tiers);
  }

  // ----- create, update, delete -----

  lemma CreateVaultKeeps(d: Directory, w: World, vault: VaultId)
    requires Inv(d, w)
    ensures Inv(d, ClientModel.CreateVault(w, vault, d.key(vault)).0)
  {
    CallKeeps(d, w.wire, ServerModel.CreateVault(w.session.user, vault));
  }

  lemma SendCreateKeeps(d: Directory, w: World, id: SecretId, kind: int, tiers: Tiers)
    requires Inv(d, w) && SealedUnder(d, id, INITIAL_VERSION, tiers) && kind == d.kind(id)
    ensures var (w', r) := SendCreate(w, d.home(id), id, kind, tiers);
            Inv(d, w') && r != Err(DecryptFailed)
  {
    CallKeeps(d, w.wire, Create(w.session.user, id, d.home(id), kind, tiers));
    UpsertKeeps(d, w.store, id, Loaded(d.home(id), kind, tiers, INITIAL_VERSION, false));
    UpsertKeeps(d, w.store, id, Loaded(d.home(id), kind, tiers, INITIAL_VERSION, true));
  }

  lemma CreateKeeps(d: Directory, w: World, id: SecretId, kind: int, content: Content, n: Nonces)
    requires Inv(d, w) && kind == d.kind(id)
    ensures var (w', r) := CreateTyped(w, d.home(id), id, kind, content, n);
            Inv(d, w') && r != Err(DecryptFailed)
  {
    var vault := d.home(id);
    if vault in w.session.open && |content.index| <= MAX_ENC_INDEX_SIZE {
      SealingFits(d, id, INITIAL_VERSION, content, n);
      SendCreateKeeps(d, w, id, kind, SealTiers(d.key(vault), vault, id, INITIAL_VERSION, content, n));
    }
  }

  lemma SendUpdateKeeps(d: Directory, w: World, id: SecretId, base: int, kind: int, content: Content, tiers: Tiers)
    requires Inv(d, w) && SealedUnder(d, id, base + 1, tiers)
    requires kind == d.kind(id) && |content.index| <= MAX_ENC_INDEX_SIZE
    ensures Sound(d, SendUpdate(w, d.key(d.home(id)), d.home(id), id, base, kind, content, tiers))
  {
    var req := Update(w.session.user, id, base, tiers);
    var reply := Call(w.wire, req).1;
    CallThenStoreKeeps(d, w, req, w.store);
    if reply.Done? {
      CacheFullKeeps(d, w.store, id, kind, tiers, base + 1, false);
      CallThenStoreKeeps(d, w, req, CacheFull(w.store, id, d.home(id), kind, tiers, base + 1, false));
    } else if reply.error.Conflict? {
      ConflictKeeps(d, w, req, Some(content), AgainUpdate(kind, content));
    } else {
      UpdateOfflineKeeps(d, w.store, id, kind, base, tiers);
      CallThenStoreKeeps(d, w, req, UpdateOffline(w.store, id, d.home(id), kind, base, tiers));
    }
  }

  lemma UpdateKeeps(d: Directory, w: World, id: SecretId, base: int, kind: int, content: Content, n: Nonces)
    requires Inv(d, w) && kind == d.kind(id)
    ensures Sound(d, UpdateTyped(w, d.home(id), id, base, kind, content, n))
  {
    var vault := d.home(id);
    if vault in w.session.open && |content.index| <= MAX_ENC_INDEX_SIZE {
      SealingFits(d, id, base + 1, content, n);
      SendUpdateKeeps(d, w, id, base, kind, content, SealTiers(d.key(vault), vault, id, base + 1, content, n));
    }
  }

  lemma SendDeleteKeeps(d: Directory, w: World, id: SecretId, base: int)
    requires Inv(d, w)
    ensures Sound(d, SendDelete(w, d.key(d.home(id)), d.home(id), id, base))
  {
    var req := Delete(w.session.user, id, base);
    CallKeeps(d, w.wire, req);
    var reply := Call(w.wire, req).1;
    if reply.Fault? && reply.error.Conflict? { ConflictKeeps(d, w, req, None, AgainDelete); }
  }

  lemma DeleteKeeps(d: Directory, w: World, id: SecretId, base: int)
    requires Inv(d, w)
    ensures Sound(d, ClientModel.DeleteSecret(w, d.home(id), id, base))
  {
    SendDeleteKeeps(d, w, id, base);
  }

  lemma SendMarkedKeeps(d: Directory, w: World, id: SecretId, kind: int, base: int, tiers: Tiers)
    requires Inv(d, w) && SealedUnder(d, id, base + 1, tiers) && kind == d.kind(id)
    ensures var (w', r) := SendMarked(w, d.home(id), id, kind, base, tiers);
            Inv(d, w') && r != Err(DecryptFailed)
  {
    CallKeeps(d, w.wire, Update(w.session.user, id, base, tiers));
    CacheFullKeeps(d, w.store, id, kind, tiers, base + 1, false);
    UpdateOfflineKeeps(d, w.store, id, kind, base, tiers);
  }

  lemma MarkedFits(d: Directory, id: SecretId, local: CachedSecret, marked: string, n: Nonces)
    requires CacheOk(d, id, local)
    ensures var key, vault := d.key(d.home(id)), d.home(id);
            var plain := DecryptTiers(key, vault, id, local.version, local.tiers);
            && plain.Ok?
            && SealedUnder(d, id, local.version + 1, Marked(key, vault, id, local.version, plain.value, marked, n))
  {
    CachedOpens(d, id, local);
  }

  lemma RemarkKeeps(
      d: Directory, w: World, id: SecretId, local: CachedSecret, mark: string -> Option<string>, n: Nonces)
    requires Inv(d, w) && CacheOk(d, id, local)
    ensures var (w', r) := Remark(w, d.key(d.home(id)), d.home(id), id, local, mark, n);
            Inv(d, w') && r != Err(DecryptFailed)
  {
    var key, vault := d.key(d.home(id)), d.home(id);
    MarkedFits(d, id, local, "", n);
    var plain := DecryptTiers(key, vault, id, local.version, local.tiers).value;
    if mark(plain.payload).Some? {
      var marked := mark(plain.payload).value;
      MarkedFits(d, id, local, marked, n);
      SendMarkedKeeps(d, w, id, local.kind, local.version, Marked(key, vault, id, local.version, plain, marked, n));
    }
  }

  lemma MarkOtpKeeps(d: Directory, w: World, id: SecretId, mark: string -> Option<string>, n: Nonces)
    requires Inv(d, w)
    ensures var (w', r) := MarkOtpCodeUsed(w, d.home(id), id, mark, n);
            Inv(d, w') && r != Err(DecryptFailed)
  {
    if id in w.store.secrets && d.home(id) in w.session.open {
      RemarkKeeps(d, w, id, w.store.secrets[id], mark, n);
    }
  }

  // ----- binary secrets -----

  lemma BlobUploadKeeps(d: Directory, w: World, id: SecretId)
    requires Inv(d, w)
    ensures var (w', r) := RetryBlobUpload(w, id, d.home(id));
            && Inv(d, w') && r != Err(DecryptFailed) && w'.store == w.store && Later(w.wire.tables, w'.wire.tables)
  {
    var upload := Upload(w.session.user, id);
    CallKeeps(d, w.wire, upload);
    var (wire1, uploaded) := Call(w.wire, upload);
    LaterIsReflexive(w.wire.tables);
    if uploaded.Uploaded? {
      var attach := Attach(w.session.user, id, INITIAL_VERSION, uploaded.blobRef);
      CallKeeps(d, wire1, attach);
      LaterIsTransitive(w.wire.tables, wire1.tables, Call(wire1, attach).0.tables);
    }
  }

  lemma CreateBinaryKeeps(d: Directory, w: World, id: SecretId, content: Content, n: Nonces, staging: Staging)
    requires Inv(d, w) && d.kind(id) == BINARY_KIND
    ensures var (w', _, r) := CreateBinary(w, d.home(id), id, content, n, staging);
            Inv(d, w') && r != Err(DecryptFailed)
  {
    CreateKeeps(d, w, id, BINARY_KIND, content, n);
    var w1 := CreateTyped(w, d.home(id), id, BINARY_KIND, content, n).0;
    BlobUploadKeeps(d, w1.(staged := w1.staged + {id}), id);
  }

  // ----- replay -----

  lemma ReplayCreateKeeps(d: Directory, w: World, id: SecretId, kind: int, tiers: Tiers)
    requires Inv(d, w) && SealedUnder(d, id, INITIAL_VERSION, tiers) && kind == d.kind(id)
    ensures var (w', r) := ReplayCreate(w, id, d.home(id), kind, tiers);
            Inv(d, w') && r != Err(DecryptFailed)
  {
    CallKeeps(d, w.wire, Create(w.session.user, id, d.home(id), kind, tiers));
    UpsertKeeps(d, w.store, id, Loaded(d.home(id), kind, tiers, INITIAL_VERSION, false));
  }

  lemma ReplayConflictKeeps(d: Directory, w: World, entry: nat, e: Error)
    requires Inv(d, w) && !e.DecryptFailed?
    ensures Inv(d, ReplayConflict(w, entry, e).0) && ReplayConflict(w, entry, e).1 != Err(DecryptFailed)
  {
    RestatusKeeps(d, w.store, entry);
  }

  lemma ReplayUpdateKeeps(d: Directory, w: World, entry: nat, id: SecretId, p: Op)
    requires Inv(d, w) && p.UpdateOp? && OpOk(d, id, p)
    ensures var (w', r) := ReplayUpdate(w, entry, id, p);
            Inv(d, w') && r != Err(DecryptFailed)
  {
    var req, row := Update(w.session.user, id, p.base, p.tiers), Loaded(p.vault, p.kind, p.tiers, p.base + 1, false);
    if Call(w.wire, req).1.Done? {
      UpsertKeeps(d, w.store, id, row);
      CallThenStoreKeeps(d, w, req, UpsertSecretRow(w.store, id, row));
      assert ReplayUpdate(w, entry, id, p).0 ==
             w.(wire := Call(w.wire, req).0, store := UpsertSecretRow(w.store, id, row));
    } else {
      CallThenStoreKeeps(d, w, req, w.store);
      var w1 := w.(wire := Call(w.wire, req).0);
      ReplayConflictKeeps(d, w1, entry, Call(w.wire, req).1.error);
      assert ReplayUpdate(w, entry, id, p) == ReplayConflict(w1, entry, Call(w.wire, req).1.error);
    }
  }

  lemma ReplayDeleteKeeps(d: Directory, w: World, entry: nat, id: SecretId, base: int)
    requires Inv(d, w)
    ensures var (w', r) := ReplayDelete(w, entry, id, base);
            Inv(d, w') && r != Err(DecryptFailed)
  {
    CallKeeps(d, w.wire, Delete(w.session.user, id, base));
    RestatusKeeps(d, w.store, entry);
  }

  lemma ReplayEntryKeeps(d: Directory, w: World, e: Entry)
    requires Inv(d, w) && OpOk(d, e.entityId, e.op)
    ensures var (w', r) := ReplayEntry(w, e);
            Inv(d, w') && r != Err(DecryptFailed)
  {
    match e.op
    case CreateOp(_, kind, tiers) => ReplayCreateKeeps(d, w, e.entityId, kind, tiers);
    case UpdateOp(_, _, _, _) => ReplayUpdateKeeps(d, w, e.id, e.entityId, e.op);
    case DeleteOp(_, base) => ReplayDeleteKeeps(d, w, e.id, e.entityId, base);
    case BlobOp(_) => BlobUploadKeeps(d, w, e.entityId);
  }

  lemma RestatusKeeps(d: Directory, s: Store, entry: nat)
    requires StoreOk(d, s)
    ensures StoreOk(d, s.(outbox := Restatus(s.outbox, entry, InConflict)))
  {
  }

  lemma ReplayTurnKeeps(d: Directory, w: World, e: Entry)
    requires Inv(d, w) && OpOk(d, e.entityId, e.op)
    ensures var (w', r) := ReplayTurn(w, e);
            Inv(d, w') && r != Err(DecryptFailed)
  {
    ReplayEntryKeeps(d, w, e);
    RemoveKeeps(d, ReplayEntry(w, e).0.store, e.id);
  }

  lemma {:induction false} ReplayAllKeeps(d: Directory, w: World, entries: seq<Entry>)
    requires Inv(d, w)
    requires forall e :: e in entries && e.entity == SECRET ==> OpOk(d, e.entityId, e.op)
    ensures var (w', r) := ReplayAll(w, entries);
            Inv(d, w') && r != Err(DecryptFailed)
    decreases |entries|
  {
    if entries != [] {
      if entries[0].entity != SECRET {
        ReplayAllKeeps(d, w, entries[1..]);
      } else {
        ReplayTurnKeeps(d, w, entries[0]);
        ReplayAllKeeps(d, ReplayTurn(w, entries[0]).0, entries[1..]);
      }
    }
  }

  lemma ReplayKeeps(d: Directory, w: World)
    requires Inv(d, w)
    ensures var (w', r) := ReplayOutbox(w);
            Inv(d, w') && r != Err(DecryptFailed)
  {
    forall e | e in ByStatus(w.store.outbox, Pending) ensures e in w.store.outbox {
      ByStatusMembers(w.store.outbox, Pending, e);
    }
    ReplayAllKeeps(d, w, ByStatus(w.store.outbox, Pending));
  }

  // ----- conflicts -----

  lemma RemoveKeeps(d: Directory, s: Store, entry: nat)
    requires StoreOk(d, s)
    ensures StoreOk(d, RemoveOutbox(s, entry))
  {
    forall e | e in Without(s.outbox, entry) ensures e in s.outbox {
      WithoutMembers(s.outbox, entry, e);
    }
  }

  lemma ProbeAcknowledgedKeeps(d: Directory, w: World, e: Entry, req: Request)
    requires Inv(d, w) && e.op.UpdateOp? && OpOk(d, e.entityId, e.op) && Honest(d, req)
    ensures Inv(d, w.(wire := Call(w.wire, req).0, store := Probed(w.store, e)))
  {
    var p := e.op;
    RemoveKeeps(d, w.store, e.id);
    CacheFullKeeps(d, RemoveOutbox(w.store, e.id), e.entityId, p.kind, p.tiers, p.base + 1, false);
    CallThenStoreKeeps(d, w, req, Probed(w.store, e));
  }

  lemma ProbeUpdateKeeps(d: Directory, w: World, e: Entry, mine: Content)
    requires Inv(d, w) && e.op.UpdateOp? && OpOk(d, e.entityId, e.op) && mine == Texts(e.op.tiers)
    ensures Sound(d, ProbeUpdate(w, d.key(d.home(e.entityId)), e, mine))
  {
    var id, p := e.entityId, e.op;
    var req := Update(w.session.user, id, p.base, p.tiers);
    var reply := Call(w.wire, req).1;
    if reply.Done? {
      ProbeAcknowledgedKeeps(d, w, e, req);
    } else if reply.error.Conflict? {
      ConflictKeeps(d, w, req, Some(mine), AgainOutboxUpdate(e.id, p));
    } else {
      CallThenStoreKeeps(d, w, req, w.store);
    }
  }

  lemma ProbeDeleteKeeps(d: Directory, w: World, e: Entry)
    requires Inv(d, w) && e.op.DeleteOp? && OpOk(d, e.entityId, e.op)
    ensures Sound(d, ProbeDelete(w, d.key(d.home(e.entityId)), e))
  {
    var req := Delete(w.session.user, e.entityId, e.op.base);
    CallKeeps(d, w.wire, req);
    RemoveKeeps(d, w.store, e.id);
    var reply := Call(w.wire, req).1;
    if reply.Fault? && reply.error.Conflict? { ConflictKeeps(d, w, req, None, AgainOutboxDelete(e.id)); }
  }

  lemma FromOutboxKeeps(d: Directory, w: World, entry: nat)
    requires Inv(d, w)
    ensures Sound(d, ConflictFromOutbox(w, entry))
  {
    var found := Find(w.store.outbox, entry);
    if found.Some? && found.value.entity == SECRET {
      var e := found.value;
      assert OpOk(d, e.entityId, e.op);
      if e.op.UpdateOp? {
        OpensExactlyUnderItsVersion(d, e.entityId, e.op.base + 1, e.op.base + 1, e.op.tiers);
        ProbeUpdateKeeps(d, w, e, Texts(e.op.tiers));
      } else if e.op.DeleteOp? {
        ProbeDeleteKeeps(d, w, e);
      }
    }
  }

  lemma RequeueKeeps(d: Directory, s: Store, entry: nat, id: SecretId, op: Op)
    requires StoreOk(d, s) && OpOk(d, id, op)
    ensures Requeue(s, entry, id, op).Ok? ==> StoreOk(d, Requeue(s, entry, id, op).value)
    ensures Requeue(s, entry, id, op) != Err(DecryptFailed)
  {
    RestatusKeeps(d, s, entry);
    RemoveKeeps(d, s.(outbox := Restatus(s.outbox, entry, InConflict)), entry);
  }

  lemma SendAgainKeeps(d: Directory, w: World, entry: nat, id: SecretId, p: Op, base: int, tiers: Tiers)
    requires Inv(d, w) && p.UpdateOp? && OpOk(d, id, p) && SealedUnder(d, id, base + 1, tiers)
    ensures Sound(d, SendAgain(w, entry, id, p, base, tiers))
  {
    var (wire, reply) := Call(w.wire, Update(w.session.user, id, base, tiers));
    CallKeeps(d, w.wire, Update(w.session.user, id, base, tiers));
    if !reply.Fault? {
      RemoveKeeps(d, w.store, entry);
      CacheFullKeeps(d, RemoveOutbox(w.store, entry), id, p.kind, tiers, base + 1, false);
    } else if reply.error.Conflict? {
      var again := p.(base := base, tiers := tiers);
      RequeueKeeps(d, w.store, entry, id, again);
      var requeued := Requeue(w.store, entry, id, again);
      if requeued.Ok? {
        FromOutboxKeeps(d, w.(wire := wire, store := requeued.value), w.store.nextId);
      }
    }
  }

  /** The entry that a repeated conflict leaves behind is sealed under its new base, with the same plaintexts. */
  lemma RetryOutboxUpdateKeeps(d: Directory, w: World, entry: nat, id: SecretId, p: Op, base: int, n: Nonces)
    requires Inv(d, w) && p.UpdateOp? && OpOk(d, id, p)
    ensures Sound(d, RetryOutboxUpdate(w, entry, id, p, base, n))
  {
    if p.vault in w.session.open {
      ResealKeepsTexts(d, id, p.base + 1, p.tiers, base + 1, n);
      var sealed := Reseal(w.session, id, p, base, n);
      if sealed.Ok? {
        SendAgainKeeps(d, w, entry, id, p, base, sealed.value);
      }
    }
  }

  lemma ResolveKeeps(d: Directory, w: World, c: Card, choice: Choice, n: Nonces)
    requires Inv(d, w) && CardOk(d, c)
    ensures Sound(d, Resolve(w, c, choice, n))
  {
    CacheFullKeeps(d, w.store, c.secret, c.server.kind, c.server.tiers, c.server.version, false);
    match c.retry
    case AgainUpdate(kind, content) => UpdateKeeps(d, w, c.secret, c.server.version, kind, content, n);
    case AgainDelete => DeleteKeeps(d, w, c.secret, c.server.version);
    case AgainOutboxUpdate(entry, op) => RetryOutboxUpdateKeeps(d, w, entry, c.secret, op, c.server.version, n);
    case AgainOutboxDelete(entry) =>
      DeleteKeeps(d, w, c.secret, c.server.version);
      RemoveKeeps(d, ClientModel.DeleteSecret(w, c.vault, c.secret, c.server.version).0.store, entry);
  }

  // ----- lazy tiers -----

  lemma {:induction false} FillIndexesKeeps(d: Directory, s: Store, vault: VaultId, items: seq<IndexItem>)
    requires StoreOk(d, s)
    requires forall i :: 0 <= i < |items| ==> IndexItemOk(d, vault, items[i])
    ensures StoreOk(d, FillIndexes(s, items))
    decreases |items|
  {
    if items != [] {
      var it := items[0];
      assert forall i :: 0 <= i < |items[1..]| ==> items[1..][i] == items[i + 1];
      assert IndexItemOk(d, vault, it);
      FillIndexesKeeps(d, s, vault, items[1..]);
      FillIndexesKeeps(d, SetSecretIndex(s, it.id, it.encIndex, it.version), vault, items[1..]);
    }
  }

  lemma LoadIndexesKeeps(d: Directory, w: World, vault: VaultId)
    requires Inv(d, w)
    ensures var (w', r) := LoadIndexes(w, vault);
            Inv(d, w') && r != Err(DecryptFailed)
  {
    CallKeeps(d, w.wire, ListIndex(w.session.user, vault));
    var reply := Call(w.wire, ListIndex(w.session.user, vault)).1;
    if reply.Indexes? {
      FillIndexesKeeps(d, w.store, vault, reply.indexes);
    }
  }

  lemma ReadPayloadKeeps(d: Directory, w: World, id: SecretId)
    requires Inv(d, w)
    ensures var (w', r) := ReadPayload(w, d.home(id), id);
            Inv(d, w') && r != Err(DecryptFailed)
  {
    CallKeeps(d, w.wire, GetPayload(w.session.user, id));
  }

  /** The detail reader never fails to open a tier, cached or fetched. */
  lemma ReadDetailKeeps(d: Directory, w: World, id: SecretId)
    requires Inv(d, w)
    ensures var (w', r) := ReadDetail(w, d.home(id), id);
            Inv(d, w') && r != Err(DecryptFailed)
  {
    ReadPayloadKeeps(d, w, id);
    LoadIndexesKeeps(d, ReadPayload(w, d.home(id), id).0, d.home(id));
  }

  /** The list reader never fails to open a row. */
  lemma ReadRowsNeverFails(d: Directory, w: World, vault: VaultId, kind: int)
    requires Inv(d, w) && vault != "" && vault in w.session.open
    ensures ReadRows(w, vault, kind).Ok?
    ensures forall id :: id in ReadRows(w, vault, kind).value <==> Listed(w.store, vault, kind, id)
  {
    forall id | id in w.store.secrets && Listed(w.store, vault, kind, id)
      ensures OpenRow(w, w.session.open[vault], vault, id).Ok?
    {
      assert CacheOk(d, id, w.store.secrets[id]);
    }
  }

  // ----- pull -----

  lemma {:induction false} UpsertRowsKeeps(
      d: Directory, s: Store, vault: VaultId, rows: seq<RowItem>, keep: set<SecretId>)
    requires StoreOk(d, s)
    requires forall i :: 0 <= i < |rows| ==> RowItemOk(d, vault, rows[i])
    ensures StoreOk(d, UpsertRows(s, vault, rows, keep))
    decreases |rows|
  {
    if rows != [] {
      var r := rows[0];
      assert forall i :: 0 <= i < |rows[1..]| ==> rows[1..][i] == rows[i + 1];
      assert RowItemOk(d, vault, r);
      var row := CachedSecret(vault, r.kind, Tiers(r.encRow, Empty, Empty), r.version, false, false, false);
      UpsertKeeps(d, s, r.id, row);
      UpsertRowsKeeps(d, s, vault, rows[1..], keep);
      UpsertRowsKeeps(d, UpsertSecretRow(s, r.id, row), vault, rows[1..], keep);
    }
  }

  lemma PullKeeps(d: Directory, w: World, vault: VaultId, version: int)
    requires Inv(d, w)
    ensures var (w', r) := PullVaultRows(w, vault, version);
            Inv(d, w') && r != Err(DecryptFailed)
  {
    CallKeeps(d, w.wire, ListRows(w.session.user, vault));
    var reply := Call(w.wire, ListRows(w.session.user, vault)).1;
    if reply.Rows? {
      UpsertRowsKeeps(d, w.store, vault, reply.rows, Outstanding(w.store.outbox));
    }
  }

  lemma {:induction false} UpsertVaultsKeeps(d: Directory, s: Store, items: seq<VaultVersion>)
    requires StoreOk(d, s)
    ensures StoreOk(d, UpsertVaults(s, items))
    decreases |items|
  {
    if items != [] {
      UpsertVaultsKeeps(d, UpsertVault(s, items[0].id, CachedVault(items[0].version, 0, false)), items[1..]);
    }
  }

  lemma PrepareKeeps(d: Directory, w: World)
    requires Inv(d, w)
    ensures var (w', r) := Prepare(w);
            Inv(d, w') && r != Err(DecryptFailed)
  {
    var freshness := CheckFreshness(w.session.user);
    CallKeeps(d, w.wire, freshness);
    var (wire, reply) := Call(w.wire, freshness);
    CallKeeps(d, wire, ListVaults(w.session.user));
    var listed := Call(wire, ListVaults(w.session.user)).1;
    if listed.Vaults? {
      UpsertVaultsKeeps(d, w.store, listed.vaults);
    }
  }

  lemma {:induction false} PullStaleKeeps(
      d: Directory, w: World, versions: seq<VaultVersion>, local: map<VaultId, CachedVault>)
    requires Inv(d, w)
    ensures var (w', r) := PullStale(w, versions, local);
            Inv(d, w') && r != Err(DecryptFailed)
    decreases |versions|
  {
    if versions != [] {
      PullStaleKeeps(d, w, versions[1..], local);
      PullKeeps(d, w, versions[0].id, versions[0].version);
      PullStaleKeeps(d, PullVaultRows(w, versions[0].id, versions[0].version).0, versions[1..], local);
    }
  }

  lemma SyncKeeps(d: Directory, w: World)
    requires Inv(d, w)
    ensures var (w', r) := Sync(w);
            Inv(d, w') && r != Err(DecryptFailed)
  {
    PrepareKeeps(d, w);
    var (w1, prepared) := Prepare(w);
    if prepared.Ok? {
      PullStaleKeeps(d, w1, prepared.value, w1.store.vaults);
    }
  }

  lemma {:induction false} LoadEachKeeps(d: Directory, w: World, toSync: seq<VaultVersion>)
    requires Inv(d, w)
    ensures Inv(d, LoadEach(w, toSync))
    decreases |toSync|
  {
    if toSync != [] {
      LoadIndexesKeeps(d, w, toSync[0].id);
      LoadEachKeeps(d, LoadIndexes(w, toSync[0].id).0, toSync[1..]);
    }
  }
}

/** Every operation except a pull is quiet; a pull keeps the freshness invariant by reading versions before rows. */
module FreshOperations {
  import opened Types
  import opened Sealing
  import opened ServerModel
  import opened ServerLaws
  import opened S = StoreModel
  import opened StoreLaws
  import opened ClientModel
  import opened Freshness

  // ----- operations that begin with local checks -----

  lemma CreateIsQuiet(w: World, vault: VaultId, id: SecretId, kind: int, content: Content, n: Nonces)
    requires FreshWorld(w)
    ensures Quiet(w, CreateTyped(w, vault, id, kind, content, n).0)
  {
    StayingIsQuiet(w);
    if VaultContext(w.session, vault).Ok? {
      var key := w.session.open[vault];
      SendCreateIsQuiet(w, vault, id, kind, SealTiers(key, vault, id, INITIAL_VERSION, content, n));
    }
  }

  lemma UpdateIsQuiet(w: World, vault: VaultId, id: SecretId, base: int, kind: int, content: Content, n: Nonces)
    requires FreshWorld(w)
    ensures Quiet(w, UpdateTyped(w, vault, id, base, kind, content, n).0)
    ensures CardGood(UpdateTyped(w, vault, id, base, kind, content, n))
  {
    StayingIsQuiet(w);
    if VaultContext(w.session, vault).Ok? {
      var key := w.session.open[vault];
      SendUpdateIsQuiet(w, key, vault, id, base, kind, content, SealTiers(key, vault, id, base + 1, content, n));
    }
  }

  lemma DeleteIsQuiet(w: World, vault: VaultId, id: SecretId, base: int)
    requires FreshWorld(w)
    ensures Quiet(w, ClientModel.DeleteSecret(w, vault, id, base).0)
    ensures CardGood(ClientModel.DeleteSecret(w, vault, id, base))
  {
    StayingIsQuiet(w);
    if VaultContext(w.session, vault).Ok? {
      SendDeleteIsQuiet(w, w.session.open[vault], vault, id, base);
    }
  }

  lemma RemarkIsQuiet(
      w: World, key: Key, vault: VaultId, id: SecretId, local: CachedSecret, mark: string -> Option<string>, n: Nonces)
    requires FreshWorld(w)
    ensures Quiet(w, Remark(w, key, vault, id, local, mark, n).0)
  {
    StayingIsQuiet(w);
    var plain := DecryptTiers(key, vault, id, local.version, local.tiers);
    if plain.Ok? {
      var marked := mark(plain.value.payload);
      if marked.Some? {
        SendMarkedIsQuiet(w, vault, id, local.kind, local.version,
                          Marked(key, vault, id, local.version, plain.value, marked.value, n));
      }
    }
  }

  lemma MarkOtpIsQuiet(w: World, vault: VaultId, id: SecretId, mark: string -> Option<string>, n: Nonces)
    requires FreshWorld(w)
    ensures Quiet(w, MarkOtpCodeUsed(w, vault, id, mark, n).0)
  {
    StayingIsQuiet(w);
    if VaultContext(w.session, vault).Ok? && id in w.store.secrets {
      RemarkIsQuiet(w, w.session.open[vault], vault, id, w.store.secrets[id], mark, n);
    }
  }

  // ----- binary secrets -----

  lemma AttachIsQuiet(w: World, req: Request)
    requires FreshWorld(w) && req.Attach?
    ensures var (wire, reply) := Call(w.wire, req);
            Quiet(w, w.(wire := wire)) && (reply.Done? ==> MovedOn(wire.tables, w.store, req.id))
  {
    CallIsQuiet(w, req);
    if Call(w.wire, req).1.Done? { AcknowledgedLeavesBehind(w, req); }
  }

  /** A successful upload ends with an acknowledged attachment, which moves the vault on. */
  lemma BlobUploadIsQuiet(w: World, id: SecretId, vault: VaultId)
    requires FreshWorld(w)
    ensures var (w', r) := RetryBlobUpload(w, id, vault);
            && Quiet(w, w') && w'.store == w.store
            && (r.Ok? ==> MovedOn(w'.wire.tables, w'.store, id))
  {
    StayingIsQuiet(w);
    if id in w.staged && VaultContext(w.session, vault).Ok? {
      var upload := Upload(w.session.user, id);
      CallIsQuiet(w, upload);
      var (wire1, uploaded) := Call(w.wire, upload);
      var w1 := w.(wire := wire1);
      if uploaded.Uploaded? {
        var attach := Attach(w.session.user, id, INITIAL_VERSION, uploaded.blobRef);
        AttachIsQuiet(w1, attach);
        QuietIsTransitive(w, w1, w1.(wire := Call(wire1, attach).0));
      }
    }
  }

  lemma CreateBinaryIsQuiet(w: World, vault: VaultId, id: SecretId, content: Content, n: Nonces, staging: Staging)
    requires FreshWorld(w)
    ensures Quiet(w, CreateBinary(w, vault, id, content, n, staging).0)
  {
    CreateIsQuiet(w, vault, id, BINARY_KIND, content, n);
    var (w1, created) := CreateTyped(w, vault, id, BINARY_KIND, content, n);
    if created.Ok? && staging.Staged? {
      var staged := w1.(staged := w1.staged + {id});
      BlobUploadIsQuiet(staged, id, vault);
      var (w2, sent) := RetryBlobUpload(staged, id, vault);
      QuietIsTransitive(w, w1, w2);
      if sent.Err? {
        EnqueueIsQuiet(w2, id, BlobOp(vault), Pending);
        QuietIsTransitive(w, w2, w2.(store := Enqueue(w2.store, id, BlobOp(vault), Pending)));
      }
    }
  }

  lemma EnqueueIsQuiet(w: World, id: SecretId, op: Op, status: Status)
    requires FreshWorld(w)
    ensures Quiet(w, w.(store := Enqueue(w.store, id, op, status)))
  {
    EnqueueTouches(w.store, id, op, status);
    LaterIsReflexive(w.wire.tables);
    TouchKeepsFresh(w.wire.tables, w.store, Enqueue(w.store, id, op, status), id);
  }

  /** Removing an entry is quiet once nothing is claimed about its secret. */
  lemma RemoveIsQuiet(w: World, entry: nat, id: SecretId)
    requires FreshWorld(w) && Named(w.store, entry, id)
    requires Covered(w.wire.tables, RemoveOutbox(w.store, entry), id)
    ensures Quiet(w, w.(store := RemoveOutbox(w.store, entry)))
  {
    RemoveTouches(w.store, entry, id);
    LaterIsReflexive(w.wire.tables);
    TouchKeepsFresh(w.wire.tables, w.store, RemoveOutbox(w.store, entry), id);
  }

  lemma RestatusIsQuiet(w: World, entry: nat)
    requires FreshWorld(w)
    ensures Quiet(w, w.(store := w.store.(outbox := Restatus(w.store.outbox, entry, InConflict))))
  {
    RestatusTouches(w.store, entry);
    LaterIsReflexive(w.wire.tables);
    SameRowsKeepsFresh(w.wire.tables, w.store, w.store.(outbox := Restatus(w.store.outbox, entry, InConflict)));
  }

  // ----- replay -----

  lemma ReplayConflictIsQuiet(w: World, entry: nat, e: Error)
    requires FreshWorld(w)
    ensures Quiet(w, ReplayConflict(w, entry, e).0)
  {
    StayingIsQuiet(w);
    RestatusIsQuiet(w, entry);
  }

  lemma RefusalIsQuiet(w: World, req: Request, entry: nat)
    requires FreshWorld(w) && Call(w.wire, req).1.Fault?
    ensures var (wire, reply) := Call(w.wire, req);
            Quiet(w, ReplayConflict(w.(wire := wire), entry, reply.error).0)
  {
    CallIsQuiet(w, req);
    var (wire, reply) := Call(w.wire, req);
    var w1 := w.(wire := wire);
    ReplayConflictIsQuiet(w1, entry, reply.error);
    QuietIsTransitive(w, w1, ReplayConflict(w1, entry, reply.error).0);
  }

  /** done means that the server acknowledged a write of the secret; the outbox is as it was. */
  ghost predicate Settled(w: World, id: SecretId, step: (World, Result<bool>)) {
    && Quiet(w, step.0)
    && (step.1 == Ok(true) ==> MovedOn(step.0.wire.tables, step.0.store, id))
  }

  lemma AcknowledgedUpsertIsQuiet(w: World, req: Request, row: CachedSecret)
    requires FreshWorld(w) && Writes(req) && Call(w.wire, req).1.Done?
    ensures var w' := w.(wire := Call(w.wire, req).0, store := UpsertSecretRow(w.store, req.id, row));
            Quiet(w, w') && MovedOn(w'.wire.tables, w'.store, req.id)
  {
    AcknowledgedLeavesBehind(w, req);
    StepIsQuiet(w, req, UpsertSecretRow(w.store, req.id, row), req.id);
  }

  lemma ReplayCreateSettles(w: World, id: SecretId, vault: VaultId, kind: int, tiers: Tiers)
    requires FreshWorld(w)
    ensures Settled(w, id, ReplayCreate(w, id, vault, kind, tiers))
  {
    var req := Create(w.session.user, id, vault, kind, tiers);
    if Call(w.wire, req).1.Done? {
      AcknowledgedUpsertIsQuiet(w, req, Loaded(vault, kind, tiers, INITIAL_VERSION, false));
    } else {
      CallIsQuiet(w, req);
    }
  }

  lemma ReplayUpdateSettles(w: World, entry: nat, id: SecretId, p: Op)
    requires FreshWorld(w) && p.UpdateOp?
    ensures Settled(w, id, ReplayUpdate(w, entry, id, p))
  {
    var req := Update(w.session.user, id, p.base, p.tiers);
    if Call(w.wire, req).1.Done? {
      AcknowledgedUpsertIsQuiet(w, req, Loaded(p.vault, p.kind, p.tiers, p.base + 1, false));
    } else {
      RefusalIsQuiet(w, req, entry);
    }
  }

  lemma ReplayDeleteSettles(w: World, entry: nat, id: SecretId, base: int)
    requires FreshWorld(w)
    ensures Settled(w, id, ReplayDelete(w, entry, id, base))
  {
    var req := Delete(w.session.user, id, base);
    if Call(w.wire, req).1.Done? {
      AcknowledgedLeavesBehind(w, req);
      StepIsQuiet(w, req, S.DeleteSecret(w.store, id), id);
    } else {
      RefusalIsQuiet(w, req, entry);
    }
  }

  lemma ReplayEntrySettles(w: World, e: Entry)
    requires FreshWorld(w)
    ensures Settled(w, e.entityId, ReplayEntry(w, e))
  {
    match e.op
    case CreateOp(vault, kind, tiers) => ReplayCreateSettles(w, e.entityId, vault, kind, tiers);
    case UpdateOp(_, _, _, _) => ReplayUpdateSettles(w, e.id, e.entityId, e.op);
    case DeleteOp(_, base) => ReplayDeleteSettles(w, e.id, e.entityId, base);
    case BlobOp(vault) => BlobUploadIsQuiet(w, e.entityId, vault);
  }

  ghost predicate AllNamed(s: Store, entries: seq<Entry>) {
    forall i :: 0 <= i < |entries| ==> Named(s, entries[i].id, entries[i].entityId)
  }

  lemma QuietKeepsNames(w: World, w': World, entries: seq<Entry>)
    requires Quiet(w, w') && AllNamed(w.store, entries)
    ensures AllNamed(w'.store, entries)
  {
    forall i | 0 <= i < |entries| ensures Named(w'.store, entries[i].id, entries[i].entityId) {
      assert Named(w.store, entries[i].id, entries[i].entityId);
    }
  }

  lemma ReplayTurnIsQuiet(w: World, e: Entry)
    requires FreshWorld(w) && Named(w.store, e.id, e.entityId)
    ensures Quiet(w, ReplayTurn(w, e).0)
  {
    ReplayEntrySettles(w, e);
    var (w1, done) := ReplayEntry(w, e);
    if done == Ok(true) {
      assert Named(w1.store, e.id, e.entityId);
      RemoveIsQuiet(w1, e.id, e.entityId);
      QuietIsTransitive(w, w1, w1.(store := RemoveOutbox(w1.store, e.id)));
    }
  }

  lemma {:induction false} ReplayAllIsQuiet(w: World, entries: seq<Entry>)
    requires FreshWorld(w) && AllNamed(w.store, entries)
    ensures Quiet(w, ReplayAll(w, entries).0)
    decreases |entries|
  {
    if entries == [] {
      StayingIsQuiet(w);
    } else {
      var e, rest := entries[0], entries[1..];
      assert AllNamed(w.store, rest);
      if e.entity != SECRET {
        ReplayAllIsQuiet(w, rest);
      } else {
        assert Named(w.store, entries[0].id, entries[0].entityId);
        ReplayTurnIsQuiet(w, e);
        var w1 := ReplayTurn(w, e).0;
        QuietKeepsNames(w, w1, rest);
        ReplayAllIsQuiet(w1, rest);
        QuietIsTransitive(w, w1, ReplayAll(w1, rest).0);
      }
    }
  }

  lemma OutboxIsNamed(s: Store, e: Entry)
    requires OutboxOk(s) && e in s.outbox
    ensures Named(s, e.id, e.entityId)
  {
    forall x | x in s.outbox && x.id == e.id ensures x.entityId == e.entityId {
      DistinctIds(s, x, e);
    }
  }

  lemma ReplayIsQuiet(w: World)
    requires FreshWorld(w)
    ensures Quiet(w, ReplayOutbox(w).0)
  {
    var pending := ByStatus(w.store.outbox, Pending);
    forall i | 0 <= i < |pending| ensures Named(w.store, pending[i].id, pending[i].entityId) {
      ByStatusMembers(w.store.outbox, Pending, pending[i]);
      OutboxIsNamed(w.store, pending[i]);
    }
    ReplayAllIsQuiet(w, pending);
  }

  // ----- conflicts -----

  lemma ProbedIsQuiet(w: World, e: Entry, req: Request)
    requires FreshWorld(w) && e.op.UpdateOp? && Named(w.store, e.id, e.entityId)
    requires Writes(req) && req.id == e.entityId && Call(w.wire, req).1.Done?
    ensures Quiet(w, w.(wire := Call(w.wire, req).0, store := Probed(w.store, e)))
  {
    var p, removed := e.op, RemoveOutbox(w.store, e.id);
    RemoveTouches(w.store, e.id, e.entityId);
    CachedUpdateIsQuiet(w, req, removed, p.vault, p.kind, p.tiers, p.base + 1);
    assert Probed(w.store, e) == CacheFull(removed, req.id, p.vault, p.kind, p.tiers, p.base + 1, false);
  }

  lemma ProbedCardIsGood(w: World, key: Key, e: Entry, mine: Content)
    requires e.op.UpdateOp? && Named(w.store, e.id, e.entityId)
    ensures CardGood(ProbeUpdate(w, key, e, mine))
  {
    var req := Update(w.session.user, e.entityId, e.op.base, e.op.tiers);
    var reply := Call(w.wire, req).1;
    if reply.Fault? && reply.error.Conflict? { ConflictIsCurrent(w.wire, req); }
  }

  lemma ProbeUpdateIsQuiet(w: World, key: Key, e: Entry, mine: Content)
    requires FreshWorld(w) && e.op.UpdateOp? && Named(w.store, e.id, e.entityId)
    ensures Quiet(w, ProbeUpdate(w, key, e, mine).0)
  {
    var req := Update(w.session.user, e.entityId, e.op.base, e.op.tiers);
    if Call(w.wire, req).1.Done? {
      ProbedIsQuiet(w, e, req);
      assert ProbeUpdate(w, key, e, mine).0 == w.(wire := Call(w.wire, req).0, store := Probed(w.store, e));
    } else {
      CallIsQuiet(w, req);
      assert ProbeUpdate(w, key, e, mine).0 == w.(wire := Call(w.wire, req).0);
    }
  }

  lemma ProbeDeleteIsQuiet(w: World, key: Key, e: Entry)
    requires FreshWorld(w) && e.op.DeleteOp? && Named(w.store, e.id, e.entityId)
    ensures Quiet(w, ProbeDelete(w, key, e).0)
    ensures CardGood(ProbeDelete(w, key, e))
  {
    var req := Delete(w.session.user, e.entityId, e.op.base);
    var reply := Call(w.wire, req).1;
    CallIsQuiet(w, req);
    if reply.Done? {
      RemoveTouches(w.store, e.id, e.entityId);
      AcknowledgedLeavesBehind(w, req);
      StepIsQuiet(w, req, S.DeleteSecret(RemoveOutbox(w.store, e.id), e.entityId), e.entityId);
    } else if reply.error.Conflict? {
      ConflictIsCurrent(w.wire, req);
    }
  }

  lemma FromOutboxUpdateIsQuiet(w: World, e: Entry)
    requires FreshWorld(w) && e.op.UpdateOp? && Named(w.store, e.id, e.entityId)
    ensures Quiet(w, ConflictFromOutboxUpdate(w, e).0)
    ensures CardGood(ConflictFromOutboxUpdate(w, e))
  {
    var context := VaultContext(w.session, e.op.vault);
    if context.Err? {
      StayingIsQuiet(w);
      return;
    }
    var mine := DecryptTiers(context.value, e.op.vault, e.entityId, e.op.base + 1, e.op.tiers);
    if mine.Err? {
      StayingIsQuiet(w);
      return;
    }
    ProbeUpdateIsQuiet(w, context.value, e, mine.value);
    ProbedCardIsGood(w, context.value, e, mine.value);
    assert ConflictFromOutboxUpdate(w, e) == ProbeUpdate(w, context.value, e, mine.value);
  }

  lemma FromOutboxDeleteIsQuiet(w: World, e: Entry)
    requires FreshWorld(w) && e.op.DeleteOp? && Named(w.store, e.id, e.entityId)
    ensures Quiet(w, ConflictFromOutboxDelete(w, e).0)
    ensures CardGood(ConflictFromOutboxDelete(w, e))
  {
    StayingIsQuiet(w);
    if VaultContext(w.session, e.op.vault).Ok? {
      ProbeDeleteIsQuiet(w, w.session.open[e.op.vault], e);
    }
  }

  lemma FromEntryIsQuiet(w: World, e: Entry)
    requires FreshWorld(w) && Named(w.store, e.id, e.entityId)
    ensures Quiet(w, ConflictFromEntry(w, e).0)
    ensures CardGood(ConflictFromEntry(w, e))
  {
    match e.op
    case UpdateOp(_, _, _, _) => FromOutboxUpdateIsQuiet(w, e);
    case DeleteOp(_, _) => FromOutboxDeleteIsQuiet(w, e);
    case _ => StayingIsQuiet(w);
  }

  lemma FromOutboxIsQuiet(w: World, entry: nat)
    requires FreshWorld(w)
    ensures Quiet(w, ConflictFromOutbox(w, entry).0)
    ensures CardGood(ConflictFromOutbox(w, entry))
  {
    var found := Find(w.store.outbox, entry);
    if found.None? || found.value.entity != SECRET {
      StayingIsQuiet(w);
    } else {
      OutboxIsNamed(w.store, found.value);
      FromEntryIsQuiet(w, found.value);
    }
  }

  lemma RequeueIsQuiet(w: World, entry: nat, id: SecretId, op: Op)
    requires FreshWorld(w) && Named(w.store, entry, id)
    ensures Requeue(w.store, entry, id, op).Ok? ==> Quiet(w, w.(store := Requeue(w.store, entry, id, op).value))
  {
    RestatusIsQuiet(w, entry);
    var w1 := w.(store := w.store.(outbox := Restatus(w.store.outbox, entry, InConflict)));
    ReplaceIsQuiet(w1, entry, id, op);
    QuietIsTransitive(w, w1, w1.(store := Enqueue(RemoveOutbox(w1.store, entry), id, op, InConflict)));
  }

  lemma ReplaceIsQuiet(w: World, entry: nat, id: SecretId, op: Op)
    requires FreshWorld(w) && Named(w.store, entry, id)
    ensures Quiet(w, w.(store := Enqueue(RemoveOutbox(w.store, entry), id, op, InConflict)))
  {
    var removed := RemoveOutbox(w.store, entry);
    var store := Enqueue(removed, id, op, InConflict);
    RemoveTouches(w.store, entry, id);
    EnqueueTouches(removed, id, op, InConflict);
    LaterIsReflexive(w.wire.tables);
    TouchKeepsFresh(w.wire.tables, w.store, store, id);
    forall x | x in store.outbox && x.id < w.store.nextId
      ensures x in w.store.outbox
    {
      WithoutMembers(w.store.outbox, entry, x);
    }
  }

  lemma SendAgainIsQuiet(w: World, entry: nat, id: SecretId, p: Op, base: int, tiers: Tiers)
    requires FreshWorld(w) && p.UpdateOp? && Named(w.store, entry, id)
    ensures Quiet(w, SendAgain(w, entry, id, p, base, tiers).0)
    ensures CardGood(SendAgain(w, entry, id, p, base, tiers))
  {
    var req := Update(w.session.user, id, base, tiers);
    var (wire, reply) := Call(w.wire, req);
    var w1 := w.(wire := wire);
    CallIsQuiet(w, req);
    if reply.Done? {
      RemoveTouches(w.store, entry, id);
      CachedUpdateIsQuiet(w, req, RemoveOutbox(w.store, entry), p.vault, p.kind, tiers, base + 1);
    } else if reply.error.Conflict? {
      var again := p.(base := base, tiers := tiers);
      var requeued := Requeue(w1.store, entry, id, again);
      if requeued.Ok? {
        var w2 := w1.(store := requeued.value);
        RequeueIsQuiet(w1, entry, id, again);
        FromOutboxIsQuiet(w2, w1.store.nextId);
        QuietIsTransitive(w, w1, w2);
        QuietIsTransitive(w, w2, ConflictFromOutbox(w2, w1.store.nextId).0);
      }
    }
  }

  lemma RetryOutboxUpdateIsQuiet(w: World, entry: nat, id: SecretId, p: Op, base: int, n: Nonces)
    requires FreshWorld(w) && p.UpdateOp? && Named(w.store, entry, id)
    ensures Quiet(w, RetryOutboxUpdate(w, entry, id, p, base, n).0)
    ensures CardGood(RetryOutboxUpdate(w, entry, id, p, base, n))
  {
    var sealed := Reseal(w.session, id, p, base, n);
    if sealed.Ok? {
      SendAgainIsQuiet(w, entry, id, p, base, sealed.value);
    } else {
      StayingIsQuiet(w);
    }
  }

  /** Either the server acknowledged the delete, or a new entry for it was queued before the old one goes. */
  lemma DeleteLeavesCovered(w: World, vault: VaultId, id: SecretId, base: int, entry: nat)
    requires FreshWorld(w) && entry < w.store.nextId
    ensures var (w', r) := ClientModel.DeleteSecret(w, vault, id, base);
            r == Ok(None) ==> Covered(w'.wire.tables, RemoveOutbox(w'.store, entry), id)
  {
    var (w', r) := ClientModel.DeleteSecret(w, vault, id, base);
    if r == Ok(None) {
      var req := Delete(w.session.user, id, base);
      if Call(w.wire, req).1.Done? {
        AcknowledgedLeavesBehind(w, req);
      } else {
        var queued := w'.store.outbox[|w.store.outbox|];
        assert queued in w'.store.outbox && queued.id == w.store.nextId && queued.entityId == id;
        WithoutMembers(w'.store.outbox, entry, queued);
      }
    }
  }

  lemma RetryOutboxDeleteIsQuiet(w: World, entry: nat, vault: VaultId, id: SecretId, base: int)
    requires FreshWorld(w) && Named(w.store, entry, id)
    ensures Quiet(w, RetryOutboxDelete(w, entry, vault, id, base).0)
    ensures CardGood(RetryOutboxDelete(w, entry, vault, id, base))
  {
    DeleteIsQuiet(w, vault, id, base);
    DeleteLeavesCovered(w, vault, id, base, entry);
    var (w1, r) := ClientModel.DeleteSecret(w, vault, id, base);
    if r == Ok(None) {
      RemoveIsQuiet(w1, entry, id);
      QuietIsTransitive(w, w1, w1.(store := RemoveOutbox(w1.store, entry)));
    }
  }

  lemma RetryMineIsQuiet(w: World, c: Card, n: Nonces)
    requires FreshWorld(w) && CardFormed(c) && CardEntryNamed(w.store, c)
    ensures Quiet(w, RetryMine(w, c, n).0)
    ensures CardGood(RetryMine(w, c, n))
  {
    match c.retry
    case AgainUpdate(kind, content) => UpdateIsQuiet(w, c.vault, c.secret, c.server.version, kind, content, n);
    case AgainDelete => DeleteIsQuiet(w, c.vault, c.secret, c.server.version);
    case AgainOutboxUpdate(entry, op) => RetryOutboxUpdateIsQuiet(w, entry, c.secret, op, c.server.version, n);
    case AgainOutboxDelete(entry) => RetryOutboxDeleteIsQuiet(w, entry, c.vault, c.secret, c.server.version);
  }

  /** Taking the card's version would put back an older version than the cached one. */
  predicate Rewinds(s: Store, c: Card) {
    c.secret in s.secrets && s.secrets[c.secret].version > c.server.version
  }

  /**
   * Taking the server's version keeps the cache fresh exactly when it does not put back an older version than the
   * cache claims. Claimed looks at the server; module OvertakenCards says what can be seen from the client's side.
   */
  lemma TakeServerIsFreshIff(w: World, c: Card)
    requires FreshWorld(w) && CardSound(w.wire.tables, c)
    ensures FreshWorld(TakeServer(w, c)) <==>
            (Claimed(w.wire.tables, w.store, c.secret) ==> !Rewinds(w.store, c))
  {
    var t, s := w.wire.tables, w.store;
    var s' := TakeServer(w, c).store;
    CacheFullTouches(s, c.secret, c.vault, c.server.kind, c.server.tiers, c.server.version, false);
    assert FreshSecret(t, s, c.secret);
    assert Claimed(t, s', c.secret) <==> Claimed(t, s, c.secret);
    if Claimed(t, s, c.secret) ==> !Rewinds(s, c) {
      TouchKeepsFresh(t, s, s', c.secret);
    } else {
      assert !FreshSecret(t, s', c.secret);
    }
  }

  lemma TakeServerIsQuiet(w: World, c: Card)
    requires FreshWorld(w) && CardSound(w.wire.tables, c)
    requires Claimed(w.wire.tables, w.store, c.secret) ==> !Rewinds(w.store, c)
    ensures Quiet(w, TakeServer(w, c))
  {
    TakeServerIsFreshIff(w, c);
    CacheFullTouches(w.store, c.secret, c.vault, c.server.kind, c.server.tiers, c.server.version, false);
    LaterIsReflexive(w.wire.tables);
  }

  // ----- lazy tiers -----

  lemma {:induction false} FillIndexesKeepsRows(s: Store, items: seq<IndexItem>)
    ensures var s' := FillIndexes(s, items);
            && s'.vaults == s.vaults && s'.outbox == s.outbox && s'.nextId == s.nextId
            && (forall id :: id in s.secrets ==> RowKept(s, s', id))
    decreases |items|
  {
    if items != [] {
      var it := items[0];
      var skip := it.id !in s.secrets || s.secrets[it.id].dirty || s.secrets[it.id].indexLoaded;
      var s1 := if skip then s else SetSecretIndex(s, it.id, it.encIndex, it.version);
      FillIndexesKeepsRows(s1, items[1..]);
      assert forall id :: id in s.secrets ==> RowKept(s, s1, id);
    }
  }

  lemma LoadIndexesIsQuiet(w: World, vault: VaultId)
    requires FreshWorld(w)
    ensures Quiet(w, LoadIndexes(w, vault).0)
  {
    StayingIsQuiet(w);
    if vault != "" {
      var (wire, reply) := Call(w.wire, ListIndex(w.session.user, vault));
      CallIsQuiet(w, ListIndex(w.session.user, vault));
      if reply.Indexes? {
        FillIndexesKeepsRows(w.store, reply.indexes);
        SameRowsIsQuiet(w.(wire := wire), FillIndexes(w.store, reply.indexes));
        QuietIsTransitive(w, w.(wire := wire), LoadIndexes(w, vault).0);
      }
    }
  }

  lemma PayloadIsQuiet(w: World, id: SecretId)
    requires FreshWorld(w)
    ensures Quiet(w, PayloadCiphertext(w, id).0)
  {
    StayingIsQuiet(w);
    var (wire, reply) := Call(w.wire, GetPayload(w.session.user, id));
    CallIsQuiet(w, GetPayload(w.session.user, id));
    if reply.Payload? {
      var w1 := w.(wire := wire);
      SameRowsIsQuiet(w1, SetSecretPayload(w.store, id, reply.encPayload, reply.version));
      QuietIsTransitive(w, w1, w1.(store := SetSecretPayload(w.store, id, reply.encPayload, reply.version)));
    }
  }

  lemma ReadPayloadIsQuiet(w: World, vault: VaultId, id: SecretId)
    requires FreshWorld(w)
    ensures Quiet(w, ReadPayload(w, vault, id).0)
  {
    StayingIsQuiet(w);
    PayloadIsQuiet(w, id);
  }

  lemma ReadDetailIsQuiet(w: World, vault: VaultId, id: SecretId)
    requires FreshWorld(w)
    ensures Quiet(w, ReadDetail(w, vault, id).0)
  {
    StayingIsQuiet(w);
    ReadPayloadIsQuiet(w, vault, id);
    var w1 := ReadPayload(w, vault, id).0;
    LoadIndexesIsQuiet(w1, vault);
    QuietIsTransitive(w, w1, LoadIndexes(w1, vault).0);
  }

  // ----- pull -----

  /** What a pull does to the world: it may claim more, but it reuses no identifier. */
  ghost predicate Pulled(w: World, w': World) {
    FreshWorld(w') && Later(w.wire.tables, w'.wire.tables) && w'.store.outbox == w.store.outbox
    && w'.store.nextId == w.store.nextId && w'.session == w.session
  }

  /** The list of versions was read from the server at the time of t0. */
  ghost predicate ReadAt(t0: Tables, user: UserId, versions: seq<VaultVersion>) {
    forall i :: 0 <= i < |versions| ==>
      versions[i].id in t0.vaults && t0.vaults[versions[i].id] == VaultRow(user, versions[i].version)
  }

  lemma {:induction false} UpsertRowsMirrors(
      s: Store, t: Tables, user: UserId, vault: VaultId, rows: seq<RowItem>, keep: set<SecretId>)
    requires forall i :: 0 <= i < |rows| ==>
               && Served(t, user, vault, rows[i].id)
               && rows[i].kind == t.secrets[rows[i].id].kind
               && rows[i].version == t.secrets[rows[i].id].version
               && rows[i].encRow == t.secrets[rows[i].id].tiers.row
    ensures var s' := UpsertRows(s, vault, rows, keep);
            && s'.vaults == s.vaults && s'.outbox == s.outbox && s'.nextId == s.nextId
            && (forall i :: 0 <= i < |rows| && rows[i].id !in keep ==>
                  CachedAs(s', rows[i].id, rows[i].kind, rows[i].version, rows[i].encRow))
            && (forall id :: id in s.secrets && !Served(t, user, vault, id) ==>
                  id in s'.secrets && s'.secrets[id] == s.secrets[id])
            && (forall id ::
                  Served(t, user, vault, id) && AsServed(t, s, id) ==> AsServed(t, s', id))
    decreases |rows|
  {
    if rows != [] {
      var r := rows[0];
      var row := CachedSecret(vault, r.kind, Tiers(r.encRow, Empty, Empty), r.version, false, false, false);
      var s1 := if r.id in keep then s else UpsertSecretRow(s, r.id, row);
      assert forall i :: 0 <= i < |rows[1..]| ==> rows[1..][i] == rows[i + 1];
      UpsertRowsMirrors(s1, t, user, vault, rows[1..], keep);
      forall i | 0 <= i < |rows| && rows[i].id !in keep
        ensures CachedAs(UpsertRows(s, vault, rows, keep), rows[i].id, rows[i].kind, rows[i].version, rows[i].encRow)
      {
        if i > 0 { assert rows[i] == rows[1..][i - 1]; }
      }
    }
  }

  /** The rows come from the server at the time of the answer, and the version was read earlier. */
  lemma PullIsFresh(t0: Tables, w: World, vault: VaultId, version: int)
    requires FreshWorld(w) && Later(t0, w.wire.tables)
    requires vault in t0.vaults && t0.vaults[vault] == VaultRow(w.session.user, version)
    ensures Pulled(w, PullVaultRows(w, vault, version).0)
  {
    var user := w.session.user;
    var req := ListRows(user, vault);
    var (wire, reply) := Call(w.wire, req);
    CallKeepsFresh(w, req);
    CallMovesForward(w.wire, req);
    if reply.Rows? {
      var t := wire.tables;
      LaterIsTransitive(t0, w.wire.tables, t);
      assert reply.rows == RowsOf(t, user, vault, t.secretOrder);
      var keep := Outstanding(w.store.outbox);
      UpsertRowsMirrors(w.store, t, user, vault, reply.rows, keep);
      PulledStoreIsFresh(t0, t, w.store, vault, user, version, reply.rows);
    }
  }

  lemma PulledStoreIsFresh(
      t0: Tables, t: Tables, s: Store, vault: VaultId, user: UserId, version: int, rows: seq<RowItem>)
    requires TablesOk(t) && Fresh(t, s) && Later(t0, t)
    requires vault in t0.vaults && t0.vaults[vault] == VaultRow(user, version)
    requires rows == RowsOf(t, user, vault, t.secretOrder)
    ensures Fresh(t, SetSyncedVersion(UpsertRows(s, vault, rows, Outstanding(s.outbox)), vault, version))
  {
    var keep := Outstanding(s.outbox);
    UpsertRowsMirrors(s, t, user, vault, rows, keep);
    var s' := SetSyncedVersion(UpsertRows(s, vault, rows, keep), vault, version);
    assert LaterVault(t0, t, vault);
    forall v ensures FreshVault(t, s', v) {
      assert FreshVault(t, s, v);
    }
    forall id ensures FreshSecret(t, s', id) {
      if Claimed(t, s', id) {
        if t.secrets[id].vault == vault {
          assert Served(t, user, vault, id) && id in t.secretOrder;
          var i :| 0 <= i < |rows| && rows[i].id == id;
          assert CachedAs(s', rows[i].id, rows[i].kind, rows[i].version, rows[i].encRow);
        } else {
          assert FreshSecret(t, s, id) && !Served(t, user, vault, id);
        }
      }
    }
  }

  lemma PulledIsTransitive(w: World, v: World, u: World)
    requires Pulled(w, v) && Pulled(v, u)
    ensures Pulled(w, u)
  {
    LaterIsTransitive(w.wire.tables, v.wire.tables, u.wire.tables);
  }

  lemma {:induction false} PullStaleIsFresh(
      t0: Tables, w: World, versions: seq<VaultVersion>, local: map<VaultId, CachedVault>)
    requires FreshWorld(w) && Later(t0, w.wire.tables) && ReadAt(t0, w.session.user, versions)
    ensures Pulled(w, PullStale(w, versions, local).0)
    decreases |versions|
  {
    LaterIsReflexive(w.wire.tables);
    if versions != [] {
      assert ReadAt(t0, w.session.user, versions[1..]);
      if !NeedsPull(local, versions[0]) {
        PullStaleIsFresh(t0, w, versions[1..], local);
      } else {
        PullIsFresh(t0, w, versions[0].id, versions[0].version);
        var (w1, pulled) := PullVaultRows(w, versions[0].id, versions[0].version);
        LaterIsTransitive(t0, w.wire.tables, w1.wire.tables);
        if pulled.Ok? {
          PullStaleIsFresh(t0, w1, versions[1..], local);
          PulledIsTransitive(w, w1, PullStale(w1, versions[1..], local).0);
        }
      }
    }
  }

  lemma {:induction false} UpsertVaultsIsFresh(t: Tables, s: Store, items: seq<VaultVersion>)
    requires TablesOk(t) && Fresh(t, s)
    ensures var s' := UpsertVaults(s, items);
            Fresh(t, s') && s'.outbox == s.outbox && s'.nextId == s.nextId && s'.secrets == s.secrets
    decreases |items|
  {
    if items != [] {
      UpsertVaultIsFresh(t, s, items[0].id, CachedVault(items[0].version, 0, false));
      UpsertVaultsIsFresh(t, UpsertVault(s, items[0].id, CachedVault(items[0].version, 0, false)), items[1..]);
    }
  }

  /** A vault that is new to the client claims nothing until it is pulled. */
  lemma UpsertVaultIsFresh(t: Tables, s: Store, id: VaultId, vault: CachedVault)
    requires TablesOk(t) && Fresh(t, s) && vault.syncedVersion == 0
    ensures Fresh(t, UpsertVault(s, id, vault))
    ensures forall x :: Claimed(t, UpsertVault(s, id, vault), x) ==> Claimed(t, s, x)
  {
    var s' := UpsertVault(s, id, vault);
    forall v ensures FreshVault(t, s', v) {
      assert FreshVault(t, s, v);
    }
    forall x ensures FreshSecret(t, s', x) {
      assert FreshSecret(t, s, x);
    }
  }

  lemma PrepareIsFresh(w: World) returns (t0: Tables)
    requires FreshWorld(w)
    ensures var (w', r) := Prepare(w);
            Pulled(w, w') && (r.Ok? ==> Later(t0, w'.wire.tables) && ReadAt(t0, w.session.user, r.value))
  {
    var user := w.session.user;
    var (wire, reply) := Call(w.wire, CheckFreshness(user));
    var w1 := w.(wire := wire);
    CallKeepsFresh(w, CheckFreshness(user));
    CallMovesForward(w.wire, CheckFreshness(user));
    t0 := wire.tables;
    LaterIsReflexive(t0);
    if reply.Vaults? {
      var (wire2, listed) := Call(wire, ListVaults(user));
      CallKeepsFresh(w1, ListVaults(user));
      CallMovesForward(wire, ListVaults(user));
      LaterIsTransitive(w.wire.tables, wire.tables, wire2.tables);
      if listed.Vaults? {
        UpsertVaultsIsFresh(wire2.tables, w.store, listed.vaults);
      }
    }
  }

  lemma SyncIsFresh(w: World)
    requires FreshWorld(w)
    ensures Pulled(w, Sync(w).0)
  {
    var t0 := PrepareIsFresh(w);
    var (w1, prepared) := Prepare(w);
    if prepared.Ok? {
      PullStaleIsFresh(t0, w1, prepared.value, w1.store.vaults);
      PulledIsTransitive(w, w1, Sync(w).0);
    }
  }

  lemma CreateVaultIsQuiet(w: World, vault: VaultId, key: Key)
    requires FreshWorld(w)
    ensures Quiet(w, ClientModel.CreateVault(w, vault, key).0)
  {
    var req := ServerModel.CreateVault(w.session.user, vault);
    CallIsQuiet(w, req);
    var t := Call(w.wire, req).0.tables;
    UpsertVaultIsFresh(t, w.store, vault, CachedVault(INITIAL_VERSION, 0, true));
  }

  lemma SetSyncEnabledIsQuiet(w: World, vault: VaultId, enabled: bool)
    requires FreshWorld(w)
    ensures Quiet(w, w.(store := SetSyncEnabled(w.store, vault, enabled)))
  {
    var t, s := w.wire.tables, w.store;
    var s' := SetSyncEnabled(s, vault, enabled);
    LaterIsReflexive(t);
    forall v ensures FreshVault(t, s', v) {
      assert FreshVault(t, s, v);
    }
    forall id ensures FreshSecret(t, s', id) {
      assert FreshSecret(t, s, id);
    }
  }
}

/** Every operation of the client accounts for the queue, and shows only conflicts that tell the truth about it. */
module AccountedOperations {
  import opened Types
  import opened Sealing
  import opened ServerModel
  import opened ServerLaws
  import opened S = StoreModel
  import opened StoreLaws
  import opened ClientModel
  import opened Freshness
  import opened FreshOperations
  import opened ReplayLaws
  import opened VaultListing
  import opened StagedSync
  import opened Accounting

  // ----- what a conflict on display says about the queue -----

  /** The entry asks for just this about the secret, and its number will never stand for anything else. */
  ghost predicate Means(s: Store, entry: nat, id: SecretId, intent: Intent) {
    && entry < s.nextId
    && forall x :: x in s.outbox && x.id == entry ==> x.entity == SECRET && x.entityId == id && IntentOf(x.op) == intent
  }

  ghost predicate CardTells(s: Store, c: Card) {
    match c.retry
    case AgainOutboxUpdate(entry, op) => op.UpdateOp? && Means(s, entry, c.secret, IntentOf(op))
    case AgainOutboxDelete(entry) => Means(s, entry, c.secret, Erasing(c.vault))
    case _ => true
  }

  /** The server has reached the card's version; nothing is asked about how new the card is. */
  ghost predicate CardKnown(w: World, c: Card) {
    CardSound(w.wire.tables, c) && CardTells(w.store, c)
  }

  ghost predicate CardGiven(step: (World, Result<Option<Card>>)) {
    step.1.Ok? && step.1.value.Some? ==> CardKnown(step.0, step.1.value.value)
  }

  lemma MeaningStays(s: Store, s': Store, entry: nat, id: SecretId, intent: Intent)
    requires EntriesFixed(s, s') && Means(s, entry, id, intent)
    ensures Means(s', entry, id, intent)
  {
    forall x | x in s'.outbox && x.id == entry
      ensures x.entity == SECRET && x.entityId == id && IntentOf(x.op) == intent
    {
      assert Old(s.outbox, x);
    }
  }

  lemma EntryMeans(s: Store, e: Entry)
    requires OutboxOk(s) && e in s.outbox && e.entity == SECRET
    ensures Means(s, e.id, e.entityId, IntentOf(e.op))
  {
    forall x | x in s.outbox && x.id == e.id ensures x == e { DistinctIds(s, x, e); }
  }

  lemma AccountsKeepsCard(w: World, w': World, c: Card)
    requires Accounts(w, w') && CardKnown(w, c)
    ensures CardKnown(w', c)
  {
    LaterKeepsSound(w.wire.tables, w'.wire.tables, c);
    match c.retry
    case AgainOutboxUpdate(entry, op) => MeaningStays(w.store, w'.store, entry, c.secret, IntentOf(op));
    case AgainOutboxDelete(entry) => MeaningStays(w.store, w'.store, entry, c.secret, Erasing(c.vault));
    case _ =>
  }

  // ----- a call and what is then done to the store -----

  lemma CallThenStore(w: World, req: Request, s: Store)
    requires Orderly(w) && SameQueue(w.store, s)
    ensures Accounts(w, w.(wire := Call(w.wire, req).0, store := s))
  {
    CallAccounts(w, req);
    var w1 := w.(wire := Call(w.wire, req).0);
    ThenSameQueue(w, w1, w1.(store := s));
  }

  lemma CallThenQueue(w: World, req: Request, s: Store, id: SecretId, op: Op)
    requires Orderly(w) && SameQueue(w.store, s)
    ensures Accounts(w, w.(wire := Call(w.wire, req).0, store := Enqueue(s, id, op, Pending)))
  {
    CallThenStore(w, req, s);
    var w1 := w.(wire := Call(w.wire, req).0, store := s);
    EnqueueAccounts(w1, id, op, Pending);
    AccountsIsTransitive(w, w1, w1.(store := Enqueue(s, id, op, Pending)));
  }

  /** An entry that asks for the acknowledged request goes. */
  lemma CallThenRemove(w: World, req: Request, entry: nat)
    requires Orderly(w) && Call(w.wire, req).1.Done?
    requires forall x :: x in w.store.outbox && x.id == entry ==> Fulfils(x, req)
    ensures Accounts(w, w.(wire := Call(w.wire, req).0, store := RemoveOutbox(w.store, entry)))
  {
    CallAccounts(w, req);
    var w1 := w.(wire := Call(w.wire, req).0);
    forall x | x in w.store.outbox && x.id == entry ensures Fulfilled(w1.wire.accepted, |w.wire.accepted|, x) {
      AcknowledgedFulfils(w.wire, req, x);
    }
    RemoveAccounts(w, w1, entry);
  }

  // ----- create, update, delete -----

  lemma SendCreateAccounts(w: World, vault: VaultId, id: SecretId, kind: int, tiers: Tiers)
    requires Orderly(w)
    ensures Accounts(w, SendCreate(w, vault, id, kind, tiers).0)
  {
    var req := Create(w.session.user, id, vault, kind, tiers);
    CallAccounts(w, req);
    CallThenStore(w, req, UpsertSecretRow(w.store, id, Loaded(vault, kind, tiers, INITIAL_VERSION, false)));
    CallThenQueue(w, req, UpsertSecretRow(w.store, id, Loaded(vault, kind, tiers, INITIAL_VERSION, true)), id,
                  CreateOp(vault, kind, tiers));
  }

  lemma CreateAccounts(w: World, vault: VaultId, id: SecretId, kind: int, content: Content, n: Nonces)
    requires Orderly(w)
    ensures Accounts(w, CreateTyped(w, vault, id, kind, content, n).0)
  {
    SameQueueAccounts(w, w);
    if VaultContext(w.session, vault).Ok? {
      SendCreateAccounts(
        w, vault, id, kind, SealTiers(w.session.open[vault], vault, id, INITIAL_VERSION, content, n));
    }
  }

  lemma SentUpdateAccounts(w: World, vault: VaultId, id: SecretId, kind: int, base: int, tiers: Tiers)
    requires Orderly(w)
    ensures var req := Update(w.session.user, id, base, tiers);
            var wire := Call(w.wire, req).0;
            && Accounts(w, w.(wire := wire))
            && Accounts(w, w.(wire := wire, store := CacheFull(w.store, id, vault, kind, tiers, base + 1, false)))
            && Accounts(w, w.(wire := wire, store := UpdateOffline(w.store, id, vault, kind, base, tiers)))
  {
    var req := Update(w.session.user, id, base, tiers);
    CallAccounts(w, req);
    CacheFullTouches(w.store, id, vault, kind, tiers, base + 1, false);
    CacheFullTouches(w.store, id, vault, kind, tiers, base + 1, true);
    CallThenStore(w, req, CacheFull(w.store, id, vault, kind, tiers, base + 1, false));
    CallThenQueue(w, req, CacheFull(w.store, id, vault, kind, tiers, base + 1, true), id,
                  UpdateOp(vault, kind, base, tiers));
  }

  lemma SendUpdateAccounts(
      w: World, key: Key, vault: VaultId, id: SecretId, base: int, kind: int, content: Content, tiers: Tiers)
    requires Orderly(w)
    ensures Accounts(w, SendUpdate(w, key, vault, id, base, kind, content, tiers).0)
    ensures CardGiven(SendUpdate(w, key, vault, id, base, kind, content, tiers))
  {
    var req := Update(w.session.user, id, base, tiers);
    var reply := Call(w.wire, req).1;
    SentUpdateAccounts(w, vault, id, kind, base, tiers);
    if reply.Fault? && reply.error.Conflict? { ConflictIsCurrent(w.wire, req); }
  }

  lemma UpdateAccounts(w: World, vault: VaultId, id: SecretId, base: int, kind: int, content: Content, n: Nonces)
    requires Orderly(w)
    ensures Accounts(w, UpdateTyped(w, vault, id, base, kind, content, n).0)
    ensures CardGiven(UpdateTyped(w, vault, id, base, kind, content, n))
  {
    SameQueueAccounts(w, w);
    if VaultContext(w.session, vault).Ok? {
      var key := w.session.open[vault];
      SendUpdateAccounts(w, key, vault, id, base, kind, content, SealTiers(key, vault, id, base + 1, content, n));
    }
  }

  lemma DeleteOfflineAccounts(w: World, req: Request, vault: VaultId, id: SecretId, base: int)
    requires Orderly(w)
    ensures Accounts(w, w.(wire := Call(w.wire, req).0, store := DeleteOffline(w.store, id, vault, base)))
  {
    CallThenQueue(w, req, w.store, id, DeleteOp(vault, base));
    var w1 := w.(wire := Call(w.wire, req).0, store := Enqueue(w.store, id, DeleteOp(vault, base), Pending));
    ThenSameQueue(w, w1, w1.(store := S.DeleteSecret(w1.store, id)));
  }

  lemma SendDeleteAccounts(w: World, key: Key, vault: VaultId, id: SecretId, base: int)
    requires Orderly(w)
    ensures Accounts(w, SendDelete(w, key, vault, id, base).0)
    ensures CardGiven(SendDelete(w, key, vault, id, base))
  {
    var req := Delete(w.session.user, id, base);
    var reply := Call(w.wire, req).1;
    CallAccounts(w, req);
    if reply.Done? {
      CallThenStore(w, req, S.DeleteSecret(w.store, id));
    } else if reply.error.Conflict? {
      ConflictIsCurrent(w.wire, req);
    } else {
      DeleteOfflineAccounts(w, req, vault, id, base);
    }
  }

  lemma DeleteAccounts(w: World, vault: VaultId, id: SecretId, base: int)
    requires Orderly(w)
    ensures Accounts(w, ClientModel.DeleteSecret(w, vault, id, base).0)
    ensures CardGiven(ClientModel.DeleteSecret(w, vault, id, base))
  {
    SameQueueAccounts(w, w);
    if VaultContext(w.session, vault).Ok? {
      SendDeleteAccounts(w, w.session.open[vault], vault, id, base);
    }
  }

  lemma SendMarkedAccounts(w: World, vault: VaultId, id: SecretId, kind: int, base: int, tiers: Tiers)
    requires Orderly(w)
    ensures Accounts(w, SendMarked(w, vault, id, kind, base, tiers).0)
  {
    SentUpdateAccounts(w, vault, id, kind, base, tiers);
  }

  lemma RemarkAccounts(
      w: World, key: Key, vault: VaultId, id: SecretId, local: CachedSecret, mark: string -> Option<string>, n: Nonces)
    requires Orderly(w)
    ensures Accounts(w, Remark(w, key, vault, id, local, mark, n).0)
  {
    SameQueueAccounts(w, w);
    var plain := DecryptTiers(key, vault, id, local.version, local.tiers);
    if plain.Ok? {
      var marked := mark(plain.value.payload);
      if marked.Some? {
        SendMarkedAccounts(w, vault, id, local.kind, local.version,
                           Marked(key, vault, id, local.version, plain.value, marked.value, n));
      }
    }
  }

  lemma MarkOtpAccounts(w: World, vault: VaultId, id: SecretId, mark: string -> Option<string>, n: Nonces)
    requires Orderly(w)
    ensures Accounts(w, MarkOtpCodeUsed(w, vault, id, mark, n).0)
  {
    SameQueueAccounts(w, w);
    if VaultContext(w.session, vault).Ok? && id in w.store.secrets {
      RemarkAccounts(w, w.session.open[vault], vault, id, w.store.secrets[id], mark, n);
    }
  }

  // ----- binary secrets -----

  /** A successful upload ends with the acknowledged attachment. */
  lemma BlobUploadAccounts(w: World, id: SecretId, vault: VaultId)
    requires Orderly(w)
    ensures var (w', r) := RetryBlobUpload(w, id, vault);
            && Accounts(w, w') && w'.store == w.store
            && (r.Ok? ==> forall e: Entry :: e.op.BlobOp? && e.entityId == id ==>
                  Fulfilled(w'.wire.accepted, |w.wire.accepted|, e))
  {
    SameQueueAccounts(w, w);
    var upload := Upload(w.session.user, id);
    CallAccounts(w, upload);
    var (wire1, uploaded) := Call(w.wire, upload);
    var w1 := w.(wire := wire1);
    if uploaded.Uploaded? {
      var attach := Attach(w.session.user, id, INITIAL_VERSION, uploaded.blobRef);
      CallAccounts(w1, attach);
      AccountsIsTransitive(w, w1, w1.(wire := Call(wire1, attach).0));
      if Call(wire1, attach).1.Done? {
        AcknowledgedIsLast(wire1, attach);
        assert Call(wire1, attach).0.accepted[|wire1.accepted|] == attach;
      }
    }
  }

  lemma CreateBinaryAccounts(w: World, vault: VaultId, id: SecretId, content: Content, n: Nonces, staging: Staging)
    requires Orderly(w)
    ensures Accounts(w, CreateBinary(w, vault, id, content, n, staging).0)
  {
    CreateAccounts(w, vault, id, BINARY_KIND, content, n);
    var (w1, created) := CreateTyped(w, vault, id, BINARY_KIND, content, n);
    var staged := w1.(staged := w1.staged + {id});
    BlobUploadAccounts(staged, id, vault);
    var (w2, sent) := RetryBlobUpload(staged, id, vault);
    AccountsIsTransitive(w, staged, w2);
    EnqueueAccounts(w2, id, BlobOp(vault), Pending);
    AccountsIsTransitive(w, w2, w2.(store := Enqueue(w2.store, id, BlobOp(vault), Pending)));
  }

  // ----- replay -----

  lemma ReplayConflictAccounts(w: World, req: Request, entry: nat)
    requires Orderly(w) && Call(w.wire, req).1.Fault?
    ensures var (wire, reply) := Call(w.wire, req);
            Accounts(w, ReplayConflict(w.(wire := wire), entry, reply.error).0)
  {
    CallAccounts(w, req);
    var w1 := w.(wire := Call(w.wire, req).0);
    RestatusAccounts(w1, entry);
    AccountsIsTransitive(w, w1, w1.(store := w1.store.(outbox := Restatus(w1.store.outbox, entry, InConflict))));
  }

  /** An acknowledged turn removes the entry, as it asked for what was written. */
  lemma PlayedAccounts(w: World, e: Entry, req: Request, s: Store)
    requires Orderly(w) && e in w.store.outbox && Call(w.wire, req).1.Done? && Fulfils(e, req)
    requires SameQueue(w.store, s)
    ensures Accounts(w, w.(wire := Call(w.wire, req).0, store := RemoveOutbox(s, e.id)))
  {
    forall x | x in w.store.outbox && x.id == e.id ensures Fulfils(x, req) { DistinctIds(w.store, x, e); }
    CallThenRemove(w, req, e.id);
    var w1 := w.(wire := Call(w.wire, req).0, store := RemoveOutbox(w.store, e.id));
    ThenSameQueue(w, w1, w1.(store := RemoveOutbox(s, e.id)));
  }

  lemma CreateTurnAccounts(w: World, e: Entry)
    requires Orderly(w) && e in w.store.outbox && e.op.CreateOp?
    ensures Accounts(w, ReplayTurn(w, e).0)
  {
    var req := Create(w.session.user, e.entityId, e.op.vault, e.op.kind, e.op.tiers);
    CallAccounts(w, req);
    if Call(w.wire, req).1.Done? {
      var row := Loaded(e.op.vault, e.op.kind, e.op.tiers, INITIAL_VERSION, false);
      PlayedAccounts(w, e, req, UpsertSecretRow(w.store, e.entityId, row));
    }
  }

  lemma UpdateTurnAccounts(w: World, e: Entry)
    requires Orderly(w) && e in w.store.outbox && e.op.UpdateOp?
    ensures Accounts(w, ReplayTurn(w, e).0)
  {
    var p := e.op;
    var req := Update(w.session.user, e.entityId, p.base, p.tiers);
    if Call(w.wire, req).1.Done? {
      var row := Loaded(p.vault, p.kind, p.tiers, p.base + 1, false);
      PlayedAccounts(w, e, req, UpsertSecretRow(w.store, e.entityId, row));
    } else {
      ReplayConflictAccounts(w, req, e.id);
    }
  }

  lemma DeleteTurnAccounts(w: World, e: Entry)
    requires Orderly(w) && e in w.store.outbox && e.op.DeleteOp?
    ensures Accounts(w, ReplayTurn(w, e).0)
  {
    var req := Delete(w.session.user, e.entityId, e.op.base);
    if Call(w.wire, req).1.Done? {
      PlayedAccounts(w, e, req, S.DeleteSecret(w.store, e.entityId));
    } else {
      ReplayConflictAccounts(w, req, e.id);
    }
  }

  lemma BlobTurnAccounts(w: World, e: Entry)
    requires Orderly(w) && e in w.store.outbox && e.op.BlobOp?
    ensures Accounts(w, ReplayTurn(w, e).0)
  {
    BlobUploadAccounts(w, e.entityId, e.op.vault);
    var (w1, sent) := RetryBlobUpload(w, e.entityId, e.op.vault);
    if sent.Ok? {
      forall x | x in w1.store.outbox && x.id == e.id ensures x == e { DistinctIds(w.store, x, e); }
      RemoveAccounts(w, w1, e.id);
    }
  }

  lemma TurnAccounts(w: World, e: Entry)
    requires Orderly(w) && e in w.store.outbox
    ensures Accounts(w, ReplayTurn(w, e).0)
  {
    match e.op
    case CreateOp(_, _, _) => CreateTurnAccounts(w, e);
    case UpdateOp(_, _, _, _) => UpdateTurnAccounts(w, e);
    case DeleteOp(_, _) => DeleteTurnAccounts(w, e);
    case BlobOp(_) => BlobTurnAccounts(w, e);
  }

  ghost predicate AllQueued(s: Store, entries: seq<Entry>) {
    Increasing(entries) && forall e :: e in entries ==> e in s.outbox
  }

  lemma RestQueued(w: World, entries: seq<Entry>)
    requires AllQueued(w.store, entries) && entries != []
    ensures AllQueued(w.store, entries[1..]) && AllQueued(ReplayTurn(w, entries[0]).0.store, entries[1..])
  {
    var rest := entries[1..];
    assert forall i :: 0 <= i < |rest| ==> rest[i] == entries[i + 1];
    forall e | e in rest ensures e in w.store.outbox && e in ReplayTurn(w, entries[0]).0.store.outbox {
      assert e in entries;
      TurnSparesOthers(w, entries[0], e);
    }
  }

  lemma {:induction false} ReplayAllAccounts(w: World, entries: seq<Entry>)
    requires Orderly(w) && AllQueued(w.store, entries)
    ensures Accounts(w, ReplayAll(w, entries).0)
    decreases |entries|
  {
    if entries == [] {
      SameQueueAccounts(w, w);
    } else {
      RestQueued(w, entries);
      if entries[0].entity != SECRET {
        ReplayAllAccounts(w, entries[1..]);
      } else {
        assert entries[0] in entries;
        var w1 := ReplayTurn(w, entries[0]).0;
        TurnAccounts(w, entries[0]);
        ReplayAllAccounts(w1, entries[1..]);
        AccountsIsTransitive(w, w1, ReplayAll(w1, entries[1..]).0);
      }
    }
  }

  lemma ReplayAccounts(w: World)
    requires Orderly(w)
    ensures Accounts(w, ReplayOutbox(w).0)
  {
    var pending := ByStatus(w.store.outbox, Pending);
    ByStatusIncreasing(w.store.outbox, Pending);
    forall e | e in pending ensures e in w.store.outbox { ByStatusMembers(w.store.outbox, Pending, e); }
    ReplayAllAccounts(w, pending);
  }

  // ----- conflicts -----

  lemma ProbeAcknowledged(w: World, e: Entry)
    requires Orderly(w) && e.op.UpdateOp? && e in w.store.outbox
    requires Call(w.wire, Update(w.session.user, e.entityId, e.op.base, e.op.tiers)).1.Done?
    ensures var wire := Call(w.wire, Update(w.session.user, e.entityId, e.op.base, e.op.tiers)).0;
            Accounts(w, w.(wire := wire, store := Probed(w.store, e)))
  {
    var p, removed := e.op, RemoveOutbox(w.store, e.id);
    var req := Update(w.session.user, e.entityId, p.base, p.tiers);
    CacheFullTouches(removed, e.entityId, p.vault, p.kind, p.tiers, p.base + 1, false);
    PlayedAccounts(w, e, req, w.store);
    var w1 := w.(wire := Call(w.wire, req).0, store := removed);
    ThenSameQueue(w, w1, w1.(store := Probed(w.store, e)));
  }

  lemma ProbedCardIsKnown(w: World, key: Key, e: Entry, mine: Content)
    requires OutboxOk(w.store) && e.op.UpdateOp? && e in w.store.outbox && e.entity == SECRET
    ensures CardGiven(ProbeUpdate(w, key, e, mine))
  {
    var req := Update(w.session.user, e.entityId, e.op.base, e.op.tiers);
    var reply := Call(w.wire, req).1;
    EntryMeans(w.store, e);
    if reply.Fault? && reply.error.Conflict? { ConflictIsCurrent(w.wire, req); }
  }

  lemma ProbeUpdateAccounts(w: World, key: Key, e: Entry, mine: Content)
    requires Orderly(w) && e.op.UpdateOp? && e in w.store.outbox
    ensures Accounts(w, ProbeUpdate(w, key, e, mine).0)
  {
    var p := e.op;
    var req := Update(w.session.user, e.entityId, p.base, p.tiers);
    if Call(w.wire, req).1.Done? {
      ProbeAcknowledged(w, e);
      assert ProbeUpdate(w, key, e, mine).0 == w.(wire := Call(w.wire, req).0, store := Probed(w.store, e));
    } else {
      CallAccounts(w, req);
      assert ProbeUpdate(w, key, e, mine).0 == w.(wire := Call(w.wire, req).0);
    }
  }

  lemma ProbeDeleteAccounts(w: World, key: Key, e: Entry)
    requires Orderly(w) && e.op.DeleteOp? && e in w.store.outbox && e.entity == SECRET
    ensures Accounts(w, ProbeDelete(w, key, e).0)
    ensures CardGiven(ProbeDelete(w, key, e))
  {
    var req := Delete(w.session.user, e.entityId, e.op.base);
    var reply := Call(w.wire, req).1;
    CallAccounts(w, req);
    EntryMeans(w.store, e);
    if reply.Done? {
      PlayedAccounts(w, e, req, w.store);
      var w1 := w.(wire := Call(w.wire, req).0, store := RemoveOutbox(w.store, e.id));
      ThenSameQueue(w, w1, w1.(store := S.DeleteSecret(w1.store, e.entityId)));
    } else if reply.error.Conflict? {
      ConflictIsCurrent(w.wire, req);
    }
  }

  /** Either the local checks fail, or the entry is probed. */
  lemma ProbesOrNot(w: World, e: Entry) returns (probed: Option<(Key, Content)>)
    requires e.op.UpdateOp?
    ensures var step := ConflictFromOutboxUpdate(w, e);
            match probed
            case None => step.0 == w && step.1.Err?
            case Some((key, mine)) => step == ProbeUpdate(w, key, e, mine)
  {
    var context := VaultContext(w.session, e.op.vault);
    if context.Err? { return None; }
    var mine := DecryptTiers(context.value, e.op.vault, e.entityId, e.op.base + 1, e.op.tiers);
    if mine.Err? { return None; }
    return Some((context.value, mine.value));
  }

  lemma FromOutboxUpdateAccounts(w: World, e: Entry)
    requires Orderly(w) && e.op.UpdateOp? && e in w.store.outbox && e.entity == SECRET
    ensures Accounts(w, ConflictFromOutboxUpdate(w, e).0)
    ensures CardGiven(ConflictFromOutboxUpdate(w, e))
  {
    var probed := ProbesOrNot(w, e);
    if probed.None? {
      SameQueueAccounts(w, w);
    } else {
      ProbeUpdateAccounts(w, probed.value.0, e, probed.value.1);
      ProbedCardIsKnown(w, probed.value.0, e, probed.value.1);
    }
  }

  lemma FromOutboxDeleteAccounts(w: World, e: Entry)
    requires Orderly(w) && e.op.DeleteOp? && e in w.store.outbox && e.entity == SECRET
    ensures Accounts(w, ConflictFromOutboxDelete(w, e).0)
    ensures CardGiven(ConflictFromOutboxDelete(w, e))
  {
    SameQueueAccounts(w, w);
    var context := VaultContext(w.session, e.op.vault);
    if context.Ok? { ProbeDeleteAccounts(w, context.value, e); }
  }

  lemma FromEntryAccounts(w: World, e: Entry)
    requires Orderly(w) && e in w.store.outbox && e.entity == SECRET
    ensures Accounts(w, ConflictFromEntry(w, e).0)
    ensures CardGiven(ConflictFromEntry(w, e))
  {
    match e.op
    case UpdateOp(_, _, _, _) => FromOutboxUpdateAccounts(w, e);
    case DeleteOp(_, _) => FromOutboxDeleteAccounts(w, e);
    case _ => SameQueueAccounts(w, w);
  }

  lemma FromOutboxAccounts(w: World, entry: nat)
    requires Orderly(w)
    ensures Accounts(w, ConflictFromOutbox(w, entry).0)
    ensures CardGiven(ConflictFromOutbox(w, entry))
  {
    SameQueueAccounts(w, w);
    var found := Find(w.store.outbox, entry);
    if found.Some? && found.value.entity == SECRET { FromEntryAccounts(w, found.value); }
  }

  lemma ReplaceAccounts(w: World, entry: nat, id: SecretId, op: Op)
    requires Orderly(w) && Means(w.store, entry, id, IntentOf(op))
    ensures Accounts(w, w.(store := Enqueue(RemoveOutbox(w.store, entry), id, op, InConflict)))
  {
    var s' := Enqueue(RemoveOutbox(w.store, entry), id, op, InConflict);
    var last := Entry(w.store.nextId, SECRET, id, op, InConflict);
    LaterIsReflexive(w.wire.tables);
    RemoveKeepsOutbox(w.store, entry);
    EnqueueKeepsOutbox(RemoveOutbox(w.store, entry), id, op, InConflict);
    assert s'.outbox[|s'.outbox| - 1] == last;
    forall e | e in w.store.outbox ensures StillAsked(s'.outbox, e) {
      WithoutMembers(w.store.outbox, entry, e);
      StillAskedBy(s'.outbox, e, if e.id == entry then last else e);
    }
    forall x | x in s'.outbox && x.id < w.store.nextId ensures x in w.store.outbox {
      WithoutMembers(w.store.outbox, entry, x);
    }
  }

  lemma RequeueAccounts(w: World, entry: nat, id: SecretId, op: Op)
    requires Orderly(w) && Means(w.store, entry, id, IntentOf(op))
    ensures Requeue(w.store, entry, id, op).Ok? ==> Accounts(w, w.(store := Requeue(w.store, entry, id, op).value))
  {
    var w1 := w.(store := w.store.(outbox := Restatus(w.store.outbox, entry, InConflict)));
    RestatusAccounts(w, entry);
    MeaningStays(w.store, w1.store, entry, id, IntentOf(op));
    ReplaceAccounts(w1, entry, id, op);
    AccountsIsTransitive(w, w1, w1.(store := Enqueue(RemoveOutbox(w1.store, entry), id, op, InConflict)));
  }

  lemma AgainAcknowledged(w: World, entry: nat, id: SecretId, p: Op, base: int, tiers: Tiers)
    requires Orderly(w) && p.UpdateOp? && Means(w.store, entry, id, IntentOf(p))
    requires PlainTexts(tiers) == PlainTexts(p.tiers) && Call(w.wire, Update(w.session.user, id, base, tiers)).1.Done?
    ensures Accounts(w, SendAgain(w, entry, id, p, base, tiers).0)
  {
    var req := Update(w.session.user, id, base, tiers);
    CallThenRemove(w, req, entry);
    var w1 := w.(wire := Call(w.wire, req).0, store := RemoveOutbox(w.store, entry));
    CacheFullTouches(w1.store, id, p.vault, p.kind, tiers, base + 1, false);
    ThenSameQueue(w, w1, w1.(store := CacheFull(w1.store, id, p.vault, p.kind, tiers, base + 1, false)));
  }

  lemma SendAgainAccounts(w: World, entry: nat, id: SecretId, p: Op, base: int, tiers: Tiers)
    requires Orderly(w) && p.UpdateOp? && Means(w.store, entry, id, IntentOf(p))
    requires PlainTexts(tiers) == PlainTexts(p.tiers)
    ensures Accounts(w, SendAgain(w, entry, id, p, base, tiers).0)
    ensures CardGiven(SendAgain(w, entry, id, p, base, tiers))
  {
    var req := Update(w.session.user, id, base, tiers);
    var (wire, reply) := Call(w.wire, req);
    var w1 := w.(wire := wire);
    CallAccounts(w, req);
    if reply.Done? {
      AgainAcknowledged(w, entry, id, p, base, tiers);
    } else if reply.error.Conflict? {
      var again := p.(base := base, tiers := tiers);
      var requeued := Requeue(w1.store, entry, id, again);
      if requeued.Ok? {
        var w2 := w1.(store := requeued.value);
        RequeueAccounts(w1, entry, id, again);
        FromOutboxAccounts(w2, w1.store.nextId);
        AccountsIsTransitive(w, w1, w2);
        AccountsIsTransitive(w, w2, ConflictFromOutbox(w2, w1.store.nextId).0);
      }
    }
  }

  lemma ResealKeepsPlain(s: Session, id: SecretId, p: Op, base: int, n: Nonces)
    requires p.UpdateOp? && Reseal(s, id, p, base, n).Ok?
    ensures PlainTexts(Reseal(s, id, p, base, n).value) == PlainTexts(p.tiers)
  {
  }

  lemma RetryOutboxUpdateAccounts(w: World, entry: nat, id: SecretId, p: Op, base: int, n: Nonces)
    requires Orderly(w) && p.UpdateOp? && Means(w.store, entry, id, IntentOf(p))
    ensures Accounts(w, RetryOutboxUpdate(w, entry, id, p, base, n).0)
    ensures CardGiven(RetryOutboxUpdate(w, entry, id, p, base, n))
  {
    SameQueueAccounts(w, w);
    var sealed := Reseal(w.session, id, p, base, n);
    if sealed.Ok? {
      ResealKeepsPlain(w.session, id, p, base, n);
      SendAgainAccounts(w, entry, id, p, base, sealed.value);
    }
  }

  /** After a delete that went well the entry is fulfilled, or a new one asks for the same. */
  lemma DeleteDispenses(w: World, vault: VaultId, id: SecretId, base: int, entry: nat)
    requires Means(w.store, entry, id, Erasing(vault))
    ensures var (w', r) := ClientModel.DeleteSecret(w, vault, id, base);
            r == Ok(None) ==> Dispensable(w', w'.store, |w.wire.accepted|, entry)
  {
    var (w', r) := ClientModel.DeleteSecret(w, vault, id, base);
    var req := Delete(w.session.user, id, base);
    if r == Ok(None) {
      if Call(w.wire, req).1.Done? {
        forall e | e in w'.store.outbox && e.id == entry
          ensures Fulfilled(w'.wire.accepted, |w.wire.accepted|, e)
        {
          AcknowledgedFulfils(w.wire, req, e);
        }
      } else {
        var queued := w'.store.outbox[|w.store.outbox|];
        assert queued in w'.store.outbox && queued.id == w.store.nextId;
        assert forall e :: e in w'.store.outbox && e.id == entry ==> SameIntent(e, queued);
      }
    }
  }

  lemma RetryOutboxDeleteAccounts(w: World, entry: nat, vault: VaultId, id: SecretId, base: int)
    requires Orderly(w) && Means(w.store, entry, id, Erasing(vault))
    ensures Accounts(w, RetryOutboxDelete(w, entry, vault, id, base).0)
    ensures CardGiven(RetryOutboxDelete(w, entry, vault, id, base))
  {
    DeleteAccounts(w, vault, id, base);
    DeleteDispenses(w, vault, id, base, entry);
    var (w1, r) := ClientModel.DeleteSecret(w, vault, id, base);
    if r == Ok(None) { RemoveAccounts(w, w1, entry); }
  }

  lemma RetryMineAccounts(w: World, c: Card, n: Nonces)
    requires Orderly(w) && CardFormed(c) && CardTells(w.store, c)
    ensures Accounts(w, RetryMine(w, c, n).0)
    ensures CardGiven(RetryMine(w, c, n))
  {
    match c.retry
    case AgainUpdate(kind, content) => UpdateAccounts(w, c.vault, c.secret, c.server.version, kind, content, n);
    case AgainDelete => DeleteAccounts(w, c.vault, c.secret, c.server.version);
    case AgainOutboxUpdate(entry, op) => RetryOutboxUpdateAccounts(w, entry, c.secret, op, c.server.version, n);
    case AgainOutboxDelete(entry) => RetryOutboxDeleteAccounts(w, entry, c.vault, c.secret, c.server.version);
  }

  lemma TakeServerAccounts(w: World, c: Card)
    requires Orderly(w)
    ensures Accounts(w, TakeServer(w, c))
  {
    CacheFullTouches(w.store, c.secret, c.vault, c.server.kind, c.server.tiers, c.server.version, false);
    SameQueueAccounts(w, TakeServer(w, c));
  }

  // ----- vaults, lazy tiers and pulls keep the queue -----

  lemma CreateVaultAccounts(w: World, vault: VaultId, key: Key)
    requires Orderly(w)
    ensures Accounts(w, ClientModel.CreateVault(w, vault, key).0)
  {
    var req := ServerModel.CreateVault(w.session.user, vault);
    CallAccounts(w, req);
    ThenSameQueue(w, w.(wire := Call(w.wire, req).0), ClientModel.CreateVault(w, vault, key).0);
  }

  lemma ListingAccounts(w: World, keys: map<VaultId, Key>)
    requires Orderly(w)
    ensures Accounts(w, ListAndOpen(w, keys).0)
  {
    var (wire, reply) := Call(w.wire, ListVaults(w.session.user));
    CallAccounts(w, ListVaults(w.session.user));
    if reply.Vaults? {
      ListIntoOpens(w.(wire := wire), reply.vaults, keys);
      ListIntoCaches(w.(wire := wire), reply.vaults, keys);
    }
    ThenSameQueue(w, w.(wire := wire), ListAndOpen(w, keys).0);
  }

  lemma LoadIndexesAccounts(w: World, vault: VaultId)
    requires Orderly(w)
    ensures Accounts(w, LoadIndexes(w, vault).0)
  {
    SameQueueAccounts(w, w);
    var (wire, reply) := Call(w.wire, ListIndex(w.session.user, vault));
    CallAccounts(w, ListIndex(w.session.user, vault));
    if reply.Indexes? {
      FillIndexesOnlyFills(w.store, reply.indexes);
      CallThenStore(w, ListIndex(w.session.user, vault), FillIndexes(w.store, reply.indexes));
    }
  }

  lemma PayloadAccounts(w: World, id: SecretId)
    requires Orderly(w)
    ensures Accounts(w, PayloadCiphertext(w, id).0)
  {
    SameQueueAccounts(w, w);
    var reply := Call(w.wire, GetPayload(w.session.user, id)).1;
    CallAccounts(w, GetPayload(w.session.user, id));
    if reply.Payload? {
      CallThenStore(w, GetPayload(w.session.user, id), SetSecretPayload(w.store, id, reply.encPayload, reply.version));
    }
  }

  lemma ReadPayloadAccounts(w: World, vault: VaultId, id: SecretId)
    requires Orderly(w)
    ensures Accounts(w, ReadPayload(w, vault, id).0)
  {
    SameQueueAccounts(w, w);
    PayloadAccounts(w, id);
  }

  lemma ReadDetailAccounts(w: World, vault: VaultId, id: SecretId)
    requires Orderly(w)
    ensures Accounts(w, ReadDetail(w, vault, id).0)
  {
    SameQueueAccounts(w, w);
    ReadPayloadAccounts(w, vault, id);
    var w1 := ReadPayload(w, vault, id).0;
    LoadIndexesAccounts(w1, vault);
    AccountsIsTransitive(w, w1, LoadIndexes(w1, vault).0);
  }

  lemma {:induction false} UpsertRowsKeepsQueue(s: Store, vault: VaultId, rows: seq<RowItem>, keep: set<SecretId>)
    ensures SameQueue(s, UpsertRows(s, vault, rows, keep))
    decreases |rows|
  {
    if rows != [] {
      var r := rows[0];
      var row := CachedSecret(vault, r.kind, Tiers(r.encRow, Empty, Empty), r.version, false, false, false);
      UpsertRowsKeepsQueue(if r.id in keep then s else UpsertSecretRow(s, r.id, row), vault, rows[1..], keep);
    }
  }

  lemma {:induction false} UpsertVaultsKeepsQueue(s: Store, items: seq<VaultVersion>)
    ensures SameQueue(s, UpsertVaults(s, items))
    decreases |items|
  {
    if items != [] {
      UpsertVaultsKeepsQueue(UpsertVault(s, items[0].id, CachedVault(items[0].version, 0, false)), items[1..]);
    }
  }

  lemma PullAccounts(w: World, vault: VaultId, version: int)
    requires Orderly(w)
    ensures Accounts(w, PullVaultRows(w, vault, version).0)
  {
    var req := ListRows(w.session.user, vault);
    var reply := Call(w.wire, req).1;
    CallAccounts(w, req);
    if reply.Rows? {
      UpsertRowsKeepsQueue(w.store, vault, reply.rows, Outstanding(w.store.outbox));
      ThenSameQueue(w, w.(wire := Call(w.wire, req).0), PullVaultRows(w, vault, version).0);
    }
  }

  lemma {:induction false} PullStaleAccounts(
      w: World, versions: seq<VaultVersion>, local: map<VaultId, CachedVault>)
    requires Orderly(w)
    ensures Accounts(w, PullStale(w, versions, local).0)
    decreases |versions|
  {
    SameQueueAccounts(w, w);
    if versions != [] {
      if !NeedsPull(local, versions[0]) {
        PullStaleAccounts(w, versions[1..], local);
      } else {
        PullAccounts(w, versions[0].id, versions[0].version);
        var (w1, pulled) := PullVaultRows(w, versions[0].id, versions[0].version);
        PullStaleAccounts(w1, versions[1..], local);
        AccountsIsTransitive(w, w1, PullStale(w1, versions[1..], local).0);
      }
    }
  }

  lemma PrepareAccounts(w: World)
    requires Orderly(w)
    ensures Accounts(w, Prepare(w).0)
  {
    var user := w.session.user;
    var (wire, reply) := Call(w.wire, CheckFreshness(user));
    var w1 := w.(wire := wire);
    CallAccounts(w, CheckFreshness(user));
    var (wire2, listed) := Call(wire, ListVaults(user));
    var w2 := w1.(wire := wire2);
    CallAccounts(w1, ListVaults(user));
    AccountsIsTransitive(w, w1, w2);
    if listed.Vaults? {
      UpsertVaultsKeepsQueue(w.store, listed.vaults);
      ThenSameQueue(w, w2, w2.(store := UpsertVaults(w.store, listed.vaults)));
    }
  }

  lemma SyncAccounts(w: World)
    requires Orderly(w)
    ensures Accounts(w, Sync(w).0)
  {
    PrepareAccounts(w);
    var (w1, prepared) := Prepare(w);
    if prepared.Ok? {
      PullStaleAccounts(w1, prepared.value, w1.store.vaults);
      AccountsIsTransitive(w, w1, Sync(w).0);
    }
  }

  lemma {:induction false} LoadEachAccounts(w: World, toSync: seq<VaultVersion>)
    requires Orderly(w)
    ensures Accounts(w, LoadEach(w, toSync))
    decreases |toSync|
  {
    SameQueueAccounts(w, w);
    if toSync != [] {
      LoadIndexesAccounts(w, toSync[0].id);
      var w1 := LoadIndexes(w, toSync[0].id).0;
      LoadEachAccounts(w1, toSync[1..]);
      AccountsIsTransitive(w, w1, LoadEach(w, toSync));
    }
  }

  lemma StagedAccounts(w: World)
    requires Orderly(w)
    ensures Accounts(w, SyncWithProgress(w).0)
  {
    StagedIsSyncThenLoad(w);
    SyncAccounts(w);
    var plain := Sync(w).0;
    LoadEachAccounts(plain, AskedBy(w));
    AccountsIsTransitive(w, plain, LoadEach(plain, AskedBy(w)));
  }
}

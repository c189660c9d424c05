/** What a write reports and leaves: success means taken or queued, and the readers then show what was written. */
module Writing {
  import opened Types
  import opened Sealing
  import opened ServerModel
  import opened ServerLaws
  import opened S = StoreModel
  import opened StoreLaws
  import opened ClientModel
  import opened Coherence
  import opened Freshness
  import opened Accounting
  import opened AccountedOperations
  import opened Reading
  import opened Runs

  // ----- reports -----

  /** The server acknowledged the request. */
  ghost predicate Taken(w: World, w': World, req: Request) {
    w'.wire == Call(w.wire, req).0 && w'.wire.accepted == w.wire.accepted + [req] && SameQueue(w.store, w'.store)
  }

  /** There was no answer that would settle it, and the operation is the last of the queue. */
  ghost predicate Queued(w: World, w': World, req: Request, op: Op)
    requires req.Create? || req.Update? || req.Delete?
  {
    && w'.wire == Call(w.wire, req).0
    && w'.store.outbox == w.store.outbox + [Entry(w.store.nextId, SECRET, req.id, op, Pending)]
  }

  ghost predicate TakenOrQueued(w: World, w': World, req: Request, op: Op)
    requires req.Create? || req.Update? || req.Delete?
  {
    Taken(w, w', req) || Queued(w, w', req, op)
  }

  /** Nothing was cached or queued. */
  ghost predicate NothingKept(w: World, w': World) {
    w'.store == w.store
  }

  lemma CreateReports(w: World, vault: VaultId, id: SecretId, kind: int, content: Content, n: Nonces)
    ensures var (w', r) := CreateTyped(w, vault, id, kind, content, n);
            if r.Ok? then
              && r.value == id && vault in w.session.open
              && var tiers := SealTiers(w.session.open[vault], vault, id, INITIAL_VERSION, content, n);
                 TakenOrQueued(w, w', Create(w.session.user, id, vault, kind, tiers), CreateOp(vault, kind, tiers))
            else NothingKept(w, w')
  {
  }

  lemma UpdateReports(w: World, vault: VaultId, id: SecretId, base: int, kind: int, content: Content, n: Nonces)
    ensures var (w', r) := UpdateTyped(w, vault, id, base, kind, content, n);
            if r == Ok(None) then
              && vault in w.session.open
              && var tiers := SealTiers(w.session.open[vault], vault, id, base + 1, content, n);
                 TakenOrQueued(w, w', Update(w.session.user, id, base, tiers), UpdateOp(vault, kind, base, tiers))
            else NothingKept(w, w')
  {
  }

  lemma DeleteReports(w: World, vault: VaultId, id: SecretId, base: int)
    ensures var (w', r) := ClientModel.DeleteSecret(w, vault, id, base);
            if r == Ok(None) then
              && id !in w'.store.secrets
              && TakenOrQueued(w, w', Delete(w.session.user, id, base), DeleteOp(vault, base))
            else NothingKept(w, w')
  {
  }

  /** What the server refuses for good is reported with its reason. */
  predicate Refused(reply: Reply) {
    reply.Fault? && !FallsBackOffline(reply.error) && !reply.error.Conflict?
  }

  lemma RefusalsAreTold(w: World, vault: VaultId, id: SecretId, base: int, kind: int, content: Content, n: Nonces)
    requires id != "" && vault != "" && vault in w.session.open && |content.index| <= MAX_ENC_INDEX_SIZE
    ensures var first := SealTiers(w.session.open[vault], vault, id, INITIAL_VERSION, content, n);
            var reply := Call(w.wire, Create(w.session.user, id, vault, kind, first)).1;
            Refused(reply) ==> CreateTyped(w, vault, id, kind, content, n).1 == Err(reply.error)
    ensures var next := SealTiers(w.session.open[vault], vault, id, base + 1, content, n);
            var reply := Call(w.wire, Update(w.session.user, id, base, next)).1;
            Refused(reply) ==> UpdateTyped(w, vault, id, base, kind, content, n).1 == Err(reply.error)
    ensures var reply := Call(w.wire, Delete(w.session.user, id, base)).1;
            Refused(reply) ==> ClientModel.DeleteSecret(w, vault, id, base).1 == Err(reply.error)
  {
  }

  /** A new vault is cached switched on and open, or nothing of it is kept. */
  lemma CreateVaultReports(w: World, vault: VaultId, key: Key)
    ensures var (w', r) := ClientModel.CreateVault(w, vault, key);
            var req := ServerModel.CreateVault(w.session.user, vault);
            if r.Ok? then
              && w'.wire.accepted == w.wire.accepted + [req]
              && vault in w'.store.vaults && vault in w'.session.open && w'.session.open[vault] == key
              && (vault !in w.store.vaults ==> w'.store.vaults[vault] == CachedVault(INITIAL_VERSION, 0, true))
            else
              NothingKept(w, w') && w'.session == w.session && r.error == Call(w.wire, req).1.error
  {
  }

  /** After locking, or in a new process, nothing is read or written before the vaults are opened again. */
  lemma LockedRefuses(w: World, vault: VaultId, id: SecretId, base: int, kind: int, content: Content, n: Nonces)
    requires vault != "" && id != ""
    ensures var locked := Lock(w);
            && CreateTyped(locked, vault, id, kind, content, n) == (locked, Err(VaultLocked))
            && UpdateTyped(locked, vault, id, base, kind, content, n) == (locked, Err(VaultLocked))
            && ClientModel.DeleteSecret(locked, vault, id, base) == (locked, Err(VaultLocked))
            && ReadPayload(locked, vault, id) == (locked, Err(VaultLocked))
            && ReadDetail(locked, vault, id) == (locked, Err(VaultLocked))
            && ReadRows(locked, vault, kind) == Err(VaultLocked)
            && locked.store == w.store && locked.wire == w.wire
  {
  }

  /** A card reports that the server refused, and shows the server's row as it was at the answer. */
  lemma CardReportsRefusal(w: World, vault: VaultId, id: SecretId, base: int, kind: int, content: Content, n: Nonces)
    ensures var (w', r) := UpdateTyped(w, vault, id, base, kind, content, n);
            r.Ok? && r.value.Some? ==>
              && w'.wire.accepted == w.wire.accepted
              && id in w'.wire.tables.secrets && r.value.value.server == Copy(w'.wire.tables, id)
              && r.value.value.mine == Some(content)
  {
    if VaultContext(w.session, vault).Ok? {
      var tiers := SealTiers(w.session.open[vault], vault, id, base + 1, content, n);
      var req := Update(w.session.user, id, base, tiers);
      var reply := Call(w.wire, req).1;
      if reply.Fault? && reply.error.Conflict? {
        ConflictIsCurrent(w.wire, req);
        ConflictIsRefused(w.wire, req);
      }
    }
  }

  lemma ConflictIsRefused(wire: Wire, req: Request)
    requires Call(wire, req).1.Fault? && Call(wire, req).1.error.Conflict?
    ensures Call(wire, req).0.accepted == wire.accepted
  {
    assert wire.accepted + [] == wire.accepted;
  }

  // ----- what was written is read -----

  lemma SealedHolds(d: Directory, id: SecretId, version: int, content: Content, n: Nonces)
    ensures var tiers := SealTiers(d.key(d.home(id)), d.home(id), id, version, content, n);
            Readable(tiers) && Texts(tiers) == content
  {
  }

  /** The row of a secret just written: all tiers, sealed for its version, dirty while the write waits. */
  ghost predicate RowWritten(
      s: Store, id: SecretId, vault: VaultId, kind: int, tiers: Tiers, version: int, dirty: bool)
  {
    id in s.secrets && s.secrets[id] == Loaded(vault, kind, tiers, version, dirty)
  }

  lemma UpdateWrites(w: World, vault: VaultId, id: SecretId, base: int, kind: int, content: Content, n: Nonces)
    requires UpdateTyped(w, vault, id, base, kind, content, n).1 == Ok(None)
    ensures var w' := UpdateTyped(w, vault, id, base, kind, content, n).0;
            && vault in w.session.open && w'.session == w.session
            && var tiers := SealTiers(w.session.open[vault], vault, id, base + 1, content, n);
               RowWritten(w'.store, id, vault, kind, tiers, base + 1, w'.store.outbox != w.store.outbox)
  {
  }

  /** After an edit, acknowledged or queued, every reader shows its content under the next version. */
  lemma UpdateIsRead(d: Directory, w: World, id: SecretId, base: int, kind: int, content: Content, n: Nonces)
    requires Inv(d, w) && Askable(d, w, id) && kind == d.kind(id)
    requires UpdateTyped(w, d.home(id), id, base, kind, content, n).1 == Ok(None)
    ensures var w' := UpdateTyped(w, d.home(id), id, base, kind, content, n).0;
            ReadsAs(w', d.home(id), kind, id, base + 1, content)
  {
    UpdateKeeps(d, w, id, base, kind, content, n);
    UpdateWrites(w, d.home(id), id, base, kind, content, n);
    SealedHolds(d, id, base + 1, content, n);
    KeptIsRead(d, UpdateTyped(w, d.home(id), id, base, kind, content, n).0, id, base + 1, content);
  }

  lemma CreateWrites(w: World, vault: VaultId, id: SecretId, kind: int, content: Content, n: Nonces)
    requires id !in w.store.secrets && CreateTyped(w, vault, id, kind, content, n).1.Ok?
    ensures var w' := CreateTyped(w, vault, id, kind, content, n).0;
            && vault in w.session.open && w'.session == w.session
            && var tiers := SealTiers(w.session.open[vault], vault, id, INITIAL_VERSION, content, n);
               RowWritten(w'.store, id, vault, kind, tiers, INITIAL_VERSION, w'.store.outbox != w.store.outbox)
  {
  }

  /** A secret is created under an identifier of its own; every reader then shows it under version 1. */
  lemma CreateIsRead(d: Directory, w: World, id: SecretId, kind: int, content: Content, n: Nonces)
    requires Inv(d, w) && Askable(d, w, id) && kind == d.kind(id) && id !in w.store.secrets
    requires CreateTyped(w, d.home(id), id, kind, content, n).1.Ok?
    ensures var w' := CreateTyped(w, d.home(id), id, kind, content, n).0;
            ReadsAs(w', d.home(id), kind, id, INITIAL_VERSION, content)
  {
    CreateKeeps(d, w, id, kind, content, n);
    CreateWrites(w, d.home(id), id, kind, content, n);
    SealedHolds(d, id, INITIAL_VERSION, content, n);
    KeptIsRead(d, CreateTyped(w, d.home(id), id, kind, content, n).0, id, INITIAL_VERSION, content);
  }

  // ----- marking a code -----

  /** What the cached row opens as; a tier that is not loaded reads null. */
  function Opened(row: CachedSecret): Content {
    PlainTexts(row.tiers)
  }

  lemma RowOpens(d: Directory, id: SecretId, row: CachedSecret)
    requires CacheOk(d, id, row)
    ensures DecryptTiers(d.key(d.home(id)), d.home(id), id, row.version, row.tiers) == Ok(Opened(row))
  {
  }

  /** What is sent when a code is marked: the row as it was, the index as far as it was loaded, the marked payload. */
  function MarkedTiers(d: Directory, id: SecretId, row: CachedSecret, marked: string, n: Nonces): Tiers {
    SealTiers(d.key(d.home(id)), d.home(id), id, row.version + 1, Opened(row).(payload := marked), n)
  }

  lemma MarkSends(d: Directory, w: World, id: SecretId, mark: string -> Option<string>, n: Nonces)
    requires Inv(d, w) && Askable(d, w, id) && id in w.store.secrets
    ensures var row := w.store.secrets[id];
            var marked := mark(Opened(row).payload);
            MarkOtpCodeUsed(w, d.home(id), id, mark, n) ==
              if marked.None? then (w, Err(OtpCodeRejected))
              else SendMarked(w, d.home(id), id, row.kind, row.version, MarkedTiers(d, id, row, marked.value, n))
  {
    RowOpens(d, id, w.store.secrets[id]);
  }

  lemma SentMarkReports(w: World, vault: VaultId, id: SecretId, kind: int, base: int, tiers: Tiers)
    requires Readable(tiers)
    ensures var (w', r) := SendMarked(w, vault, id, kind, base, tiers);
            if r.Ok? then
              && TakenOrQueued(w, w', Update(w.session.user, id, base, tiers), UpdateOp(vault, kind, base, tiers))
              && RowWritten(w'.store, id, vault, kind, tiers, base + 1, w'.store.outbox != w.store.outbox)
            else NothingKept(w, w')
  {
  }

  /**
   * Marking a code writes the marked payload, taken or queued. If the mark refuses the payload, or the write fails,
   * nothing changes.
   */
  lemma MarkReports(d: Directory, w: World, id: SecretId, mark: string -> Option<string>, n: Nonces)
    requires Inv(d, w) && Askable(d, w, id) && id in w.store.secrets
    ensures var (w', r) := MarkOtpCodeUsed(w, d.home(id), id, mark, n);
            var row := w.store.secrets[id];
            var marked := mark(Opened(row).payload);
            && (marked.None? ==> r == Err(OtpCodeRejected) && w' == w)
            && (r.Err? ==> NothingKept(w, w'))
            && (r.Ok? ==>
                  && marked.Some?
                  && var tiers := MarkedTiers(d, id, row, marked.value, n);
                     && TakenOrQueued(w, w', Update(w.session.user, id, row.version, tiers),
                                      UpdateOp(d.home(id), row.kind, row.version, tiers))
                     && RowWritten(w'.store, id, d.home(id), row.kind, tiers, row.version + 1,
                                   w'.store.outbox != w.store.outbox))
  {
    var row := w.store.secrets[id];
    MarkSends(d, w, id, mark, n);
    if mark(Opened(row).payload).Some? {
      SentMarkReports(w, d.home(id), id, row.kind, row.version,
                      MarkedTiers(d, id, row, mark(Opened(row).payload).value, n));
    }
  }

  /** The index that is written with a mark is the cached one if it was loaded, and null otherwise. */
  lemma MarkKeepsIndexIff(d: Directory, id: SecretId, row: CachedSecret, marked: string, n: Nonces, index: string)
    requires CacheOk(d, id, row)
    ensures Plain(MarkedTiers(d, id, row, marked, n).index) == index <==>
            if row.indexLoaded then Plain(row.tiers.index) == index else index == NULL_JSON
  {
  }

  /** So marking a code of a secret whose index was not loaded erases the index on the server. */
  lemma MarkErasesIndex(d: Directory, w: World, id: SecretId, mark: string -> Option<string>, n: Nonces)
    requires Inv(d, w) && Askable(d, w, id) && id in w.store.secrets && !w.store.secrets[id].indexLoaded
    requires mark(Opened(w.store.secrets[id]).payload).Some?
    requires w.wire.tape != [] && w.wire.tape[0] == Net([], Deliver)
    requires w.session.user != "" && Owns(w.wire.tables, w.session.user, id) && !w.wire.tables.secrets[id].deleted
    requires w.wire.tables.secrets[id].version == w.store.secrets[id].version
    ensures var (w', r) := MarkOtpCodeUsed(w, d.home(id), id, mark, n);
            && r == Ok(Unit) && id in w'.wire.tables.secrets
            && Plain(w'.wire.tables.secrets[id].tiers.index) == NULL_JSON
  {
    var row := w.store.secrets[id];
    var tiers := MarkedTiers(d, id, row, mark(Opened(row).payload).value, n);
    MarkSends(d, w, id, mark, n);
    MarkKeepsIndexIff(d, id, row, mark(Opened(row).payload).value, n, NULL_JSON);
    var req := Update(w.session.user, id, row.version, tiers);
    assert Accepted(w.wire.tables, req);
    AcceptedChangesOneSecret(w.wire.tables, req);
  }

  lemma MarkIsRead(d: Directory, w: World, id: SecretId, mark: string -> Option<string>, n: Nonces)
    requires Inv(d, w) && Askable(d, w, id) && id in w.store.secrets
    requires MarkOtpCodeUsed(w, d.home(id), id, mark, n).1.Ok?
    ensures var w' := MarkOtpCodeUsed(w, d.home(id), id, mark, n).0;
            var row := w.store.secrets[id];
            && mark(Opened(row).payload).Some?
            && ReadsAs(w', d.home(id), d.kind(id), id, row.version + 1,
                       Opened(row).(payload := mark(Opened(row).payload).value))
  {
    MarkReports(d, w, id, mark, n);
    MarkOtpKeeps(d, w, id, mark, n);
    var row, w' := w.store.secrets[id], MarkOtpCodeUsed(w, d.home(id), id, mark, n).0;
    var content := Opened(row).(payload := mark(Opened(row).payload).value);
    SealedHolds(d, id, row.version + 1, content, n);
    MarkKeepsSession(w, d.home(id), id, mark, n);
    KeptIsRead(d, w', id, row.version + 1, content);
  }

  lemma MarkKeepsSession(w: World, vault: VaultId, id: SecretId, mark: string -> Option<string>, n: Nonces)
    ensures MarkOtpCodeUsed(w, vault, id, mark, n).0.session == w.session
  {
  }

  // ----- the server's side of a conflict -----

  /** Taking the server's side caches the server's copy whole and clean, and the readers show what the card showed. */
  lemma ServerSideIsRead(d: Directory, w: World, c: Card)
    requires Inv(d, w) && CardOk(d, c) && Askable(d, w, c.secret)
    ensures var w' := TakeServer(w, c);
            && RowWritten(w'.store, c.secret, c.vault, c.server.kind, c.server.tiers, c.server.version, false)
            && ReadsAs(w', c.vault, c.server.kind, c.secret, c.server.version, c.theirs)
  {
    ResolveKeeps(d, w, c, ChoiceServer, Nonces(0, 0, 0));
    KeptIsRead(d, TakeServer(w, c), c.secret, c.server.version, c.theirs);
  }

  lemma ServerSideIsTaken(s: State, n: Nonces)
    requires s.card.Some? && CardFormed(s.card.value)
    ensures Step(s, DoResolve(ChoiceServer, n)).w == TakeServer(s.w, s.card.value)
  {
  }

  /** So it is with whatever conflict a run leaves on display. */
  lemma ShownServerSideIsRead(d: Directory, s: State, actions: seq<Action>, n: Nonces)
    requires Coherent(d, s) && AllPlaced(d, actions)
    ensures var end := Run(s, actions);
            end.card.Some? && Askable(d, end.w, end.card.value.secret) ==>
              var c, w' := end.card.value, Step(end, DoResolve(ChoiceServer, n)).w;
              && RowWritten(w'.store, c.secret, c.vault, c.server.kind, c.server.tiers, c.server.version, false)
              && ReadsAs(w', c.vault, c.server.kind, c.secret, c.server.version, c.theirs)
  {
    RunKeepsCoherent(d, s, actions);
    var end := Run(s, actions);
    if end.card.Some? && Askable(d, end.w, end.card.value.secret) {
      ServerSideIsTaken(end, n);
      ServerSideIsRead(d, end.w, end.card.value);
    }
  }

  // ----- binary secrets -----

  predicate Attaches(history: seq<Request>, id: SecretId) {
    && history != []
    && var last := history[|history| - 1];
       last.Attach? && last.id == id && last.base == INITIAL_VERSION
  }

  /** An upload that went through took the staged file; any other leaves it for the next try. */
  lemma UploadReports(w: World, id: SecretId, vault: VaultId)
    ensures var (w', r) := RetryBlobUpload(w, id, vault);
            && w'.store == w.store
            && w'.staged == (if r.Ok? then w.staged - {id} else w.staged)
            && (r.Ok? ==> |w'.wire.accepted| > |w.wire.accepted| && Attaches(w'.wire.accepted, id))
  {
  }

  /**
   * Once the secret is created its identifier is returned, whatever follows. If the file is staged, either its upload
   * went through, or it stays staged and its upload is the last entry of the queue.
   */
  lemma BinaryReports(w: World, vault: VaultId, id: SecretId, content: Content, n: Nonces, staging: Staging)
    ensures var (w', named, r) := CreateBinary(w, vault, id, content, n, staging);
            var (w1, created) := CreateTyped(w, vault, id, BINARY_KIND, content, n);
            && named == (if created.Ok? then Some(id) else None)
            && (created.Err? ==> r == Err(created.error) && NothingKept(w, w'))
            && (created.Ok? && !staging.Staged? ==> r == Err(StagingFailed) && w'.store == w1.store)
            && (created.Ok? && staging.Staged? ==>
                  if r.Ok? then id !in w'.staged && w'.store == w1.store
                  else id in w'.staged && w'.store == Enqueue(w1.store, id, BlobOp(vault), Pending))
  {
    CreateReports(w, vault, id, BINARY_KIND, content, n);
    var w1 := CreateTyped(w, vault, id, BINARY_KIND, content, n).0;
    UploadReports(w1.(staged := w1.staged + {id}), id, vault);
  }
}

/**
 * Every client operation as a function of the world: the server behind an unreliable wire, and one client's store.
 * Other devices act between any two calls of this client.
 */
module ClientModel {
  import opened Types
  import opened Sealing
  import opened ServerModel
  import opened S = StoreModel

  // ----- the wire -----

  type NetFault = e: Error |
    e.Unavailable? || e.InvalidCredentials? || e.NotFound? || e.Internal? || e.InvalidArgument?
    witness Unavailable

  /**
   * Deliver: the call works. LoseReply: the server serves it, but the client sees an error. Refuse: it never gets
   * there.
   */
  datatype Fate = Deliver | LoseReply(error: NetFault) | Refuse(error: NetFault)

  /** What happens at one call: the requests other devices get in before it, and its own fate. */
  datatype Net = Net(others: seq<Request>, fate: Fate)

  /**
   * tape lists what will happen at the calls to come; accepted is the history of this client's accepted transactions.
   */
  datatype Wire = Wire(tables: Tables, tape: seq<Net>, accepted: seq<Request>)

  /** A call that finds the tables as other devices left them. */
  function Answer(before: Tables, fate: Fate, tape: seq<Net>, accepted: seq<Request>, req: Request): (Wire, Reply) {
    var (after, reply) := Exec(before, req);
    var history := accepted + if Accepted(before, req) then [req] else [];
    match fate
    case Deliver => (Wire(after, tape, history), reply)
    case LoseReply(error) => (Wire(after, tape, history), Fault(error))
    case Refuse(error) => (Wire(before, tape, accepted), Fault(error))
  }

  /** With no more calls on the tape the network stays down. */
  function Call(w: Wire, req: Request): (Wire, Reply) {
    if w.tape == [] then (w, Fault(Unavailable))
    else Answer(RunAll(w.tables, w.tape[0].others), w.tape[0].fate, w.tape[1..], w.accepted, req)
  }

  // ----- the world -----

  datatype Session = Session(user: UserId, open: map<VaultId, Key>)

  datatype World = World(wire: Wire, store: Store, session: Session, staged: set<SecretId>)

  function VaultContext(s: Session, vault: VaultId): Result<Key> {
    if vault == "" then Err(EmptyVaultId)
    else if vault in s.open then Ok(s.open[vault])
    else Err(VaultLocked)
  }

  predicate FallsBackOffline(e: Error) { e.Unavailable? || e.InvalidCredentials? }

  predicate IsOffline(e: Error) { e.Unavailable? }

  // ----- conflict cards -----

  /** How the user's own version is written again on top of the server's. */
  datatype Retry =
    | AgainUpdate(kind: int, content: Content)
    | AgainDelete
    | AgainOutboxUpdate(entry: nat, op: Op)
    | AgainOutboxDelete(entry: nat)

  datatype Card = Card(
    secret: SecretId, vault: VaultId, mine: Option<Content>, theirs: Content, server: ServerSecret, retry: Retry)

  datatype Choice = ChoiceMine | ChoiceServer

  function BuildCard(key: Key, vault: VaultId, id: SecretId, mine: Option<Content>, server: ServerSecret, retry: Retry)
    : Result<Option<Card>>
  {
    match DecryptTiers(key, vault, id, server.version, server.tiers)
    case Ok(theirs) => Ok(Some(Card(id, vault, mine, theirs, server, retry)))
    case Err(e) => Err(e)
  }

  // ----- cache helpers -----

  function CacheFull(s: Store, id: SecretId, vault: VaultId, kind: int, tiers: Tiers, version: int, dirty: bool)
    : Store
  {
    var s1 := UpsertSecretRow(s, id, Loaded(vault, kind, tiers, version, dirty));
    var s2 := if tiers.index.Sealed? then SetSecretIndex(s1, id, tiers.index, version) else s1;
    if tiers.payload.Sealed? then SetSecretPayload(s2, id, tiers.payload, version) else s2
  }

  function CreateOffline(s: Store, id: SecretId, vault: VaultId, kind: int, tiers: Tiers): Store {
    Enqueue(UpsertSecretRow(s, id, Loaded(vault, kind, tiers, INITIAL_VERSION, true)), id,
            CreateOp(vault, kind, tiers), Pending)
  }

  function UpdateOffline(s: Store, id: SecretId, vault: VaultId, kind: int, base: int, tiers: Tiers): Store {
    Enqueue(CacheFull(s, id, vault, kind, tiers, base + 1, true), id, UpdateOp(vault, kind, base, tiers), Pending)
  }

  function DeleteOffline(s: Store, id: SecretId, vault: VaultId, base: int): Store {
    S.DeleteSecret(Enqueue(s, id, DeleteOp(vault, base), Pending), id)
  }

  // ----- vault keys in memory -----

  /** Listing the vaults unwraps their keys into the session. */
  function OpenVault(w: World, vault: VaultId, key: Key): World {
    w.(session := w.session.(open := w.session.open[vault := key]))
  }

  /** A vault as it is listed to the user; its name is not modelled. */
  datatype ListedVault = ListedVault(id: VaultId, version: int, syncEnabled: bool)

  /** keys holds the vaults whose keys unwrap; the others are skipped. */
  function ListInto(w: World, items: seq<VaultVersion>, keys: map<VaultId, Key>): (World, seq<ListedVault>)
    decreases |items|
  {
    if items == [] then (w, [])
    else if items[0].id !in keys then ListInto(w, items[1..], keys)
    else
      var (id, version) := (items[0].id, items[0].version);
      var w1 := OpenVault(w, id, keys[id]).(store := UpsertVault(w.store, id, CachedVault(version, 0, false)));
      var (w2, rest) := ListInto(w1, items[1..], keys);
      (w2, [ListedVault(id, version, w1.store.vaults[id].syncEnabled)] + rest)
  }

  /** Cached vaults that the server did not list go, and the user's switch with them; their secrets stay. */
  function Prune(s: Store, seen: set<VaultId>): Store {
    s.(vaults := map v | v in s.vaults && v in seen :: s.vaults[v])
  }

  function Ids(items: seq<VaultVersion>): set<VaultId> {
    set it | it in items :: it.id
  }

  function ListAndOpen(w: World, keys: map<VaultId, Key>): (World, Result<seq<ListedVault>>) {
    var (wire, reply) := Call(w.wire, ListVaults(w.session.user));
    if !reply.Vaults? then (w.(wire := wire), Err(if reply.Fault? then reply.error else Internal))
    else
      var (w1, shown) := ListInto(w.(wire := wire), reply.vaults, keys);
      (w1.(store := Prune(w1.store, Ids(reply.vaults))), Ok(shown))
  }

  /** Locking, or a new process, forgets every vault key; cache and outbox stay. */
  function Lock(w: World): World {
    w.(session := w.session.(open := map[]))
  }

  // ----- create, update, delete -----

  /** The server draws the vault's identifier. */
  function CreateVault(w: World, vault: VaultId, key: Key): (World, Result<Unit>) {
    var (wire, reply) := Call(w.wire, ServerModel.CreateVault(w.session.user, vault));
    if reply.Fault? then (w.(wire := wire), Err(reply.error))
    else
      (w.(wire := wire,
          store := UpsertVault(w.store, vault, CachedVault(INITIAL_VERSION, 0, true)),
          session := w.session.(open := w.session.open[vault := key])), Ok(Unit))
  }

  function CreateTyped(w: World, vault: VaultId, id: SecretId, kind: int, content: Content, n: Nonces)
    : (World, Result<SecretId>)
  {
    match VaultContext(w.session, vault)
    case Err(e) => (w, Err(e))
    case Ok(key) =>
      match EncryptTiers(key, vault, id, INITIAL_VERSION, content, n)
      case Err(e) => (w, Err(e))
      case Ok(tiers) =>
        SendCreate(w, vault, id, kind, tiers)
  }

  function SendCreate(w: World, vault: VaultId, id: SecretId, kind: int, tiers: Tiers): (World, Result<SecretId>) {
    var (wire, reply) := Call(w.wire, Create(w.session.user, id, vault, kind, tiers));
    if reply.Fault? then
      if FallsBackOffline(reply.error)
      then (w.(wire := wire, store := CreateOffline(w.store, id, vault, kind, tiers)), Ok(id))
      else (w.(wire := wire), Err(reply.error))
    else
      var row := Loaded(vault, kind, tiers, INITIAL_VERSION, false);
      (w.(wire := wire, store := UpsertSecretRow(w.store, id, row)), Ok(id))
  }

  function UpdateTyped(w: World, vault: VaultId, id: SecretId, base: int, kind: int, content: Content, n: Nonces)
    : (World, Result<Option<Card>>)
  {
    match VaultContext(w.session, vault)
    case Err(e) => (w, Err(e))
    case Ok(key) =>
      match EncryptTiers(key, vault, id, base + 1, content, n)
      case Err(e) => (w, Err(e))
      case Ok(tiers) =>
        SendUpdate(w, key, vault, id, base, kind, content, tiers)
  }

  function SendUpdate(
      w: World, key: Key, vault: VaultId, id: SecretId, base: int, kind: int, content: Content, tiers: Tiers)
    : (World, Result<Option<Card>>)
  {
    var (wire, reply) := Call(w.wire, Update(w.session.user, id, base, tiers));
    if reply.Fault? then
      if reply.error.Conflict? then
        (w.(wire := wire), BuildCard(key, vault, id, Some(content), reply.error.server, AgainUpdate(kind, content)))
      else if FallsBackOffline(reply.error) then
        (w.(wire := wire, store := UpdateOffline(w.store, id, vault, kind, base, tiers)), Ok(None))
      else (w.(wire := wire), Err(reply.error))
    else
      (w.(wire := wire, store := CacheFull(w.store, id, vault, kind, tiers, base + 1, false)), Ok(None))
  }

  function DeleteSecret(w: World, vault: VaultId, id: SecretId, base: int): (World, Result<Option<Card>>) {
    if id == "" then (w, Err(EmptySecretId))
    else match VaultContext(w.session, vault)
    case Err(e) => (w, Err(e))
    case Ok(key) => SendDelete(w, key, vault, id, base)
  }

  function SendDelete(w: World, key: Key, vault: VaultId, id: SecretId, base: int): (World, Result<Option<Card>>) {
    var (wire, reply) := Call(w.wire, Delete(w.session.user, id, base));
    if reply.Fault? then
      if reply.error.Conflict? then
        (w.(wire := wire), BuildCard(key, vault, id, None, reply.error.server, AgainDelete))
      else if FallsBackOffline(reply.error) then
        (w.(wire := wire, store := DeleteOffline(w.store, id, vault, base)), Ok(None))
      else (w.(wire := wire), Err(reply.error))
    else
      (w.(wire := wire, store := S.DeleteSecret(w.store, id)), Ok(None))
  }

  /** mark rewrites the payload, or refuses when the code is not there. */
  function MarkOtpCodeUsed(w: World, vault: VaultId, id: SecretId, mark: string -> Option<string>, n: Nonces)
    : (World, Result<Unit>)
  {
    if id == "" then (w, Err(EmptySecretId))
    else match VaultContext(w.session, vault)
    case Err(e) => (w, Err(e))
    case Ok(key) =>
      if id !in w.store.secrets then (w, Err(SecretNotCached))
      else Remark(w, key, vault, id, w.store.secrets[id], mark, n)
  }

  function Remark(
      w: World, key: Key, vault: VaultId, id: SecretId, local: CachedSecret, mark: string -> Option<string>, n: Nonces)
    : (World, Result<Unit>)
  {
    match DecryptTiers(key, vault, id, local.version, local.tiers)
    case Err(e) => (w, Err(e))
    case Ok(content) =>
      match mark(content.payload)
      case None => (w, Err(OtpCodeRejected))
      case Some(marked) =>
        SendMarked(w, vault, id, local.kind, local.version, Marked(key, vault, id, local.version, content, marked, n))
  }

  /** All three tiers are re-sealed; an index that was not loaded becomes null. */
  function Marked(key: Key, vault: VaultId, id: SecretId, base: int, content: Content, marked: string, n: Nonces)
    : Tiers
  {
    SealTiers(key, vault, id, base + 1, content.(payload := marked), n)
  }

  /** Unlike an edit, this falls back offline only on an outage, and reports a conflict as an error. */
  function SendMarked(w: World, vault: VaultId, id: SecretId, kind: int, base: int, tiers: Tiers)
    : (World, Result<Unit>)
  {
    var (wire, reply) := Call(w.wire, Update(w.session.user, id, base, tiers));
    if reply.Fault? then
      if IsOffline(reply.error)
      then (w.(wire := wire, store := UpdateOffline(w.store, id, vault, kind, base, tiers)), Ok(Unit))
      else (w.(wire := wire), Err(reply.error))
    else
      (w.(wire := wire, store := CacheFull(w.store, id, vault, kind, tiers, base + 1, false)), Ok(Unit))
  }

  // ----- binary secrets: the metadata side -----

  function RetryBlobUpload(w: World, id: SecretId, vault: VaultId): (World, Result<Unit>) {
    if id !in w.staged then (w, Err(NothingStaged))
    else match VaultContext(w.session, vault)
    case Err(e) => (w, Err(e))
    case Ok(_) =>
      var (wire1, uploaded) := Call(w.wire, Upload(w.session.user, id));
      if uploaded.Fault? then (w.(wire := wire1), Err(uploaded.error))
      else if !uploaded.Uploaded? then (w.(wire := wire1), Err(Internal))
      else
        var (wire2, attached) := Call(wire1, Attach(w.session.user, id, INITIAL_VERSION, uploaded.blobRef));
        if attached.Fault? then (w.(wire := wire2), Err(attached.error))
        else (w.(wire := wire2, staged := w.staged - {id}), Ok(Unit))
  }

  /** What becomes of the copy of the file that is put aside, and of opening that copy. */
  datatype Staging = Staged | CopyFails | OpenFails

  /**
   * The secret may exist although an error is returned: then its identifier comes with the error, and without a
   * staged file nothing is queued either.
   */
  function CreateBinary(w: World, vault: VaultId, id: SecretId, content: Content, n: Nonces, staging: Staging)
    : (World, Option<SecretId>, Result<Unit>)
  {
    var (w1, created) := CreateTyped(w, vault, id, BINARY_KIND, content, n);
    if created.Err? then (w1, None, Err(created.error))
    else if staging.CopyFails? then (w1, Some(id), Err(StagingFailed))
    else
      var w2 := w1.(staged := w1.staged + {id});
      if staging.OpenFails? then (w2, Some(id), Err(StagingFailed))
      else
        var (w3, sent) := RetryBlobUpload(w2, id, vault);
        match sent
        case Ok(_) => (w3, Some(id), Ok(Unit))
        case Err(e) => (w3.(store := Enqueue(w3.store, id, BlobOp(vault), Pending)), Some(id), Err(e))
  }

  // ----- replay of the outbox -----

  function ReplayConflict(w: World, entry: nat, e: Error): (World, Result<bool>) {
    if e.Conflict? then
      match SetOutboxStatus(w.store, entry, InConflict)
      case Ok(store) => (w.(store := store), Ok(false))
      case Err(missing) => (w, Err(missing))
    else (w, Err(e))
  }

  function ReplayCreate(w: World, id: SecretId, vault: VaultId, kind: int, tiers: Tiers): (World, Result<bool>) {
    var (wire, reply) := Call(w.wire, Create(w.session.user, id, vault, kind, tiers));
    if reply.Fault? then (w.(wire := wire), Err(reply.error))
    else
      var row := Loaded(vault, kind, tiers, INITIAL_VERSION, false);
      (w.(wire := wire, store := UpsertSecretRow(w.store, id, row)), Ok(true))
  }

  function ReplayUpdate(w: World, entry: nat, id: SecretId, p: Op): (World, Result<bool>)
    requires p.UpdateOp?
  {
    var (wire, reply) := Call(w.wire, Update(w.session.user, id, p.base, p.tiers));
    if reply.Fault? then ReplayConflict(w.(wire := wire), entry, reply.error)
    else
      var row := Loaded(p.vault, p.kind, p.tiers, p.base + 1, false);
      (w.(wire := wire, store := UpsertSecretRow(w.store, id, row)), Ok(true))
  }

  function ReplayDelete(w: World, entry: nat, id: SecretId, base: int): (World, Result<bool>) {
    var (wire, reply) := Call(w.wire, Delete(w.session.user, id, base));
    if reply.Fault? then ReplayConflict(w.(wire := wire), entry, reply.error)
    else (w.(wire := wire, store := S.DeleteSecret(w.store, id)), Ok(true))
  }

  function ReplayBlobUpload(w: World, id: SecretId, vault: VaultId): (World, Result<bool>) {
    var (w1, sent) := RetryBlobUpload(w, id, vault);
    match sent
    case Ok(_) => (w1, Ok(true))
    case Err(error) => (w1, if IsOffline(error) then Ok(false) else Err(error))
  }

  /** Ok(true): done, to be removed. Ok(false): left in the queue. */
  function ReplayEntry(w: World, e: Entry): (World, Result<bool>) {
    match e.op
    case CreateOp(vault, kind, tiers) => ReplayCreate(w, e.entityId, vault, kind, tiers)
    case UpdateOp(_, _, _, _) => ReplayUpdate(w, e.id, e.entityId, e.op)
    case DeleteOp(_, base) => ReplayDelete(w, e.id, e.entityId, base)
    case BlobOp(vault) => ReplayBlobUpload(w, e.entityId, vault)
  }

  /** One turn of the loop: the entry is played, and removed once it is done. */
  function ReplayTurn(w: World, e: Entry): (World, Result<bool>) {
    var (w1, done) := ReplayEntry(w, e);
    (if done == Ok(true) then w1.(store := RemoveOutbox(w1.store, e.id)) else w1, done)
  }

  function ReplayAll(w: World, entries: seq<Entry>): (World, Result<Unit>)
    decreases |entries|
  {
    if entries == [] then (w, Ok(Unit))
    else if entries[0].entity != SECRET then ReplayAll(w, entries[1..])
    else
      var (w1, done) := ReplayTurn(w, entries[0]);
      match done
      case Err(e) => (w1, if IsOffline(e) then Ok(Unit) else Err(e))
      case Ok(_) => ReplayAll(w1, entries[1..])
  }

  function ReplayOutbox(w: World): (World, Result<Unit>) {
    ReplayAll(w, ByStatus(w.store.outbox, Pending))
  }

  // ----- resolving conflicts -----

  function ConflictFromOutboxUpdate(w: World, e: Entry): (World, Result<Option<Card>>)
    requires e.op.UpdateOp?
  {
    var p := e.op;
    match VaultContext(w.session, p.vault)
    case Err(error) => (w, Err(error))
    case Ok(key) =>
      match DecryptTiers(key, p.vault, e.entityId, p.base + 1, p.tiers)
      case Err(error) => (w, Err(error))
      case Ok(mine) => ProbeUpdate(w, key, e, mine)
  }

  /** The queued update was taken: its entry goes and its tiers are cached. */
  function Probed(s: Store, e: Entry): Store
    requires e.op.UpdateOp?
  {
    var p := e.op;
    CacheFull(RemoveOutbox(s, e.id), e.entityId, p.vault, p.kind, p.tiers, p.base + 1, false)
  }

  /** The queued request itself is sent again, for the server's copy that comes with the conflict. */
  function ProbeUpdate(w: World, key: Key, e: Entry, mine: Content): (World, Result<Option<Card>>)
    requires e.op.UpdateOp?
  {
    var id, p := e.entityId, e.op;
    var (wire, reply) := Call(w.wire, Update(w.session.user, id, p.base, p.tiers));
    if reply.Fault? then
      if reply.error.Conflict? then
        (w.(wire := wire), BuildCard(key, p.vault, id, Some(mine), reply.error.server, AgainOutboxUpdate(e.id, p)))
      else (w.(wire := wire), Err(reply.error))
    else (w.(wire := wire, store := Probed(w.store, e)), Ok(None))
  }

  function ConflictFromOutboxDelete(w: World, e: Entry): (World, Result<Option<Card>>)
    requires e.op.DeleteOp?
  {
    match VaultContext(w.session, e.op.vault)
    case Err(error) => (w, Err(error))
    case Ok(key) => ProbeDelete(w, key, e)
  }

  function ProbeDelete(w: World, key: Key, e: Entry): (World, Result<Option<Card>>)
    requires e.op.DeleteOp?
  {
    var (wire, reply) := Call(w.wire, Delete(w.session.user, e.entityId, e.op.base));
    if reply.Fault? then
      if reply.error.Conflict? then
        (w.(wire := wire),
         BuildCard(key, e.op.vault, e.entityId, None, reply.error.server, AgainOutboxDelete(e.id)))
      else (w.(wire := wire), Err(reply.error))
    else
      (w.(wire := wire, store := S.DeleteSecret(RemoveOutbox(w.store, e.id), e.entityId)), Ok(None))
  }

  function ConflictFromEntry(w: World, e: Entry): (World, Result<Option<Card>>) {
    match e.op
    case UpdateOp(_, _, _, _) => ConflictFromOutboxUpdate(w, e)
    case DeleteOp(_, _) => ConflictFromOutboxDelete(w, e)
    case _ => (w, Err(EntryNotFound))
  }

  function ConflictFromOutbox(w: World, entry: nat): (World, Result<Option<Card>>) {
    var found := Find(w.store.outbox, entry);
    if found.None? || found.value.entity != SECRET then (w, Err(EntryNotFound))
    else ConflictFromEntry(w, found.value)
  }

  /** The tiers of a queued update, opened under the version they were sealed for and sealed for the new one. */
  function Reseal(s: Session, id: SecretId, p: Op, base: int, n: Nonces): Result<Tiers>
    requires p.UpdateOp?
  {
    match VaultContext(s, p.vault)
    case Err(error) => Err(error)
    case Ok(key) =>
      match DecryptTiers(key, p.vault, id, p.base + 1, p.tiers)
      case Err(error) => Err(error)
      case Ok(content) => EncryptTiers(key, p.vault, id, base + 1, content, n)
  }

  /** The entry is written again, re-sealed; after another conflict it is re-queued with the new base and tiers. */
  function RetryOutboxUpdate(w: World, entry: nat, id: SecretId, p: Op, base: int, n: Nonces)
    : (World, Result<Option<Card>>)
    requires p.UpdateOp?
  {
    match Reseal(w.session, id, p, base, n)
    case Err(error) => (w, Err(error))
    case Ok(tiers) => SendAgain(w, entry, id, p, base, tiers)
  }

  /** The entry is replaced by one at the end of the queue, since its payload cannot be changed in place. */
  function Requeue(s: Store, entry: nat, id: SecretId, op: Op): Result<Store> {
    match SetOutboxStatus(s, entry, InConflict)
    case Err(error) => Err(error)
    case Ok(marked) => Ok(Enqueue(RemoveOutbox(marked, entry), id, op, InConflict))
  }

  function SendAgain(w: World, entry: nat, id: SecretId, p: Op, base: int, tiers: Tiers): (World, Result<Option<Card>>)
    requires p.UpdateOp?
  {
    var (wire, reply) := Call(w.wire, Update(w.session.user, id, base, tiers));
    var w1 := w.(wire := wire);
    if reply.Fault? then
      if reply.error.Conflict? then
        match Requeue(w1.store, entry, id, p.(base := base, tiers := tiers))
        case Err(error) => (w1, Err(error))
        case Ok(store) => ConflictFromOutbox(w1.(store := store), w1.store.nextId)
      else (w1, Err(reply.error))
    else
      var store := CacheFull(RemoveOutbox(w1.store, entry), id, p.vault, p.kind, tiers, base + 1, false);
      (w1.(store := store), Ok(None))
  }

  function RetryOutboxDelete(w: World, entry: nat, vault: VaultId, id: SecretId, base: int)
    : (World, Result<Option<Card>>)
  {
    var (w1, outcome) := DeleteSecret(w, vault, id, base);
    if outcome.Ok? && outcome.value.None?
    then (w1.(store := RemoveOutbox(w1.store, entry)), outcome)
    else (w1, outcome)
  }

  predicate CardFormed(c: Card) {
    c.retry.AgainOutboxUpdate? ==> c.retry.op.UpdateOp?
  }

  function RetryMine(w: World, c: Card, n: Nonces): (World, Result<Option<Card>>)
    requires CardFormed(c)
  {
    match c.retry
    case AgainUpdate(kind, content) => UpdateTyped(w, c.vault, c.secret, c.server.version, kind, content, n)
    case AgainDelete => DeleteSecret(w, c.vault, c.secret, c.server.version)
    case AgainOutboxUpdate(entry, op) => RetryOutboxUpdate(w, entry, c.secret, op, c.server.version, n)
    case AgainOutboxDelete(entry) => RetryOutboxDelete(w, entry, c.vault, c.secret, c.server.version)
  }

  function TakeServer(w: World, c: Card): World {
    w.(store := CacheFull(w.store, c.secret, c.vault, c.server.kind, c.server.tiers, c.server.version, false))
  }

  function Resolve(w: World, c: Card, choice: Choice, n: Nonces): (World, Result<Option<Card>>)
    requires CardFormed(c)
  {
    match choice
    case ChoiceMine => RetryMine(w, c, n)
    case ChoiceServer => (TakeServer(w, c), Ok(None))
  }

  // ----- lazy tiers -----

  function FillIndexes(s: Store, items: seq<IndexItem>): Store
    decreases |items|
  {
    if items == [] then s
    else
      var it := items[0];
      var skip := it.id !in s.secrets || s.secrets[it.id].dirty || s.secrets[it.id].indexLoaded;
      FillIndexes(if skip then s else SetSecretIndex(s, it.id, it.encIndex, it.version), items[1..])
  }

  function LoadIndexes(w: World, vault: VaultId): (World, Result<Unit>) {
    if vault == "" then (w, Err(EmptyVaultId))
    else
      var (wire, reply) := Call(w.wire, ListIndex(w.session.user, vault));
      var w1 := w.(wire := wire);
      if reply.Indexes? then (w1.(store := FillIndexes(w1.store, reply.indexes)), Ok(Unit))
      else (w1, Err(if reply.Fault? then reply.error else Internal))
  }

  /** The sealed payload with the version it was sealed under, from the cache or else from the server. */
  function PayloadCiphertext(w: World, id: SecretId): (World, Result<(Blob, int)>) {
    if id in w.store.secrets && w.store.secrets[id].payloadLoaded then
      (w, Ok((w.store.secrets[id].tiers.payload, w.store.secrets[id].version)))
    else
      var (wire, reply) := Call(w.wire, GetPayload(w.session.user, id));
      var w1 := w.(wire := wire);
      if reply.Payload? then
        var store := if id in w.store.secrets
                     then SetSecretPayload(w.store, id, reply.encPayload, reply.version) else w.store;
        (w1.(store := store), Ok((reply.encPayload, reply.version)))
      else (w1, Err(if reply.Fault? then reply.error else Internal))
  }

  function ReadPayload(w: World, vault: VaultId, id: SecretId): (World, Result<(int, string)>) {
    if id == "" then (w, Err(EmptySecretId))
    else match VaultContext(w.session, vault)
    case Err(e) => (w, Err(e))
    case Ok(key) =>
      var (w1, got) := PayloadCiphertext(w, id);
      match got
      case Err(e) => (w1, Err(e))
      case Ok((blob, version)) =>
        match Open(key, Aad(vault, id, version, PayloadTier), blob)
        case Err(e) => (w1, Err(e))
        case Ok(text) => (w1, Ok((version, text)))
  }

  datatype Detail = Detail(version: int, payload: string, row: Option<string>, index: Option<string>)

  function ReadDetail(w: World, vault: VaultId, id: SecretId): (World, Result<Detail>) {
    if vault !in w.session.open then (w, Err(VaultLocked))
    else
      var key := w.session.open[vault];
      var (w1, read) := ReadPayload(w, vault, id);
      if read.Err? then (w1, Err(read.error))
      else
        var detail := Detail(read.value.0, read.value.1, None, None);
        if id !in w1.store.secrets then (w1, Ok(detail))
        else
          var local := w1.store.secrets[id];
          match Open(key, Aad(vault, id, local.version, RowTier), local.tiers.row)
          case Err(e) => (w1, Err(e))
          case Ok(row) =>
            var w2 := if local.indexLoaded then w1 else LoadIndexes(w1, vault).0;
            if id in w2.store.secrets && w2.store.secrets[id].indexLoaded &&
               w2.store.secrets[id].tiers.index.Sealed? then
              var now := w2.store.secrets[id];
              match Open(key, Aad(vault, id, now.version, IndexTier), now.tiers.index)
              case Err(e) => (w2, Err(e))
              case Ok(index) => (w2, Ok(detail.(row := Some(row), index := Some(index))))
            else (w2, Ok(detail.(row := Some(row))))
  }

  predicate Listed(s: Store, vault: VaultId, kind: int, id: SecretId) {
    id in s.secrets && s.secrets[id].vault == vault && s.secrets[id].kind == kind
  }

  function OpenRow(w: World, key: Key, vault: VaultId, id: SecretId): Result<string>
    requires id in w.store.secrets
  {
    Open(key, Aad(vault, id, w.store.secrets[id].version, RowTier), w.store.secrets[id].tiers.row)
  }

  /** The rows of one kind in a vault; one row that does not open fails the whole list. */
  function ReadRows(w: World, vault: VaultId, kind: int): Result<map<SecretId, (int, string)>> {
    match VaultContext(w.session, vault)
    case Err(e) => Err(e)
    case Ok(key) =>
      if exists id :: id in w.store.secrets && Listed(w.store, vault, kind, id) && OpenRow(w, key, vault, id).Err?
      then Err(DecryptFailed)
      else Ok(map id | id in w.store.secrets && Listed(w.store, vault, kind, id)
                  :: (w.store.secrets[id].version, OpenRow(w, key, vault, id).value))
  }

  // ----- pull -----

  function UpsertVaults(s: Store, items: seq<VaultVersion>): Store
    decreases |items|
  {
    if items == [] then s
    else UpsertVaults(UpsertVault(s, items[0].id, CachedVault(items[0].version, 0, false)), items[1..])
  }

  function RefreshVaultMeta(w: World): (World, Result<Unit>) {
    var (wire, reply) := Call(w.wire, ListVaults(w.session.user));
    var w1 := w.(wire := wire);
    if reply.Vaults? then (w1.(store := UpsertVaults(w1.store, reply.vaults)), Ok(Unit))
    else (w1, Err(if reply.Fault? then reply.error else Internal))
  }

  function UpsertRows(s: Store, vault: VaultId, rows: seq<RowItem>, keep: set<SecretId>): Store
    decreases |rows|
  {
    if rows == [] then s
    else
      var r := rows[0];
      var row := CachedSecret(vault, r.kind, Tiers(r.encRow, Empty, Empty), r.version, false, false, false);
      UpsertRows(if r.id in keep then s else UpsertSecretRow(s, r.id, row), vault, rows[1..], keep)
  }

  function PullVaultRows(w: World, vault: VaultId, version: int): (World, Result<Unit>) {
    var (wire, reply) := Call(w.wire, ListRows(w.session.user, vault));
    var w1 := w.(wire := wire);
    if reply.Rows? then
      var store := UpsertRows(w1.store, vault, reply.rows, Outstanding(w1.store.outbox));
      (w1.(store := SetSyncedVersion(store, vault, version)), Ok(Unit))
    else (w1, Err(if reply.Fault? then reply.error else Internal))
  }

  /** The vault is not switched off and its version moved since its last pull. */
  predicate NeedsPull(local: map<VaultId, CachedVault>, fv: VaultVersion) {
    fv.id in local ==> local[fv.id].syncEnabled && local[fv.id].syncedVersion < fv.version
  }

  function PullStale(w: World, versions: seq<VaultVersion>, local: map<VaultId, CachedVault>): (World, Result<Unit>)
    decreases |versions|
  {
    if versions == [] then (w, Ok(Unit))
    else if !NeedsPull(local, versions[0]) then PullStale(w, versions[1..], local)
    else
      var (w1, pulled) := PullVaultRows(w, versions[0].id, versions[0].version);
      if pulled.Err? then (w1, pulled) else PullStale(w1, versions[1..], local)
  }

  predicate NeedsVaultMeta(versions: seq<VaultVersion>, local: map<VaultId, CachedVault>) {
    exists i :: 0 <= i < |versions| && versions[i].id !in local
  }

  /** Freshness first, then metadata of unknown vaults: what Sync and SyncWithProgress begin with. */
  function Prepare(w: World): (World, Result<seq<VaultVersion>>) {
    var (wire, reply) := Call(w.wire, CheckFreshness(w.session.user));
    var w1 := w.(wire := wire);
    if !reply.Vaults? then (w1, Err(if reply.Fault? then reply.error else Internal))
    else if !NeedsVaultMeta(reply.vaults, w1.store.vaults) then (w1, Ok(reply.vaults))
    else
      var (w2, refreshed) := RefreshVaultMeta(w1);
      (w2, if refreshed.Err? then Err(refreshed.error) else Ok(reply.vaults))
  }

  function Sync(w: World): (World, Result<Unit>) {
    var (w1, prepared) := Prepare(w);
    SyncFrom(w1, prepared)
  }

  function SyncFrom(w: World, prepared: Result<seq<VaultVersion>>): (World, Result<Unit>) {
    if prepared.Err? then (w, Err(prepared.error)) else PullStale(w, prepared.value, w.store.vaults)
  }

  // ----- staged pull -----

  function ToSync(versions: seq<VaultVersion>, local: map<VaultId, CachedVault>): seq<VaultVersion> {
    if versions == [] then []
    else (if NeedsPull(local, versions[0]) then [versions[0]] else []) + ToSync(versions[1..], local)
  }

  function PullEach(w: World, toSync: seq<VaultVersion>): (World, Result<Unit>)
    decreases |toSync|
  {
    if toSync == [] then (w, Ok(Unit))
    else
      var (w1, pulled) := PullVaultRows(w, toSync[0].id, toSync[0].version);
      if pulled.Err? then (w1, pulled) else PullEach(w1, toSync[1..])
  }

  /** Failures to load an index are ignored. */
  function LoadEach(w: World, toSync: seq<VaultVersion>): World
    decreases |toSync|
  {
    if toSync == [] then w else LoadEach(LoadIndexes(w, toSync[0].id).0, toSync[1..])
  }

  function SyncWithProgress(w: World): (World, Result<Unit>) {
    var (w1, prepared) := Prepare(w);
    StagedFrom(w1, prepared)
  }

  function StagedFrom(w: World, prepared: Result<seq<VaultVersion>>): (World, Result<Unit>) {
    if prepared.Err? then (w, Err(prepared.error))
    else
      var toSync := ToSync(prepared.value, w.store.vaults);
      var (w1, pulled) := PullEach(w, toSync);
      if pulled.Err? then (w1, pulled) else (LoadEach(w1, toSync), Ok(Unit))
  }
}

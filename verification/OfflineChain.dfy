/**
 * A secret edited offline any number of times, and by nobody else: a replay that runs to its end drains its entries
 * without a conflict, and leaves server and cache at the last edit.
 */
module OfflineChain {
  import opened Types
  import opened Sealing
  import opened ServerModel
  import opened S = StoreModel
  import opened StoreLaws
  import opened ClientModel
  import opened ReplayLaws

  // ----- what the queued operations of one secret lead to -----

  datatype Tip = Absent | At(version: int, tiers: Tiers) | Erased(version: int)

  function Version(tip: Tip): int {
    match tip
    case Absent => 0
    case At(version, _) => version
    case Erased(version) => version
  }

  /** The operation was built on this very tip. */
  function After(tip: Tip, op: Op): Option<Tip> {
    match op
    case CreateOp(_, _, tiers) => if tip.Absent? then Some(At(INITIAL_VERSION, tiers)) else None
    case UpdateOp(_, _, base, tiers) => if tip.At? && tip.version == base then Some(At(base + 1, tiers)) else None
    case DeleteOp(_, base) => if tip.At? && tip.version == base then Some(Erased(base + 1)) else None
    case BlobOp(_) => None
  }

  /** Each operation was built on the outcome of the one before it. */
  function TipOf(tip: Tip, ops: seq<Op>): Option<Tip>
    decreases |ops|
  {
    if ops == [] then Some(tip)
    else match After(tip, ops[0])
    case None => None
    case Some(next) => TipOf(next, ops[1..])
  }

  function ServerTip(t: Tables, id: SecretId): Tip {
    if id !in t.secrets then Absent
    else if t.secrets[id].deleted then Erased(t.secrets[id].version)
    else At(t.secrets[id].version, t.secrets[id].tiers)
  }

  function OpsOf(entries: seq<Entry>, id: SecretId): seq<Op> {
    if entries == [] then []
    else if entries[0].entityId == id then [entries[0].op] + OpsOf(entries[1..], id)
    else OpsOf(entries[1..], id)
  }

  /** Every entry of the secret waits to be replayed. */
  ghost predicate AllWaiting(entries: seq<Entry>, id: SecretId) {
    forall e :: e in entries && e.entityId == id ==> e.entity == SECRET && e.status == Pending
  }

  /** The cache shows the tip: the version and row of a live secret, clean, or nothing of a deleted one. */
  ghost predicate Mirrors(s: Store, id: SecretId, tip: Tip) {
    match tip
    case Absent => true
    case Erased(_) => id !in s.secrets
    case At(version, tiers) =>
      id in s.secrets && s.secrets[id].version == version
      && s.secrets[id].tiers.row == tiers.row && !s.secrets[id].dirty
  }

  lemma {:induction false} TipOfAppend(tip: Tip, ops: seq<Op>, op: Op)
    requires TipOf(tip, ops).Some?
    ensures TipOf(tip, ops + [op]) == After(TipOf(tip, ops).value, op)
    decreases |ops|
  {
    if ops == [] {
      assert [op][1..] == [];
      assert ops + [op] == [op];
    } else {
      assert (ops + [op])[1..] == ops[1..] + [op];
      TipOfAppend(After(tip, ops[0]).value, ops[1..], op);
    }
  }

  /** The last operation is what the tip holds. */
  lemma {:induction false} LastOpWins(tip: Tip, ops: seq<Op>)
    requires ops != [] && TipOf(tip, ops).Some?
    ensures var last, end := ops[|ops| - 1], TipOf(tip, ops).value;
            match last
            case DeleteOp(_, base) => end == Erased(base + 1)
            case CreateOp(_, _, tiers) => end == At(INITIAL_VERSION, tiers)
            case UpdateOp(_, _, base, tiers) => end == At(base + 1, tiers)
            case BlobOp(_) => false
    decreases |ops|
  {
    if |ops| == 1 {
      assert ops[1..] == [];
    } else {
      LastOpWins(After(tip, ops[0]).value, ops[1..]);
    }
  }

  /** Every operation moves the version on by one. */
  lemma {:induction false} TipOfCounts(tip: Tip, ops: seq<Op>)
    requires TipOf(tip, ops).Some?
    ensures Version(TipOf(tip, ops).value) == Version(tip) + |ops|
    decreases |ops|
  {
    if ops != [] { TipOfCounts(After(tip, ops[0]).value, ops[1..]); }
  }

  lemma {:induction false} OpsOfAppend(entries: seq<Entry>, e: Entry, id: SecretId)
    ensures OpsOf(entries + [e], id) == OpsOf(entries, id) + if e.entityId == id then [e.op] else []
    decreases |entries|
  {
    if entries == [] {
      assert entries + [e] == [e];
    } else {
      assert (entries + [e])[1..] == entries[1..] + [e];
      OpsOfAppend(entries[1..], e, id);
    }
  }

  lemma {:induction false} OpsOfPending(entries: seq<Entry>, id: SecretId)
    requires AllWaiting(entries, id)
    ensures OpsOf(ByStatus(entries, Pending), id) == OpsOf(entries, id)
    decreases |entries|
  {
    if entries != [] {
      assert forall e :: e in entries[1..] ==> e in entries;
      OpsOfPending(entries[1..], id);
      assert entries[0] in entries;
    }
  }

  // ----- nobody else touches the secret -----

  predicate Touches(req: Request, id: SecretId) {
    (req.Create? || req.Update? || req.Delete? || req.Attach?) && req.id == id
  }

  ghost predicate Untouched(tape: seq<Net>, id: SecretId) {
    forall i, j :: 0 <= i < |tape| && 0 <= j < |tape[i].others| ==> !Touches(tape[i].others[j], id)
  }

  lemma {:induction false} OthersKeepTip(t: Tables, reqs: seq<Request>, id: SecretId)
    requires forall j :: 0 <= j < |reqs| ==> !Touches(reqs[j], id)
    ensures ServerTip(RunAll(t, reqs), id) == ServerTip(t, id)
    decreases |reqs|
  {
    if reqs != [] {
      assert !Touches(reqs[0], id);
      assert forall j :: 0 <= j < |reqs[1..]| ==> reqs[1..][j] == reqs[j + 1];
      OthersKeepTip(Exec(t, reqs[0]).0, reqs[1..], id);
    }
  }

  lemma OthersKeepNextTip(wire: Wire, id: SecretId)
    requires wire.tape != [] && Untouched(wire.tape, id)
    ensures ServerTip(RunAll(wire.tables, wire.tape[0].others), id) == ServerTip(wire.tables, id)
    ensures Untouched(wire.tape[1..], id)
  {
    assert forall j :: 0 <= j < |wire.tape[0].others| ==> !Touches(wire.tape[0].others[j], id);
    OthersKeepTip(wire.tables, wire.tape[0].others, id);
    assert forall i :: 0 <= i < |wire.tape[1..]| ==> wire.tape[1..][i] == wire.tape[i + 1];
  }

  lemma AnswerKeepsTip(before: Tables, fate: Fate, tape: seq<Net>, accepted: seq<Request>, req: Request, id: SecretId)
    requires !Touches(req, id) || fate.Refuse?
    ensures var after := Answer(before, fate, tape, accepted, req).0;
            after.tape == tape && ServerTip(after.tables, id) == ServerTip(before, id)
  {
  }

  /** A call about another secret, or one that is refused on the way, leaves the tip alone. */
  lemma CallKeepsTip(wire: Wire, req: Request, id: SecretId)
    requires Untouched(wire.tape, id)
    requires !Touches(req, id) || wire.tape == [] || wire.tape[0].fate.Refuse?
    ensures var after := Call(wire, req).0;
            Untouched(after.tape, id) && ServerTip(after.tables, id) == ServerTip(wire.tables, id)
  {
    if wire.tape != [] {
      OthersKeepNextTip(wire, id);
      var before := RunAll(wire.tables, wire.tape[0].others);
      AnswerKeepsTip(before, wire.tape[0].fate, wire.tape[1..], wire.accepted, req, id);
    }
  }

  // ----- linked queues, and edits that keep them linked -----

  /** What the queued operations of the secret lead to, if each was built on the one before it. */
  function End(w: World, id: SecretId): Option<Tip> {
    TipOf(ServerTip(w.wire.tables, id), OpsOf(w.store.outbox, id))
  }

  /** The entries of the secret wait, each built on the one before it and the first on the server's row. */
  ghost predicate Linked(w: World, id: SecretId) {
    Untouched(w.wire.tape, id) && AllWaiting(w.store.outbox, id) && End(w, id).Some?
  }

  /** Besides, the cache stands at the end of the queue. */
  ghost predicate Chained(w: World, id: SecretId) {
    Linked(w, id) && (End(w, id).value.At? ==> CachedAt(w.store, id, End(w, id).value.version))
  }

  predicate CachedAt(s: Store, id: SecretId, version: int) {
    id in s.secrets && s.secrets[id].version == version
  }

  datatype Edit = Make(kind: int, content: Content, n: Nonces) | Change(kind: int, content: Content, n: Nonces) | Erase

  predicate NetDown(w: World) {
    w.wire.tape == [] || (w.wire.tape[0].fate.Refuse? && FallsBackOffline(w.wire.tape[0].fate.error))
  }

  /** The user edits what the cache shows, so the base is the cached version. */
  function Apply(w: World, vault: VaultId, id: SecretId, e: Edit): World {
    match e
    case Make(kind, content, n) => CreateTyped(w, vault, id, kind, content, n).0
    case Change(kind, content, n) =>
      if id in w.store.secrets then UpdateTyped(w, vault, id, w.store.secrets[id].version, kind, content, n).0 else w
    case Erase =>
      if id in w.store.secrets then ClientModel.DeleteSecret(w, vault, id, w.store.secrets[id].version).0 else w
  }

  /** The user can save: the vault is open, the note fits, and what is changed or erased is in the cache. */
  predicate Saveable(w: World, vault: VaultId, id: SecretId, e: Edit) {
    && id != "" && vault != "" && vault in w.session.open
    && (e.Erase? || |e.content.index| <= MAX_ENC_INDEX_SIZE)
    && (e.Make? || id in w.store.secrets)
  }

  /** The operation that an edit queues when there is no network. */
  function OpFor(w: World, vault: VaultId, id: SecretId, e: Edit): Op
    requires Saveable(w, vault, id, e)
  {
    var key := w.session.open[vault];
    match e
    case Make(kind, content, n) => CreateOp(vault, kind, SealTiers(key, vault, id, INITIAL_VERSION, content, n))
    case Change(kind, content, n) =>
      var base := w.store.secrets[id].version;
      UpdateOp(vault, kind, base, SealTiers(key, vault, id, base + 1, content, n))
    case Erase => DeleteOp(vault, w.store.secrets[id].version)
  }

  /** A secret is made once; what is changed or erased is there, and the cache shows it as the queue will leave it. */
  predicate FitsTip(w: World, id: SecretId, e: Edit, tip: Tip) {
    if e.Make? then tip.Absent? else tip.At? && CachedAt(w.store, id, tip.version)
  }

  lemma OfflineCall(w: World, req: Request, id: SecretId)
    requires NetDown(w) && Untouched(w.wire.tape, id)
    ensures var (after, reply) := Call(w.wire, req);
            && reply.Fault? && FallsBackOffline(reply.error)
            && Untouched(after.tape, id) && ServerTip(after.tables, id) == ServerTip(w.wire.tables, id)
  {
    CallKeepsTip(w.wire, req, id);
  }

  /** Offline, an edit queues its operation at the end and changes nothing on the server. */
  lemma EditQueues(w: World, vault: VaultId, id: SecretId, e: Edit)
    requires NetDown(w) && Untouched(w.wire.tape, id) && Saveable(w, vault, id, e)
    ensures var w' := Apply(w, vault, id, e);
            && w'.store.outbox == w.store.outbox + [Entry(w.store.nextId, SECRET, id, OpFor(w, vault, id, e), Pending)]
            && w'.store.nextId == w.store.nextId + 1
            && ServerTip(w'.wire.tables, id) == ServerTip(w.wire.tables, id)
            && Untouched(w'.wire.tape, id) && w'.session == w.session
  {
    var user, op := w.session.user, OpFor(w, vault, id, e);
    match e
    case Make(kind, _, _) => OfflineCall(w, Create(user, id, vault, kind, op.tiers), id);
    case Change(_, _, _) => OfflineCall(w, Update(user, id, op.base, op.tiers), id);
    case Erase => OfflineCall(w, Delete(user, id, op.base), id);
  }

  /** Offline, an edit caches what it made of the secret. */
  lemma EditCaches(w: World, vault: VaultId, id: SecretId, e: Edit)
    requires NetDown(w) && Untouched(w.wire.tape, id) && Saveable(w, vault, id, e)
    ensures var s := Apply(w, vault, id, e).store;
            match e
            case Make(_, _, _) => CachedAt(s, id, INITIAL_VERSION)
            case Change(_, _, _) => CachedAt(s, id, w.store.secrets[id].version + 1)
            case Erase => id !in s.secrets
  {
    var user, op := w.session.user, OpFor(w, vault, id, e);
    match e
    case Make(kind, _, _) => OfflineCall(w, Create(user, id, vault, kind, op.tiers), id);
    case Change(_, _, _) => OfflineCall(w, Update(user, id, op.base, op.tiers), id);
    case Erase => OfflineCall(w, Delete(user, id, op.base), id);
  }

  /** The end of the queue moves on by the queued operation, if it was built on it. */
  lemma EditMovesEnd(w: World, vault: VaultId, id: SecretId, e: Edit)
    requires Linked(w, id) && NetDown(w) && Saveable(w, vault, id, e)
    ensures End(Apply(w, vault, id, e), id) == After(End(w, id).value, OpFor(w, vault, id, e))
  {
    EditQueues(w, vault, id, e);
    var op := OpFor(w, vault, id, e);
    OpsOfAppend(w.store.outbox, Entry(w.store.nextId, SECRET, id, op, Pending), id);
    TipOfAppend(ServerTip(w.wire.tables, id), OpsOf(w.store.outbox, id), op);
  }

  /**
   * An offline edit keeps the queue linked if and only if the cached version is the one that the queue leads to; and
   * then the cache stands at the new end, which is one version on and shows the edit.
   */
  lemma EditLinksIff(w: World, vault: VaultId, id: SecretId, e: Edit)
    requires Linked(w, id) && NetDown(w) && Saveable(w, vault, id, e)
    ensures var w', tip := Apply(w, vault, id, e), End(w, id).value;
            && (Linked(w', id) <==> FitsTip(w, id, e, tip))
            && (Linked(w', id) ==>
                  && Chained(w', id) && OpsOf(w'.store.outbox, id) != []
                  && Version(End(w', id).value) == Version(tip) + 1 && Shows(End(w', id).value, e))
  {
    EditQueues(w, vault, id, e);
    EditCaches(w, vault, id, e);
    EditMovesEnd(w, vault, id, e);
    OpsOfAppend(w.store.outbox, Entry(w.store.nextId, SECRET, id, OpFor(w, vault, id, e), Pending), id);
  }

  /** What the client can see of the end of a queue that is not empty: the last queued operation tells its version. */
  function LedTo(op: Op): int {
    match op
    case CreateOp(_, _, _) => INITIAL_VERSION
    case UpdateOp(_, _, base, _) => base + 1
    case DeleteOp(_, base) => base + 1
    case BlobOp(_) => 0
  }

  lemma QueueTellsEnd(w: World, id: SecretId)
    requires Linked(w, id) && OpsOf(w.store.outbox, id) != []
    ensures var ops, tip := OpsOf(w.store.outbox, id), End(w, id).value;
            && Version(tip) == LedTo(ops[|ops| - 1])
            && (tip.At? <==> !ops[|ops| - 1].DeleteOp?)
  {
    LastOpWins(ServerTip(w.wire.tables, id), OpsOf(w.store.outbox, id));
  }

  predicate Holds(tiers: Tiers, content: Content) {
    tiers.row.Sealed? && tiers.index.Sealed? && tiers.payload.Sealed? && Texts(tiers) == content
  }

  /** The tip is what the edit left: its content, or nothing after an erasure. */
  predicate Shows(tip: Tip, e: Edit) {
    match e
    case Erase => tip.Erased?
    case Make(_, content, _) => tip.At? && Holds(tip.tiers, content)
    case Change(_, content, _) => tip.At? && Holds(tip.tiers, content)
  }

  // ----- any number of edits -----

  function ApplyAll(w: World, vault: VaultId, id: SecretId, edits: seq<Edit>): World
    decreases |edits|
  {
    if edits == [] then w else ApplyAll(Apply(w, vault, id, edits[0]), vault, id, edits[1..])
  }

  /** There is no network at any of the edits; a secret is made once, and only what is there is changed or erased. */
  ghost predicate AllOffline(w: World, vault: VaultId, id: SecretId, edits: seq<Edit>)
    decreases |edits|
  {
    edits != [] ==>
      && NetDown(w) && Saveable(w, vault, id, edits[0])
      && End(w, id).Some? && (if edits[0].Make? then End(w, id).value.Absent? else End(w, id).value.At?)
      && AllOffline(Apply(w, vault, id, edits[0]), vault, id, edits[1..])
  }

  /** Edits one after the other always fit: each moves the end on by one version, and the cache with it. */
  lemma {:induction false} EditsChain(w: World, vault: VaultId, id: SecretId, edits: seq<Edit>)
    requires Chained(w, id) && AllOffline(w, vault, id, edits)
    ensures var w' := ApplyAll(w, vault, id, edits);
            && Chained(w', id)
            && Version(End(w', id).value) == Version(End(w, id).value) + |edits|
            && (edits != [] ==> OpsOf(w'.store.outbox, id) != [] && Shows(End(w', id).value, edits[|edits| - 1]))
    decreases |edits|
  {
    if edits != [] {
      EditLinksIff(w, vault, id, edits[0]);
      EditsChain(Apply(w, vault, id, edits[0]), vault, id, edits[1..]);
    }
  }

  // ----- the replay consumes the chain -----

  /** No turn ended with an error. */
  predicate Finished(w: World, entries: seq<Entry>) {
    Completed(w, entries) == |entries|
  }

  ghost predicate Ready(w: World, entries: seq<Entry>, id: SecretId, end: Tip) {
    && Untouched(w.wire.tape, id)
    && TipOf(ServerTip(w.wire.tables, id), OpsOf(entries, id)) == Some(end)
  }

  /** Once nothing of the secret is left to be played, the cache shows the end. */
  ghost predicate Settled(s: Store, entries: seq<Entry>, id: SecretId, end: Tip) {
    OpsOf(entries, id) == [] ==> Mirrors(s, id, end)
  }

  lemma AnswerMovesTip(
      before: Tables, fate: Fate, tape: seq<Net>, accepted: seq<Request>, req: Request, id: SecretId, op: Op)
    requires Touches(req, id) && SentFor(req.user, Entry(0, SECRET, id, op, Pending), req)
    requires After(ServerTip(before, id), op).Some?
    ensures var (after, reply) := Answer(before, fate, tape, accepted, req);
            && (reply.Done? || (reply.Fault? && !reply.error.Conflict?))
            && after.tape == tape
            && (reply.Done? ==> ServerTip(after.tables, id) == After(ServerTip(before, id), op).value)
  {
  }

  /** The write of a chained operation never meets a conflict; once acknowledged it moves the tip on. */
  lemma CallMovesTip(wire: Wire, req: Request, id: SecretId, op: Op)
    requires Touches(req, id) && SentFor(req.user, Entry(0, SECRET, id, op, Pending), req)
    requires Untouched(wire.tape, id) && After(ServerTip(wire.tables, id), op).Some?
    ensures var (after, reply) := Call(wire, req);
            && (reply.Done? || (reply.Fault? && !reply.error.Conflict?))
            && Untouched(after.tape, id)
            && (reply.Done? ==> ServerTip(after.tables, id) == After(ServerTip(wire.tables, id), op).value)
  {
    if wire.tape != [] {
      OthersKeepNextTip(wire, id);
      var before := RunAll(wire.tables, wire.tape[0].others);
      AnswerMovesTip(before, wire.tape[0].fate, wire.tape[1..], wire.accepted, req, id, op);
    }
  }

  /** The turn of a chained entry, if it ends without an error, moves server and cache to the next tip. */
  lemma OwnTurn(w: World, e: Entry)
    requires Untouched(w.wire.tape, e.entityId)
    requires After(ServerTip(w.wire.tables, e.entityId), e.op).Some?
    ensures var id := e.entityId;
            var tip := After(ServerTip(w.wire.tables, id), e.op).value;
            var (w1, done) := ReplayEntry(w, e);
            done.Ok? ==>
              && done == Ok(true) && Untouched(w1.wire.tape, id)
              && ServerTip(w1.wire.tables, id) == tip && Mirrors(w1.store, id, tip)
  {
    var user, id := w.session.user, e.entityId;
    match e.op
    case CreateOp(vault, kind, tiers) => CallMovesTip(w.wire, Create(user, id, vault, kind, tiers), id, e.op);
    case UpdateOp(_, _, base, tiers) => CallMovesTip(w.wire, Update(user, id, base, tiers), id, e.op);
    case DeleteOp(_, base) => CallMovesTip(w.wire, Delete(user, id, base), id, e.op);
  }

  lemma BlobTurnKeepsTip(w: World, e: Entry, id: SecretId)
    requires e.op.BlobOp? && e.entityId != id && Untouched(w.wire.tape, id)
    ensures var w1 := ReplayEntry(w, e).0;
            && Untouched(w1.wire.tape, id) && ServerTip(w1.wire.tables, id) == ServerTip(w.wire.tables, id)
            && w1.store == w.store
  {
    var upload := Upload(w.session.user, e.entityId);
    CallKeepsTip(w.wire, upload, id);
    var (wire1, uploaded) := Call(w.wire, upload);
    if uploaded.Uploaded? {
      CallKeepsTip(wire1, Attach(w.session.user, e.entityId, INITIAL_VERSION, uploaded.blobRef), id);
    }
  }

  ghost predicate SameRow(s: Store, s': Store, id: SecretId) {
    (id in s'.secrets <==> id in s.secrets) && (id in s.secrets ==> s'.secrets[id] == s.secrets[id])
  }

  lemma OtherTurn(w: World, e: Entry, id: SecretId)
    requires e.entityId != id && Untouched(w.wire.tape, id)
    ensures var w1 := ReplayEntry(w, e).0;
            && Untouched(w1.wire.tape, id) && ServerTip(w1.wire.tables, id) == ServerTip(w.wire.tables, id)
            && SameRow(w.store, w1.store, id)
  {
    var user := w.session.user;
    match e.op
    case CreateOp(vault, kind, tiers) => CallKeepsTip(w.wire, Create(user, e.entityId, vault, kind, tiers), id);
    case UpdateOp(_, _, base, tiers) => CallKeepsTip(w.wire, Update(user, e.entityId, base, tiers), id);
    case DeleteOp(_, base) => CallKeepsTip(w.wire, Delete(user, e.entityId, base), id);
    case BlobOp(_) => BlobTurnKeepsTip(w, e, id);
  }

  /** One turn of the loop keeps the chain ready for the rest; a turn of the chain makes the cache mirror it. */
  lemma TurnKeepsReady(w: World, entries: seq<Entry>, id: SecretId, end: Tip)
    requires Ready(w, entries, id, end) && entries != [] && AllWaiting(entries, id)
    requires ReplayTurn(w, entries[0]).1.Ok?
    ensures var (w1, done) := ReplayTurn(w, entries[0]);
            && Ready(w1, entries[1..], id, end)
            && (Settled(w.store, entries, id, end) ==> Settled(w1.store, entries[1..], id, end))
            && (entries[0].entityId == id ==> done == Ok(true))
  {
    var e := entries[0];
    if e.entityId == id {
      OwnTurn(w, e);
      assert OpsOf(entries, id)[1..] == OpsOf(entries[1..], id);
    } else {
      OtherTurn(w, e, id);
    }
  }

  lemma {:induction false} ReplayFollowsChain(w: World, entries: seq<Entry>, id: SecretId, end: Tip)
    requires Ready(w, entries, id, end) && Finished(w, entries) && AllWaiting(entries, id)
    ensures var w' := ReplayAll(w, entries).0;
            && ServerTip(w'.wire.tables, id) == end && Untouched(w'.wire.tape, id)
            && (Settled(w.store, entries, id, end) ==> Mirrors(w'.store, id, end))
    decreases |entries|
  {
    if entries != [] {
      assert entries[0] in entries;
      assert forall x :: x in entries[1..] ==> x in entries;
      if entries[0].entity != SECRET {
        ReplayFollowsChain(w, entries[1..], id, end);
      } else {
        TurnKeepsReady(w, entries, id, end);
        ReplayFollowsChain(ReplayTurn(w, entries[0]).0, entries[1..], id, end);
      }
    }
  }

  /** Every entry of the chain goes: none is marked as a conflict, none stays behind. */
  lemma {:induction false} ChainEntriesGo(w: World, entries: seq<Entry>, id: SecretId, end: Tip, j: nat)
    requires Ready(w, entries, id, end) && Finished(w, entries) && AllWaiting(entries, id)
    requires j < |entries| && entries[j].entityId == id
    ensures Gone(ReplayAll(w, entries).0.store.outbox, entries[j].id)
    decreases |entries|
  {
    assert entries[0] in entries;
    assert forall x :: x in entries[1..] ==> x in entries;
    if entries[0].entity != SECRET {
      ChainEntriesGo(w, entries[1..], id, end, j - 1);
    } else {
      TurnKeepsReady(w, entries, id, end);
      if j > 0 {
        ChainEntriesGo(ReplayTurn(w, entries[0]).0, entries[1..], id, end, j - 1);
      } else {
        DoneEntryGoes(w, entries);
      }
    }
  }

  lemma DoneEntryGoes(w: World, entries: seq<Entry>)
    requires entries != [] && entries[0].entity == SECRET && ReplayTurn(w, entries[0]).1 == Ok(true)
    ensures Gone(ReplayAll(w, entries).0.store.outbox, entries[0].id)
  {
    var w1 := ReplayTurn(w, entries[0]).0;
    TurnIsOk(w, entries[0]);
    forall x | x in w1.store.outbox ensures x.id != entries[0].id {
      WithoutMembers(w.store.outbox, entries[0].id, x);
    }
    GoneStaysGone(w1, entries[1..], entries[0]);
  }

  /** After the replay the secret has no entry at all. */
  lemma ChainDrains(w: World, id: SecretId)
    requires Linked(w, id) && Finished(w, ByStatus(w.store.outbox, Pending))
    ensures id !in Outstanding(ReplayOutbox(w).0.store.outbox)
  {
    var pending := ByStatus(w.store.outbox, Pending);
    var outbox := ReplayOutbox(w).0.store.outbox;
    OpsOfPending(w.store.outbox, id);
    var end := End(w, id).value;
    forall y | y in outbox ensures y.entityId != id {
      ReplayAddsNoEntry(w, pending, y);
      var x :| x in w.store.outbox && x.id == y.id && (y == x || y == x.(status := InConflict));
      if x.entityId == id {
        ByStatusMembers(w.store.outbox, Pending, x);
        var j :| 0 <= j < |pending| && pending[j] == x;
        PendingWaits(w.store.outbox, id);
        ChainEntriesGo(w, pending, id, end, j);
      }
    }
  }

  lemma PendingWaits(outbox: seq<Entry>, id: SecretId)
    requires AllWaiting(outbox, id)
    ensures AllWaiting(ByStatus(outbox, Pending), id)
  {
    forall e | e in ByStatus(outbox, Pending) ensures e in outbox {
      ByStatusMembers(outbox, Pending, e);
    }
  }

  /** A replay that runs to its end brings server and cache to where the queue led. */
  lemma ChainArrives(w: World, id: SecretId)
    requires Linked(w, id) && Finished(w, ByStatus(w.store.outbox, Pending))
    ensures var w' := ReplayOutbox(w).0;
            && Some(ServerTip(w'.wire.tables, id)) == End(w, id)
            && (OpsOf(w.store.outbox, id) != [] || Mirrors(w.store, id, End(w, id).value) ==>
                  Mirrors(w'.store, id, End(w, id).value))
  {
    OpsOfPending(w.store.outbox, id);
    PendingWaits(w.store.outbox, id);
    ReplayFollowsChain(w, ByStatus(w.store.outbox, Pending), id, End(w, id).value);
  }

  /**
   * The whole story without an interruption: a secret without entries, whose cached version is the server's (or which
   * exists nowhere), is edited offline any number of times, and nobody else touches it. A replay that runs to its end
   * leaves no entry of it, the server's version has grown by one per edit, server and cache show the last edit.
   */
  lemma OfflineEditsArrive(w: World, vault: VaultId, id: SecretId, edits: seq<Edit>)
    requires id !in Outstanding(w.store.outbox) && (forall e :: e in w.store.outbox ==> e.entity == SECRET)
    requires ServerTip(w.wire.tables, id).At? ==> CachedAt(w.store, id, w.wire.tables.secrets[id].version)
    requires Untouched(w.wire.tape, id) && edits != [] && AllOffline(w, vault, id, edits)
    ensures var w1 := ApplyAll(w, vault, id, edits);
            var w2 := ReplayOutbox(w1).0;
            var tip := ServerTip(w2.wire.tables, id);
            Finished(w1, ByStatus(w1.store.outbox, Pending)) ==>
              && id !in Outstanding(w2.store.outbox)
              && Version(tip) == Version(ServerTip(w.wire.tables, id)) + |edits|
              && Shows(tip, edits[|edits| - 1])
              && Mirrors(w2.store, id, tip)
  {
    NoOps(w.store.outbox, id);
    EditsChain(w, vault, id, edits);
    var w1 := ApplyAll(w, vault, id, edits);
    if Finished(w1, ByStatus(w1.store.outbox, Pending)) {
      ChainDrains(w1, id);
      ChainArrives(w1, id);
    }
  }

  lemma {:induction false} NoOps(entries: seq<Entry>, id: SecretId)
    requires id !in Outstanding(entries) && (forall e :: e in entries ==> e.entity == SECRET)
    ensures OpsOf(entries, id) == [] && AllWaiting(entries, id)
    decreases |entries|
  {
    if entries != [] {
      assert forall e :: e in entries[1..] ==> e in entries;
      assert entries[0] in entries;
      NoOps(entries[1..], id);
    }
  }
}

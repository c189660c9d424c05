/**
 * Entries that no replay ever gets past: a create that the server took although its answer was lost, and a write of a
 * secret that another device has deleted.
 */
module BlockedQueue {
  import opened Types
  import opened ServerModel
  import opened ServerLaws
  import opened S = StoreModel
  import opened StoreLaws
  import opened ClientModel

  /** The first entry that a replay plays. */
  function Head(entries: seq<Entry>): Option<Entry> {
    if entries == [] then None
    else if entries[0].entity == SECRET then Some(entries[0])
    else Head(entries[1..])
  }

  function QueueHead(s: Store): Option<Entry> {
    Head(ByStatus(s.outbox, Pending))
  }

  lemma {:induction false} StopsAtHead(w: World, entries: seq<Entry>)
    requires Head(entries).Some? && ReplayTurn(w, Head(entries).value).1.Err?
    ensures ReplayAll(w, entries).0 == ReplayTurn(w, Head(entries).value).0
    decreases |entries|
  {
    if entries[0].entity != SECRET { StopsAtHead(w, entries[1..]); }
  }

  /** The secret of the create exists on the server, or that of the update or delete is deleted there. */
  predicate Blocked(w: World, e: Entry) {
    && !e.op.BlobOp? && e.entityId in w.wire.tables.secrets
    && (e.op.CreateOp? || w.wire.tables.secrets[e.entityId].deleted)
  }

  /** The request of an entry that is not an upload. */
  function RequestOf(user: UserId, e: Entry): Request
    requires !e.op.BlobOp?
  {
    match e.op
    case CreateOp(vault, kind, tiers) => Create(user, e.entityId, vault, kind, tiers)
    case UpdateOp(_, _, base, tiers) => Update(user, e.entityId, base, tiers)
    case DeleteOp(_, base) => Delete(user, e.entityId, base)
  }

  lemma BlockedRequest(t: Tables, req: Request)
    requires req.Create? || req.Update? || req.Delete?
    requires req.id in t.secrets && (req.Create? || t.secrets[req.id].deleted)
    ensures Exec(t, req).1.Fault? && !Exec(t, req).1.error.Conflict? && !Accepted(t, req)
  {
  }

  lemma BlockedCall(w: World, e: Entry)
    requires TablesOk(w.wire.tables) && Blocked(w, e)
    ensures var (wire, reply) := Call(w.wire, RequestOf(w.session.user, e));
            && reply.Fault? && !reply.error.Conflict? && wire.accepted == w.wire.accepted
            && TablesOk(wire.tables) && Blocked(w.(wire := wire), e)
  {
    if w.wire.tape != [] {
      var req, before := RequestOf(w.session.user, e), RunAll(w.wire.tables, w.wire.tape[0].others);
      RunMovesForward(w.wire.tables, w.wire.tape[0].others);
      assert LaterSecret(w.wire.tables, before, e.entityId);
      BlockedRequest(before, req);
      RejectedChangesNothing(before, req);
      assert w.wire.accepted + [] == w.wire.accepted;
    }
  }

  /** Whatever becomes of the call, the write does not go through, and nothing of this client changes. */
  lemma BlockedTurn(w: World, e: Entry)
    requires TablesOk(w.wire.tables) && Blocked(w, e)
    ensures var (w', done) := ReplayTurn(w, e);
            && done.Err? && w' == w.(wire := w'.wire) && w'.wire.accepted == w.wire.accepted
            && TablesOk(w'.wire.tables) && Blocked(w', e)
  {
    BlockedCall(w, e);
  }

  /** Any number of replays, one after the other. */
  function Replays(w: World, k: nat): World
    decreases k
  {
    if k == 0 then w else Replays(ReplayOutbox(w).0, k - 1)
  }

  /** As long as only replays run, the whole queue stands still behind such an entry. */
  lemma {:induction false} BlockedForGood(w: World, e: Entry, k: nat)
    requires TablesOk(w.wire.tables) && QueueHead(w.store) == Some(e) && Blocked(w, e)
    ensures Replays(w, k).store == w.store && Replays(w, k).wire.accepted == w.wire.accepted
    decreases k
  {
    if k > 0 {
      BlockedTurn(w, e);
      StopsAtHead(w, ByStatus(w.store.outbox, Pending));
      BlockedForGood(ReplayOutbox(w).0, e, k - 1);
    }
  }

  /** What the server asks of a create, apart from the identifier being new. */
  predicate Acceptable(t: Tables, user: UserId, e: Entry) {
    && e.op.CreateOp?
    && user != "" && e.op.vault != "" && e.entityId != "" && !e.op.tiers.row.Empty? && !e.op.tiers.index.Empty?
    && e.op.vault in t.vaults && t.vaults[e.op.vault].user == user
  }

  /** A create that is delivered and acceptable goes through if and only if the server does not have the secret yet. */
  lemma CreateGoesThroughIff(w: World, e: Entry)
    requires w.wire.tape != [] && w.wire.tape[0].fate.Deliver?
    requires Acceptable(RunAll(w.wire.tables, w.wire.tape[0].others), w.session.user, e)
    ensures var before := RunAll(w.wire.tables, w.wire.tape[0].others);
            ReplayTurn(w, e).1 == if e.entityId in before.secrets then Err(Internal) else Ok(true)
  {
  }

  lemma {:induction false} HeadOfAppended(entries: seq<Entry>, e: Entry)
    requires Head(entries).None? && e.entity == SECRET
    ensures Head(entries + [e]) == Some(e)
    decreases |entries|
  {
    if entries == [] {
      assert entries + [e] == [e];
    } else {
      assert (entries + [e])[1..] == entries[1..] + [e];
      HeadOfAppended(entries[1..], e);
    }
  }

  /** A create whose answer is lost is reported as done and queued; if nothing waits before it, nothing gets by it. */
  lemma LostCreateBlocks(w: World, vault: VaultId, id: SecretId, kind: int, tiers: Tiers, k: nat)
    requires TablesOk(w.wire.tables) && QueueHead(w.store).None?
    requires w.wire.tape != [] && w.wire.tape[0].fate.LoseReply? && FallsBackOffline(w.wire.tape[0].fate.error)
    requires Accepted(RunAll(w.wire.tables, w.wire.tape[0].others), Create(w.session.user, id, vault, kind, tiers))
    ensures var (w', r) := SendCreate(w, vault, id, kind, tiers);
            && r == Ok(id)
            && QueueHead(w'.store) == Some(Entry(w.store.nextId, SECRET, id, CreateOp(vault, kind, tiers), Pending))
            && Replays(w', k).store == w'.store
  {
    var req := Create(w.session.user, id, vault, kind, tiers);
    var before := RunAll(w.wire.tables, w.wire.tape[0].others);
    RunMovesForward(w.wire.tables, w.wire.tape[0].others);
    ExecKeepsTablesOk(before, req);
    var w' := SendCreate(w, vault, id, kind, tiers).0;
    var e := Entry(w.store.nextId, SECRET, id, CreateOp(vault, kind, tiers), Pending);
    ByStatusAppend(w.store.outbox, e, Pending);
    HeadOfAppended(ByStatus(w.store.outbox, Pending), e);
    assert w'.store.outbox == w.store.outbox + [e];
    BlockedForGood(w', e, k);
  }
}

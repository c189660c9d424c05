/** A conflict reported as resolved is resolved: the user's side was written, or waits at the end of the queue. */
module ResolveReports {
  import opened Types
  import opened Sealing
  import opened ServerModel
  import opened ServerLaws
  import opened S = StoreModel
  import opened StoreLaws
  import opened ClientModel
  import opened Coherence
  import opened Accounting
  import opened AccountedOperations
  import opened ConflictLaws
  import opened Writing

  /** The request writes the user's side of the card. */
  predicate SaysMine(c: Card, req: Request) {
    match c.retry
    case AgainUpdate(_, content) => req.Update? && req.id == c.secret && PlainTexts(req.tiers) == content
    case AgainOutboxUpdate(_, op) =>
      req.Update? && req.id == c.secret && op.UpdateOp? && PlainTexts(req.tiers) == PlainTexts(op.tiers)
    case _ => req.Delete? && req.id == c.secret
  }

  predicate Written(c: Card, history: seq<Request>, since: nat) {
    exists k :: since <= k < |history| && SaysMine(c, history[k])
  }

  /** The last entry of the queue is new and asks for the user's side. */
  predicate Waits(c: Card, before: seq<Entry>, after: seq<Entry>) {
    && after != [] && after[|after| - 1].entityId == c.secret
    && (forall e :: e in before ==> e.id != after[|after| - 1].id)
    && match c.retry
       case AgainUpdate(_, content) =>
         after[|after| - 1].op.UpdateOp? && PlainTexts(after[|after| - 1].op.tiers) == content
       case _ => after[|after| - 1].op.DeleteOp?
  }

  lemma LastIsWritten(c: Card, before: seq<Request>, req: Request)
    requires SaysMine(c, req)
    ensures Written(c, before + [req], |before|)
  {
    assert (before + [req])[|before|] == req;
  }

  /**
   * A probe ends without a card only if the server took the queued request; the entry is then gone, and the cache holds
   * what it asked for.
   */
  lemma ProbeReports(w: World, e: Entry)
    requires OutboxOk(w.store) && e in w.store.outbox && ConflictFromEntry(w, e).1 == Ok(None)
    ensures var w' := ConflictFromEntry(w, e).0;
            && Gone(w'.store.outbox, e.id)
            && Fulfilled(w'.wire.accepted, |w.wire.accepted|, e)
            && match e.op
               case UpdateOp(vault, kind, base, tiers) =>
                 Readable(tiers) ==> RowWritten(w'.store, e.entityId, vault, kind, tiers, base + 1, false)
               case _ => e.entityId !in w'.store.secrets
  {
    forall x | x in Without(w.store.outbox, e.id) ensures x.id != e.id { WithoutMembers(w.store.outbox, e.id, x); }
    if e.op.UpdateOp? {
      var req := Update(w.session.user, e.entityId, e.op.base, e.op.tiers);
      if Call(w.wire, req).1.Done? { AcknowledgedFulfils(w.wire, req, e); }
    } else if e.op.DeleteOp? {
      var req := Delete(w.session.user, e.entityId, e.op.base);
      if Call(w.wire, req).1.Done? { AcknowledgedFulfils(w.wire, req, e); }
    }
  }

  lemma RemovedIsGone(s: Store, entry: nat)
    ensures Gone(RemoveOutbox(s, entry).outbox, entry)
  {
    forall x | x in Without(s.outbox, entry) ensures x.id != entry { WithoutMembers(s.outbox, entry, x); }
  }

  lemma RequeuedIsGone(s: Store, entry: nat, id: SecretId, op: Op)
    requires OutboxOk(s) && entry < s.nextId && Requeue(s, entry, id, op).Ok?
    ensures var s' := Requeue(s, entry, id, op).value;
            OutboxOk(s') && Gone(s'.outbox, entry) && Entry(s.nextId, SECRET, id, op, InConflict) in s'.outbox
  {
    var marked := s.(outbox := Restatus(s.outbox, entry, InConflict));
    RestatusKeepsOutbox(s, entry, InConflict);
    RemoveKeepsOutbox(marked, entry);
    EnqueueKeepsOutbox(RemoveOutbox(marked, entry), id, op, InConflict);
    RemovedIsGone(marked, entry);
    RequeuedIsFound(s, entry, id, op);
  }

  /** The second try of a repeated conflict: only a probe that the server took ends it without a card. */
  lemma RequeuedReports(w: World, entry: nat, id: SecretId, again: Op)
    requires OutboxOk(w.store) && entry < w.store.nextId && again.UpdateOp?
    requires Requeue(w.store, entry, id, again).Ok?
    requires ConflictFromOutbox(w.(store := Requeue(w.store, entry, id, again).value), w.store.nextId).1 == Ok(None)
    ensures var w2 := w.(store := Requeue(w.store, entry, id, again).value);
            var w' := ConflictFromOutbox(w2, w.store.nextId).0;
            && Gone(w'.store.outbox, entry)
            && Fulfilled(w'.wire.accepted, |w.wire.accepted|, Entry(w.store.nextId, SECRET, id, again, InConflict))
  {
    var w2 := w.(store := Requeue(w.store, entry, id, again).value);
    var e := Entry(w.store.nextId, SECRET, id, again, InConflict);
    RequeuedIsGone(w.store, entry, id, again);
    RequeuedIsFound(w.store, entry, id, again);
    ProbeReports(w2, e);
    ProbeOnlyRemoves(w2, e, entry);
  }

  lemma ProbeOnlyRemoves(w: World, e: Entry, entry: nat)
    requires Gone(w.store.outbox, entry)
    ensures Gone(ConflictFromEntry(w, e).0.store.outbox, entry)
  {
    forall x | x in Without(w.store.outbox, e.id) ensures x in w.store.outbox {
      WithoutMembers(w.store.outbox, e.id, x);
    }
  }

  lemma SendAgainReports(w: World, c: Card, entry: nat, p: Op, base: int, tiers: Tiers)
    requires OutboxOk(w.store) && entry < w.store.nextId && p.UpdateOp? && c.retry == AgainOutboxUpdate(entry, p)
    requires PlainTexts(tiers) == PlainTexts(p.tiers)
    requires SendAgain(w, entry, c.secret, p, base, tiers).1 == Ok(None)
    ensures var w' := SendAgain(w, entry, c.secret, p, base, tiers).0;
            Gone(w'.store.outbox, entry) && Written(c, w'.wire.accepted, |w.wire.accepted|)
  {
    var req := Update(w.session.user, c.secret, base, tiers);
    var (wire, reply) := Call(w.wire, req);
    var w1 := w.(wire := wire);
    if reply.Done? {
      AcknowledgedIsLast(w.wire, req);
      LastIsWritten(c, w.wire.accepted, req);
      RemovedIsGone(w.store, entry);
    } else {
      var again := p.(base := base, tiers := tiers);
      ConflictIsRefused(w.wire, req);
      RequeuedReports(w1, entry, c.secret, again);
      var e := Entry(w.store.nextId, SECRET, c.secret, again, InConflict);
      var history := SendAgain(w, entry, c.secret, p, base, tiers).0.wire.accepted;
      var k :| |w.wire.accepted| <= k < |history| && Fulfils(e, history[k]);
      assert SaysMine(c, history[k]);
    }
  }

  /** "Mine" that is reported as done was written since, or waits as the last of the queue. */
  lemma MineIsWritten(w: World, c: Card, n: Nonces)
    requires OutboxOk(w.store) && CardFormed(c) && CardTells(w.store, c) && RetryMine(w, c, n).1 == Ok(None)
    ensures var w' := RetryMine(w, c, n).0;
            && (Written(c, w'.wire.accepted, |w.wire.accepted|) || Waits(c, w.store.outbox, w'.store.outbox))
            && (c.retry.AgainOutboxUpdate? || c.retry.AgainOutboxDelete? ==> Gone(w'.store.outbox, c.retry.entry))
  {
    match c.retry
    case AgainUpdate(kind, content) => EditAgainIsWritten(w, c, n);
    case AgainOutboxUpdate(entry, op) =>
      var sealed := Reseal(w.session, c.secret, op, c.server.version, n);
      ResealKeepsPlain(w.session, c.secret, op, c.server.version, n);
      SendAgainReports(w, c, entry, op, c.server.version, sealed.value);
    case AgainDelete => DeleteAgainIsWritten(w, c);
    case AgainOutboxDelete(entry) =>
      DeleteAgainIsWritten(w, c);
      var w1 := ClientModel.DeleteSecret(w, c.vault, c.secret, c.server.version).0;
      RemovedIsGone(w1.store, entry);
      RemovalKeepsLast(w1.store, entry, c, w.store.outbox);
  }

  lemma EditAgainIsWritten(w: World, c: Card, n: Nonces)
    requires OutboxOk(w.store) && c.retry.AgainUpdate? && RetryMine(w, c, n).1 == Ok(None)
    ensures var w' := RetryMine(w, c, n).0;
            Written(c, w'.wire.accepted, |w.wire.accepted|) || Waits(c, w.store.outbox, w'.store.outbox)
  {
    UpdateReports(w, c.vault, c.secret, c.server.version, c.retry.kind, c.retry.content, n);
    var tiers := SealTiers(w.session.open[c.vault], c.vault, c.secret, c.server.version + 1, c.retry.content, n);
    LastIsWritten(c, w.wire.accepted, Update(w.session.user, c.secret, c.server.version, tiers));
  }

  lemma DeleteAgainIsWritten(w: World, c: Card)
    requires OutboxOk(w.store) && (c.retry.AgainDelete? || c.retry.AgainOutboxDelete?)
    requires ClientModel.DeleteSecret(w, c.vault, c.secret, c.server.version).1 == Ok(None)
    ensures var w' := ClientModel.DeleteSecret(w, c.vault, c.secret, c.server.version).0;
            Written(c, w'.wire.accepted, |w.wire.accepted|) || Waits(c, w.store.outbox, w'.store.outbox)
  {
    DeleteReports(w, c.vault, c.secret, c.server.version);
    LastIsWritten(c, w.wire.accepted, Delete(w.session.user, c.secret, c.server.version));
  }

  /** Removing an older entry leaves the last one in its place. */
  lemma {:induction false} WithoutKeepsLast(outbox: seq<Entry>, entry: nat)
    requires outbox != [] && outbox[|outbox| - 1].id != entry
    ensures var left := Without(outbox, entry); left != [] && left[|left| - 1] == outbox[|outbox| - 1]
    decreases |outbox|
  {
    if |outbox| > 1 { WithoutKeepsLast(outbox[1..], entry); }
  }

  lemma RemovalKeepsLast(s: Store, entry: nat, c: Card, before: seq<Entry>)
    requires Waits(c, before, s.outbox) ==> s.outbox[|s.outbox| - 1].id != entry
    ensures Waits(c, before, s.outbox) ==> Waits(c, before, RemoveOutbox(s, entry).outbox)
  {
    if Waits(c, before, s.outbox) { WithoutKeepsLast(s.outbox, entry); }
  }
}

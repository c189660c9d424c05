/**
 * What becomes of queued operations, whatever the client does: an entry leaves the outbox only once a write that does
 * what it asks was accepted, or when another entry that asks for the same takes its place.
 */
module Accounting {
  import opened Types
  import opened Sealing
  import opened ServerModel
  import opened ServerLaws
  import opened S = StoreModel
  import opened StoreLaws
  import opened ClientModel
  import opened Freshness
  import opened ReplayLaws
  import opened VaultListing

  // ----- what an entry asks for -----

  /** An update is about its texts: the version that it is sealed for may change from try to try. */
  datatype Intent =
    | Making(vault: VaultId, kind: int, tiers: Tiers)
    | Changing(vault: VaultId, kind: int, content: Content)
    | Erasing(vault: VaultId)
    | Attaching(vault: VaultId)

  function IntentOf(op: Op): Intent {
    match op
    case CreateOp(vault, kind, tiers) => Making(vault, kind, tiers)
    case UpdateOp(vault, kind, _, tiers) => Changing(vault, kind, PlainTexts(tiers))
    case DeleteOp(vault, _) => Erasing(vault)
    case BlobOp(vault) => Attaching(vault)
  }

  predicate SameIntent(e: Entry, x: Entry) {
    x.entity == e.entity && x.entityId == e.entityId && IntentOf(x.op) == IntentOf(e.op)
  }

  /** The request does what the entry asks for. */
  predicate Fulfils(e: Entry, req: Request) {
    match IntentOf(e.op)
    case Making(vault, kind, tiers) =>
      req.Create? && req.id == e.entityId && req.vault == vault && req.kind == kind && req.tiers == tiers
    case Changing(_, _, content) => req.Update? && req.id == e.entityId && PlainTexts(req.tiers) == content
    case Erasing(_) => req.Delete? && req.id == e.entityId
    case Attaching(_) => req.Attach? && req.id == e.entityId
  }

  predicate StillAsked(outbox: seq<Entry>, e: Entry) {
    exists i :: 0 <= i < |outbox| && SameIntent(e, outbox[i])
  }

  /** Accepted since the history was this long. */
  predicate Fulfilled(history: seq<Request>, since: nat, e: Entry) {
    exists k :: since <= k < |history| && Fulfils(e, history[k])
  }

  // ----- one step to the next -----

  /** Time goes on: the server moves forward and the history of accepted requests grows. */
  ghost predicate GoesOn(wire: Wire, wire': Wire) {
    TablesOk(wire'.tables) && Later(wire.tables, wire'.tables) && wire.accepted <= wire'.accepted
  }

  ghost predicate Accounted(w: World, w': World) {
    forall e :: e in w.store.outbox ==>
      StillAsked(w'.store.outbox, e) || Fulfilled(w'.wire.accepted, |w.wire.accepted|, e)
  }

  /** What every operation does with the queue, whether the cache is fresh or not. */
  ghost predicate Accounts(w: World, w': World) {
    && OutboxOk(w'.store) && GoesOn(w.wire, w'.wire) && EntriesFixed(w.store, w'.store) && Accounted(w, w')
  }

  ghost predicate Orderly(w: World) {
    TablesOk(w.wire.tables) && OutboxOk(w.store)
  }

  lemma IntentIsTransitive(e: Entry, x: Entry, y: Entry)
    requires SameIntent(e, x) && SameIntent(x, y)
    ensures SameIntent(e, y)
  {
  }

  lemma StillAskedBy(outbox: seq<Entry>, e: Entry, x: Entry)
    requires x in outbox && SameIntent(e, x)
    ensures StillAsked(outbox, e)
  {
    var i :| 0 <= i < |outbox| && outbox[i] == x;
    assert SameIntent(e, outbox[i]);
  }

  lemma GoesOnIsTransitive(a: Wire, b: Wire, c: Wire)
    requires GoesOn(a, b) && GoesOn(b, c)
    ensures GoesOn(a, c)
  {
    LaterIsTransitive(a.tables, b.tables, c.tables);
  }

  lemma AccountedIsTransitive(w: World, v: World, u: World)
    requires w.wire.accepted <= v.wire.accepted <= u.wire.accepted && Accounted(w, v) && Accounted(v, u)
    ensures Accounted(w, u)
  {
    forall e | e in w.store.outbox
      ensures StillAsked(u.store.outbox, e) || Fulfilled(u.wire.accepted, |w.wire.accepted|, e)
    {
      if Fulfilled(v.wire.accepted, |w.wire.accepted|, e) {
        var k :| |w.wire.accepted| <= k < |v.wire.accepted| && Fulfils(e, v.wire.accepted[k]);
        assert Fulfils(e, u.wire.accepted[k]);
      } else {
        var i :| 0 <= i < |v.store.outbox| && SameIntent(e, v.store.outbox[i]);
        var x := v.store.outbox[i];
        if StillAsked(u.store.outbox, x) {
          var j :| 0 <= j < |u.store.outbox| && SameIntent(x, u.store.outbox[j]);
          assert SameIntent(e, u.store.outbox[j]);
        } else {
          var k :| |v.wire.accepted| <= k < |u.wire.accepted| && Fulfils(x, u.wire.accepted[k]);
          assert Fulfils(e, u.wire.accepted[k]);
        }
      }
    }
  }

  lemma AccountsIsTransitive(w: World, v: World, u: World)
    requires Accounts(w, v) && Accounts(v, u)
    ensures Accounts(w, u)
  {
    GoesOnIsTransitive(w.wire, v.wire, u.wire);
    AccountedIsTransitive(w, v, u);
    forall x | x in u.store.outbox && x.id < w.store.nextId ensures Old(w.store.outbox, x) {
      assert Old(v.store.outbox, x);
    }
  }

  // ----- what steps consist of -----

  ghost predicate SameQueue(s: Store, s': Store) {
    s'.outbox == s.outbox && s'.nextId == s.nextId
  }

  lemma SameQueueAccounts(w: World, w': World)
    requires Orderly(w) && w'.wire == w.wire && SameQueue(w.store, w'.store)
    ensures Accounts(w, w')
  {
    LaterIsReflexive(w.wire.tables);
    forall e | e in w.store.outbox ensures StillAsked(w'.store.outbox, e) { StillAskedBy(w'.store.outbox, e, e); }
  }

  /** A step that keeps the queue may come after any other. */
  lemma ThenSameQueue(w: World, v: World, u: World)
    requires Accounts(w, v) && u.wire == v.wire && SameQueue(v.store, u.store)
    ensures Accounts(w, u)
  {
    SameQueueAccounts(v, u);
    AccountsIsTransitive(w, v, u);
  }

  lemma CallGoesOn(wire: Wire, req: Request)
    requires TablesOk(wire.tables)
    ensures GoesOn(wire, Call(wire, req).0)
  {
    CallMovesForward(wire, req);
  }

  lemma CallAccounts(w: World, req: Request)
    requires Orderly(w)
    ensures Accounts(w, w.(wire := Call(w.wire, req).0))
  {
    CallGoesOn(w.wire, req);
    SameQueueAccounts(w, w);
    forall e | e in w.store.outbox ensures StillAsked(w.store.outbox, e) { StillAskedBy(w.store.outbox, e, e); }
  }

  /** An acknowledged request is the last one of the history. */
  lemma AcknowledgedIsLast(wire: Wire, req: Request)
    requires Call(wire, req).1.Done?
    ensures Call(wire, req).0.accepted == wire.accepted + [req]
  {
  }

  lemma AcknowledgedFulfils(wire: Wire, req: Request, e: Entry)
    requires Call(wire, req).1.Done? && Fulfils(e, req)
    ensures Fulfilled(Call(wire, req).0.accepted, |wire.accepted|, e)
  {
    AcknowledgedIsLast(wire, req);
    assert Call(wire, req).0.accepted[|wire.accepted|] == req;
  }

  lemma EnqueueAccounts(w: World, id: SecretId, op: Op, status: Status)
    requires Orderly(w)
    ensures Accounts(w, w.(store := Enqueue(w.store, id, op, status)))
  {
    var s' := Enqueue(w.store, id, op, status);
    LaterIsReflexive(w.wire.tables);
    EnqueueKeepsOutbox(w.store, id, op, status);
    forall e | e in w.store.outbox ensures StillAsked(s'.outbox, e) {
      StillAskedBy(s'.outbox, e, e);
    }
  }

  lemma RestatusKeepsAsking(outbox: seq<Entry>, entry: nat, e: Entry)
    requires e in outbox
    ensures StillAsked(Restatus(outbox, entry, InConflict), e)
  {
    RestatusMembers(outbox, entry, e);
    StillAskedBy(Restatus(outbox, entry, InConflict), e, if e.id == entry then e.(status := InConflict) else e);
  }

  lemma RestatusAccounts(w: World, entry: nat)
    requires Orderly(w)
    ensures Accounts(w, w.(store := w.store.(outbox := Restatus(w.store.outbox, entry, InConflict))))
  {
    var marked := Restatus(w.store.outbox, entry, InConflict);
    LaterIsReflexive(w.wire.tables);
    RestatusKeepsOutbox(w.store, entry, InConflict);
    forall e | e in w.store.outbox ensures StillAsked(marked, e) { RestatusKeepsAsking(w.store.outbox, entry, e); }
    forall x | x in marked ensures Old(w.store.outbox, x) { RestatusAddsNone(w.store.outbox, entry, x); }
  }

  /** An entry may go once it is fulfilled, or while another one asks for the same. */
  ghost predicate Dispensable(w: World, s: Store, since: nat, entry: nat) {
    forall e :: e in s.outbox && e.id == entry ==>
      || Fulfilled(w.wire.accepted, since, e)
      || exists x :: x in s.outbox && x.id != entry && SameIntent(e, x)
  }

  lemma RemoveAccounts(w: World, v: World, entry: nat)
    requires Accounts(w, v) && Dispensable(v, v.store, |w.wire.accepted|, entry)
    ensures Accounts(w, v.(store := RemoveOutbox(v.store, entry)))
  {
    var left := Without(v.store.outbox, entry);
    RemoveKeepsOutbox(v.store, entry);
    forall e | e in w.store.outbox ensures StillAsked(left, e) || Fulfilled(v.wire.accepted, |w.wire.accepted|, e) {
      if StillAsked(v.store.outbox, e) {
        var i :| 0 <= i < |v.store.outbox| && SameIntent(e, v.store.outbox[i]);
        OthersStayAsked(w, v, entry, e, v.store.outbox[i]);
      }
    }
    forall x | x in left ensures x in v.store.outbox { WithoutMembers(v.store.outbox, entry, x); }
  }

  lemma OthersStayAsked(w: World, v: World, entry: nat, e: Entry, x: Entry)
    requires Dispensable(v, v.store, |w.wire.accepted|, entry) && x in v.store.outbox && SameIntent(e, x)
    ensures StillAsked(Without(v.store.outbox, entry), e) || Fulfilled(v.wire.accepted, |w.wire.accepted|, e)
  {
    if x.id == entry && Fulfilled(v.wire.accepted, |w.wire.accepted|, x) {
      var k :| |w.wire.accepted| <= k < |v.wire.accepted| && Fulfils(x, v.wire.accepted[k]);
      assert Fulfils(e, v.wire.accepted[k]);
    } else {
      assert SameIntent(x, x);
      var y :| y in v.store.outbox && y.id != entry && SameIntent(x, y);
      WithoutMembers(v.store.outbox, entry, y);
      IntentIsTransitive(e, x, y);
      StillAskedBy(Without(v.store.outbox, entry), e, y);
    }
  }
}

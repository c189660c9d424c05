/** What a replay of the outbox does with every entry, whatever the server answers. */
module ReplayLaws {
  import opened Types
  import opened Sealing
  import opened ServerModel
  import opened S = StoreModel
  import opened StoreLaws
  import opened ClientModel

  // ----- one turn -----

  /** The one write that the turn of an entry can get accepted. */
  predicate SentFor(user: UserId, e: Entry, req: Request) {
    match e.op
    case CreateOp(vault, kind, tiers) => req == Create(user, e.entityId, vault, kind, tiers)
    case UpdateOp(_, _, base, tiers) => req == Update(user, e.entityId, base, tiers)
    case DeleteOp(_, base) => req == Delete(user, e.entityId, base)
    case BlobOp(_) => req.Attach? && req.user == user && req.id == e.entityId && req.base == INITIAL_VERSION
  }

  /** What the call adds to the history of accepted requests. */
  ghost predicate Adds(before: Wire, after: Wire, req: Request, acknowledged: bool) {
    && (after.accepted == before.accepted || after.accepted == before.accepted + [req])
    && (acknowledged ==> after.accepted == before.accepted + [req])
  }

  lemma CallAdds(wire: Wire, req: Request)
    ensures var (after, reply) := Call(wire, req);
            Adds(wire, after, req, reply.Done?)
  {
  }

  /** Only the entry itself can change: it stays, or goes after an acknowledged write, or is marked. */
  ghost predicate TurnOk(w: World, e: Entry, w': World, done: Result<bool>) {
    && w'.session == w.session
    && w'.store.nextId == w.store.nextId
    && (exists sent :: w'.wire.accepted == w.wire.accepted + sent && |sent| <= 1
          && (|sent| == 1 ==> SentFor(w.session.user, e, sent[0]))
          && (done == Ok(true) ==> |sent| == 1))
    && (match done
        case Ok(true) => w'.store.outbox == Without(w.store.outbox, e.id)
        case Ok(false) => w'.store.outbox == w.store.outbox
                       || w'.store.outbox == Restatus(w.store.outbox, e.id, InConflict)
        case Err(_) => w'.store.outbox == w.store.outbox)
  }

  lemma ReplayCreateTurn(w: World, e: Entry)
    requires e.op.CreateOp?
    ensures TurnOk(w, e, ReplayTurn(w, e).0, ReplayTurn(w, e).1)
  {
    var req := Create(w.session.user, e.entityId, e.op.vault, e.op.kind, e.op.tiers);
    CallAdds(w.wire, req);
    NothingOrOne(w.wire, Call(w.wire, req).0, req);
  }

  lemma NothingOrOne(before: Wire, after: Wire, req: Request)
    requires Adds(before, after, req, false)
    ensures after.accepted == before.accepted + [] || after.accepted == before.accepted + [req]
  {
  }

  lemma ReplayUpdateTurn(w: World, e: Entry)
    requires e.op.UpdateOp?
    ensures TurnOk(w, e, ReplayTurn(w, e).0, ReplayTurn(w, e).1)
  {
    var req := Update(w.session.user, e.entityId, e.op.base, e.op.tiers);
    CallAdds(w.wire, req);
    NothingOrOne(w.wire, Call(w.wire, req).0, req);
  }

  lemma ReplayDeleteTurn(w: World, e: Entry)
    requires e.op.DeleteOp?
    ensures TurnOk(w, e, ReplayTurn(w, e).0, ReplayTurn(w, e).1)
  {
    var req := Delete(w.session.user, e.entityId, e.op.base);
    CallAdds(w.wire, req);
    NothingOrOne(w.wire, Call(w.wire, req).0, req);
  }

  lemma UploadAddsNothing(wire: Wire, user: UserId, id: SecretId)
    ensures Call(wire, Upload(user, id)).0.accepted == wire.accepted
  {
  }

  lemma ReplayBlobTurn(w: World, e: Entry)
    requires e.op.BlobOp?
    ensures TurnOk(w, e, ReplayTurn(w, e).0, ReplayTurn(w, e).1)
  {
    assert w.wire.accepted == w.wire.accepted + [];
    UploadAddsNothing(w.wire, w.session.user, e.entityId);
    var (wire1, uploaded) := Call(w.wire, Upload(w.session.user, e.entityId));
    if uploaded.Uploaded? {
      var req := Attach(w.session.user, e.entityId, INITIAL_VERSION, uploaded.blobRef);
      CallAdds(wire1, req);
      NothingOrOne(wire1, Call(wire1, req).0, req);
    }
  }

  lemma TurnIsOk(w: World, e: Entry)
    ensures TurnOk(w, e, ReplayTurn(w, e).0, ReplayTurn(w, e).1)
  {
    match e.op
    case CreateOp(_, _, _) => ReplayCreateTurn(w, e);
    case UpdateOp(_, _, _, _) => ReplayUpdateTurn(w, e);
    case DeleteOp(_, _) => ReplayDeleteTurn(w, e);
    case BlobOp(_) => ReplayBlobTurn(w, e);
  }

  // ----- the whole replay -----

  /** How many turns went by without an error: the replay stops at the first error that is no version conflict. */
  function Completed(w: World, entries: seq<Entry>): nat
    decreases |entries|
  {
    if entries == [] then 0
    else if entries[0].entity != SECRET then 1 + Completed(w, entries[1..])
    else
      var (w1, done) := ReplayTurn(w, entries[0]);
      if done.Err? then 0 else 1 + Completed(w1, entries[1..])
  }

  function TurnSent(w: World, e: Entry): seq<Request> {
    var after := ReplayTurn(w, e).0.wire.accepted;
    if |after| > |w.wire.accepted| then after[|w.wire.accepted|..] else []
  }

  lemma TurnSendsAtMostOne(w: World, e: Entry)
    ensures var sent := TurnSent(w, e);
            && ReplayTurn(w, e).0.wire.accepted == w.wire.accepted + sent
            && ReplayTurn(w, e).0.session == w.session
            && |sent| <= 1
            && (|sent| == 1 ==> SentFor(w.session.user, e, sent[0]))
            && (ReplayTurn(w, e).1 == Ok(true) ==> |sent| == 1)
  {
    TurnIsOk(w, e);
  }

  /** For each entry, the requests of this client that the server accepted in its turn. */
  ghost function Sent(w: World, entries: seq<Entry>): (sent: seq<seq<Request>>)
    ensures |sent| == |entries|
    decreases |entries|
  {
    if entries == [] then []
    else if entries[0].entity != SECRET then [[]] + Sent(w, entries[1..])
    else
      var (w1, done) := ReplayTurn(w, entries[0]);
      [TurnSent(w, entries[0])] + if done.Err? then Nothing(|entries| - 1) else Sent(w1, entries[1..])
  }

  function Nothing(k: nat): (parts: seq<seq<Request>>)
    ensures |parts| == k && Flatten(parts) == []
    ensures forall i :: 0 <= i < k ==> parts[i] == []
  {
    if k == 0 then [] else [[]] + Nothing(k - 1)
  }

  function Flatten(parts: seq<seq<Request>>): seq<Request> {
    if parts == [] then [] else parts[0] + Flatten(parts[1..])
  }

  lemma FlattenHead(head: seq<Request>, rest: seq<seq<Request>>, before: seq<Request>)
    ensures (before + head) + Flatten(rest) == before + Flatten([head] + rest)
  {
    assert ([head] + rest)[1..] == rest;
  }

  /** What the history of accepted requests gains is what was sent for the entries, in the order of the queue. */
  lemma {:induction false} AcceptancesFollowTheQueue(w: World, entries: seq<Entry>)
    ensures ReplayAll(w, entries).0.wire.accepted == w.wire.accepted + Flatten(Sent(w, entries))
    decreases |entries|
  {
    if entries == [] {
    } else if entries[0].entity != SECRET {
      AcceptancesFollowTheQueue(w, entries[1..]);
      FlattenHead([], Sent(w, entries[1..]), w.wire.accepted);
    } else {
      TurnSendsAtMostOne(w, entries[0]);
      var (w1, done) := ReplayTurn(w, entries[0]);
      if done.Err? {
        FlattenHead(TurnSent(w, entries[0]), Nothing(|entries| - 1), w.wire.accepted);
      } else {
        AcceptancesFollowTheQueue(w1, entries[1..]);
        FlattenHead(TurnSent(w, entries[0]), Sent(w1, entries[1..]), w.wire.accepted);
      }
    }
  }

  /** At most one write is accepted for an entry, it is that entry's own, and none is sent after the first error. */
  lemma {:induction false} EachEntrySendsItsOwn(w: World, entries: seq<Entry>, j: nat)
    requires j < |entries|
    ensures var sent := Sent(w, entries)[j];
            && |sent| <= 1
            && (|sent| == 1 ==> SentFor(w.session.user, entries[j], sent[0]))
            && (j > Completed(w, entries) ==> sent == [])
    decreases |entries|
  {
    if entries[0].entity != SECRET {
      if j > 0 { EachEntrySendsItsOwn(w, entries[1..], j - 1); }
    } else {
      TurnSendsAtMostOne(w, entries[0]);
      var (w1, done) := ReplayTurn(w, entries[0]);
      if j > 0 && done.Ok? { EachEntrySendsItsOwn(w1, entries[1..], j - 1); }
    }
  }

  /** The entry after the replay: with its payload, pending as before or marked as a conflict. */
  predicate Survives(outbox: seq<Entry>, e: Entry) {
    e in outbox || e.(status := InConflict) in outbox
  }

  lemma RestatusMembers(outbox: seq<Entry>, entry: nat, x: Entry)
    requires x in outbox
    ensures (if x.id == entry then x.(status := InConflict) else x) in Restatus(outbox, entry, InConflict)
  {
    var i :| 0 <= i < |outbox| && outbox[i] == x;
    assert Restatus(outbox, entry, InConflict)[i] in Restatus(outbox, entry, InConflict);
  }

  /** A turn leaves every other entry as it is. */
  lemma TurnSparesOthers(w: World, e: Entry, x: Entry)
    requires x in w.store.outbox && x.id != e.id
    ensures x in ReplayTurn(w, e).0.store.outbox
  {
    TurnIsOk(w, e);
    WithoutMembers(w.store.outbox, e.id, x);
    RestatusMembers(w.store.outbox, e.id, x);
  }

  lemma TurnAddsNoEntry(w: World, e: Entry, y: Entry)
    requires y in ReplayTurn(w, e).0.store.outbox
    ensures exists x :: x in w.store.outbox && x.id == y.id && (y == x || y == x.(status := InConflict))
  {
    TurnIsOk(w, e);
    WithoutMembers(w.store.outbox, e.id, y);
    var marked := Restatus(w.store.outbox, e.id, InConflict);
    if y in marked {
      var i :| 0 <= i < |marked| && marked[i] == y;
      assert w.store.outbox[i] in w.store.outbox;
    }
  }

  /** No entry comes out of a replay but those that went in, with their payloads. */
  lemma {:induction false} ReplayAddsNoEntry(w: World, entries: seq<Entry>, y: Entry)
    requires y in ReplayAll(w, entries).0.store.outbox
    ensures exists x :: x in w.store.outbox && x.id == y.id && (y == x || y == x.(status := InConflict))
    decreases |entries|
  {
    if entries == [] {
      assert y in w.store.outbox && y.id == y.id;
    } else if entries[0].entity != SECRET {
      ReplayAddsNoEntry(w, entries[1..], y);
    } else {
      var (w1, done) := ReplayTurn(w, entries[0]);
      if done.Err? {
        TurnAddsNoEntry(w, entries[0], y);
      } else {
        ReplayAddsNoEntry(w1, entries[1..], y);
        var x :| x in w1.store.outbox && x.id == y.id && (y == x || y == x.(status := InConflict));
        TurnAddsNoEntry(w, entries[0], x);
      }
    }
  }

  lemma {:induction false} ReplaySparesOthers(w: World, entries: seq<Entry>, x: Entry)
    requires x in w.store.outbox && forall i :: 0 <= i < |entries| ==> entries[i].id != x.id
    ensures x in ReplayAll(w, entries).0.store.outbox
    decreases |entries|
  {
    if entries != [] {
      assert forall i :: 0 <= i < |entries[1..]| ==> entries[1..][i] == entries[i + 1];
      if entries[0].entity != SECRET {
        ReplaySparesOthers(w, entries[1..], x);
      } else {
        TurnSparesOthers(w, entries[0], x);
        ReplaySparesOthers(ReplayTurn(w, entries[0]).0, entries[1..], x);
      }
    }
  }

  lemma {:induction false} GoneStaysGone(w: World, entries: seq<Entry>, e: Entry)
    requires Gone(w.store.outbox, e.id)
    ensures Gone(ReplayAll(w, entries).0.store.outbox, e.id)
  {
    forall y | y in ReplayAll(w, entries).0.store.outbox ensures y.id != e.id {
      ReplayAddsNoEntry(w, entries, y);
    }
  }

  /** The state of the entry at place j of the queue after the replay. */
  ghost predicate EntryFate(w: World, entries: seq<Entry>, j: nat)
    requires j < |entries|
  {
    var outbox := ReplayAll(w, entries).0.store.outbox;
    && (Survives(outbox, entries[j]) || (Gone(outbox, entries[j].id) && |Sent(w, entries)[j]| == 1))
    && (j >= Completed(w, entries) ==> entries[j] in outbox)
  }

  lemma MarkedSurvives(w: World, entries: seq<Entry>, e: Entry)
    requires e.(status := InConflict) in w.store.outbox && forall i :: 0 <= i < |entries| ==> entries[i].id != e.id
    ensures Survives(ReplayAll(w, entries).0.store.outbox, e)
  {
    ReplaySparesOthers(w, entries, e.(status := InConflict));
  }

  /** The first entry meets its fate in its own turn. */
  lemma FirstEntryFate(w: World, entries: seq<Entry>)
    requires entries != [] && entries[0] in w.store.outbox && Increasing(entries)
    ensures EntryFate(w, entries, 0)
  {
    var e, rest := entries[0], entries[1..];
    assert forall i :: 0 <= i < |rest| ==> rest[i] == entries[i + 1];
    if e.entity != SECRET {
      ReplaySparesOthers(w, rest, e);
    } else {
      TurnIsOk(w, e);
      var (w1, done) := ReplayTurn(w, e);
      if done == Ok(true) {
        forall x | x in w1.store.outbox ensures x.id != e.id {
          WithoutMembers(w.store.outbox, e.id, x);
        }
        GoneStaysGone(w1, rest, e);
      } else if done == Ok(false) {
        if w1.store.outbox == w.store.outbox {
          ReplaySparesOthers(w1, rest, e);
        } else {
          RestatusMembers(w.store.outbox, e.id, e);
          MarkedSurvives(w1, rest, e);
        }
      }
    }
  }

  /**
   * Conservation: every entry that a replay removes had its write accepted in its turn; every other entry survives
   * with its payload, pending or marked as a conflict; and from the first error that is no version conflict on, entries
   * are exactly as they were.
   */
  lemma {:induction false} ReplayConserves(w: World, entries: seq<Entry>, j: nat)
    requires Increasing(entries) && (forall e :: e in entries ==> e in w.store.outbox) && j < |entries|
    ensures EntryFate(w, entries, j)
    decreases |entries|
  {
    if j == 0 {
      FirstEntryFate(w, entries);
    } else {
      var e, rest := entries[0], entries[1..];
      assert rest[j - 1] == entries[j];
      assert forall i :: 0 <= i < |rest| ==> rest[i] == entries[i + 1];
      if e.entity != SECRET {
        ReplayConserves(w, rest, j - 1);
      } else {
        var (w1, done) := ReplayTurn(w, e);
        forall x | x in rest ensures x in w1.store.outbox {
          assert x in entries && x.id != e.id;
          TurnSparesOthers(w, e, x);
        }
        if done.Ok? {
          ReplayConserves(w1, rest, j - 1);
        } else {
          assert entries[j] in rest;
        }
      }
    }
  }

  lemma {:induction false} ByStatusIncreasing(outbox: seq<Entry>, status: Status)
    requires Increasing(outbox)
    ensures Increasing(ByStatus(outbox, status))
    decreases |outbox|
  {
    if outbox != [] {
      var tail := outbox[1..];
      ByStatusIncreasing(tail, status);
      var rest := ByStatus(tail, status);
      forall j | 0 <= j < |rest| ensures outbox[0].id < rest[j].id {
        ByStatusMembers(tail, status, rest[j]);
        var k :| 0 <= k < |tail| && tail[k] == rest[j];
        assert outbox[k + 1] == rest[j];
      }
    }
  }

  // ----- the order of the queue -----

  lemma TurnKeepsOrder(w: World, e: Entry)
    requires OutboxOk(w.store)
    ensures OutboxOk(ReplayTurn(w, e).0.store)
  {
    TurnIsOk(w, e);
    RemoveKeepsOutbox(w.store, e.id);
    RestatusKeepsOutbox(w.store, e.id, InConflict);
  }

  lemma {:induction false} ReplayKeepsOrder(w: World, entries: seq<Entry>)
    requires OutboxOk(w.store)
    ensures OutboxOk(ReplayAll(w, entries).0.store)
    decreases |entries|
  {
    if entries != [] {
      if entries[0].entity != SECRET {
        ReplayKeepsOrder(w, entries[1..]);
      } else {
        TurnKeepsOrder(w, entries[0]);
        ReplayKeepsOrder(ReplayTurn(w, entries[0]).0, entries[1..]);
      }
    }
  }

  /** The same entry, perhaps marked as a conflict since. */
  predicate SameEntry(x: Entry, y: Entry) {
    y == x || y == x.(status := InConflict)
  }

  /** Every entry after stands for one before, and they stand in the same order. */
  ghost predicate SubQueue(before: seq<Entry>, after: seq<Entry>) {
    && (forall y :: y in after ==> exists x :: x in before && SameEntry(x, y))
    && (forall i, j, a, b ::
          0 <= i < j < |after| && 0 <= a < |before| && 0 <= b < |before| ==>
          (SameEntry(before[a], after[i]) && SameEntry(before[b], after[j]) ==> a < b))
  }

  lemma SameOrder(before: seq<Entry>, after: seq<Entry>, i: nat, j: nat, a: nat, b: nat)
    requires Increasing(before) && Increasing(after)
    requires i < j < |after| && a < |before| && b < |before|
    requires before[a].id == after[i].id && before[b].id == after[j].id
    ensures a < b
  {
  }

  lemma OrderIsKept(before: seq<Entry>, after: seq<Entry>)
    requires Increasing(before) && Increasing(after)
    ensures forall i, j, a, b ::
              0 <= i < j < |after| && 0 <= a < |before| && 0 <= b < |before| ==>
              (SameEntry(before[a], after[i]) && SameEntry(before[b], after[j]) ==> a < b)
  {
    forall i, j, a, b | 0 <= i < j < |after| && 0 <= a < |before| && 0 <= b < |before|
        && SameEntry(before[a], after[i]) && SameEntry(before[b], after[j])
      ensures a < b
    {
      SameOrder(before, after, i, j, a, b);
    }
  }

  /** The queue after a replay is what is left of the queue before it, in its order. */
  lemma ReplayThinsTheQueue(w: World, entries: seq<Entry>)
    requires OutboxOk(w.store)
    ensures SubQueue(w.store.outbox, ReplayAll(w, entries).0.store.outbox)
  {
    var before, after := w.store.outbox, ReplayAll(w, entries).0.store.outbox;
    ReplayKeepsOrder(w, entries);
    forall y | y in after ensures exists x :: x in before && SameEntry(x, y) {
      ReplayAddsNoEntry(w, entries, y);
      var x :| x in before && x.id == y.id && (y == x || y == x.(status := InConflict));
      assert SameEntry(x, y);
    }
    OrderIsKept(before, after);
  }

  /** The same for the operation itself: pending entries meet their fate, all others are untouched, the order stays. */
  lemma OutboxReplayConserves(w: World)
    requires OutboxOk(w.store)
    ensures var pending := ByStatus(w.store.outbox, Pending);
            && (forall j :: 0 <= j < |pending| ==> EntryFate(w, pending, j))
            && (forall x :: x in w.store.outbox && x.status == InConflict ==> x in ReplayOutbox(w).0.store.outbox)
            && SubQueue(w.store.outbox, ReplayOutbox(w).0.store.outbox)
            && ReplayOutbox(w).0.wire.accepted == w.wire.accepted + Flatten(Sent(w, pending))
  {
    var pending := ByStatus(w.store.outbox, Pending);
    ByStatusIncreasing(w.store.outbox, Pending);
    forall e | e in pending ensures e in w.store.outbox {
      ByStatusMembers(w.store.outbox, Pending, e);
    }
    forall j | 0 <= j < |pending| ensures EntryFate(w, pending, j) {
      ReplayConserves(w, pending, j);
    }
    forall x | x in w.store.outbox && x.status == InConflict ensures x in ReplayOutbox(w).0.store.outbox {
      forall i | 0 <= i < |pending| ensures pending[i].id != x.id {
        ByStatusMembers(w.store.outbox, Pending, pending[i]);
        if pending[i].id == x.id { DistinctIds(w.store, pending[i], x); }
      }
      ReplaySparesOthers(w, pending, x);
    }
    ReplayThinsTheQueue(w, pending);
    AcceptancesFollowTheQueue(w, pending);
  }
}

/** What a replay reports: the end of its queue, or the first turn that failed. */
module ReplayResults {
  import opened Types
  import opened ServerModel
  import opened ServerLaws
  import opened S = StoreModel
  import opened StoreLaws
  import opened ClientModel
  import opened ReplayLaws
  import opened BlockedQueue

  /** The world when the turn of this place in the queue begins, if none before it failed. */
  function Reached(w: World, entries: seq<Entry>, j: nat): World
    requires j <= |entries|
    decreases |entries|
  {
    if j == 0 then w
    else if entries[0].entity != SECRET then Reached(w, entries[1..], j - 1)
    else Reached(ReplayTurn(w, entries[0]).0, entries[1..], j - 1)
  }

  /** How the turn of this place ends: with an error, or done, or left in the queue. */
  function Ending(w: World, entries: seq<Entry>, j: nat): Result<bool>
    requires j < |entries|
  {
    if entries[j].entity != SECRET then Ok(false) else ReplayTurn(Reached(w, entries, j), entries[j]).1
  }

  /** The first failure along the queue is at this place. */
  ghost predicate FailsFirst(w: World, entries: seq<Entry>, j: nat) {
    j < |entries| && Ending(w, entries, j).Err? && forall i :: 0 <= i < j ==> Ending(w, entries, i).Ok?
  }

  lemma EndingsOfRest(w: World, entries: seq<Entry>, j: nat)
    requires 0 < j < |entries|
    ensures Ending(w, entries, j) ==
            Ending(if entries[0].entity != SECRET then w else ReplayTurn(w, entries[0]).0, entries[1..], j - 1)
  {
    assert entries[1..][j - 1] == entries[j];
  }

  /**
   * A replay reports the end of the queue if no turn failed. Otherwise it stops at the first turn that failed, in the
   * world that this turn leaves, and reports its error, or nothing if that was an outage.
   */
  lemma {:induction false} StopsAtFirstFailure(w: World, entries: seq<Entry>, j: nat)
    requires FailsFirst(w, entries, j)
    ensures var e := Ending(w, entries, j).error;
            && ReplayAll(w, entries).0 == ReplayTurn(Reached(w, entries, j), entries[j]).0
            && ReplayAll(w, entries).1 == if e.Unavailable? then Ok(Unit) else Err(e)
    decreases |entries|
  {
    if j > 0 {
      var rest := entries[1..];
      var w1 := if entries[0].entity != SECRET then w else ReplayTurn(w, entries[0]).0;
      assert Ending(w, entries, 0).Ok?;
      EndingsOfRest(w, entries, j);
      forall i | 0 <= i < j - 1 ensures Ending(w1, rest, i).Ok? { EndingsOfRest(w, entries, i + 1); }
      assert rest[j - 1] == entries[j];
      StopsAtFirstFailure(w1, rest, j - 1);
    }
  }

  lemma {:induction false} EndsWithoutFailure(w: World, entries: seq<Entry>)
    requires forall i :: 0 <= i < |entries| ==> Ending(w, entries, i).Ok?
    ensures ReplayAll(w, entries) == (Reached(w, entries, |entries|), Ok(Unit))
    decreases |entries|
  {
    if entries != [] {
      var rest := entries[1..];
      var w1 := if entries[0].entity != SECRET then w else ReplayTurn(w, entries[0]).0;
      assert Ending(w, entries, 0).Ok?;
      forall i | 0 <= i < |rest| ensures Ending(w1, rest, i).Ok? { EndingsOfRest(w, entries, i + 1); }
      EndsWithoutFailure(w1, rest);
    }
  }

  lemma {:induction false} FailsFirstOrNever(w: World, entries: seq<Entry>, k: nat)
    requires k <= |entries|
    ensures (forall i :: 0 <= i < k ==> Ending(w, entries, i).Ok?) || exists j :: FailsFirst(w, entries, j)
    decreases k
  {
    if k > 0 {
      FailsFirstOrNever(w, entries, k - 1);
      if (forall i :: 0 <= i < k - 1 ==> Ending(w, entries, i).Ok?) && Ending(w, entries, k - 1).Err? {
        assert FailsFirst(w, entries, k - 1);
      }
    }
  }

  lemma FailsFirstOnce(w: World, entries: seq<Entry>, i: nat, j: nat)
    requires FailsFirst(w, entries, i) && FailsFirst(w, entries, j)
    ensures i == j
  {
  }

  /** No turn fails, or the first one to fail does so for want of a network. */
  ghost predicate EndsWell(w: World, entries: seq<Entry>) {
    forall j: nat :: FailsFirst(w, entries, j) ==> Ending(w, entries, j).error.Unavailable?
  }

  /** A replay reports success if and only if it ends well, and otherwise exactly the error of the first failure. */
  lemma ReplayReports(w: World)
    ensures var r, pending := ReplayOutbox(w).1, ByStatus(w.store.outbox, Pending);
            && (r.Ok? <==> EndsWell(w, pending))
            && (r.Err? ==> exists j: nat :: FailsFirst(w, pending, j) && r == Err(Ending(w, pending, j).error))
  {
    var pending := ByStatus(w.store.outbox, Pending);
    FailsFirstOrNever(w, pending, |pending|);
    if j: nat :| FailsFirst(w, pending, j) {
      StopsAtFirstFailure(w, pending, j);
      forall i: nat | FailsFirst(w, pending, i) ensures i == j { FailsFirstOnce(w, pending, i, j); }
    } else {
      EndsWithoutFailure(w, pending);
    }
  }

  // ----- how a turn ends -----

  /** A turn ends as its request is answered: done, or in conflict and left in the queue, or with the error. */
  lemma TurnEndsAsAnswered(w: World, e: Entry)
    requires !e.op.BlobOp? && e in w.store.outbox
    ensures var reply := Call(w.wire, RequestOf(w.session.user, e)).1;
            ReplayTurn(w, e).1 ==
              if !reply.Fault? then Ok(true)
              else if reply.error.Conflict? && !e.op.CreateOp? then Ok(false)
              else Err(reply.error)
  {
  }

  /** The turn of an upload is done with the attachment, left for later by an outage, and fails otherwise. */
  lemma UploadTurnEnds(w: World, e: Entry)
    requires e.op.BlobOp?
    ensures var sent := RetryBlobUpload(w, e.entityId, e.op.vault).1;
            ReplayTurn(w, e).1 ==
              if sent.Ok? then Ok(true) else if sent.error.Unavailable? then Ok(false) else Err(sent.error)
  {
  }

  // ----- a queue that is stuck says so -----

  lemma {:induction false} HeadIsFirst(w: World, entries: seq<Entry>)
    requires Head(entries).Some? && ReplayTurn(w, Head(entries).value).1.Err?
    ensures var e := ReplayTurn(w, Head(entries).value).1.error;
            ReplayAll(w, entries).1 == if e.Unavailable? then Ok(Unit) else Err(e)
    decreases |entries|
  {
    if entries[0].entity != SECRET { HeadIsFirst(w, entries[1..]); }
  }

  lemma {:induction false} HeadIsMember(entries: seq<Entry>)
    requires Head(entries).Some?
    ensures Head(entries).value in entries
    decreases |entries|
  {
    if entries[0].entity != SECRET { HeadIsMember(entries[1..]); }
  }

  /** Each replay that never gets past the head reports what its request was answered, unless that was an outage. */
  lemma {:induction false} BlockedReports(w: World, e: Entry, k: nat)
    requires TablesOk(w.wire.tables) && QueueHead(w.store) == Some(e) && Blocked(w, e)
    ensures var w' := Replays(w, k);
            var reply := Call(w'.wire, RequestOf(w'.session.user, e)).1;
            && reply.Fault?
            && ReplayOutbox(w').1 == if reply.error.Unavailable? then Ok(Unit) else Err(reply.error)
    decreases k
  {
    BlockedTurn(w, e);
    if k > 0 {
      StopsAtHead(w, ByStatus(w.store.outbox, Pending));
      BlockedReports(ReplayOutbox(w).0, e, k - 1);
    } else {
      HeadIsFirst(w, ByStatus(w.store.outbox, Pending));
      HeadIsMember(ByStatus(w.store.outbox, Pending));
      ByStatusMembers(w.store.outbox, Pending, e);
      TurnEndsAsAnswered(w, e);
    }
  }
}

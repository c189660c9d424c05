/** How the outbox evolves: identifiers stay ordered and are never reused. */
module StoreLaws {
  import opened Types
  import opened S = StoreModel

  ghost predicate Increasing(outbox: seq<Entry>) {
    forall i, j :: 0 <= i < j < |outbox| ==> outbox[i].id < outbox[j].id
  }

  ghost predicate OutboxOk(s: Store) {
    Increasing(s.outbox) && forall e :: e in s.outbox ==> e.id < s.nextId
  }

  lemma {:induction false} ByStatusMembers(outbox: seq<Entry>, status: Status, e: Entry)
    ensures e in ByStatus(outbox, status) <==> e in outbox && e.status == status
    decreases |outbox|
  {
    if outbox != [] {
      ByStatusMembers(outbox[1..], status, e);
    }
  }

  lemma {:induction false} ByStatusAppend(outbox: seq<Entry>, e: Entry, status: Status)
    ensures ByStatus(outbox + [e], status) == ByStatus(outbox, status) + if e.status == status then [e] else []
    decreases |outbox|
  {
    if outbox == [] {
      assert outbox + [e] == [e] && [e][1..] == [];
    } else {
      assert (outbox + [e])[1..] == outbox[1..] + [e];
      ByStatusAppend(outbox[1..], e, status);
    }
  }

  predicate Gone(outbox: seq<Entry>, entry: nat) {
    forall x :: x in outbox ==> x.id != entry
  }

  lemma {:induction false} WithoutMembers(outbox: seq<Entry>, entry: nat, e: Entry)
    ensures e in Without(outbox, entry) <==> e in outbox && e.id != entry
    decreases |outbox|
  {
    if outbox != [] {
      WithoutMembers(outbox[1..], entry, e);
    }
  }

  lemma DistinctIds(s: Store, x: Entry, y: Entry)
    requires OutboxOk(s) && x in s.outbox && y in s.outbox && x.id == y.id
    ensures x == y
  {
  }

  lemma EnqueueKeepsOutbox(s: Store, id: SecretId, op: Op, status: Status)
    requires OutboxOk(s)
    ensures OutboxOk(Enqueue(s, id, op, status))
  {
  }

  lemma RestatusKeepsOutbox(s: Store, entry: nat, status: Status)
    requires OutboxOk(s)
    ensures OutboxOk(s.(outbox := Restatus(s.outbox, entry, status)))
  {
  }

  lemma {:induction false} WithoutKeepsOrder(outbox: seq<Entry>, entry: nat)
    requires Increasing(outbox)
    ensures Increasing(Without(outbox, entry))
    decreases |outbox|
  {
    if outbox != [] {
      var tail := outbox[1..];
      WithoutKeepsOrder(tail, entry);
      var rest := Without(tail, entry);
      forall j | 0 <= j < |rest| ensures outbox[0].id < rest[j].id {
        WithoutMembers(tail, entry, rest[j]);
        var k :| 0 <= k < |tail| && tail[k] == rest[j];
        assert outbox[k + 1] == rest[j];
      }
    }
  }

  lemma RemoveKeepsOutbox(s: Store, entry: nat)
    requires OutboxOk(s)
    ensures OutboxOk(RemoveOutbox(s, entry))
  {
    WithoutKeepsOrder(s.outbox, entry);
    forall e | e in Without(s.outbox, entry) ensures e.id < s.nextId {
      WithoutMembers(s.outbox, entry, e);
    }
  }

  lemma RestatusKeepsOutstanding(outbox: seq<Entry>, entry: nat, status: Status)
    ensures Outstanding(Restatus(outbox, entry, status)) == Outstanding(outbox)
  {
    var marked := Restatus(outbox, entry, status);
    forall id | id in Outstanding(outbox) ensures id in Outstanding(marked) {
      var i :| 0 <= i < |outbox| && outbox[i].entity == SECRET && outbox[i].entityId == id;
      assert marked[i] in marked;
    }
    forall id | id in Outstanding(marked) ensures id in Outstanding(outbox) {
      var i :| 0 <= i < |marked| && marked[i].entity == SECRET && marked[i].entityId == id;
      assert outbox[i] in outbox;
    }
  }

  lemma EnqueueMakesOutstanding(s: Store, id: SecretId, op: Op, status: Status)
    ensures Outstanding(Enqueue(s, id, op, status).outbox) == Outstanding(s.outbox) + {id}
  {
    var outbox := Enqueue(s, id, op, status).outbox;
    assert outbox[|s.outbox|] in outbox;
    forall e | e in s.outbox ensures e in outbox {
      var i :| 0 <= i < |s.outbox| && s.outbox[i] == e;
      assert outbox[i] == e;
    }
  }

  /** entry was given out for this secret, so no other entry will ever bear it. */
  ghost predicate Named(s: Store, entry: nat, id: SecretId) {
    entry < s.nextId && forall x :: x in s.outbox && x.id == entry ==> x.entityId == id
  }

  lemma RemoveReleasesOnly(s: Store, entry: nat, id: SecretId)
    requires Named(s, entry, id)
    ensures Outstanding(s.outbox) <= Outstanding(RemoveOutbox(s, entry).outbox) + {id}
  {
    forall e | e in s.outbox && e.id != entry ensures e in Without(s.outbox, entry) {
      WithoutMembers(s.outbox, entry, e);
    }
  }

  /** The entry was there already, perhaps still pending. */
  predicate Old(outbox: seq<Entry>, x: Entry) {
    x in outbox || x.(status := Pending) in outbox
  }

  /** Entries are never changed but for their status, and their numbers are not used again. */
  ghost predicate EntriesFixed(s: Store, s': Store) {
    s.nextId <= s'.nextId && forall x :: x in s'.outbox && x.id < s.nextId ==> Old(s.outbox, x)
  }

  lemma RestatusAddsNone(outbox: seq<Entry>, entry: nat, x: Entry)
    requires x in Restatus(outbox, entry, InConflict)
    ensures Old(outbox, x)
  {
    var marked := Restatus(outbox, entry, InConflict);
    var i :| 0 <= i < |marked| && marked[i] == x;
    var y := outbox[i];
    assert y in outbox && (y == x || y.(status := InConflict) == x);
    assert y == y.(status := Pending) || y.status.InConflict?;
  }
}

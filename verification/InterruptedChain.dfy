/**
 * Replays that stop halfway, between offline edits of one secret that nobody else touches: what they leave of the
 * queue, and which edits still fit it afterwards.
 */
module InterruptedChain {
  import opened Types
  import opened Sealing
  import opened ServerModel
  import opened S = StoreModel
  import opened StoreLaws
  import opened ClientModel
  import opened ReplayLaws
  import opened OfflineChain

  // ----- the entries of one secret -----

  function EntriesOf(entries: seq<Entry>, id: SecretId): seq<Entry> {
    if entries == [] then []
    else (if entries[0].entityId == id then [entries[0]] else []) + EntriesOf(entries[1..], id)
  }

  lemma {:induction false} SameEntriesSameOps(entries: seq<Entry>, id: SecretId)
    ensures OpsOf(entries, id) == OpsOf(EntriesOf(entries, id), id)
    ensures AllWaiting(entries, id) <==> AllWaiting(EntriesOf(entries, id), id)
    decreases |entries|
  {
    if entries != [] {
      var rest := EntriesOf(entries[1..], id);
      SameEntriesSameOps(entries[1..], id);
      if entries[0].entityId == id {
        assert ([entries[0]] + rest)[1..] == rest;
      } else {
        assert [] + rest == rest;
      }
      AllWaitingCons(entries, id);
      if EntriesOf(entries, id) != [] && entries[0].entityId == id { AllWaitingCons(EntriesOf(entries, id), id); }
    }
  }

  lemma AllWaitingCons(entries: seq<Entry>, id: SecretId)
    requires entries != []
    ensures AllWaiting(entries, id) <==>
            AllWaiting(entries[1..], id)
            && (entries[0].entityId == id ==> entries[0].entity == SECRET && entries[0].status == Pending)
  {
    assert entries[0] in entries;
    assert forall e :: e in entries <==> e == entries[0] || e in entries[1..];
  }

  lemma {:induction false} EntriesOfPending(entries: seq<Entry>, id: SecretId)
    requires AllWaiting(entries, id)
    ensures EntriesOf(ByStatus(entries, Pending), id) == EntriesOf(entries, id)
    decreases |entries|
  {
    if entries != [] {
      AllWaitingCons(entries, id);
      EntriesOfPending(entries[1..], id);
      var rest := ByStatus(entries[1..], Pending);
      if entries[0].status == Pending { assert ([entries[0]] + rest)[1..] == rest; }
    }
  }

  lemma {:induction false} EntriesOfWithout(outbox: seq<Entry>, entry: nat, id: SecretId)
    ensures EntriesOf(Without(outbox, entry), id) == Without(EntriesOf(outbox, id), entry)
    decreases |outbox|
  {
    if outbox != [] {
      var e, rest := outbox[0], outbox[1..];
      EntriesOfWithout(rest, entry, id);
      assert e.id != entry ==> ([e] + Without(rest, entry))[1..] == Without(rest, entry);
      assert ([e] + EntriesOf(rest, id))[1..] == EntriesOf(rest, id);
      assert [] + EntriesOf(rest, id) == EntriesOf(rest, id);
      assert [] + EntriesOf(Without(rest, entry), id) == EntriesOf(Without(rest, entry), id);
    }
  }

  lemma {:induction false} WithoutOthers(entries: seq<Entry>, entry: nat)
    requires forall e :: e in entries ==> e.id != entry
    ensures Without(entries, entry) == entries
    decreases |entries|
  {
    if entries != [] {
      assert entries[0] in entries && forall e :: e in entries[1..] ==> e in entries;
      WithoutOthers(entries[1..], entry);
    }
  }

  lemma {:induction false} RestatusOthers(outbox: seq<Entry>, entry: nat, id: SecretId)
    requires forall e :: e in outbox && e.id == entry ==> e.entityId != id
    ensures EntriesOf(Restatus(outbox, entry, InConflict), id) == EntriesOf(outbox, id)
    decreases |outbox|
  {
    if outbox != [] {
      assert outbox[0] in outbox && forall e :: e in outbox[1..] ==> e in outbox;
      RestatusOthers(outbox[1..], entry, id);
      var first := if outbox[0].id == entry then outbox[0].(status := InConflict) else outbox[0];
      assert Restatus(outbox, entry, InConflict) == [first] + Restatus(outbox[1..], entry, InConflict);
    }
  }

  lemma {:induction false} EntriesOfMembers(entries: seq<Entry>, id: SecretId, e: Entry)
    ensures e in EntriesOf(entries, id) <==> e in entries && e.entityId == id
    decreases |entries|
  {
    if entries != [] { EntriesOfMembers(entries[1..], id, e); }
  }

  // ----- one turn, also one that stops the replay -----

  /** Of a chained write the server took none or all: acknowledged or not, the row is where it was or one step on. */
  lemma CallMovesTipOrNot(wire: Wire, req: Request, id: SecretId, op: Op)
    requires Touches(req, id) && SentFor(req.user, Entry(0, SECRET, id, op, Pending), req)
    requires Untouched(wire.tape, id) && After(ServerTip(wire.tables, id), op).Some?
    ensures var after := Call(wire, req).0;
            && Untouched(after.tape, id)
            && (ServerTip(after.tables, id) ==
                if after.accepted == wire.accepted then ServerTip(wire.tables, id)
                else After(ServerTip(wire.tables, id), op).value)
  {
    if wire.tape != [] {
      OthersKeepNextTip(wire, id);
      assert wire.accepted + [] == wire.accepted;
    }
  }

  /** An operation that has been carried out does not fit again. */
  lemma NotTwice(tip: Tip, op: Op)
    requires After(tip, op).Some?
    ensures After(After(tip, op).value, op).None?
  {
  }

  /** The turn of a chained entry ended with an error: nothing changed in the store, and the server took it or not. */
  lemma OwnTurnStops(w: World, e: Entry)
    requires Untouched(w.wire.tape, e.entityId) && ReplayTurn(w, e).1.Err?
    requires After(ServerTip(w.wire.tables, e.entityId), e.op).Some?
    ensures var id, w1 := e.entityId, ReplayTurn(w, e).0;
            && Untouched(w1.wire.tape, id) && w1.store == w.store
            && ServerTip(w1.wire.tables, id) ==
               if TurnSent(w, e) == [] then ServerTip(w.wire.tables, id)
               else After(ServerTip(w.wire.tables, id), e.op).value
  {
    var user, id := w.session.user, e.entityId;
    match e.op
    case CreateOp(vault, kind, tiers) =>
      CallMovesTip(w.wire, Create(user, id, vault, kind, tiers), id, e.op);
      CallMovesTipOrNot(w.wire, Create(user, id, vault, kind, tiers), id, e.op);
    case UpdateOp(_, _, base, tiers) =>
      CallMovesTip(w.wire, Update(user, id, base, tiers), id, e.op);
      CallMovesTipOrNot(w.wire, Update(user, id, base, tiers), id, e.op);
    case DeleteOp(_, base) =>
      CallMovesTip(w.wire, Delete(user, id, base), id, e.op);
      CallMovesTipOrNot(w.wire, Delete(user, id, base), id, e.op);
  }

  // ----- a replay, finished or not -----

  /** The replay stopped on an entry of this secret that the server had taken: its answer was lost. */
  predicate StopsOnTaken(w: World, entries: seq<Entry>, id: SecretId)
    decreases |entries|
  {
    entries != [] &&
    if entries[0].entity != SECRET then StopsOnTaken(w, entries[1..], id)
    else
      var (w1, done) := ReplayTurn(w, entries[0]);
      if done.Err? then entries[0].entityId == id && TurnSent(w, entries[0]) != []
      else StopsOnTaken(w1, entries[1..], id)
  }

  /** The entries still to be played are, for this secret, all there is in the queue. */
  ghost predicate InStep(w: World, entries: seq<Entry>, id: SecretId) {
    && OutboxOk(w.store) && Increasing(entries) && (forall e :: e in entries ==> e in w.store.outbox)
    && Untouched(w.wire.tape, id)
    && AllWaiting(entries, id) && EntriesOf(w.store.outbox, id) == EntriesOf(entries, id)
  }

  lemma InStepLinked(w: World, entries: seq<Entry>, id: SecretId)
    requires InStep(w, entries, id)
    ensures OpsOf(w.store.outbox, id) == OpsOf(entries, id) && AllWaiting(w.store.outbox, id)
    ensures Linked(w, id) <==> TipOf(ServerTip(w.wire.tables, id), OpsOf(entries, id)).Some?
  {
    SameEntriesSameOps(entries, id);
    SameEntriesSameOps(w.store.outbox, id);
  }

  lemma TailInStep(w: World, entries: seq<Entry>, id: SecretId)
    requires InStep(w, entries, id) && entries != [] && entries[0].entity != SECRET
    ensures InStep(w, entries[1..], id) && entries[0].entityId != id
  {
    assert entries[0] in entries;
    AllWaitingCons(entries, id);
    assert EntriesOf(entries, id) == [] + EntriesOf(entries[1..], id) == EntriesOf(entries[1..], id);
  }

  lemma OthersStayInOutbox(w: World, entries: seq<Entry>)
    requires Increasing(entries) && entries != [] && (forall e :: e in entries ==> e in w.store.outbox)
    ensures forall e :: e in entries[1..] ==> e in ReplayTurn(w, entries[0]).0.store.outbox
  {
    forall e | e in entries[1..] ensures e in ReplayTurn(w, entries[0]).0.store.outbox {
      var i :| 0 <= i < |entries[1..]| && entries[1..][i] == e;
      assert entries[i + 1] == e && e in entries;
      TurnSparesOthers(w, entries[0], e);
    }
  }

  lemma OtherEntryGoes(s: Store, e: Entry, id: SecretId)
    requires OutboxOk(s) && e in s.outbox && e.entityId != id
    ensures EntriesOf(Without(s.outbox, e.id), id) == EntriesOf(s.outbox, id)
    ensures EntriesOf(Restatus(s.outbox, e.id, InConflict), id) == EntriesOf(s.outbox, id)
  {
    forall x | x in s.outbox && x.id == e.id ensures x.entityId != id { DistinctIds(s, x, e); }
    EntriesOfWithout(s.outbox, e.id, id);
    forall x | x in EntriesOf(s.outbox, id) ensures x.id != e.id { EntriesOfMembers(s.outbox, id, x); }
    WithoutOthers(EntriesOf(s.outbox, id), e.id);
    RestatusOthers(s.outbox, e.id, id);
  }

  /** A turn of another secret leaves the entries of this one alone. */
  lemma OtherTurnInStep(w: World, entries: seq<Entry>, id: SecretId)
    requires InStep(w, entries, id) && entries != [] && entries[0].entityId != id
    ensures InStep(ReplayTurn(w, entries[0]).0, entries[1..], id)
  {
    var e := entries[0];
    assert e in entries;
    OthersStayInOutbox(w, entries);
    TurnKeepsOrder(w, e);
    TurnIsOk(w, e);
    OtherTurn(w, e, id);
    AllWaitingCons(entries, id);
    OtherEntryGoes(w.store, e, id);
    assert EntriesOf(entries, id) == [] + EntriesOf(entries[1..], id) == EntriesOf(entries[1..], id);
  }

  lemma OwnEntryGoes(outbox: seq<Entry>, entries: seq<Entry>, id: SecretId)
    requires Increasing(entries) && entries != [] && entries[0].entityId == id
    requires EntriesOf(outbox, id) == EntriesOf(entries, id)
    ensures EntriesOf(Without(outbox, entries[0].id), id) == EntriesOf(entries[1..], id)
  {
    var e, rest := entries[0], entries[1..];
    var own := EntriesOf(rest, id);
    EntriesOfWithout(outbox, e.id, id);
    assert ([e] + own)[1..] == own;
    forall x | x in own ensures x.id != e.id {
      EntriesOfMembers(rest, id, x);
      var i :| 0 <= i < |rest| && rest[i] == x;
      assert entries[i + 1] == x;
    }
    WithoutOthers(own, e.id);
  }

  /** A turn of this secret that went well takes its entry out of the queue. */
  lemma OwnTurnInStep(w: World, entries: seq<Entry>, id: SecretId)
    requires InStep(w, entries, id) && entries != [] && entries[0].entityId == id
    requires After(ServerTip(w.wire.tables, id), entries[0].op).Some? && ReplayTurn(w, entries[0]).1.Ok?
    ensures InStep(ReplayTurn(w, entries[0]).0, entries[1..], id)
  {
    OthersStayInOutbox(w, entries);
    TurnKeepsOrder(w, entries[0]);
    TurnIsOk(w, entries[0]);
    OwnTurn(w, entries[0]);
    AllWaitingCons(entries, id);
    OwnEntryGoes(w.store.outbox, entries, id);
  }

  /** A turn that goes well leaves the rest of the replay where the queue led, and the cache settled if it was. */
  lemma TurnGoesOn(w: World, entries: seq<Entry>, id: SecretId)
    requires InStep(w, entries, id) && Linked(w, id) && entries != [] && ReplayTurn(w, entries[0]).1.Ok?
    ensures var w1 := ReplayTurn(w, entries[0]).0;
            && InStep(w1, entries[1..], id) && Linked(w1, id) && End(w1, id) == End(w, id)
            && (Settled(w.store, entries, id, End(w, id).value) ==>
                  Settled(w1.store, entries[1..], id, End(w, id).value))
  {
    InStepLinked(w, entries, id);
    TurnKeepsReady(w, entries, id, End(w, id).value);
    if entries[0].entityId == id {
      OwnTurnInStep(w, entries, id);
    } else {
      OtherTurnInStep(w, entries, id);
    }
    InStepLinked(ReplayTurn(w, entries[0]).0, entries[1..], id);
  }

  /** A turn that ends with an error leaves the queue linked unless the server took the write all the same. */
  lemma TurnStops(w: World, entries: seq<Entry>, id: SecretId)
    requires InStep(w, entries, id) && Linked(w, id) && entries != [] && ReplayTurn(w, entries[0]).1.Err?
    ensures var e, w1 := entries[0], ReplayTurn(w, entries[0]).0;
            && (Linked(w1, id) <==> e.entityId != id || TurnSent(w, e) == [])
            && (Linked(w1, id) ==> End(w1, id) == End(w, id))
            && (Settled(w.store, entries, id, End(w, id).value) ==>
                  Settled(w1.store, w1.store.outbox, id, End(w, id).value))
  {
    var e, w1 := entries[0], ReplayTurn(w, entries[0]).0;
    InStepLinked(w, entries, id);
    if e.entityId == id {
      OwnTurnStops(w, e);
      NotTwice(ServerTip(w.wire.tables, id), e.op);
      InStepLinked(w1, entries, id);
    } else {
      OtherTurn(w, e, id);
      OtherTurnInStep(w, entries, id);
      InStepLinked(w1, entries[1..], id);
    }
  }

  /**
   * A replay leaves the queue of the secret linked if and only if it did not stop on an entry whose answer was lost;
   * then the queue leads to where it led before, and the cache is settled if it was.
   */
  lemma {:induction false} ReplayStaysLinked(w: World, entries: seq<Entry>, id: SecretId)
    requires InStep(w, entries, id) && Linked(w, id)
    ensures var w' := ReplayAll(w, entries).0;
            && (Linked(w', id) <==> !StopsOnTaken(w, entries, id))
            && (Linked(w', id) ==> End(w', id) == End(w, id))
            && (Linked(w', id) && Settled(w.store, entries, id, End(w, id).value) ==>
                  Settled(w'.store, w'.store.outbox, id, End(w, id).value))
    decreases |entries|
  {
    InStepLinked(w, entries, id);
    if entries != [] {
      if entries[0].entity != SECRET {
        TailInStep(w, entries, id);
        ReplayStaysLinked(w, entries[1..], id);
      } else if ReplayTurn(w, entries[0]).1.Err? {
        TurnStops(w, entries, id);
      } else {
        TurnGoesOn(w, entries, id);
        ReplayStaysLinked(ReplayTurn(w, entries[0]).0, entries[1..], id);
      }
    }
  }

  lemma PendingInStep(w: World, id: SecretId)
    requires Linked(w, id) && OutboxOk(w.store)
    ensures InStep(w, ByStatus(w.store.outbox, Pending), id)
  {
    var pending := ByStatus(w.store.outbox, Pending);
    ByStatusIncreasing(w.store.outbox, Pending);
    PendingWaits(w.store.outbox, id);
    EntriesOfPending(w.store.outbox, id);
    forall e | e in pending ensures e in w.store.outbox { ByStatusMembers(w.store.outbox, Pending, e); }
  }

  predicate Taken(w: World, id: SecretId) {
    StopsOnTaken(w, ByStatus(w.store.outbox, Pending), id)
  }

  /** Interrupted or not, a replay keeps the queue linked, except when the answer to a write of the secret is lost. */
  lemma ReplayLinksIff(w: World, id: SecretId)
    requires Linked(w, id) && OutboxOk(w.store)
    ensures var w' := ReplayOutbox(w).0;
            && OutboxOk(w'.store)
            && (Linked(w', id) <==> !Taken(w, id))
            && (Linked(w', id) ==> End(w', id) == End(w, id))
            && (Linked(w', id) && Settled(w.store, w.store.outbox, id, End(w, id).value) ==>
                  Settled(w'.store, w'.store.outbox, id, End(w, id).value))
  {
    var pending := ByStatus(w.store.outbox, Pending);
    PendingInStep(w, id);
    InStepLinked(w, pending, id);
    ReplayStaysLinked(w, pending, id);
    ReplayKeepsOrder(w, pending);
  }

  // ----- when no answer is lost -----

  ghost predicate NoAnswerLost(tape: seq<Net>) {
    forall i :: 0 <= i < |tape| ==> !tape[i].fate.LoseReply?
  }

  lemma CallTells(wire: Wire, req: Request)
    requires NoAnswerLost(wire.tape)
    ensures var (after, reply) := Call(wire, req);
            NoAnswerLost(after.tape) && (!reply.Done? ==> after.accepted == wire.accepted)
  {
    if wire.tape != [] {
      assert !wire.tape[0].fate.LoseReply?;
      assert forall i :: 0 <= i < |wire.tape[1..]| ==> wire.tape[1..][i] == wire.tape[i + 1];
      assert wire.accepted + [] == wire.accepted;
    }
  }

  lemma TurnTells(w: World, e: Entry)
    requires NoAnswerLost(w.wire.tape)
    ensures var (w1, done) := ReplayTurn(w, e);
            NoAnswerLost(w1.wire.tape) && (done.Err? ==> TurnSent(w, e) == [])
  {
    var user, id := w.session.user, e.entityId;
    match e.op
    case CreateOp(vault, kind, tiers) => CallTells(w.wire, Create(user, id, vault, kind, tiers));
    case UpdateOp(_, _, base, tiers) => CallTells(w.wire, Update(user, id, base, tiers));
    case DeleteOp(_, base) => CallTells(w.wire, Delete(user, id, base));
    case BlobOp(_) =>
      CallTells(w.wire, Upload(user, id));
      var (wire1, uploaded) := Call(w.wire, Upload(user, id));
      if uploaded.Uploaded? { CallTells(wire1, Attach(user, id, INITIAL_VERSION, uploaded.blobRef)); }
  }

  /** Calls that do not get through do no harm: only a lost answer can make a replay stop on a taken entry. */
  lemma {:induction false} RefusalsDoNotUnlink(w: World, entries: seq<Entry>, id: SecretId)
    requires NoAnswerLost(w.wire.tape)
    ensures !StopsOnTaken(w, entries, id)
    decreases |entries|
  {
    if entries != [] {
      if entries[0].entity != SECRET {
        RefusalsDoNotUnlink(w, entries[1..], id);
      } else {
        TurnTells(w, entries[0]);
        RefusalsDoNotUnlink(ReplayTurn(w, entries[0]).0, entries[1..], id);
      }
    }
  }

  // ----- where the cache stands afterwards -----

  ghost predicate Mirrored(w: World, id: SecretId) {
    !ServerTip(w.wire.tables, id).Absent? && Mirrors(w.store, id, ServerTip(w.wire.tables, id))
  }

  /** Nothing of the secret was played, or what was played is what server and cache show. */
  ghost predicate Follows(w: World, w': World, id: SecretId) {
    var ops, ops' := OpsOf(w.store.outbox, id), OpsOf(w'.store.outbox, id);
    || (ops' == ops && SameRow(w.store, w'.store, id)
        && ServerTip(w'.wire.tables, id) == ServerTip(w.wire.tables, id))
    || (|ops'| < |ops| && Mirrored(w', id))
  }

  lemma StopFollows(w: World, entries: seq<Entry>, id: SecretId)
    requires InStep(w, entries, id) && Linked(w, id) && entries != [] && ReplayTurn(w, entries[0]).1.Err?
    requires Linked(ReplayTurn(w, entries[0]).0, id)
    ensures Follows(w, ReplayTurn(w, entries[0]).0, id)
  {
    var e, w1 := entries[0], ReplayTurn(w, entries[0]).0;
    InStepLinked(w, entries, id);
    TurnStops(w, entries, id);
    if e.entityId == id {
      OwnTurnStops(w, e);
    } else {
      OtherTurn(w, e, id);
      OtherTurnInStep(w, entries, id);
      InStepLinked(w1, entries[1..], id);
    }
  }

  lemma TurnFollows(w: World, entries: seq<Entry>, id: SecretId)
    requires InStep(w, entries, id) && Linked(w, id) && entries != [] && ReplayTurn(w, entries[0]).1.Ok?
    ensures Follows(w, ReplayTurn(w, entries[0]).0, id)
  {
    var e, w1 := entries[0], ReplayTurn(w, entries[0]).0;
    InStepLinked(w, entries, id);
    if e.entityId == id {
      OwnTurn(w, e);
      OwnTurnInStep(w, entries, id);
    } else {
      OtherTurn(w, e, id);
      OtherTurnInStep(w, entries, id);
    }
    InStepLinked(w1, entries[1..], id);
  }

  lemma {:induction false} ReplayFollows(w: World, entries: seq<Entry>, id: SecretId)
    requires InStep(w, entries, id) && Linked(w, id)
    ensures Linked(ReplayAll(w, entries).0, id) ==> Follows(w, ReplayAll(w, entries).0, id)
    decreases |entries|
  {
    if entries != [] {
      if entries[0].entity != SECRET {
        TailInStep(w, entries, id);
        ReplayFollows(w, entries[1..], id);
      } else if ReplayTurn(w, entries[0]).1.Err? {
        if Linked(ReplayTurn(w, entries[0]).0, id) { StopFollows(w, entries, id); }
      } else {
        TurnGoesOn(w, entries, id);
        TurnFollows(w, entries, id);
        ReplayFollows(ReplayTurn(w, entries[0]).0, entries[1..], id);
      }
    }
  }

  /**
   * A replay that keeps the queue linked leaves the cache at its end, where the next edit fits, if and only if it
   * played nothing of the secret or all of it; after anything in between the cached version is rewound.
   */
  lemma ReplayRewindsIff(w: World, id: SecretId)
    requires Chained(w, id) && OutboxOk(w.store) && End(w, id).value.At? && !Taken(w, id)
    ensures var ops, ops' := OpsOf(w.store.outbox, id), OpsOf(ReplayOutbox(w).0.store.outbox, id);
            Chained(ReplayOutbox(w).0, id) <==> ops' == ops || ops' == []
  {
    var w' := ReplayOutbox(w).0;
    PendingInStep(w, id);
    ReplayLinksIff(w, id);
    ReplayFollows(w, ByStatus(w.store.outbox, Pending), id);
    TipOfCounts(ServerTip(w'.wire.tables, id), OpsOf(w'.store.outbox, id));
  }

  // ----- edits and replays in any order -----

  datatype Doing = Save(e: Edit) | Replay

  function Do(w: World, vault: VaultId, id: SecretId, doing: Doing): World {
    match doing
    case Save(e) => Apply(w, vault, id, e)
    case Replay => ReplayOutbox(w).0
  }

  function DoAll(w: World, vault: VaultId, id: SecretId, doings: seq<Doing>): World
    decreases |doings|
  {
    if doings == [] then w else DoAll(Do(w, vault, id, doings[0]), vault, id, doings[1..])
  }

  function Saves(doings: seq<Doing>): seq<Edit> {
    if doings == [] then [] else (if doings[0].Save? then [doings[0].e] else []) + Saves(doings[1..])
  }

  /** An edit is made without network on a cache that stands at the end; a replay loses no answer of the secret. */
  ghost predicate Fitting(w: World, id: SecretId, vault: VaultId, doing: Doing) {
    match doing
    case Save(e) => NetDown(w) && Saveable(w, vault, id, e) && End(w, id).Some? && FitsTip(w, id, e, End(w, id).value)
    case Replay => !Taken(w, id)
  }

  ghost predicate AllFitting(w: World, vault: VaultId, id: SecretId, doings: seq<Doing>)
    decreases |doings|
  {
    doings != [] ==>
      Fitting(w, id, vault, doings[0]) && AllFitting(Do(w, vault, id, doings[0]), vault, id, doings[1..])
  }

  /** What holds all along: the queue is linked, and its end is in the cache once nothing is queued any more. */
  ghost predicate OnTrack(w: World, id: SecretId) {
    Linked(w, id) && OutboxOk(w.store) && Settled(w.store, w.store.outbox, id, End(w, id).value)
  }

  lemma SaveStaysOnTrack(w: World, vault: VaultId, id: SecretId, e: Edit)
    requires OnTrack(w, id) && Fitting(w, id, vault, Save(e))
    ensures var w' := Apply(w, vault, id, e);
            && OnTrack(w', id) && Version(End(w', id).value) == Version(End(w, id).value) + 1
            && Shows(End(w', id).value, e)
  {
    EditQueues(w, vault, id, e);
    EditLinksIff(w, vault, id, e);
    EnqueueKeepsOutbox(w.store, id, OpFor(w, vault, id, e), Pending);
  }

  lemma {:induction false} DoingsStayOnTrack(w: World, vault: VaultId, id: SecretId, doings: seq<Doing>)
    requires OnTrack(w, id) && AllFitting(w, vault, id, doings)
    ensures var w', saved := DoAll(w, vault, id, doings), Saves(doings);
            && OnTrack(w', id) && Version(End(w', id).value) == Version(End(w, id).value) + |saved|
            && (if saved == [] then End(w', id) == End(w, id) else Shows(End(w', id).value, saved[|saved| - 1]))
    decreases |doings|
  {
    if doings != [] {
      match doings[0] {
        case Save(e) => SaveStaysOnTrack(w, vault, id, e);
        case Replay => ReplayLinksIff(w, id);
      }
      DoingsStayOnTrack(Do(w, vault, id, doings[0]), vault, id, doings[1..]);
    }
  }

  /**
   * The whole story with interruptions: offline edits of a secret that nobody else touches, and any number of replays
   * between them, finished or not. If every edit was made on a cache standing at the end of the queue and no answer to
   * a write of the secret was lost, a replay that runs to its end leaves no entry of the secret, its version has grown
   * by one per edit, and server and cache show the last one.
   */
  lemma InterruptedEditsArrive(w: World, vault: VaultId, id: SecretId, doings: seq<Doing>)
    requires OnTrack(w, id) && AllFitting(w, vault, id, doings)
    ensures var w1, saved := DoAll(w, vault, id, doings), Saves(doings);
            var w2 := ReplayOutbox(w1).0;
            var tip := ServerTip(w2.wire.tables, id);
            Finished(w1, ByStatus(w1.store.outbox, Pending)) ==>
              && id !in Outstanding(w2.store.outbox)
              && Version(tip) == Version(End(w, id).value) + |saved|
              && (saved != [] ==> Shows(tip, saved[|saved| - 1]))
              && Mirrors(w2.store, id, tip)
  {
    DoingsStayOnTrack(w, vault, id, doings);
    var w1 := DoAll(w, vault, id, doings);
    if Finished(w1, ByStatus(w1.store.outbox, Pending)) {
      ChainDrains(w1, id);
      ChainArrives(w1, id);
    }
  }

  // ----- an edit that does not fit -----

  lemma CallDoesNotFit(wire: Wire, req: Request, id: SecretId, op: Op)
    requires Touches(req, id) && SentFor(req.user, Entry(0, SECRET, id, op, Pending), req) && !op.BlobOp?
    requires Untouched(wire.tape, id) && After(ServerTip(wire.tables, id), op).None?
    ensures var (after, reply) := Call(wire, req);
            && ServerTip(after.tables, id) == ServerTip(wire.tables, id) && reply.Fault?
            && (reply.error.Conflict? ==> !op.CreateOp? && ServerTip(wire.tables, id).At?)
  {
    if wire.tape != [] {
      OthersKeepNextTip(wire, id);
    }
  }

  lemma MisfitTurn(w: World, e: Entry)
    requires Untouched(w.wire.tape, e.entityId) && !e.op.BlobOp? && e in w.store.outbox
    requires After(ServerTip(w.wire.tables, e.entityId), e.op).None? && ReplayTurn(w, e).1.Ok?
    ensures var id, w1 := e.entityId, ReplayTurn(w, e).0;
            && ServerTip(w.wire.tables, id).At? && !e.op.CreateOp?
            && ServerTip(w1.wire.tables, id) == ServerTip(w.wire.tables, id)
            && e.(status := InConflict) in w1.store.outbox
  {
    var user, id := w.session.user, e.entityId;
    RestatusMembers(w.store.outbox, e.id, e);
    match e.op
    case CreateOp(vault, kind, tiers) => CallDoesNotFit(w.wire, Create(user, id, vault, kind, tiers), id, e.op);
    case UpdateOp(_, _, base, tiers) => CallDoesNotFit(w.wire, Update(user, id, base, tiers), id, e.op);
    case DeleteOp(_, base) => CallDoesNotFit(w.wire, Delete(user, id, base), id, e.op);
  }

  lemma {:induction false} ReplayLast(w: World, entries: seq<Entry>, e: Entry)
    requires Finished(w, entries + [e]) && e.entity == SECRET
    ensures var w1 := ReplayAll(w, entries).0;
            && Finished(w, entries) && ReplayTurn(w1, e).1.Ok?
            && ReplayAll(w, entries + [e]).0 == ReplayTurn(w1, e).0
    decreases |entries|
  {
    if entries == [] {
      assert entries + [e] == [e] && [e][1..] == [];
    } else {
      assert (entries + [e])[1..] == entries[1..] + [e];
      if entries[0].entity != SECRET {
        ReplayLast(w, entries[1..], e);
      } else {
        ReplayLast(ReplayTurn(w, entries[0]).0, entries[1..], e);
      }
    }
  }

  /**
   * An edit that was not made on the end of the queue is lost to a conflict of the user with himself: once a replay
   * runs to its end the server is where the queue led before, and the edit is marked as a conflict. It cannot run to
   * its end if the edit makes a secret again, or meets one that is erased.
   */
  lemma MisfitConflicts(w: World, vault: VaultId, id: SecretId, e: Edit)
    requires Linked(w, id) && OutboxOk(w.store) && NetDown(w) && Saveable(w, vault, id, e)
    requires !FitsTip(w, id, e, End(w, id).value)
    ensures var w1, end := Apply(w, vault, id, e), End(w, id).value;
            var w2 := ReplayOutbox(w1).0;
            Finished(w1, ByStatus(w1.store.outbox, Pending)) ==>
              && !e.Make? && end.At?
              && ServerTip(w2.wire.tables, id) == end
              && Entry(w.store.nextId, SECRET, id, OpFor(w, vault, id, e), InConflict) in w2.store.outbox
  {
    var w1, end, pending := Apply(w, vault, id, e), End(w, id).value, ByStatus(w.store.outbox, Pending);
    var x := Entry(w.store.nextId, SECRET, id, OpFor(w, vault, id, e), Pending);
    EditQueues(w, vault, id, e);
    ByStatusAppend(w.store.outbox, x, Pending);
    OpsOfPending(w.store.outbox, id);
    PendingWaits(w.store.outbox, id);
    if Finished(w1, pending + [x]) {
      ReplayLast(w1, pending, x);
      ReplayFollowsChain(w1, pending, id, end);
      forall i | 0 <= i < |pending| ensures pending[i].id != x.id {
        ByStatusMembers(w.store.outbox, Pending, pending[i]);
      }
      assert w1.store.outbox[|w.store.outbox|] == x;
      ReplaySparesOthers(w1, pending, x);
      MisfitTurn(ReplayAll(w1, pending).0, x);
    }
  }
}

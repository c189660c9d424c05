/** A run on which a user who is alone meets a conflict with himself: an offline edit after an interrupted replay. */
module SelfConflict {
  import opened Types
  import opened Sealing
  import opened ServerModel
  import opened S = StoreModel
  import opened ClientModel
  import opened ReplayLaws
  import opened OfflineChain
  import opened InterruptedChain
  import opened StagedSync

  const UP := Net([], Deliver)
  const DOWN := Net([], Refuse(Unavailable))

  /** Nobody else ever calls; the network is down during the edits, and once during the first replay. */
  function Calls(): seq<Net> { [DOWN, DOWN, UP, DOWN, DOWN, UP, UP] }

  const TEXT := Content("row", "index", "payload")
  const LAST_TEXT := Content("row", "index", "last")

  function Edited(content: Content): Edit { Change(1, content, Nonces(0, 0, 0)) }

  function LastTiers(): Tiers { SealTiers(0, "v", "s", 3, LAST_TEXT, Nonces(0, 0, 0)) }

  function Waiting(entry: nat, base: int, tiers: Tiers): Entry {
    Entry(entry, SECRET, "s", UpdateOp("v", 1, base, tiers), Pending)
  }

  /** The server at a version, after some of the calls, with this row cached and these entries queued. */
  function Stage(version: int, calls: nat, row: CachedSecret, outbox: seq<Entry>, nextId: nat, taken: seq<Request>)
    : World
    requires calls <= 7
  {
    World(Wire(ServerAt(version), Calls()[calls..], taken),
          Store(map["v" := CachedVault(1, 2, true)], map["s" := row], outbox, nextId),
          Session("u", map["v" := 0]), {})
  }

  function Before(): World { Stage(1, 0, Loaded("v", 1, TiersAt(1), 1, false), [], 1, []) }

  function OneSaved(): World { Stage(1, 1, Loaded("v", 1, TiersAt(2), 2, true), [Waiting(1, 1, TiersAt(2))], 2, []) }

  function TwoSaved(): World {
    Stage(1, 2, Loaded("v", 1, TiersAt(3), 3, true), [Waiting(1, 1, TiersAt(2)), Waiting(2, 2, TiersAt(3))], 3, [])
  }

  /** The first entry got through; its acknowledgement took the cached row back to version 2. */
  function Interrupted(): World {
    var row := CachedSecret("v", 1, TiersAt(2).(index := Empty, payload := Empty), 2, false, false, false);
    Stage(2, 4, row, [Waiting(2, 2, TiersAt(3))], 3, [Update("u", "s", 1, TiersAt(2))])
  }

  /** The next edit, on version 2, is queued behind one on the same version. */
  function LastSaved(): World {
    Stage(2, 5, Loaded("v", 1, LastTiers(), 3, true), [Waiting(2, 2, TiersAt(3)), Waiting(3, 2, LastTiers())], 4,
       [Update("u", "s", 1, TiersAt(2))])
  }

  lemma RefusedCall(w: World, req: Request)
    requires w.wire.tape != [] && w.wire.tape[0] == DOWN
    ensures Call(w.wire, req) == (w.wire.(tape := w.wire.tape[1..]), Fault(Unavailable))
  {
  }

  lemma TextsFit()
    ensures EncryptTiers(0, "v", "s", 2, TEXT, Nonces(0, 0, 0)) == Ok(TiersAt(2))
    ensures EncryptTiers(0, "v", "s", 3, TEXT, Nonces(0, 0, 0)) == Ok(TiersAt(3))
    ensures EncryptTiers(0, "v", "s", 3, LAST_TEXT, Nonces(0, 0, 0)) == Ok(LastTiers())
  {
    assert |"index"| == 5;
  }

  lemma FirstEdit()
    ensures Apply(Before(), "v", "s", Edited(TEXT)) == OneSaved()
  {
    TextsFit();
    RefusedCall(Before(), Update("u", "s", 1, TiersAt(2)));
    assert Calls()[0..][1..] == Calls()[1..];
  }

  lemma SecondEdit()
    ensures Apply(OneSaved(), "v", "s", Edited(TEXT)) == TwoSaved()
  {
    TextsFit();
    RefusedCall(OneSaved(), Update("u", "s", 2, TiersAt(3)));
    assert Calls()[1..][1..] == Calls()[2..];
  }

  lemma LastEdit()
    ensures Apply(Interrupted(), "v", "s", Edited(LAST_TEXT)) == LastSaved()
  {
    TextsFit();
    RefusedCall(Interrupted(), Update("u", "s", 2, LastTiers()));
    assert Calls()[4..][1..] == Calls()[5..];
  }

  lemma AcceptedCall(w: World, version: int, tiers: Tiers)
    requires w.wire.tables == ServerAt(version) && w.wire.tape != [] && w.wire.tape[0] == UP && w.session.user == "u"
    requires tiers == TiersAt(version + 1)
    ensures var req := Update("u", "s", version, tiers);
            Call(w.wire, req) ==
              (Wire(ServerAt(version + 1), w.wire.tape[1..], w.wire.accepted + [req]), Done(version + 1))
  {
    var t := Exec(ServerAt(version), Update("u", "s", version, tiers)).0;
    assert t.vaults == ServerAt(version + 1).vaults && t.secrets == ServerAt(version + 1).secrets;
  }

  /** One entry is acknowledged; the row is taken to its version, clean. */
  function Acknowledged(): World {
    var row := CachedSecret("v", 1, TiersAt(2).(index := Empty, payload := Empty), 2, false, false, false);
    Stage(2, 3, row, [Waiting(2, 2, TiersAt(3))], 3, [Update("u", "s", 1, TiersAt(2))])
  }

  /** An update that is acknowledged leaves its entry's row clean and takes the entry away. */
  lemma AcceptedTurn(w: World, e: Entry, version: int, rest: seq<Entry>)
    requires w.wire.tables == ServerAt(version) && w.wire.tape != [] && w.wire.tape[0] == UP && w.session.user == "u"
    requires e == Waiting(e.id, version, TiersAt(version + 1)) && w.store.outbox == [e] + rest
    requires forall x :: x in rest ==> x.id != e.id
    ensures ReplayTurn(w, e) ==
            (w.(wire := Wire(ServerAt(version + 1), w.wire.tape[1..],
                             w.wire.accepted + [Update("u", "s", version, TiersAt(version + 1))]),
                store := UpsertSecretRow(w.store, "s", Loaded("v", 1, TiersAt(version + 1), version + 1, false))
                           .(outbox := rest)),
             Ok(true))
  {
    AcceptedCall(w, version, TiersAt(version + 1));
    WithoutOthers(rest, e.id);
    assert ([e] + rest)[1..] == rest;
  }

  lemma FirstTurn()
    ensures ReplayTurn(TwoSaved(), Waiting(1, 1, TiersAt(2))) == (Acknowledged(), Ok(true))
  {
    var x, y := Waiting(1, 1, TiersAt(2)), Waiting(2, 2, TiersAt(3));
    assert [x, y] == [x] + [y];
    AcceptedTurn(TwoSaved(), x, 1, [y]);
    assert Calls()[2..][1..] == Calls()[3..];
    var s' := UpsertSecretRow(TwoSaved().store, "s", Loaded("v", 1, TiersAt(2), 2, false));
    assert s'.secrets == Acknowledged().store.secrets;
    assert TwoSaved().wire.accepted + [Update("u", "s", 1, TiersAt(2))] == Acknowledged().wire.accepted;
  }

  lemma SecondTurnFails()
    ensures ReplayTurn(Acknowledged(), Waiting(2, 2, TiersAt(3))) == (Interrupted(), Err(Unavailable))
  {
    RefusedCall(Acknowledged(), Update("u", "s", 2, TiersAt(3)));
    assert Calls()[3..][1..] == Calls()[4..];
  }

  lemma BothPending(x: Entry, y: Entry)
    requires x.status == Pending && y.status == Pending
    ensures ByStatus([x, y], Pending) == [x, y]
  {
    assert [x, y][1..] == [y] && [y][1..] == [];
    assert ByStatus([y], Pending) == [y] + ByStatus([], Pending);
  }

  lemma ReplayOne(w: World, x: Entry)
    requires x.entity == SECRET
    ensures ReplayAll(w, [x]).0 == ReplayTurn(w, x).0
  {
    assert [x][1..] == [];
  }

  lemma ReplayTwo(w: World, x: Entry, y: Entry)
    requires x.entity == SECRET && y.entity == SECRET && ReplayTurn(w, x).1.Ok?
    ensures ReplayAll(w, [x, y]).0 == ReplayTurn(ReplayTurn(w, x).0, y).0
  {
    assert [x, y][1..] == [y];
    ReplayOne(ReplayTurn(w, x).0, y);
  }

  lemma FirstReplay()
    ensures ReplayOutbox(TwoSaved()).0 == Interrupted()
  {
    var x, y := Waiting(1, 1, TiersAt(2)), Waiting(2, 2, TiersAt(3));
    BothPending(x, y);
    FirstTurn();
    SecondTurnFails();
    ReplayTwo(TwoSaved(), x, y);
  }

  /** At an equal version the upsert keeps the tiers that are there, which are those of the edit still waiting. */
  function Mixed(): CachedSecret {
    CachedSecret("v", 1, LastTiers().(row := TiersAt(3).row), 3, true, true, false)
  }

  function OneLeft(): World {
    Stage(3, 6, Mixed(), [Waiting(3, 2, LastTiers())], 4,
          [Update("u", "s", 1, TiersAt(2)), Update("u", "s", 2, TiersAt(3))])
  }

  function AfterAll(): World {
    Stage(3, 7, Mixed(), [Waiting(3, 2, LastTiers()).(status := InConflict)], 4,
          [Update("u", "s", 1, TiersAt(2)), Update("u", "s", 2, TiersAt(3))])
  }

  lemma ThirdTurn()
    ensures ReplayTurn(LastSaved(), Waiting(2, 2, TiersAt(3))) == (OneLeft(), Ok(true))
  {
    var x, y := Waiting(2, 2, TiersAt(3)), Waiting(3, 2, LastTiers());
    assert [x, y] == [x] + [y];
    AcceptedTurn(LastSaved(), x, 2, [y]);
    assert Calls()[5..][1..] == Calls()[6..];
    var s' := UpsertSecretRow(LastSaved().store, "s", Loaded("v", 1, TiersAt(3), 3, false));
    assert s'.secrets == OneLeft().store.secrets;
    assert LastSaved().wire.accepted + [Update("u", "s", 2, TiersAt(3))] == OneLeft().wire.accepted;
  }

  lemma LastTurnConflicts()
    ensures ReplayTurn(OneLeft(), Waiting(3, 2, LastTiers())) == (AfterAll(), Ok(false))
  {
    var w, req := OneLeft(), Update("u", "s", 2, LastTiers());
    assert Calls()[6..][1..] == Calls()[7..];
    assert Exec(ServerAt(3), req) == (ServerAt(3), Fault(Conflict(ServerSecret("s", 1, 3, TiersAt(3)))));
    assert w.wire.accepted + [] == w.wire.accepted;
    var outbox := w.store.outbox;
    assert Restatus(outbox, 3, InConflict) == AfterAll().store.outbox;
  }

  lemma LastReplay()
    ensures ReplayOutbox(LastSaved()).0 == AfterAll()
    ensures Finished(LastSaved(), LastSaved().store.outbox)
  {
    var x, y := Waiting(2, 2, TiersAt(3)), Waiting(3, 2, LastTiers());
    BothPending(x, y);
    ThirdTurn();
    LastTurnConflicts();
    ReplayTwo(LastSaved(), x, y);
    assert [x, y][1..] == [y] && [y][1..] == [];
  }

  /**
   * Two edits are saved offline, a replay is interrupted after the first, a third edit is saved, and a replay runs to
   * its end. Nobody else ever calls.
   */
  lemma AloneInConflict()
    ensures Apply(Before(), "v", "s", Edited(TEXT)) == OneSaved()
    ensures Apply(OneSaved(), "v", "s", Edited(TEXT)) == TwoSaved()
    ensures ReplayOutbox(TwoSaved()).0 == Interrupted()
    ensures Apply(Interrupted(), "v", "s", Edited(LAST_TEXT)) == LastSaved()
    ensures ReplayOutbox(LastSaved()).0 == AfterAll() && Finished(LastSaved(), LastSaved().store.outbox)
  {
    FirstEdit();
    SecondEdit();
    FirstReplay();
    LastEdit();
    LastReplay();
  }

  /**
   * The third edit ends as a conflict. Besides, the cache is left clean under the server's version with the payload of
   * that edit, which the server never took.
   */
  lemma HowItEnds()
    ensures AfterAll().store.outbox == [Entry(3, SECRET, "s", UpdateOp("v", 1, 2, LastTiers()), InConflict)]
    ensures var t, cached := AfterAll().wire.tables, AfterAll().store.secrets["s"];
            && ServerTip(t, "s") == At(3, TiersAt(3)) && cached.version == 3 && !cached.dirty
            && cached.payloadLoaded && cached.tiers.payload == LastTiers().payload
            && cached.tiers.payload.text != TiersAt(3).payload.text
  {
    assert |"payload"| == 7 && |"last"| == 4;
  }

  /** What went wrong is what the client can see: the cached version is not the one that the queue leads to. */
  lemma LastEditDoesNotFit()
    ensures Chained(Before(), "s")
    ensures Linked(Interrupted(), "s") && End(Interrupted(), "s") == Some(At(3, TiersAt(3)))
    ensures !FitsTip(Interrupted(), "s", Edited(LAST_TEXT), At(3, TiersAt(3)))
  {
    var op := Waiting(2, 2, TiersAt(3)).op;
    assert OpsOf(Interrupted().store.outbox, "s") == [op] + OpsOf([], "s");
    assert [op][1..] == [];
  }
}

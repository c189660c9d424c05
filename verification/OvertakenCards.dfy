/**
 * Conflicts that a later pull has overtaken: retrying them still makes progress, taking the server's side may not be
 * safe.
 */
module OvertakenCards {
  import opened Types
  import opened Sealing
  import opened ServerModel
  import opened ServerLaws
  import opened S = StoreModel
  import opened StoreLaws
  import opened ClientModel
  import opened Coherence
  import opened Freshness
  import opened FreshOperations
  import opened StagedSync
  import opened Runs
  import opened QueueRuns
  import opened ConflictLaws

  /** Whatever conflict a run leaves on display, overtaken by a pull or not, insisting on it makes progress. */
  lemma EveryShownCardProgresses(d: Directory, s: State, actions: seq<Action>, draws: seq<Nonces>)
    requires Coherent(d, s) && Truthful(s) && AllPlaced(d, actions)
    ensures var end := Run(s, actions);
            end.card.Some? ==> Progressing(Insist(end.w, end.card.value, draws))
  {
    RunKeepsCoherent(d, s, actions);
    RunStaysTruthful(s, actions);
    var end := Run(s, actions);
    if end.card.Some? {
      InsistingProgresses(d, end.w, end.card.value, draws);
    }
  }

  // ----- when taking the server's side is safe, as far as the client can tell -----

  function Taken(s: Store, c: Card): Store {
    CacheFull(s, c.secret, c.vault, c.server.kind, c.server.tiers, c.server.version, false)
  }

  /** A server that this client, with this cache and this card, may be talking to. */
  ghost predicate Possible(d: Directory, t: Tables, s: Store, c: Card) {
    TablesOk(t) && ServerSealed(d, t) && Fresh(t, s) && CardSound(t, c)
  }

  /** The cache has a newer row than the card, nothing queued for it, and its vault was pulled before. */
  predicate MayRewind(s: Store, c: Card) {
    && Rewinds(s, c)
    && c.secret !in Outstanding(s.outbox)
    && c.vault in s.vaults && s.vaults[c.vault].syncedVersion >= INITIAL_VERSION
  }

  /** The identifiers of a set in some order. */
  ghost function InOrder(ids: set<VaultId>): (order: seq<VaultId>)
    ensures forall v :: v in ids ==> v in order
  {
    if ids == {} then []
    else
      var v :| v in ids;
      [v] + InOrder(ids - {v})
  }

  function VaultsAsPulled(s: Store): map<VaultId, VaultRow> {
    map v | v in s.vaults ::
      VaultRow("u", if s.vaults[v].syncedVersion >= INITIAL_VERSION then s.vaults[v].syncedVersion else INITIAL_VERSION)
  }

  /** A server on which nothing happened since the client pulled the newer row. */
  ghost function AsPulled(d: Directory, s: Store, c: Card): Tables
    requires c.secret in s.secrets
  {
    var row := s.secrets[c.secret];
    var tiers := SealTiers(d.key(c.vault), c.vault, c.secret, row.version, Content("", "", ""), Nonces(0, 0, 0));
    Tables(VaultsAsPulled(s),
           map[c.secret := SecretRow(c.vault, row.kind, tiers.(row := row.tiers.row), None, row.version, false)],
           InOrder(s.vaults.Keys), [c.secret])
  }

  lemma AsPulledIsPossible(d: Directory, s: Store, c: Card)
    requires StoreOk(d, s) && CardOk(d, c) && c.server.version >= INITIAL_VERSION && MayRewind(s, c)
    ensures Possible(d, AsPulled(d, s, c), s, c)
  {
    assert CacheOk(d, c.secret, s.secrets[c.secret]);
  }

  lemma AsPulledIsRewound(d: Directory, s: Store, c: Card)
    requires StoreOk(d, s) && CardOk(d, c) && c.server.version >= INITIAL_VERSION && MayRewind(s, c)
    ensures !Fresh(AsPulled(d, s, c), Taken(s, c))
  {
    var t := AsPulled(d, s, c);
    assert CacheOk(d, c.secret, s.secrets[c.secret]);
    CacheFullTouches(s, c.secret, c.vault, c.server.kind, c.server.tiers, c.server.version, false);
    assert Claimed(t, Taken(s, c), c.secret);
    assert !FreshSecret(t, Taken(s, c), c.secret);
  }

  /**
   * The client's own test: taking the server's side keeps the cache fresh, whatever the server it talks to may hold by
   * now, if and only if the cache has no newer row of the secret, or something queued for it,
   * or never pulled its vault.
   */
  lemma TakingIsSafeIff(d: Directory, s: Store, c: Card)
    requires StoreOk(d, s) && OutboxOk(s) && CardOk(d, c) && c.server.version >= INITIAL_VERSION
    ensures (forall t :: Possible(d, t, s, c) ==> Fresh(t, Taken(s, c))) <==> !MayRewind(s, c)
  {
    if MayRewind(s, c) {
      AsPulledIsPossible(d, s, c);
      AsPulledIsRewound(d, s, c);
    } else {
      forall t | Possible(d, t, s, c) ensures Fresh(t, Taken(s, c)) {
        var w := World(Wire(t, [], []), s, Session("", map[]), {});
        TakeServerIsFreshIff(w, c);
        assert Claimed(t, s, c.secret) ==> t.secrets[c.secret].vault == c.vault && t.vaults[c.vault].version >= 1;
      }
    }
  }

  // ----- a run in which it is not -----

  const MY_EDIT := Content("row", "index", "payload")

  /** A client that has pulled version 1; the server is at version 2, and another device is about to write version 3. */
  function BeforeEdit(): State {
    var row := CachedSecret("v", 1, TiersAt(1).(index := Empty, payload := Empty), 1, false, false, false);
    var store := Store(map["v" := CachedVault(2, 2, true)], map["s" := row], [], 1);
    var tape := [Net([], Deliver), Net([Update("u", "s", 2, TiersAt(3))], Deliver), Net([], Deliver)];
    State(World(Wire(ServerAt(2), tape, []), store, Session("u", map["v" := 0]), {}), None, false)
  }

  lemma ServerAtIsGood(d: Directory, version: int)
    requires d.home("s") == "v" && d.kind("s") == 1 && d.key("v") == 0 && version >= 1
    ensures TablesOk(ServerAt(version)) && ServerSealed(d, ServerAt(version))
  {
    assert ServerAt(version).vaultOrder[0] == "v" && ServerAt(version).secretOrder[0] == "s";
    assert |"index"| == 5;
    assert SealedUnder(d, "s", version, TiersAt(version));
  }

  lemma BeforeEditIsGood(d: Directory)
    requires d.home("s") == "v" && d.kind("s") == 1 && d.key("v") == 0
    ensures Coherent(d, BeforeEdit()) && FreshState(BeforeEdit())
  {
    ServerAtIsGood(d, 2);
    assert |"index"| == 5;
    assert SealedUnder(d, "s", 3, TiersAt(3));
    assert Fits(d, "s", 1, RowTier, TiersAt(1).row);
  }

  /** The edit on version 1 meets version 2. */
  function ShownCard(): Card {
    Card("s", "v", Some(MY_EDIT), MY_EDIT, ServerSecret("s", 1, 2, TiersAt(2)), AgainUpdate(1, MY_EDIT))
  }

  function AfterEdit(): State {
    var s := BeforeEdit();
    State(s.w.(wire := s.w.wire.(tape := s.w.wire.tape[1..])), Some(ShownCard()), false)
  }

  lemma EditConflicts()
    ensures Step(BeforeEdit(), DoUpdate("v", "s", 1, 1, MY_EDIT, Nonces(0, 0, 0))) == AfterEdit()
  {
    var w := BeforeEdit().w;
    assert |"index"| == 5;
    var req := Update("u", "s", 1, TiersAt(2));
    var (wire, reply) := Call(w.wire, req);
    assert w.wire.accepted + [] == w.wire.accepted;
    assert reply == Fault(Conflict(ServerSecret("s", 1, 2, TiersAt(2))));
    assert DecryptTiers(0, "v", "s", 2, TiersAt(2)) == Ok(MY_EDIT);
    assert EncryptTiers(0, "v", "s", 2, MY_EDIT, Nonces(0, 0, 0)) == Ok(TiersAt(2));
    assert SendUpdate(w, 0, "v", "s", 1, 1, MY_EDIT, TiersAt(2)) == (w.(wire := wire), Ok(Some(ShownCard())));
  }

  lemma OtherDeviceWrites()
    ensures RunAll(ServerAt(2), [Update("u", "s", 2, TiersAt(3))]) == ServerAt(3)
  {
    var req := Update("u", "s", 2, TiersAt(3));
    var t := Exec(ServerAt(2), req).0;
    assert [req][1..] == [];
    assert t.vaults == ServerAt(3).vaults && t.secrets == ServerAt(3).secrets;
  }

  /** The pull brings version 3 into the cache; the card still shows version 2. */
  function AfterPull(): State {
    var row := CachedSecret("v", 1, TiersAt(3).(index := Empty, payload := Empty), 3, false, false, false);
    var store := Store(map["v" := CachedVault(2, 4, true)], map["s" := row], [], 1);
    State(World(Wire(ServerAt(3), [], []), store, Session("u", map["v" := 0]), {}), Some(ShownCard()), true)
  }

  /** Between the freshness check and the rows. */
  function MidPull(): World {
    AfterEdit().w.(wire := Wire(ServerAt(3), BeforeEdit().w.wire.tape[2..], []))
  }

  lemma PullChecks()
    ensures Prepare(AfterEdit().w) == (MidPull(), Ok([VaultVersion("v", 4)]))
  {
    var w := AfterEdit().w;
    OtherDeviceWrites();
    DeliveredQuery(w.wire, CheckFreshness("u"));
    assert BeforeEdit().w.wire.tape[1..][1..] == BeforeEdit().w.wire.tape[2..];
    var t := ServerAt(3);
    assert VaultVersions(t, "u", t.vaultOrder) == [VaultVersion("v", 4)] + VaultVersions(t, "u", []);
    assert Call(w.wire, CheckFreshness("u")).1 == Vaults([VaultVersion("v", 4)]);
    assert !NeedsVaultMeta([VaultVersion("v", 4)], w.store.vaults);
  }

  lemma PullFetches()
    ensures PullVaultRows(MidPull(), "v", 4) == (AfterPull().w, Ok(Unit))
  {
    var w, t := MidPull(), ServerAt(3);
    DeliveredQuery(w.wire, ListRows("u", "v"));
    var rows := RowsOf(t, "u", "v", t.secretOrder);
    assert rows == [RowItem("s", 1, 3, TiersAt(3).row)] + RowsOf(t, "u", "v", []);
    var row := CachedSecret("v", 1, Tiers(TiersAt(3).row, Empty, Empty), 3, false, false, false);
    assert "s" !in Outstanding(w.store.outbox);
    assert UpsertRows(w.store, "v", rows, {}) == UpsertRows(UpsertSecretRow(w.store, "s", row), "v", rows[1..], {});
    assert Outstanding(w.store.outbox) == {};
    var s' := SetSyncedVersion(UpsertSecretRow(w.store, "s", row), "v", 4);
    assert s'.vaults == AfterPull().w.store.vaults && s'.secrets == AfterPull().w.store.secrets;
  }

  lemma PullsOnly(w: World, v: VaultVersion, local: map<VaultId, CachedVault>)
    requires NeedsPull(local, v)
    ensures PullStale(w, [v], local) == PullVaultRows(w, v.id, v.version)
  {
    assert [v][1..] == [];
    var r := PullVaultRows(w, v.id, v.version).1;
    assert r.Ok? ==> r.value.Unit?;
  }

  lemma PullBrings()
    ensures Sync(AfterEdit().w).0 == AfterPull().w
  {
    PullChecks();
    PullFetches();
    PullsOnly(MidPull(), VaultVersion("v", 4), MidPull().store.vaults);
  }

  lemma SyncStep(s: State, w: World)
    requires Sync(s.w).0 == w
    ensures Step(s, DoSync) == State(w, s.card, true)
  {
  }

  lemma PullOvertakes()
    ensures Step(AfterEdit(), DoSync) == AfterPull()
  {
    PullBrings();
    SyncStep(AfterEdit(), AfterPull().w);
  }

  /** Taking the server's side of a card that is older than what the cache claims makes the claim false. */
  lemma TakingRewinds(s: State, n: Nonces)
    requires FreshState(s) && s.card.Some? && CardFormed(s.card.value)
    requires Claimed(s.w.wire.tables, s.w.store, s.card.value.secret) && Rewinds(s.w.store, s.card.value)
    ensures !FreshWorld(Step(s, DoResolve(ChoiceServer, n)).w)
  {
    TakeServerIsFreshIff(s.w, s.card.value);
  }

  lemma OvertakenClaims()
    ensures Claimed(AfterPull().w.wire.tables, AfterPull().w.store, "s") && Rewinds(AfterPull().w.store, ShownCard())
  {
  }

  lemma RunCons(s: State, a: Action, rest: seq<Action>)
    ensures Run(s, [a] + rest) == Run(Step(s, a), rest)
  {
    assert ([a] + rest)[1..] == rest;
  }

  lemma ThreeSteps(s: State, a: Action, b: Action, c: Action)
    ensures Run(s, [a, b, c]) == Step(Step(Step(s, a), b), c)
  {
    assert [a, b, c] == [a] + ([b] + ([c] + []));
    RunCons(s, a, [b] + ([c] + []));
    RunCons(Step(s, a), b, [c] + []);
    RunCons(Step(Step(s, a), b), c, []);
  }

  /**
   * The steps on which a run goes astray: an edit meets a conflict, a pull overtakes it, the server's side is taken.
   */
  function Overtaken(): seq<Action> {
    var n := Nonces(0, 0, 0);
    [DoUpdate("v", "s", 1, 1, MY_EDIT, n), DoSync, DoResolve(ChoiceServer, n)]
  }

  lemma OvertakenIsPlaced(d: Directory)
    requires d.home("s") == "v" && d.kind("s") == 1
    ensures AllPlaced(d, Overtaken())
  {
    assert Placed(d, Overtaken()[0]);
  }

  /** At their end the cache is back at version 2 and claims to be up to date with a server that is at version 3. */
  lemma OvertakenCardRewinds(d: Directory)
    requires d.home("s") == "v" && d.kind("s") == 1 && d.key("v") == 0
    ensures Coherent(d, BeforeEdit()) && FreshState(BeforeEdit()) && AllPlaced(d, Overtaken())
    ensures !FreshWorld(Run(BeforeEdit(), Overtaken()).w)
  {
    var n := Nonces(0, 0, 0);
    OvertakenIsPlaced(d);
    BeforeEditIsGood(d);
    EditConflicts();
    PullOvertakes();
    StepKeepsFresh(BeforeEdit(), Overtaken()[0]);
    StepKeepsFresh(AfterEdit(), DoSync);
    OvertakenClaims();
    TakingRewinds(AfterPull(), n);
    ThreeSteps(BeforeEdit(), Overtaken()[0], DoSync, DoResolve(ChoiceServer, n));
  }
}

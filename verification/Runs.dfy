/**
 * Runs of one client: any sequence of its operations, with any requests of other devices and any network faults at
 * each call. The two invariants hold at the end of every run.
 */
module Runs {
  import opened Types
  import opened Sealing
  import opened ServerModel
  import opened ServerLaws
  import opened S = StoreModel
  import opened StoreLaws
  import opened ClientModel
  import opened Coherence
  import opened Freshness
  import opened FreshOperations
  import opened StagedSync
  import opened VaultListing

  datatype Action =
    | DoCreateVault(vault: VaultId, vaultKey: Key)
    | DoOpenVault(vault: VaultId, vaultKey: Key)
    | DoListVaults(keys: map<VaultId, Key>)
    | DoLock
    | DoSetSyncEnabled(vault: VaultId, enabled: bool)
    | DoCreate(vault: VaultId, id: SecretId, kind: int, content: Content, n: Nonces)
    | DoCreateBinary(vault: VaultId, id: SecretId, content: Content, n: Nonces, staging: Staging)
    | DoUpdate(vault: VaultId, id: SecretId, base: int, kind: int, content: Content, n: Nonces)
    | DoDelete(vault: VaultId, id: SecretId, base: int)
    | DoMarkOtp(vault: VaultId, id: SecretId, mark: string -> Option<string>, n: Nonces)
    | DoReplay
    | DoSync
    | DoStagedSync
    | DoOpenConflict(entry: nat)
    | DoResolve(choice: Choice, n: Nonces)
    | DoLoadIndexes(vault: VaultId)
    | DoReadPayload(vault: VaultId, id: SecretId)
    | DoReadDetail(vault: VaultId, id: SecretId)

  /** card is the conflict before the user, if any; pulledSince says whether a pull ran since it was shown. */
  datatype State = State(w: World, card: Option<Card>, pulledSince: bool)

  /** A conflict that an operation returns is shown; otherwise the one on display stays. */
  function Show(s: State, step: (World, Result<Option<Card>>)): State {
    if step.1.Ok? && step.1.value.Some? then State(step.0, step.1.value, false) else s.(w := step.0)
  }

  function Step(s: State, a: Action): State {
    match a
    case DoCreateVault(vault, vaultKey) => s.(w := ClientModel.CreateVault(s.w, vault, vaultKey).0)
    case DoOpenVault(vault, vaultKey) => s.(w := OpenVault(s.w, vault, vaultKey))
    case DoListVaults(keys) => s.(w := ListAndOpen(s.w, keys).0)
    case DoLock => s.(w := Lock(s.w))
    case DoSetSyncEnabled(vault, enabled) => s.(w := s.w.(store := SetSyncEnabled(s.w.store, vault, enabled)))
    case DoCreate(vault, id, kind, content, n) => s.(w := CreateTyped(s.w, vault, id, kind, content, n).0)
    case DoCreateBinary(vault, id, content, n, staging) => s.(w := CreateBinary(s.w, vault, id, content, n, staging).0)
    case DoUpdate(vault, id, base, kind, content, n) => Show(s, UpdateTyped(s.w, vault, id, base, kind, content, n))
    case DoDelete(vault, id, base) => Show(s, ClientModel.DeleteSecret(s.w, vault, id, base))
    case DoMarkOtp(vault, id, mark, n) => s.(w := MarkOtpCodeUsed(s.w, vault, id, mark, n).0)
    case DoReplay => s.(w := ReplayOutbox(s.w).0)
    case DoSync => s.(w := Sync(s.w).0, pulledSince := true)
    case DoStagedSync => s.(w := SyncWithProgress(s.w).0, pulledSince := true)
    case DoOpenConflict(entry) => Show(s, ConflictFromOutbox(s.w, entry))
    case DoResolve(choice, n) =>
      if s.card.None? || !CardFormed(s.card.value) then s
      else
        var step := Resolve(s.w, s.card.value, choice, n);
        if step.1 == Ok(None) then State(step.0, None, false) else Show(s, step)
    case DoLoadIndexes(vault) => s.(w := LoadIndexes(s.w, vault).0)
    case DoReadPayload(vault, id) => s.(w := ReadPayload(s.w, vault, id).0)
    case DoReadDetail(vault, id) => s.(w := ReadDetail(s.w, vault, id).0)
  }

  function Run(s: State, actions: seq<Action>): State
    decreases |actions|
  {
    if actions == [] then s else Run(Step(s, actions[0]), actions[1..])
  }

  // ----- everything always opens -----

  /** The user names a secret together with the vault it was created in, and as of its kind. */
  ghost predicate Placed(d: Directory, a: Action) {
    match a
    case DoCreateVault(vault, vaultKey) => vaultKey == d.key(vault)
    case DoOpenVault(vault, vaultKey) => vaultKey == d.key(vault)
    case DoListVaults(keys) => KeysOk(d, keys)
    case DoCreate(vault, id, kind, _, _) => vault == d.home(id) && kind == d.kind(id)
    case DoCreateBinary(vault, id, _, _, _) => vault == d.home(id) && d.kind(id) == BINARY_KIND
    case DoUpdate(vault, id, _, kind, _, _) => vault == d.home(id) && kind == d.kind(id)
    case DoDelete(vault, id, _) => vault == d.home(id)
    case DoMarkOtp(vault, id, _, _) => vault == d.home(id)
    case DoReadPayload(vault, id) => vault == d.home(id)
    case DoReadDetail(vault, id) => vault == d.home(id)
    case _ => true
  }

  ghost predicate AllPlaced(d: Directory, actions: seq<Action>) {
    forall i :: 0 <= i < |actions| ==> Placed(d, actions[i])
  }

  ghost predicate Coherent(d: Directory, s: State) {
    Inv(d, s.w) && (s.card.Some? ==> CardOk(d, s.card.value))
  }

  lemma ShowKeepsCoherent(d: Directory, s: State, step: (World, Result<Option<Card>>))
    requires Coherent(d, s) && Sound(d, step)
    ensures Coherent(d, Show(s, step))
  {
  }

  lemma ResolveStepKeepsCoherent(d: Directory, s: State, choice: Choice, n: Nonces)
    requires Coherent(d, s)
    ensures Coherent(d, Step(s, DoResolve(choice, n)))
  {
    if s.card.Some? && CardFormed(s.card.value) {
      ResolveKeeps(d, s.w, s.card.value, choice, n);
      ShowKeepsCoherent(d, s, Resolve(s.w, s.card.value, choice, n));
    }
  }

  lemma SyncStepKeepsCoherent(d: Directory, s: State)
    requires Coherent(d, s)
    ensures Coherent(d, Step(s, DoSync))
  {
    SyncKeeps(d, s.w);
  }

  lemma StagedStepKeepsCoherent(d: Directory, s: State)
    requires Coherent(d, s)
    ensures Coherent(d, Step(s, DoStagedSync))
  {
    StagedRefinesSync(d, s.w);
  }

  lemma StepKeepsCoherent(d: Directory, s: State, a: Action)
    requires Coherent(d, s) && Placed(d, a)
    ensures Coherent(d, Step(s, a))
  {
    match a
    case DoCreateVault(vault, _) => CreateVaultKeeps(d, s.w, vault);
    case DoOpenVault(_, _) =>
    case DoListVaults(keys) => ListingKeeps(d, s.w, keys);
    case DoLock =>
    case DoSetSyncEnabled(_, _) =>
    case DoCreate(_, id, kind, content, n) => CreateKeeps(d, s.w, id, kind, content, n);
    case DoCreateBinary(_, id, content, n, staging) => CreateBinaryKeeps(d, s.w, id, content, n, staging);
    case DoUpdate(vault, id, base, kind, content, n) =>
      UpdateKeeps(d, s.w, id, base, kind, content, n);
      ShowKeepsCoherent(d, s, UpdateTyped(s.w, vault, id, base, kind, content, n));
    case DoDelete(vault, id, base) =>
      DeleteKeeps(d, s.w, id, base);
      ShowKeepsCoherent(d, s, ClientModel.DeleteSecret(s.w, vault, id, base));
    case DoMarkOtp(_, id, mark, n) => MarkOtpKeeps(d, s.w, id, mark, n);
    case DoReplay => ReplayKeeps(d, s.w);
    case DoSync => SyncStepKeepsCoherent(d, s);
    case DoStagedSync => StagedStepKeepsCoherent(d, s);
    case DoOpenConflict(entry) =>
      FromOutboxKeeps(d, s.w, entry);
      ShowKeepsCoherent(d, s, ConflictFromOutbox(s.w, entry));
    case DoResolve(choice, n) => ResolveStepKeepsCoherent(d, s, choice, n);
    case DoLoadIndexes(vault) => LoadIndexesKeeps(d, s.w, vault);
    case DoReadPayload(_, id) => ReadPayloadKeeps(d, s.w, id);
    case DoReadDetail(_, id) => ReadDetailKeeps(d, s.w, id);
  }

  /** In every reachable state each cached tier, each queued request and each shown conflict fits its own version. */
  lemma {:induction false} RunKeepsCoherent(d: Directory, s: State, actions: seq<Action>)
    requires Coherent(d, s) && AllPlaced(d, actions)
    ensures Coherent(d, Run(s, actions))
    decreases |actions|
  {
    if actions != [] {
      assert Placed(d, actions[0]);
      StepKeepsCoherent(d, s, actions[0]);
      assert forall i :: 0 <= i < |actions[1..]| ==> actions[1..][i] == actions[i + 1];
      RunKeepsCoherent(d, Step(s, actions[0]), actions[1..]);
    }
  }

  /** After any run, the list, payload and detail readers do not fail to open anything. */
  lemma ReadersNeverFail(d: Directory, s: State, actions: seq<Action>, vault: VaultId, kind: int, id: SecretId)
    requires Coherent(d, s) && AllPlaced(d, actions)
    ensures var w := Run(s, actions).w;
            && (vault != "" && vault in w.session.open ==> ReadRows(w, vault, kind).Ok?)
            && ReadPayload(w, d.home(id), id).1 != Err(DecryptFailed)
            && ReadDetail(w, d.home(id), id).1 != Err(DecryptFailed)
  {
    RunKeepsCoherent(d, s, actions);
    var w := Run(s, actions).w;
    if vault != "" && vault in w.session.open {
      ReadRowsNeverFails(d, w, vault, kind);
    }
    ReadPayloadKeeps(d, w, id);
    ReadDetailKeeps(d, w, id);
  }

  // ----- synced_version means what it says -----

  /** The card's facts survive a pull, except that it may by then be older than the cache. */
  ghost predicate CardKept(s: State) {
    s.card.Some? ==>
      && CardSound(s.w.wire.tables, s.card.value)
      && CardEntryNamed(s.w.store, s.card.value)
      && (!s.pulledSince ==> CardCurrent(s.w.wire.tables, s.w.store, s.card.value))
  }

  ghost predicate FreshState(s: State) {
    FreshWorld(s.w) && CardKept(s)
  }

  /**
   * The user takes the server's version only if no pull ran since the conflict was shown, or if the card is not older
   * than the cached row.
   */
  predicate Timely(s: State, a: Action) {
    a.DoResolve? && a.choice.ChoiceServer? && s.card.Some? ==> !s.pulledSince || !Rewinds(s.w.store, s.card.value)
  }

  predicate AllTimely(s: State, actions: seq<Action>)
    decreases |actions|
  {
    actions == [] || (Timely(s, actions[0]) && AllTimely(Step(s, actions[0]), actions[1..]))
  }

  lemma QuietStepKeepsFresh(s: State, w': World)
    requires FreshState(s) && Quiet(s.w, w')
    ensures FreshState(s.(w := w'))
  {
    if s.card.Some? {
      LaterKeepsSound(s.w.wire.tables, w'.wire.tables, s.card.value);
      if !s.pulledSince {
        QuietKeepsCard(s.w, w', s.card.value);
      }
    }
  }

  /** Opening and locking vaults does not concern the cache. */
  lemma SessionIsQuiet(w: World, session: Session)
    requires FreshWorld(w)
    ensures Quiet(w, w.(session := session))
  {
    LaterIsReflexive(w.wire.tables);
  }

  lemma ShowKeepsFresh(s: State, step: (World, Result<Option<Card>>))
    requires FreshState(s) && Quiet(s.w, step.0) && CardGood(step)
    ensures FreshState(Show(s, step))
  {
    QuietStepKeepsFresh(s, step.0);
  }

  lemma PullStepKeepsFresh(s: State)
    requires FreshState(s)
    ensures FreshState(Step(s, DoSync)) && FreshState(Step(s, DoStagedSync))
  {
    SyncIsFresh(s.w);
    StagedIsFresh(s.w);
    if s.card.Some? {
      LaterKeepsSound(s.w.wire.tables, Sync(s.w).0.wire.tables, s.card.value);
      LaterKeepsSound(s.w.wire.tables, SyncWithProgress(s.w).0.wire.tables, s.card.value);
    }
  }

  lemma ResolveStepKeepsFresh(s: State, choice: Choice, n: Nonces)
    requires FreshState(s) && Timely(s, DoResolve(choice, n))
    ensures FreshState(Step(s, DoResolve(choice, n)))
  {
    if s.card.Some? && CardFormed(s.card.value) {
      var c := s.card.value;
      if choice.ChoiceMine? {
        RetryMineIsQuiet(s.w, c, n);
        ShowKeepsFresh(s, RetryMine(s.w, c, n));
      } else {
        assert FreshSecret(s.w.wire.tables, s.w.store, c.secret);
        TakeServerIsQuiet(s.w, c);
      }
    }
  }

  /** Steps that concern vaults and their keys. */
  lemma VaultStepKeepsFresh(s: State, a: Action)
    requires FreshState(s)
    requires a.DoCreateVault? || a.DoOpenVault? || a.DoListVaults? || a.DoLock? || a.DoSetSyncEnabled?
    ensures FreshState(Step(s, a))
  {
    match a {
      case DoCreateVault(vault, vaultKey) => CreateVaultIsQuiet(s.w, vault, vaultKey);
      case DoListVaults(keys) => ListingIsQuiet(s.w, keys);
      case DoSetSyncEnabled(vault, enabled) => SetSyncEnabledIsQuiet(s.w, vault, enabled);
      case _ => SessionIsQuiet(s.w, Step(s, a).w.session);
    }
    QuietStepKeepsFresh(s, Step(s, a).w);
  }

  lemma StepKeepsFresh(s: State, a: Action)
    requires FreshState(s) && Timely(s, a)
    ensures FreshState(Step(s, a))
  {
    match a
    case DoCreateVault(_, _) => VaultStepKeepsFresh(s, a);
    case DoOpenVault(_, _) => VaultStepKeepsFresh(s, a);
    case DoListVaults(_) => VaultStepKeepsFresh(s, a);
    case DoLock => VaultStepKeepsFresh(s, a);
    case DoSetSyncEnabled(_, _) => VaultStepKeepsFresh(s, a);
    case DoCreate(vault, id, kind, content, n) =>
      CreateIsQuiet(s.w, vault, id, kind, content, n);
      QuietStepKeepsFresh(s, Step(s, a).w);
    case DoCreateBinary(vault, id, content, n, staging) =>
      CreateBinaryIsQuiet(s.w, vault, id, content, n, staging);
      QuietStepKeepsFresh(s, Step(s, a).w);
    case DoUpdate(vault, id, base, kind, content, n) =>
      UpdateIsQuiet(s.w, vault, id, base, kind, content, n);
      ShowKeepsFresh(s, UpdateTyped(s.w, vault, id, base, kind, content, n));
    case DoDelete(vault, id, base) =>
      DeleteIsQuiet(s.w, vault, id, base);
      ShowKeepsFresh(s, ClientModel.DeleteSecret(s.w, vault, id, base));
    case DoMarkOtp(vault, id, mark, n) =>
      MarkOtpIsQuiet(s.w, vault, id, mark, n);
      QuietStepKeepsFresh(s, Step(s, a).w);
    case DoReplay =>
      ReplayIsQuiet(s.w);
      QuietStepKeepsFresh(s, Step(s, a).w);
    case DoSync => PullStepKeepsFresh(s);
    case DoStagedSync => PullStepKeepsFresh(s);
    case DoOpenConflict(entry) =>
      FromOutboxIsQuiet(s.w, entry);
      ShowKeepsFresh(s, ConflictFromOutbox(s.w, entry));
    case DoResolve(choice, n) => ResolveStepKeepsFresh(s, choice, n);
    case DoLoadIndexes(vault) =>
      LoadIndexesIsQuiet(s.w, vault);
      QuietStepKeepsFresh(s, Step(s, a).w);
    case DoReadPayload(vault, id) =>
      ReadPayloadIsQuiet(s.w, vault, id);
      QuietStepKeepsFresh(s, Step(s, a).w);
    case DoReadDetail(vault, id) =>
      ReadDetailIsQuiet(s.w, vault, id);
      QuietStepKeepsFresh(s, Step(s, a).w);
  }

  /** No honesty of other devices is needed: at the end of every timely run the cache holds what it claims to hold. */
  lemma {:induction false} RunKeepsFresh(s: State, actions: seq<Action>)
    requires FreshState(s) && AllTimely(s, actions)
    ensures FreshState(Run(s, actions))
    decreases |actions|
  {
    if actions != [] {
      StepKeepsFresh(s, actions[0]);
      RunKeepsFresh(Step(s, actions[0]), actions[1..]);
    }
  }

  /** An empty client before any server, with whatever vaults open. */
  function Start(t: Tables, tape: seq<Net>, session: Session): State {
    State(World(Wire(t, tape, []), NO_STORE, session, {}), None, false)
  }

  /** It starts both invariants; the open vaults need to be open with their own keys for the first one only. */
  lemma StartIsGood(d: Directory, t: Tables, tape: seq<Net>, session: Session)
    requires TablesOk(t)
    ensures FreshState(Start(t, tape, session))
    ensures ServerSealed(d, t) && TapeOk(d, tape) && SessionOk(d, session) ==> Coherent(d, Start(t, tape, session))
  {
  }

  /**
   * From an empty client on: synced_version never exceeds the server's version of a vault, and while the two are equal
   * every live secret of the vault without an outbox entry is cached with the server's kind, version and row.
   */
  lemma SyncedMeansSynced(t: Tables, tape: seq<Net>, session: Session, actions: seq<Action>, v: VaultId, id: SecretId)
    requires TablesOk(t) && AllTimely(Start(t, tape, session), actions)
    ensures var w := Run(Start(t, tape, session), actions).w;
            v in w.store.vaults ==>
              && w.store.vaults[v].syncedVersion <= VaultVersionOf(w.wire.tables, v)
              && (&& w.store.vaults[v].syncedVersion == VaultVersionOf(w.wire.tables, v)
                  && id in w.wire.tables.secrets
                  && w.wire.tables.secrets[id].vault == v
                  && !w.wire.tables.secrets[id].deleted
                  && id !in Outstanding(w.store.outbox)
                  ==> && id in w.store.secrets
                      && w.store.secrets[id].kind == w.wire.tables.secrets[id].kind
                      && w.store.secrets[id].version == w.wire.tables.secrets[id].version
                      && w.store.secrets[id].tiers.row == w.wire.tables.secrets[id].tiers.row)
  {
    RunKeepsFresh(Start(t, tape, session), actions);
    var w := Run(Start(t, tape, session), actions).w;
    assert FreshVault(w.wire.tables, w.store, v) && FreshSecret(w.wire.tables, w.store, id);
  }
}

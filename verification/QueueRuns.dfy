/** Over any run of one client, no queued operation is forgotten, and every conflict on display tells the truth. */
module QueueRuns {
  import opened Types
  import opened Sealing
  import opened ServerModel
  import opened ServerLaws
  import opened S = StoreModel
  import opened StoreLaws
  import opened ClientModel
  import opened Accounting
  import opened AccountedOperations
  import opened Runs

  ghost predicate Truthful(s: State) {
    Orderly(s.w) && (s.card.Some? ==> CardKnown(s.w, s.card.value))
  }

  lemma WorldStaysTruthful(s: State, w': World)
    requires Truthful(s) && Accounts(s.w, w')
    ensures Truthful(s.(w := w'))
  {
    if s.card.Some? { AccountsKeepsCard(s.w, w', s.card.value); }
  }

  lemma ShowStaysTruthful(s: State, step: (World, Result<Option<Card>>))
    requires Truthful(s) && Accounts(s.w, step.0) && CardGiven(step)
    ensures Truthful(Show(s, step))
  {
    WorldStaysTruthful(s, step.0);
  }

  lemma ResolveAccounts(s: State, choice: Choice, n: Nonces)
    requires Truthful(s)
    ensures var s' := Step(s, DoResolve(choice, n));
            Accounts(s.w, s'.w) && Truthful(s')
  {
    SameQueueAccounts(s.w, s.w);
    if s.card.Some? && CardFormed(s.card.value) {
      var c := s.card.value;
      if choice.ChoiceMine? {
        RetryMineAccounts(s.w, c, n);
        ShowStaysTruthful(s, RetryMine(s.w, c, n));
      } else {
        TakeServerAccounts(s.w, c);
      }
    }
  }

  lemma ShowingAccounts(s: State, step: (World, Result<Option<Card>>), s': State)
    requires Truthful(s) && Accounts(s.w, step.0) && CardGiven(step) && s' == Show(s, step)
    ensures Accounts(s.w, s'.w) && Truthful(s')
  {
    ShowStaysTruthful(s, step);
  }

  lemma UpdateStepAccounts(s: State, a: Action)
    requires Truthful(s) && a.DoUpdate?
    ensures Accounts(s.w, Step(s, a).w) && Truthful(Step(s, a))
  {
    UpdateAccounts(s.w, a.vault, a.id, a.base, a.kind, a.content, a.n);
    ShowingAccounts(s, UpdateTyped(s.w, a.vault, a.id, a.base, a.kind, a.content, a.n), Step(s, a));
  }

  lemma DeleteStepAccounts(s: State, a: Action)
    requires Truthful(s) && a.DoDelete?
    ensures Accounts(s.w, Step(s, a).w) && Truthful(Step(s, a))
  {
    DeleteAccounts(s.w, a.vault, a.id, a.base);
    ShowingAccounts(s, ClientModel.DeleteSecret(s.w, a.vault, a.id, a.base), Step(s, a));
  }

  lemma OpenedAccounts(s: State, entry: nat)
    requires Truthful(s)
    ensures var s' := Show(s, ConflictFromOutbox(s.w, entry));
            Accounts(s.w, s'.w) && Truthful(s')
  {
    var step := ConflictFromOutbox(s.w, entry);
    FromOutboxAccounts(s.w, entry);
    ShowingAccounts(s, step, Show(s, step));
  }

  lemma OpenConflictAccounts(s: State, a: Action)
    requires Truthful(s) && a.DoOpenConflict?
    ensures Accounts(s.w, Step(s, a).w) && Truthful(Step(s, a))
  {
    OpenedAccounts(s, a.entry);
    assert Step(s, a) == Show(s, ConflictFromOutbox(s.w, a.entry));
  }

  /** The operations that may show a conflict. */
  lemma ShowingStepAccounts(s: State, a: Action)
    requires Truthful(s) && (a.DoUpdate? || a.DoDelete? || a.DoOpenConflict? || a.DoResolve?)
    ensures Accounts(s.w, Step(s, a).w) && Truthful(Step(s, a))
  {
    match a
    case DoUpdate(_, _, _, _, _, _) => UpdateStepAccounts(s, a);
    case DoDelete(_, _, _) => DeleteStepAccounts(s, a);
    case DoOpenConflict(_) => OpenConflictAccounts(s, a);
    case DoResolve(choice, n) => ResolveAccounts(s, choice, n);
  }

  /** The others leave what is on display as it is. */
  lemma PlainStepAccounts(s: State, a: Action)
    requires Truthful(s) && !(a.DoUpdate? || a.DoDelete? || a.DoOpenConflict? || a.DoResolve?)
    ensures Accounts(s.w, Step(s, a).w) && Step(s, a).card == s.card
  {
    match a
    case DoCreateVault(vault, vaultKey) => CreateVaultAccounts(s.w, vault, vaultKey);
    case DoOpenVault(_, _) => SameQueueAccounts(s.w, Step(s, a).w);
    case DoListVaults(keys) => ListingAccounts(s.w, keys);
    case DoLock => SameQueueAccounts(s.w, Step(s, a).w);
    case DoSetSyncEnabled(_, _) => SameQueueAccounts(s.w, Step(s, a).w);
    case DoCreate(vault, id, kind, content, n) => CreateAccounts(s.w, vault, id, kind, content, n);
    case DoCreateBinary(vault, id, content, n, staging) => CreateBinaryAccounts(s.w, vault, id, content, n, staging);
    case DoMarkOtp(vault, id, mark, n) => MarkOtpAccounts(s.w, vault, id, mark, n);
    case DoReplay => ReplayAccounts(s.w);
    case DoSync => SyncAccounts(s.w);
    case DoStagedSync => StagedAccounts(s.w);
    case DoLoadIndexes(vault) => LoadIndexesAccounts(s.w, vault);
    case DoReadPayload(vault, id) => ReadPayloadAccounts(s.w, vault, id);
    case DoReadDetail(vault, id) => ReadDetailAccounts(s.w, vault, id);
  }

  lemma StepAccounts(s: State, a: Action)
    requires Truthful(s)
    ensures Accounts(s.w, Step(s, a).w) && Truthful(Step(s, a))
  {
    if a.DoUpdate? || a.DoDelete? || a.DoOpenConflict? || a.DoResolve? {
      ShowingStepAccounts(s, a);
    } else {
      PlainStepAccounts(s, a);
      WorldStaysTruthful(s, Step(s, a).w);
    }
  }

  lemma {:induction false} RunStaysTruthful(s: State, actions: seq<Action>)
    requires Truthful(s)
    ensures Accounts(s.w, Run(s, actions).w) && Truthful(Run(s, actions))
    decreases |actions|
  {
    if actions == [] {
      SameQueueAccounts(s.w, s.w);
    } else {
      var s1 := Step(s, actions[0]);
      StepAccounts(s, actions[0]);
      RunStaysTruthful(s1, actions[1..]);
      AccountsIsTransitive(s.w, s1.w, Run(s1, actions[1..]).w);
    }
  }

  /**
   * Whatever the client does, whatever other devices and the network do: an operation that is queued now is queued
   * still, in this entry or in another one that asks for the same, or the server accepted it from this client since.
   */
  lemma NothingIsForgotten(s: State, actions: seq<Action>, e: Entry)
    requires Truthful(s) && e in s.w.store.outbox
    ensures var w := Run(s, actions).w;
            StillAsked(w.store.outbox, e) || Fulfilled(w.wire.accepted, |s.w.wire.accepted|, e)
  {
    RunStaysTruthful(s, actions);
  }
}

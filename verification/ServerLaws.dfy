/** What every run of requests, from any number of clients, keeps on the server. */
module ServerLaws {
  import opened Types
  import opened Sealing
  import opened ServerModel

  // ----- rejected requests -----

  lemma RejectedChangesNothing(t: Tables, req: Request)
    ensures !Accepted(t, req) ==> Exec(t, req).0 == t
  {
  }

  // ----- well-formed tables -----

  ghost predicate TablesOk(t: Tables) {
    && (forall v :: v in t.vaults ==> t.vaults[v].version >= 1 && v in t.vaultOrder)
    && (forall id :: id in t.secrets ==>
          t.secrets[id].vault in t.vaults && t.secrets[id].version >= 1 && id in t.secretOrder)
  }

  lemma CreateVaultKeepsTablesOk(t: Tables, req: Request)
    requires TablesOk(t) && req.CreateVault?
    ensures TablesOk(Exec(t, req).0)
  {
    var t' := Exec(t, req).0;
    assert forall v :: v in t.vaultOrder ==> v in t'.vaultOrder;
    if Accepted(t, req) { assert t'.vaultOrder[|t.vaultOrder|] == req.vault; }
  }

  lemma CreateKeepsTablesOk(t: Tables, req: Request)
    requires TablesOk(t) && req.Create?
    ensures TablesOk(Exec(t, req).0)
  {
    var t' := Exec(t, req).0;
    assert forall id :: id in t.secretOrder ==> id in t'.secretOrder;
    if Accepted(t, req) { assert t'.secretOrder[|t.secretOrder|] == req.id; }
  }

  lemma ExecKeepsTablesOk(t: Tables, req: Request)
    requires TablesOk(t)
    ensures TablesOk(Exec(t, req).0)
  {
    if req.CreateVault? {
      CreateVaultKeepsTablesOk(t, req);
    } else if req.Create? {
      CreateKeepsTablesOk(t, req);
    }
  }

  // ----- accepted requests -----

  /** The row that an accepted request leaves of the secret that it names. */
  ghost predicate Changed(t: Tables, req: Request, row: SecretRow) {
    match req
    case Create(_, _, vault, kind, tiers) => row == SecretRow(vault, kind, tiers, None, INITIAL_VERSION, false)
    case Update(_, id, _, tiers) =>
      id in t.secrets && row == t.secrets[id].(tiers := tiers, version := t.secrets[id].version + 1)
    case Delete(_, id, _) =>
      id in t.secrets && row == t.secrets[id].(deleted := true, version := t.secrets[id].version + 1)
    case Attach(_, id, _, blobRef) => id in t.secrets && row == t.secrets[id].(blobRef := Some(blobRef))
    case _ => false
  }

  /**
   * An accepted request changes the secret that it names as it asks, raises the version of its vault by one, touches
   * nothing else, and is answered with the version that the secret then has.
   */
  lemma AcceptedChangesOneSecret(t: Tables, req: Request)
    requires TablesOk(t) && Accepted(t, req) && !req.CreateVault?
    ensures var (t', reply) := Exec(t, req);
            && req.id in t'.secrets && Changed(t, req, t'.secrets[req.id])
            && reply == Done(t'.secrets[req.id].version)
            && t'.secrets - {req.id} == t.secrets - {req.id}
            && var v := t'.secrets[req.id].vault;
               && v in t.vaults && v in t'.vaults
               && t'.vaults[v] == t.vaults[v].(version := t.vaults[v].version + 1)
               && t'.vaults - {v} == t.vaults - {v}
  {
  }

  // ----- time moves forward -----

  function VaultVersionOf(t: Tables, v: VaultId): int {
    if v in t.vaults then t.vaults[v].version else 0
  }

  ghost predicate LaterVault(t: Tables, t': Tables, v: VaultId) {
    && VaultVersionOf(t, v) <= VaultVersionOf(t', v)
    && (v in t.vaults ==> v in t'.vaults && t'.vaults[v].user == t.vaults[v].user)
  }

  ghost predicate LaterSecret(t: Tables, t': Tables, id: SecretId) {
    id in t.secrets ==>
      && id in t'.secrets
      && t'.secrets[id].vault == t.secrets[id].vault
      && t'.secrets[id].kind == t.secrets[id].kind
      && t'.secrets[id].version >= t.secrets[id].version
      && (t'.secrets[id].version == t.secrets[id].version ==>
            t'.secrets[id].tiers == t.secrets[id].tiers && t'.secrets[id].deleted == t.secrets[id].deleted)
      && (t.secrets[id].deleted ==> t'.secrets[id] == t.secrets[id])
  }

  /** While the version of a vault stands still, so does every secret in it. */
  ghost predicate StillWithVault(t: Tables, t': Tables, id: SecretId) {
    id in t'.secrets && VaultVersionOf(t', t'.secrets[id].vault) == VaultVersionOf(t, t'.secrets[id].vault)
    ==> id in t.secrets && t.secrets[id] == t'.secrets[id]
  }

  /** t' is reachable from t: versions only grow, and no secret changes behind an unchanged vault version. */
  ghost predicate Later(t: Tables, t': Tables) {
    && (forall v :: LaterVault(t, t', v))
    && (forall id :: LaterSecret(t, t', id))
    && (forall id :: StillWithVault(t, t', id))
  }

  lemma LaterIsReflexive(t: Tables)
    ensures Later(t, t)
  {
  }

  lemma LaterIsTransitive(t: Tables, u: Tables, w: Tables)
    requires Later(t, u) && Later(u, w)
    ensures Later(t, w)
  {
    forall v ensures LaterVault(t, w, v) {
      assert LaterVault(t, u, v) && LaterVault(u, w, v);
    }
    forall id ensures LaterSecret(t, w, id) {
      assert LaterSecret(t, u, id) && LaterSecret(u, w, id);
    }
    forall id ensures StillWithVault(t, w, id) {
      if id in w.secrets {
        var v := w.secrets[id].vault;
        assert LaterVault(t, u, v) && LaterVault(u, w, v);
        assert StillWithVault(u, w, id) && StillWithVault(t, u, id);
      }
    }
  }

  lemma CreationMovesForward(t: Tables, req: Request)
    requires TablesOk(t) && (req.CreateVault? || req.Create?)
    ensures Later(t, Exec(t, req).0)
  {
  }

  lemma UpdateMovesForward(t: Tables, req: Request)
    requires TablesOk(t) && req.Update?
    ensures Later(t, Exec(t, req).0)
  {
  }

  lemma DeleteMovesForward(t: Tables, req: Request)
    requires TablesOk(t) && req.Delete?
    ensures Later(t, Exec(t, req).0)
  {
  }

  lemma AttachMovesForward(t: Tables, req: Request)
    requires TablesOk(t) && req.Attach?
    ensures Later(t, Exec(t, req).0)
  {
  }

  lemma ExecMovesForward(t: Tables, req: Request)
    requires TablesOk(t)
    ensures Later(t, Exec(t, req).0)
  {
    match req
    case CreateVault(_, _) => CreationMovesForward(t, req);
    case Create(_, _, _, _, _) => CreationMovesForward(t, req);
    case Update(_, _, _, _) => UpdateMovesForward(t, req);
    case Delete(_, _, _) => DeleteMovesForward(t, req);
    case Attach(_, _, _, _) => AttachMovesForward(t, req);
    case _ => LaterIsReflexive(t);
  }

  lemma {:induction false} RunMovesForward(t: Tables, reqs: seq<Request>)
    requires TablesOk(t)
    ensures TablesOk(RunAll(t, reqs)) && Later(t, RunAll(t, reqs))
    decreases |reqs|
  {
    if reqs == [] {
      LaterIsReflexive(t);
    } else {
      var u := Exec(t, reqs[0]).0;
      ExecKeepsTablesOk(t, reqs[0]);
      ExecMovesForward(t, reqs[0]);
      RunMovesForward(u, reqs[1..]);
      LaterIsTransitive(t, u, RunAll(t, reqs));
    }
  }

  // ----- conservation of versions -----

  /** The sum of the versions of all secrets of a vault, deleted ones included. */
  ghost function VersionSum(secrets: map<SecretId, SecretRow>, vault: VaultId): int {
    if secrets == map[] then 0
    else
      var id :| id in secrets;
      Share(secrets[id], vault) + VersionSum(secrets - {id}, vault)
  }

  function Share(row: SecretRow, vault: VaultId): int {
    if row.vault == vault then row.version else 0
  }

  lemma {:induction false} VersionSumSplits(secrets: map<SecretId, SecretRow>, vault: VaultId, id: SecretId)
    requires id in secrets
    ensures VersionSum(secrets, vault) == Share(secrets[id], vault) + VersionSum(secrets - {id}, vault)
    decreases |secrets|
  {
    var picked :| picked in secrets
      && VersionSum(secrets, vault) == Share(secrets[picked], vault) + VersionSum(secrets - {picked}, vault);
    if picked != id {
      VersionSumSplits(secrets - {picked}, vault, id);
      VersionSumSplits(secrets - {id}, vault, picked);
      assert secrets - {picked} - {id} == secrets - {id} - {picked};
    }
  }

  lemma VersionSumOfUpdate(secrets: map<SecretId, SecretRow>, vault: VaultId, id: SecretId, row: SecretRow)
    ensures VersionSum(secrets[id := row], vault)
         == VersionSum(secrets, vault) + Share(row, vault) - (if id in secrets then Share(secrets[id], vault) else 0)
  {
    VersionSumSplits(secrets[id := row], vault, id);
    assert secrets[id := row] - {id} == secrets - {id};
    if id in secrets {
      VersionSumSplits(secrets, vault, id);
    } else {
      assert secrets - {id} == secrets;
    }
  }

  /** What the vault's version exceeds the sum of the versions of its secrets by. */
  ghost function Surplus(t: Tables, vault: VaultId): int {
    VaultVersionOf(t, vault) - VersionSum(t.secrets, vault)
  }

  predicate AttachesIn(t: Tables, req: Request, vault: VaultId) {
    req.Attach? && Accepted(t, req) && t.secrets[req.id].vault == vault
  }

  function AttachCount(t: Tables, reqs: seq<Request>, vault: VaultId): nat
    decreases |reqs|
  {
    if reqs == [] then 0
    else (if AttachesIn(t, reqs[0], vault) then 1 else 0) + AttachCount(Exec(t, reqs[0]).0, reqs[1..], vault)
  }

  lemma ExecConservesVersions(t: Tables, req: Request, vault: VaultId)
    requires TablesOk(t) && vault in t.vaults
    ensures Surplus(Exec(t, req).0, vault) == Surplus(t, vault) + if AttachesIn(t, req, vault) then 1 else 0
  {
    var t' := Exec(t, req).0;
    if Accepted(t, req) && !req.CreateVault? {
      assert t'.secrets == t.secrets[req.id := t'.secrets[req.id]];
      VersionSumOfUpdate(t.secrets, vault, req.id, t'.secrets[req.id]);
    }
  }

  /** A vault's version is conserved: it grows by the versions gained by its secrets and by the accepted attachments. */
  lemma {:induction false} RunConservesVersions(t: Tables, reqs: seq<Request>, vault: VaultId)
    requires TablesOk(t) && vault in t.vaults
    ensures Surplus(RunAll(t, reqs), vault) == Surplus(t, vault) + AttachCount(t, reqs, vault)
    decreases |reqs|
  {
    if reqs != [] {
      ExecConservesVersions(t, reqs[0], vault);
      ExecKeepsTablesOk(t, reqs[0]);
      ExecMovesForward(t, reqs[0]);
      assert LaterVault(t, Exec(t, reqs[0]).0, vault);
      RunConservesVersions(Exec(t, reqs[0]).0, reqs[1..], vault);
    }
  }

  lemma {:induction false} NoSecretsNoSum(secrets: map<SecretId, SecretRow>, vault: VaultId)
    requires forall id :: id in secrets ==> secrets[id].vault != vault
    ensures VersionSum(secrets, vault) == 0
    decreases |secrets|
  {
    if id :| id in secrets {
      VersionSumSplits(secrets, vault, id);
      NoSecretsNoSum(secrets - {id}, vault);
    } else {
      assert secrets == map[];
    }
  }

  /** From its creation on, a vault's version is 1 plus the versions of its secrets plus the accepted attachments. */
  lemma NewVaultConservesVersions(t: Tables, user: UserId, vault: VaultId, reqs: seq<Request>)
    requires TablesOk(t) && Accepted(t, CreateVault(user, vault))
    ensures var start := Exec(t, CreateVault(user, vault)).0;
            var end := RunAll(start, reqs);
            vault in end.vaults
            && end.vaults[vault].version
            == INITIAL_VERSION + VersionSum(end.secrets, vault) + AttachCount(start, reqs, vault)
  {
    var start := Exec(t, CreateVault(user, vault)).0;
    NoSecretsNoSum(t.secrets, vault);
    ExecKeepsTablesOk(t, CreateVault(user, vault));
    RunConservesVersions(start, reqs, vault);
    RunMovesForward(start, reqs);
    assert LaterVault(start, RunAll(start, reqs), vault);
  }

  // ----- linear history of one secret -----

  /** req is an update or a delete of this secret that the server accepts. */
  predicate Wins(t: Tables, req: Request, id: SecretId) {
    (req.Update? || req.Delete?) && req.id == id && Accepted(t, req)
  }

  /** The bases of the accepted updates and deletes of one secret, in the order of their acceptance. */
  function Bases(t: Tables, reqs: seq<Request>, id: SecretId): seq<int>
    decreases |reqs|
  {
    if reqs == [] then []
    else (if Wins(t, reqs[0], id) then [reqs[0].base] else []) + Bases(Exec(t, reqs[0]).0, reqs[1..], id)
  }

  function NextBase(t: Tables, id: SecretId): int {
    if id in t.secrets then t.secrets[id].version else INITIAL_VERSION
  }

  /** Accepted bases are consecutive, from the current version (or 1 for a secret not yet created) upwards. */
  lemma {:induction false} HistoryIsLinear(t: Tables, reqs: seq<Request>, id: SecretId)
    ensures forall k :: 0 <= k < |Bases(t, reqs, id)| ==> Bases(t, reqs, id)[k] == NextBase(t, id) + k
    ensures NextBase(RunAll(t, reqs), id) == NextBase(t, id) + |Bases(t, reqs, id)|
    decreases |reqs|
  {
    if reqs != [] {
      HistoryIsLinear(Exec(t, reqs[0]).0, reqs[1..], id);
    }
  }

  /** Of two requests with the same base for one secret, at most one is accepted, whatever runs between them. */
  lemma OneWinnerPerBase(t: Tables, first: Request, between: seq<Request>, second: Request, id: SecretId)
    requires Wins(t, first, id)
    requires Wins(RunAll(Exec(t, first).0, between), second, id)
    ensures first.base < second.base
  {
    HistoryIsLinear(Exec(t, first).0, between, id);
  }

  /** After an accepted delete no update, delete or attachment of the secret is accepted, and its row stands still. */
  lemma {:induction false} NothingAfterDelete(t: Tables, reqs: seq<Request>, id: SecretId)
    requires id in t.secrets && t.secrets[id].deleted
    ensures Bases(t, reqs, id) == []
    ensures id in RunAll(t, reqs).secrets && RunAll(t, reqs).secrets[id] == t.secrets[id]
    decreases |reqs|
  {
    if reqs != [] {
      NothingAfterDelete(Exec(t, reqs[0]).0, reqs[1..], id);
    }
  }

  // ----- sealing of what the server serves -----

  /** A request as the clients of this repository build it: tiers sealed under the version they will be stored at. */
  ghost predicate Honest(d: Directory, req: Request) {
    match req
    case Create(_, id, vault, kind, tiers) =>
      vault == d.home(id) && kind == d.kind(id) && SealedUnder(d, id, INITIAL_VERSION, tiers)
    case Update(_, id, base, tiers) => SealedUnder(d, id, base + 1, tiers)
    case _ => true
  }

  ghost predicate AllHonest(d: Directory, reqs: seq<Request>) {
    forall i :: 0 <= i < |reqs| ==> Honest(d, reqs[i])
  }

  /** Every secret has its home and its kind, and every live one holds tiers sealed under its current version. */
  ghost predicate ServerSealed(d: Directory, t: Tables) {
    forall id :: id in t.secrets ==>
      && t.secrets[id].vault == d.home(id) && t.secrets[id].kind == d.kind(id)
      && (!t.secrets[id].deleted ==> SealedUnder(d, id, t.secrets[id].version, t.secrets[id].tiers))
  }

  lemma ExecKeepsSealing(d: Directory, t: Tables, req: Request)
    requires ServerSealed(d, t) && Honest(d, req)
    ensures ServerSealed(d, Exec(t, req).0)
  {
  }

  lemma {:induction false} RunKeepsSealing(d: Directory, t: Tables, reqs: seq<Request>)
    requires ServerSealed(d, t) && AllHonest(d, reqs)
    ensures ServerSealed(d, RunAll(t, reqs))
    decreases |reqs|
  {
    if reqs != [] {
      assert Honest(d, reqs[0]);
      ExecKeepsSealing(d, t, reqs[0]);
      assert forall i :: 0 <= i < |reqs[1..]| ==> reqs[1..][i] == reqs[i + 1];
      RunKeepsSealing(d, Exec(t, reqs[0]).0, reqs[1..]);
    }
  }

  /** The copy in a conflict is a live secret of the asking user, and opens under its own version. */
  ghost predicate CopySealed(d: Directory, s: ServerSecret) {
    s.kind == d.kind(s.id) && SealedUnder(d, s.id, s.version, s.tiers)
  }

  /** After any honest run, whatever conflict the server answers opens under the version it carries. */
  lemma ConflictsOpen(d: Directory, t: Tables, reqs: seq<Request>, req: Request)
    requires ServerSealed(d, t) && AllHonest(d, reqs)
    ensures var reply := Exec(RunAll(t, reqs), req).1;
            reply.Fault? && reply.error.Conflict? ==>
              var s := reply.error.server;
              DecryptTiers(d.key(d.home(s.id)), d.home(s.id), s.id, s.version, s.tiers).Ok?
  {
    RunKeepsSealing(d, t, reqs);
    var reply := Exec(RunAll(t, reqs), req).1;
    if reply.Fault? && reply.error.Conflict? {
      var s := reply.error.server;
      OpensExactlyUnderItsVersion(d, s.id, s.version, s.version, s.tiers);
    }
  }
}

/**
 * Users do not meet on the server: nobody changes what lies in the vaults of another, no answer shows anything of it,
 * and what a user is answered over a run does not depend on what the others do.
 */
module Isolation {
  import opened Types
  import opened ServerModel
  import opened ServerLaws

  // ----- writes -----

  predicate InVault(t: Tables, id: SecretId, v: VaultId) {
    id in t.secrets && t.secrets[id].vault == v
  }

  ghost predicate SameSecret(t: Tables, t': Tables, v: VaultId, id: SecretId) {
    (InVault(t', id, v) <==> InVault(t, id, v)) && (InVault(t, id, v) ==> t'.secrets[id] == t.secrets[id])
  }

  /** The vault, its version and every secret in it are as they were. */
  ghost predicate SameVault(t: Tables, t': Tables, v: VaultId) {
    && v in t.vaults && v in t'.vaults && t'.vaults[v] == t.vaults[v]
    && forall id :: SameSecret(t, t', v, id)
  }

  lemma ForeignRequest(t: Tables, req: Request, v: VaultId)
    requires v in t.vaults && t.vaults[v].user != req.user
    ensures SameVault(t, Exec(t, req).0, v)
  {
  }

  /** Whatever the other users send, and however much of it, a vault and its secrets stay as they are. */
  lemma {:induction false} ForeignRun(t: Tables, reqs: seq<Request>, v: VaultId)
    requires v in t.vaults && forall i :: 0 <= i < |reqs| ==> reqs[i].user != t.vaults[v].user
    ensures SameVault(t, RunAll(t, reqs), v)
    decreases |reqs|
  {
    if reqs != [] {
      var t1 := Exec(t, reqs[0]).0;
      ForeignRequest(t, reqs[0], v);
      assert forall i :: 0 <= i < |reqs[1..]| ==> reqs[1..][i] == reqs[i + 1];
      ForeignRun(t1, reqs[1..], v);
      forall id ensures SameSecret(t, RunAll(t, reqs), v, id) {
        assert SameSecret(t, t1, v, id) && SameSecret(t1, RunAll(t, reqs), v, id);
      }
    }
  }

  // ----- answers -----

  /** Everything that the answer tells about lies in vaults of the user who asked. */
  ghost predicate Discreet(t: Tables, user: UserId, reply: Reply) {
    match reply
    case Fault(Conflict(server)) => Owns(t, user, server.id) && server == Copy(t, server.id)
    case Vaults(items) => forall i :: 0 <= i < |items| ==> Owned(t, user, items[i].id)
    case Rows(items) => forall i :: 0 <= i < |items| ==> Owns(t, user, items[i].id)
    case Indexes(items) => forall i :: 0 <= i < |items| ==> Owns(t, user, items[i].id)
    case _ => true
  }

  lemma AnswersAreDiscreet(t: Tables, req: Request)
    ensures Discreet(t, req.user, Exec(t, req).1)
    ensures Exec(t, req).1.Payload? || Exec(t, req).1.Uploaded? ==> Owns(t, req.user, req.id)
    ensures Accepted(t, req) && !req.CreateVault? && !req.Create? ==> Owns(t, req.user, req.id)
    ensures Accepted(t, req) && req.Create? ==> Owned(t, req.user, req.vault)
  {
  }

  // ----- what a user can see -----

  function OwnVaults(t: Tables, user: UserId, ids: seq<VaultId>): seq<VaultId> {
    if ids == [] then []
    else (if Owned(t, user, ids[0]) then [ids[0]] else []) + OwnVaults(t, user, ids[1..])
  }

  function OwnSecrets(t: Tables, user: UserId, ids: seq<SecretId>): seq<SecretId> {
    if ids == [] then []
    else (if Owns(t, user, ids[0]) then [ids[0]] else []) + OwnSecrets(t, user, ids[1..])
  }

  ghost predicate SameOwnVault(t1: Tables, t2: Tables, user: UserId, v: VaultId) {
    (Owned(t1, user, v) <==> Owned(t2, user, v)) && (Owned(t1, user, v) ==> t1.vaults[v] == t2.vaults[v])
  }

  ghost predicate SameOwnSecret(t1: Tables, t2: Tables, user: UserId, id: SecretId) {
    (Owns(t1, user, id) <==> Owns(t2, user, id)) && (Owns(t1, user, id) ==> t1.secrets[id] == t2.secrets[id])
  }

  /** The user's vaults and secrets, and the order in which they were created, are the same in both. */
  ghost predicate Alike(t1: Tables, t2: Tables, user: UserId) {
    && (forall v :: SameOwnVault(t1, t2, user, v))
    && (forall id :: SameOwnSecret(t1, t2, user, id))
    && OwnVaults(t1, user, t1.vaultOrder) == OwnVaults(t2, user, t2.vaultOrder)
    && OwnSecrets(t1, user, t1.secretOrder) == OwnSecrets(t2, user, t2.secretOrder)
  }

  /** Identifiers are the one thing users share: a new one must be taken in both or in neither. */
  predicate SameTaken(t1: Tables, t2: Tables, req: Request) {
    && (req.CreateVault? ==> (req.vault in t1.vaults <==> req.vault in t2.vaults))
    && (req.Create? ==> (req.id in t1.secrets <==> req.id in t2.secrets))
  }

  lemma {:induction false} VersionsOfOwn(t: Tables, user: UserId, ids: seq<VaultId>)
    ensures VaultVersions(t, user, ids) == VaultVersions(t, user, OwnVaults(t, user, ids))
    decreases |ids|
  {
    if ids != [] {
      var rest := OwnVaults(t, user, ids[1..]);
      VersionsOfOwn(t, user, ids[1..]);
      if Owned(t, user, ids[0]) { assert ([ids[0]] + rest)[1..] == rest; } else { assert [] + rest == rest; }
    }
  }

  lemma {:induction false} RowsOfOwn(t: Tables, user: UserId, vault: VaultId, ids: seq<SecretId>)
    ensures RowsOf(t, user, vault, ids) == RowsOf(t, user, vault, OwnSecrets(t, user, ids))
    ensures IndexesOf(t, user, vault, ids) == IndexesOf(t, user, vault, OwnSecrets(t, user, ids))
    decreases |ids|
  {
    if ids != [] {
      var rest := OwnSecrets(t, user, ids[1..]);
      RowsOfOwn(t, user, vault, ids[1..]);
      if Owns(t, user, ids[0]) { assert ([ids[0]] + rest)[1..] == rest; } else { assert [] + rest == rest; }
    }
  }

  lemma {:induction false} AlikeVersions(t1: Tables, t2: Tables, user: UserId, ids: seq<VaultId>)
    requires forall v :: SameOwnVault(t1, t2, user, v)
    ensures VaultVersions(t1, user, ids) == VaultVersions(t2, user, ids)
    decreases |ids|
  {
    if ids != [] {
      AlikeVersions(t1, t2, user, ids[1..]);
      assert SameOwnVault(t1, t2, user, ids[0]);
    }
  }

  lemma {:induction false} AlikeRows(t1: Tables, t2: Tables, user: UserId, vault: VaultId, ids: seq<SecretId>)
    requires forall id :: SameOwnSecret(t1, t2, user, id)
    ensures RowsOf(t1, user, vault, ids) == RowsOf(t2, user, vault, ids)
    ensures IndexesOf(t1, user, vault, ids) == IndexesOf(t2, user, vault, ids)
    decreases |ids|
  {
    if ids != [] {
      AlikeRows(t1, t2, user, vault, ids[1..]);
      assert SameOwnSecret(t1, t2, user, ids[0]);
    }
  }

  lemma AlikeListings(t1: Tables, t2: Tables, user: UserId, vault: VaultId)
    requires Alike(t1, t2, user)
    ensures VaultVersions(t1, user, t1.vaultOrder) == VaultVersions(t2, user, t2.vaultOrder)
    ensures RowsOf(t1, user, vault, t1.secretOrder) == RowsOf(t2, user, vault, t2.secretOrder)
    ensures IndexesOf(t1, user, vault, t1.secretOrder) == IndexesOf(t2, user, vault, t2.secretOrder)
  {
    VersionsOfOwn(t1, user, t1.vaultOrder);
    VersionsOfOwn(t2, user, t2.vaultOrder);
    AlikeVersions(t1, t2, user, OwnVaults(t1, user, t1.vaultOrder));
    RowsOfOwn(t1, user, vault, t1.secretOrder);
    RowsOfOwn(t2, user, vault, t2.secretOrder);
    AlikeRows(t1, t2, user, vault, OwnSecrets(t1, user, t1.secretOrder));
  }

  /** The answer depends on what the user can see alone. */
  lemma AlikeAnswers(t1: Tables, t2: Tables, req: Request)
    requires Alike(t1, t2, req.user) && SameTaken(t1, t2, req)
    ensures Exec(t1, req).1 == Exec(t2, req).1
  {
    match req
    case CheckFreshness(user) => AlikeListings(t1, t2, user, "");
    case ListVaults(user) => AlikeListings(t1, t2, user, "");
    case ListRows(user, vault) => AlikeListings(t1, t2, user, vault);
    case ListIndex(user, vault) => AlikeListings(t1, t2, user, vault);
    case CreateVault(_, _) =>
    case Create(user, _, vault, _, _) => assert SameOwnVault(t1, t2, user, vault);
    case Update(user, id, _, _) => assert SameOwnSecret(t1, t2, user, id);
    case Delete(user, id, _) => assert SameOwnSecret(t1, t2, user, id);
    case Attach(user, id, _, _) => assert SameOwnSecret(t1, t2, user, id);
    case Upload(user, id) => assert SameOwnSecret(t1, t2, user, id);
    case GetPayload(user, id) => assert SameOwnSecret(t1, t2, user, id);
  }

  // ----- steps -----

  /** The orders of creation list only what exists. */
  ghost predicate OrderOk(t: Tables) {
    (forall v :: v in t.vaultOrder ==> v in t.vaults) && (forall id :: id in t.secretOrder ==> id in t.secrets)
  }

  lemma ExecKeepsOrderOk(t: Tables, req: Request)
    requires OrderOk(t)
    ensures OrderOk(Exec(t, req).0)
  {
  }

  lemma {:induction false} OwnVaultsOf(t: Tables, t': Tables, user: UserId, ids: seq<VaultId>, v: VaultId)
    requires forall x :: x in ids ==> (Owned(t', user, x) <==> Owned(t, user, x))
    ensures OwnVaults(t', user, ids) == OwnVaults(t, user, ids)
    ensures OwnVaults(t', user, ids + [v]) == OwnVaults(t, user, ids) + if Owned(t', user, v) then [v] else []
    decreases |ids|
  {
    if ids == [] {
      assert ids + [v] == [v] && [v][1..] == [];
    } else {
      assert (ids + [v])[1..] == ids[1..] + [v];
      assert forall x :: x in ids[1..] ==> x in ids;
      OwnVaultsOf(t, t', user, ids[1..], v);
      assert ids[0] in ids;
    }
  }

  lemma {:induction false} OwnSecretsOf(t: Tables, t': Tables, user: UserId, ids: seq<SecretId>, id: SecretId)
    requires forall x :: x in ids ==> (Owns(t', user, x) <==> Owns(t, user, x))
    ensures OwnSecrets(t', user, ids) == OwnSecrets(t, user, ids)
    ensures OwnSecrets(t', user, ids + [id]) == OwnSecrets(t, user, ids) + if Owns(t', user, id) then [id] else []
    decreases |ids|
  {
    if ids == [] {
      assert ids + [id] == [id] && [id][1..] == [];
    } else {
      assert (ids + [id])[1..] == ids[1..] + [id];
      assert forall x :: x in ids[1..] ==> x in ids;
      OwnSecretsOf(t, t', user, ids[1..], id);
      assert ids[0] in ids;
    }
  }

  lemma VaultOwnerStays(t: Tables, req: Request, user: UserId, v: VaultId)
    requires v in t.vaults
    ensures Owned(Exec(t, req).0, user, v) <==> Owned(t, user, v)
  {
  }

  lemma SecretOwnerStays(t: Tables, req: Request, user: UserId, id: SecretId)
    requires TablesOk(t) && id in t.secrets
    ensures Owns(Exec(t, req).0, user, id) <==> Owns(t, user, id)
  {
  }

  /** Vaults keep their owner and secrets their vault, so what is the user's stays the user's. */
  lemma OwnershipStays(t: Tables, req: Request, user: UserId)
    requires TablesOk(t)
    ensures var t' := Exec(t, req).0;
            && (forall v :: v in t.vaults ==> (Owned(t', user, v) <==> Owned(t, user, v)))
            && (forall id :: id in t.secrets ==> (Owns(t', user, id) <==> Owns(t, user, id)))
  {
    var t' := Exec(t, req).0;
    forall v | v in t.vaults ensures Owned(t', user, v) <==> Owned(t, user, v) { VaultOwnerStays(t, req, user, v); }
    forall id | id in t.secrets ensures Owns(t', user, id) <==> Owns(t, user, id) {
      SecretOwnerStays(t, req, user, id);
    }
  }

  lemma OrdersGrow(t: Tables, req: Request)
    ensures var t' := Exec(t, req).0;
            && t'.vaultOrder == t.vaultOrder + (if req.CreateVault? && Accepted(t, req) then [req.vault] else [])
            && t'.secretOrder == t.secretOrder + (if req.Create? && Accepted(t, req) then [req.id] else [])
  {
    assert t.vaultOrder + [] == t.vaultOrder && t.secretOrder + [] == t.secretOrder;
  }

  lemma NewOnesAreOwn(t: Tables, req: Request, user: UserId)
    requires Accepted(t, req)
    ensures req.CreateVault? ==> (Owned(Exec(t, req).0, user, req.vault) <==> req.user == user)
    ensures req.Create? ==> (Owns(Exec(t, req).0, user, req.id) <==> req.user == user)
  {
  }

  /** The order of the user's vaults grows by the vault that the user creates, and by nothing else. */
  lemma VaultOrderAfter(t: Tables, req: Request, user: UserId)
    requires TablesOk(t) && OrderOk(t)
    ensures var t' := Exec(t, req).0;
            OwnVaults(t', user, t'.vaultOrder) == OwnVaults(t, user, t.vaultOrder)
              + if req.CreateVault? && Accepted(t, req) && req.user == user then [req.vault] else []
  {
    var t' := Exec(t, req).0;
    OrdersGrow(t, req);
    OwnershipStays(t, req, user);
    OwnVaultsOf(t, t', user, t.vaultOrder, if req.CreateVault? then req.vault else "");
    assert t.vaultOrder + [] == t.vaultOrder;
    if req.CreateVault? && Accepted(t, req) { NewOnesAreOwn(t, req, user); }
  }

  lemma SecretOrderAfter(t: Tables, req: Request, user: UserId)
    requires TablesOk(t) && OrderOk(t)
    ensures var t' := Exec(t, req).0;
            OwnSecrets(t', user, t'.secretOrder) == OwnSecrets(t, user, t.secretOrder)
              + if req.Create? && Accepted(t, req) && req.user == user then [req.id] else []
  {
    var t' := Exec(t, req).0;
    OrdersGrow(t, req);
    OwnershipStays(t, req, user);
    OwnSecretsOf(t, t', user, t.secretOrder, if req.Create? then req.id else "");
    assert t.secretOrder + [] == t.secretOrder;
    if req.Create? && Accepted(t, req) { NewOnesAreOwn(t, req, user); }
  }

  lemma ForeignStepKeepsVault(t: Tables, req: Request, user: UserId, v: VaultId)
    requires TablesOk(t) && req.user != user
    ensures SameOwnVault(t, Exec(t, req).0, user, v)
  {
    if Owned(t, user, v) {
      ForeignRequest(t, req, v);
    } else if v in t.vaults {
      OwnershipStays(t, req, user);
    } else if req.CreateVault? && Accepted(t, req) {
      NewOnesAreOwn(t, req, user);
    }
  }

  lemma ForeignStepKeepsSecret(t: Tables, req: Request, user: UserId, id: SecretId)
    requires TablesOk(t) && req.user != user
    ensures SameOwnSecret(t, Exec(t, req).0, user, id)
  {
    if Owns(t, user, id) {
      ForeignRequest(t, req, t.secrets[id].vault);
      assert SameSecret(t, Exec(t, req).0, t.secrets[id].vault, id);
    } else if id in t.secrets {
      OwnershipStays(t, req, user);
    } else if req.Create? && Accepted(t, req) {
      NewOnesAreOwn(t, req, user);
    }
  }

  /** What others do is invisible. */
  lemma ForeignStepIsInvisible(t: Tables, req: Request, user: UserId)
    requires TablesOk(t) && OrderOk(t) && req.user != user
    ensures Alike(t, Exec(t, req).0, user)
  {
    VaultOrderAfter(t, req, user);
    SecretOrderAfter(t, req, user);
    forall v ensures SameOwnVault(t, Exec(t, req).0, user, v) { ForeignStepKeepsVault(t, req, user, v); }
    forall id ensures SameOwnSecret(t, Exec(t, req).0, user, id) { ForeignStepKeepsSecret(t, req, user, id); }
  }

  /** Accepted in both or in neither, a user's own request does the same to each vault and each secret. */
  lemma OwnStepOnVault(t1: Tables, t2: Tables, req: Request, v: VaultId)
    requires Alike(t1, t2, req.user) && SameTaken(t1, t2, req)
    ensures SameOwnVault(Exec(t1, req).0, Exec(t2, req).0, req.user, v)
  {
    AlikeAnswers(t1, t2, req);
    assert SameOwnVault(t1, t2, req.user, v);
    if req.Update? || req.Delete? || req.Attach? {
      assert SameOwnSecret(t1, t2, req.user, req.id);
    }
  }

  /** A request changes no row but that of the secret that it names. */
  lemma OtherRowsStay(t: Tables, req: Request, id: SecretId)
    requires (req.Create? || req.Update? || req.Delete? || req.Attach?) ==> req.id != id
    ensures var t' := Exec(t, req).0;
            (id in t'.secrets <==> id in t.secrets) && (id in t.secrets ==> t'.secrets[id] == t.secrets[id])
  {
  }

  /** On the same row the same request has the same effect. */
  lemma SameRowSameEffect(t1: Tables, t2: Tables, req: Request)
    requires req.Update? || req.Delete? || req.Attach?
    requires Alike(t1, t2, req.user) && Owns(t1, req.user, req.id) && Owns(t2, req.user, req.id)
    ensures Exec(t1, req).0.secrets[req.id] == Exec(t2, req).0.secrets[req.id]
  {
    assert SameOwnSecret(t1, t2, req.user, req.id);
  }

  lemma CreatedRow(t1: Tables, t2: Tables, req: Request)
    requires req.Create? && Accepted(t1, req) && Accepted(t2, req)
    ensures Exec(t1, req).0.secrets[req.id] == Exec(t2, req).0.secrets[req.id]
  {
  }

  lemma OwnStepOnSecret(t1: Tables, t2: Tables, req: Request, id: SecretId)
    requires TablesOk(t1) && TablesOk(t2) && Alike(t1, t2, req.user) && SameTaken(t1, t2, req)
    ensures SameOwnSecret(Exec(t1, req).0, Exec(t2, req).0, req.user, id)
  {
    AlikeAnswers(t1, t2, req);
    assert SameOwnSecret(t1, t2, req.user, id);
    OwnershipStays(t1, req, req.user);
    OwnershipStays(t2, req, req.user);
    if req.Create? && req.id == id && Accepted(t1, req) {
      NewOnesAreOwn(t1, req, req.user);
      NewOnesAreOwn(t2, req, req.user);
      CreatedRow(t1, t2, req);
    } else if Owns(t1, req.user, id) && (req.Update? || req.Delete? || req.Attach?) && req.id == id {
      SameRowSameEffect(t1, t2, req);
    } else {
      RefusedRowStays(t1, req, id);
      RefusedRowStays(t2, req, id);
    }
  }

  /** Nor does it bring a row into being unless it is an accepted create, or change one that is not the user's. */
  lemma RefusedRowStays(t: Tables, req: Request, id: SecretId)
    requires !(req.Create? && req.id == id && Accepted(t, req))
    requires Owns(t, req.user, id) ==> !((req.Update? || req.Delete? || req.Attach?) && req.id == id)
    ensures var t' := Exec(t, req).0;
            (id in t'.secrets <==> id in t.secrets) && (id in t.secrets ==> t'.secrets[id] == t.secrets[id])
  {
    if (req.Create? || req.Update? || req.Delete? || req.Attach?) ==> req.id != id { OtherRowsStay(t, req, id); }
  }

  /** A user's own request leaves the two alike. */
  lemma OwnStepStaysAlike(t1: Tables, t2: Tables, req: Request)
    requires TablesOk(t1) && OrderOk(t1) && TablesOk(t2) && OrderOk(t2)
    requires Alike(t1, t2, req.user) && SameTaken(t1, t2, req)
    ensures Alike(Exec(t1, req).0, Exec(t2, req).0, req.user)
  {
    AlikeAnswers(t1, t2, req);
    VaultOrderAfter(t1, req, req.user);
    VaultOrderAfter(t2, req, req.user);
    SecretOrderAfter(t1, req, req.user);
    SecretOrderAfter(t2, req, req.user);
    forall v ensures SameOwnVault(Exec(t1, req).0, Exec(t2, req).0, req.user, v) { OwnStepOnVault(t1, t2, req, v); }
    forall id ensures SameOwnSecret(Exec(t1, req).0, Exec(t2, req).0, req.user, id) {
      OwnStepOnSecret(t1, t2, req, id);
    }
  }

  lemma AlikeIsTransitive(t1: Tables, t2: Tables, t3: Tables, user: UserId)
    requires Alike(t1, t2, user) && Alike(t2, t3, user)
    ensures Alike(t1, t3, user)
  {
    forall v ensures SameOwnVault(t1, t3, user, v) {
      assert SameOwnVault(t1, t2, user, v) && SameOwnVault(t2, t3, user, v);
    }
    forall id ensures SameOwnSecret(t1, t3, user, id) {
      assert SameOwnSecret(t1, t2, user, id) && SameOwnSecret(t2, t3, user, id);
    }
  }

  lemma AlikeIsSymmetric(t1: Tables, t2: Tables, user: UserId)
    requires Alike(t1, t2, user)
    ensures Alike(t2, t1, user)
  {
    forall v ensures SameOwnVault(t2, t1, user, v) { assert SameOwnVault(t1, t2, user, v); }
    forall id ensures SameOwnSecret(t2, t1, user, id) { assert SameOwnSecret(t1, t2, user, id); }
  }

  // ----- runs -----

  /** The answers to one user over a run. */
  function Answers(t: Tables, reqs: seq<Request>, user: UserId): seq<Reply>
    decreases |reqs|
  {
    if reqs == [] then []
    else
      var (t1, reply) := Exec(t, reqs[0]);
      (if reqs[0].user == user then [reply] else []) + Answers(t1, reqs[1..], user)
  }

  /** The run without the requests of the others. */
  function Alone(reqs: seq<Request>, user: UserId): seq<Request> {
    if reqs == [] then []
    else (if reqs[0].user == user then [reqs[0]] else []) + Alone(reqs[1..], user)
  }

  /** Both would bring the same identifier into the world. */
  predicate SameName(a: Request, b: Request) {
    || (a.CreateVault? && b.CreateVault? && a.vault == b.vault)
    || (a.Create? && b.Create? && a.id == b.id)
  }

  /** Identifiers are drawn at random: nobody else uses one that this user uses. */
  ghost predicate NamesApart(reqs: seq<Request>, user: UserId) {
    forall i, j :: 0 <= i < |reqs| && 0 <= j < |reqs| && reqs[i].user == user && reqs[j].user != user ==>
      !SameName(reqs[i], reqs[j])
  }

  ghost predicate AllSameTaken(t1: Tables, t2: Tables, reqs: seq<Request>, user: UserId) {
    forall i :: 0 <= i < |reqs| && reqs[i].user == user ==> SameTaken(t1, t2, reqs[i])
  }

  lemma ForeignStepKeepsTaken(t: Tables, req: Request, own: Request)
    requires !SameName(own, req)
    ensures SameTaken(Exec(t, req).0, t, own)
  {
  }

  /** The same request takes the same identifier in both, or in neither. */
  lemma OwnStepKeepsTaken(t1: Tables, t2: Tables, req: Request, own: Request)
    requires SameTaken(t1, t2, own) && SameTaken(t1, t2, req) && Exec(t1, req).1 == Exec(t2, req).1
    ensures SameTaken(Exec(t1, req).0, Exec(t2, req).0, own)
  {
  }

  lemma TailStaysApart(reqs: seq<Request>, user: UserId)
    requires NamesApart(reqs, user) && reqs != []
    ensures NamesApart(reqs[1..], user)
  {
    assert forall i :: 0 <= i < |reqs[1..]| ==> reqs[1..][i] == reqs[i + 1];
  }

  /**
   * What a user is answered, over any run, is what he would be answered if the others did not exist: every answer is
   * the same as in the run of his own requests alone.
   */
  lemma {:induction false} AnswersAsIfAlone(t1: Tables, t2: Tables, reqs: seq<Request>, user: UserId)
    requires TablesOk(t1) && OrderOk(t1) && TablesOk(t2) && OrderOk(t2)
    requires Alike(t1, t2, user) && AllSameTaken(t1, t2, reqs, user) && NamesApart(reqs, user)
    ensures Answers(t1, reqs, user) == Answers(t2, Alone(reqs, user), user)
    decreases |reqs|
  {
    if reqs != [] {
      var req, rest := reqs[0], reqs[1..];
      var t1' := Exec(t1, req).0;
      ExecKeepsTablesOk(t1, req);
      ExecKeepsOrderOk(t1, req);
      TailStaysApart(reqs, user);
      assert forall i :: 0 <= i < |rest| ==> rest[i] == reqs[i + 1];
      if req.user == user {
        var t2' := Exec(t2, req).0;
        ExecKeepsTablesOk(t2, req);
        ExecKeepsOrderOk(t2, req);
        AlikeAnswers(t1, t2, req);
        OwnStepStaysAlike(t1, t2, req);
        forall i | 0 <= i < |rest| && rest[i].user == user ensures SameTaken(t1', t2', rest[i]) {
          OwnStepKeepsTaken(t1, t2, req, rest[i]);
        }
        AnswersAsIfAlone(t1', t2', rest, user);
        assert Alone(reqs, user)[1..] == Alone(rest, user);
      } else {
        ForeignStepIsInvisible(t1, req, user);
        AlikeIsSymmetric(t1, t1', user);
        AlikeIsTransitive(t1', t1, t2, user);
        forall i | 0 <= i < |rest| && rest[i].user == user ensures SameTaken(t1', t2, rest[i]) {
          ForeignStepKeepsTaken(t1, req, rest[i]);
        }
        AnswersAsIfAlone(t1', t2, rest, user);
        assert [] + Alone(rest, user) == Alone(rest, user);
      }
    }
  }

  lemma AlikeIsReflexive(t: Tables, user: UserId)
    ensures Alike(t, t, user)
  {
  }

  /** On any server, from any moment on. */
  lemma OthersAreInvisible(t: Tables, reqs: seq<Request>, user: UserId)
    requires TablesOk(t) && OrderOk(t) && NamesApart(reqs, user)
    ensures Answers(t, reqs, user) == Answers(t, Alone(reqs, user), user)
  {
    AlikeIsReflexive(t, user);
    AnswersAsIfAlone(t, t, reqs, user);
  }
}

/**
 * Insisting on one's own version makes progress: conflicts only get newer, and without interference the next try wins.
 */
module ConflictLaws {
  import opened Types
  import opened Sealing
  import opened ServerModel
  import opened ServerLaws
  import opened S = StoreModel
  import opened StoreLaws
  import opened ClientModel
  import opened Coherence
  import opened Freshness
  import opened FreshOperations
  import opened Accounting
  import opened AccountedOperations
  import opened OfflineChain

  // ----- the next conflict is newer -----

  predicate HasCard(step: (World, Result<Option<Card>>)) {
    step.1.Ok? && step.1.value.Some?
  }

  function CardOf(step: (World, Result<Option<Card>>)): Card
    requires HasCard(step)
  {
    step.1.value.value
  }

  function Mine(c: Card): Option<Content> {
    MineOf(c.retry)
  }

  /** The same user intent, met by a newer server version. */
  ghost predicate Newer(c: Card, c': Card) {
    c'.secret == c.secret && c'.server.version > c.server.version && Mine(c') == Mine(c)
  }

  /** A write on a base that the server has reached can only conflict with a later version. */
  lemma ConflictIsBeyond(wire: Wire, req: Request, base: int)
    requires TablesOk(wire.tables) && (req.Update? || req.Delete?) && req.base == base
    requires req.id in wire.tables.secrets && base <= wire.tables.secrets[req.id].version
    ensures var (after, reply) := Call(wire, req);
            && req.id in after.tables.secrets && base <= after.tables.secrets[req.id].version
            && (reply.Fault? && reply.error.Conflict? ==> reply.error.server.version > base)
  {
    CallMovesForward(wire, req);
    assert LaterSecret(wire.tables, Call(wire, req).0.tables, req.id);
    if Call(wire, req).1.Fault? && Call(wire, req).1.error.Conflict? {
      var before := RunAll(wire.tables, wire.tape[0].others);
      RunMovesForward(wire.tables, wire.tape[0].others);
      assert LaterSecret(wire.tables, before, req.id);
    }
  }

  lemma UpdateAgainIsNewer(w: World, c: Card, n: Nonces)
    requires Orderly(w) && CardKnown(w, c) && c.retry.AgainUpdate?
    ensures HasCard(RetryMine(w, c, n)) ==> Newer(c, CardOf(RetryMine(w, c, n)))
  {
    var base := c.server.version;
    var context := VaultContext(w.session, c.vault);
    if context.Ok? {
      var tiers := SealTiers(context.value, c.vault, c.secret, base + 1, c.retry.content, n);
      ConflictIsBeyond(w.wire, Update(w.session.user, c.secret, base, tiers), base);
    }
  }

  lemma DeleteAgainIsNewer(w: World, c: Card)
    requires Orderly(w) && CardKnown(w, c)
    ensures var step := ClientModel.DeleteSecret(w, c.vault, c.secret, c.server.version);
            HasCard(step) ==> Newer(c.(retry := AgainDelete), CardOf(step)) && CardOf(step).retry.AgainDelete?
  {
    var base := c.server.version;
    ConflictIsBeyond(w.wire, Delete(w.session.user, c.secret, base), base);
  }

  /** Probing an update entry on a base that the server has reached. */
  lemma ProbeIsNewer(w: World, e: Entry, base: int)
    requires TablesOk(w.wire.tables) && e.op.UpdateOp? && e.op.base == base && Readable(e.op.tiers)
    requires e.entityId in w.wire.tables.secrets && base <= w.wire.tables.secrets[e.entityId].version
    ensures var step := ConflictFromOutboxUpdate(w, e);
            HasCard(step) ==>
              && CardOf(step).secret == e.entityId && CardOf(step).server.version > base
              && Mine(CardOf(step)) == Some(Texts(e.op.tiers))
  {
    ConflictIsBeyond(w.wire, Update(w.session.user, e.entityId, base, e.op.tiers), base);
  }

  lemma {:induction false} FindLast(outbox: seq<Entry>, e: Entry)
    requires forall x :: x in outbox ==> x.id != e.id
    ensures Find(outbox + [e], e.id) == Some(e)
    decreases |outbox|
  {
    if outbox == [] {
      assert outbox + [e] == [e];
    } else {
      assert outbox[0] in outbox;
      assert (outbox + [e])[1..] == outbox[1..] + [e];
      FindLast(outbox[1..], e);
    }
  }

  lemma RequeuedIsFound(s: Store, entry: nat, id: SecretId, op: Op)
    requires OutboxOk(s) && Requeue(s, entry, id, op).Ok?
    ensures Find(Requeue(s, entry, id, op).value.outbox, s.nextId) == Some(Entry(s.nextId, SECRET, id, op, InConflict))
  {
    var marked := s.(outbox := Restatus(s.outbox, entry, InConflict));
    RestatusKeepsOutbox(s, entry, InConflict);
    RemoveKeepsOutbox(marked, entry);
    FindLast(Without(marked.outbox, entry), Entry(s.nextId, SECRET, id, op, InConflict));
  }

  /** The re-queued entry is the one that is probed. */
  lemma RequeuedProbeIsNewer(w: World, entry: nat, id: SecretId, again: Op)
    requires Orderly(w) && again.UpdateOp? && Readable(again.tiers)
    requires id in w.wire.tables.secrets && again.base <= w.wire.tables.secrets[id].version
    requires Requeue(w.store, entry, id, again).Ok?
    ensures var step := ConflictFromOutbox(w.(store := Requeue(w.store, entry, id, again).value), w.store.nextId);
            HasCard(step) ==>
              && CardOf(step).secret == id && CardOf(step).server.version > again.base
              && Mine(CardOf(step)) == Some(Texts(again.tiers))
  {
    RequeuedIsFound(w.store, entry, id, again);
    ProbeIsNewer(w.(store := Requeue(w.store, entry, id, again).value),
                 Entry(w.store.nextId, SECRET, id, again, InConflict), again.base);
  }

  lemma SendAgainIsNewer(w: World, entry: nat, id: SecretId, p: Op, base: int, tiers: Tiers)
    requires Orderly(w) && p.UpdateOp? && Readable(tiers)
    requires id in w.wire.tables.secrets && base <= w.wire.tables.secrets[id].version
    ensures var step := SendAgain(w, entry, id, p, base, tiers);
            HasCard(step) ==>
              && CardOf(step).secret == id && CardOf(step).server.version > base
              && Mine(CardOf(step)) == Some(Texts(tiers))
  {
    var req := Update(w.session.user, id, base, tiers);
    CallMovesForward(w.wire, req);
    ConflictIsBeyond(w.wire, req, base);
    var w1 := w.(wire := Call(w.wire, req).0);
    var again := p.(base := base, tiers := tiers);
    if Requeue(w1.store, entry, id, again).Ok? {
      RequeuedProbeIsNewer(w1, entry, id, again);
    }
  }

  lemma OutboxUpdateAgainIsNewer(d: Directory, w: World, c: Card, n: Nonces)
    requires Inv(d, w) && CardOk(d, c) && Orderly(w) && CardKnown(w, c) && c.retry.AgainOutboxUpdate?
    ensures HasCard(RetryMine(w, c, n)) ==> Newer(c, CardOf(RetryMine(w, c, n)))
  {
    var id, p, base := c.secret, c.retry.op, c.server.version;
    var sealed := Reseal(w.session, id, p, base, n);
    if sealed.Ok? {
      ResealKeepsTexts(d, id, p.base + 1, p.tiers, base + 1, n);
      SendAgainIsNewer(w, c.retry.entry, id, p, base, sealed.value);
    }
  }

  /** A repeated conflict is about the same intent, its plaintexts unchanged, and shows a strictly newer version. */
  lemma NextCardIsNewer(d: Directory, w: World, c: Card, n: Nonces)
    requires Inv(d, w) && CardOk(d, c) && Orderly(w) && CardKnown(w, c)
    ensures HasCard(RetryMine(w, c, n)) ==> Newer(c, CardOf(RetryMine(w, c, n)))
  {
    match c.retry
    case AgainUpdate(_, _) => UpdateAgainIsNewer(w, c, n);
    case AgainDelete => DeleteAgainIsNewer(w, c);
    case AgainOutboxUpdate(_, _) => OutboxUpdateAgainIsNewer(d, w, c, n);
    case AgainOutboxDelete(_) => DeleteAgainIsNewer(w, c);
  }

  /** The conflicts met when the user answers each of them with "mine", one draw of nonces per answer. */
  function Insist(w: World, c: Card, draws: seq<Nonces>): (cards: seq<Card>)
    ensures cards != [] && cards[0] == c
    decreases |draws|
  {
    if draws == [] || !CardFormed(c) then [c]
    else
      var step := RetryMine(w, c, draws[0]);
      if HasCard(step) then [c] + Insist(step.0, CardOf(step), draws[1..]) else [c]
  }

  /** What insisting once needs, and leaves for insisting again. */
  ghost predicate CanInsist(d: Directory, w: World, c: Card) {
    Inv(d, w) && CardOk(d, c) && Orderly(w) && CardKnown(w, c)
  }

  lemma InsistOnce(d: Directory, w: World, c: Card, n: Nonces)
    requires CanInsist(d, w, c)
    ensures var step := RetryMine(w, c, n);
            HasCard(step) ==> CanInsist(d, step.0, CardOf(step)) && Newer(c, CardOf(step))
  {
    ResolveKeeps(d, w, c, ChoiceMine, n);
    RetryMineAccounts(w, c, n);
    NextCardIsNewer(d, w, c, n);
  }

  /** The same intent throughout, and strictly increasing server versions. */
  ghost predicate Progressing(cards: seq<Card>) {
    && (forall i, j :: 0 <= i < j < |cards| ==> cards[i].server.version < cards[j].server.version)
    && (forall i :: 0 <= i < |cards| ==> cards[i].secret == cards[0].secret && Mine(cards[i]) == Mine(cards[0]))
  }

  lemma NewerProgresses(c: Card, rest: seq<Card>)
    requires rest != [] && Newer(c, rest[0]) && Progressing(rest)
    ensures Progressing([c] + rest)
  {
  }

  /** Over any number of repeated conflicts the server versions strictly increase and the user's content stands. */
  lemma {:induction false} InsistingProgresses(d: Directory, w: World, c: Card, draws: seq<Nonces>)
    requires CanInsist(d, w, c)
    ensures Progressing(Insist(w, c, draws))
    decreases |draws|
  {
    if draws != [] {
      InsistOnce(d, w, c, draws[0]);
      var step := RetryMine(w, c, draws[0]);
      if HasCard(step) {
        InsistingProgresses(d, step.0, CardOf(step), draws[1..]);
        NewerProgresses(c, Insist(step.0, CardOf(step), draws[1..]));
      }
    }
  }

  // ----- without interference the next try wins -----

  /** The call gets through, and nobody writes this secret before it. */
  ghost predicate ClearWay(wire: Wire, id: SecretId) {
    wire.tape != [] && wire.tape[0].fate.Deliver?
    && forall j :: 0 <= j < |wire.tape[0].others| ==> !Touches(wire.tape[0].others[j], id)
  }

  /** The server still holds the version that the card shows, for this user. */
  ghost predicate StillAsShown(w: World, c: Card) {
    && w.session.user != "" && c.secret != "" && c.vault != "" && c.vault in w.session.open
    && Owns(w.wire.tables, w.session.user, c.secret)
    && !w.wire.tables.secrets[c.secret].deleted
    && w.wire.tables.secrets[c.secret].version == c.server.version
  }

  lemma ClearCall(wire: Wire, user: UserId, req: Request, id: SecretId)
    requires TablesOk(wire.tables) && ClearWay(wire, id) && user != "" && id != ""
    requires Owns(wire.tables, user, id) && !wire.tables.secrets[id].deleted
    requires (req.Update? && !req.tiers.row.Empty? && !req.tiers.index.Empty?) || req.Delete?
    requires req.user == user && req.id == id && req.base == wire.tables.secrets[id].version
    ensures var (after, reply) := Call(wire, req);
            && reply == Done(req.base + 1)
            && ServerTip(after.tables, id) == if req.Update? then At(req.base + 1, req.tiers) else Erased(req.base + 1)
  {
    var before := RunAll(wire.tables, wire.tape[0].others);
    OthersKeepTip(wire.tables, wire.tape[0].others, id);
    RunMovesForward(wire.tables, wire.tape[0].others);
    assert LaterSecret(wire.tables, before, id) && LaterVault(wire.tables, before, wire.tables.secrets[id].vault);
  }

  /** All three tiers of an accepted update are cached, clean, under the server's new version. */
  ghost predicate CachedWhole(s: Store, id: SecretId, version: int, tiers: Tiers) {
    && id in s.secrets && s.secrets[id].version == version && s.secrets[id].tiers == tiers
    && s.secrets[id].indexLoaded && s.secrets[id].payloadLoaded && !s.secrets[id].dirty
  }

  lemma CacheFullCachesWhole(s: Store, id: SecretId, vault: VaultId, kind: int, tiers: Tiers, version: int)
    requires Readable(tiers)
    ensures CachedWhole(CacheFull(s, id, vault, kind, tiers, version, false), id, version, tiers)
  {
  }

  /** The server has taken the user's version on top of the one shown, and the cache agrees with the server. */
  ghost predicate MineStands(w: World, c: Card) {
    var tip := ServerTip(w.wire.tables, c.secret);
    if Mine(c).Some? then
      && tip.At? && tip.version == c.server.version + 1 && Holds(tip.tiers, Mine(c).value)
      && CachedWhole(w.store, c.secret, tip.version, tip.tiers)
    else tip.Erased? && c.secret !in w.store.secrets
  }

  /** An accepted update, cached whole into a store, is what MineStands asks for. */
  lemma AcceptedStands(w: World, c: Card, tiers: Tiers, s: Store, kind: int)
    requires TablesOk(w.wire.tables) && StillAsShown(w, c) && ClearWay(w.wire, c.secret)
    requires Readable(tiers) && Mine(c) == Some(Texts(tiers))
    ensures var req := Update(w.session.user, c.secret, c.server.version, tiers);
            var (wire, reply) := Call(w.wire, req);
            && reply.Done?
            && MineStands(w.(wire := wire,
                             store := CacheFull(s, c.secret, c.vault, kind, tiers, c.server.version + 1, false)), c)
  {
    ClearCall(w.wire, w.session.user, Update(w.session.user, c.secret, c.server.version, tiers), c.secret);
    CacheFullCachesWhole(s, c.secret, c.vault, kind, tiers, c.server.version + 1);
  }

  lemma UpdateAgainWins(d: Directory, w: World, c: Card, n: Nonces)
    requires Inv(d, w) && CardOk(d, c) && StillAsShown(w, c) && ClearWay(w.wire, c.secret) && c.retry.AgainUpdate?
    ensures var (w', r) := RetryMine(w, c, n);
            r == Ok(None) && MineStands(w', c)
  {
    var tiers := SealTiers(w.session.open[c.vault], c.vault, c.secret, c.server.version + 1, c.retry.content, n);
    AcceptedStands(w, c, tiers, w.store, c.retry.kind);
  }

  /** Re-sealing the queued request succeeds and keeps what the user wrote. */
  lemma ResealGivesMine(d: Directory, w: World, c: Card, n: Nonces)
    requires Inv(d, w) && CardOk(d, c) && StillAsShown(w, c) && c.retry.AgainOutboxUpdate?
    ensures var resealed := Reseal(w.session, c.secret, c.retry.op, c.server.version, n);
            resealed.Ok? && Readable(resealed.value) && Mine(c) == Some(Texts(resealed.value))
            && c.retry.op.vault == c.vault
  {
    ResealKeepsTexts(d, c.secret, c.retry.op.base + 1, c.retry.op.tiers, c.server.version + 1, n);
  }

  lemma SentAgainStands(w: World, c: Card, tiers: Tiers)
    requires TablesOk(w.wire.tables) && StillAsShown(w, c) && ClearWay(w.wire, c.secret)
    requires c.retry.AgainOutboxUpdate? && c.retry.op.UpdateOp? && c.retry.op.vault == c.vault
    requires Readable(tiers) && Mine(c) == Some(Texts(tiers))
    ensures var (w', r) := SendAgain(w, c.retry.entry, c.secret, c.retry.op, c.server.version, tiers);
            && r == Ok(None) && MineStands(w', c)
            && w'.store.outbox == RemoveOutbox(w.store, c.retry.entry).outbox
  {
    var removed := RemoveOutbox(w.store, c.retry.entry);
    AcceptedStands(w, c, tiers, removed, c.retry.op.kind);
    CacheFullTouches(removed, c.secret, c.vault, c.retry.op.kind, tiers, c.server.version + 1, false);
  }

  lemma OutboxUpdateAgainWins(d: Directory, w: World, c: Card, n: Nonces)
    requires Inv(d, w) && CardOk(d, c) && StillAsShown(w, c) && ClearWay(w.wire, c.secret) && c.retry.AgainOutboxUpdate?
    ensures var (w', r) := RetryMine(w, c, n);
            && r == Ok(None) && MineStands(w', c)
            && (forall x :: x in w'.store.outbox ==> x.id != c.retry.entry)
  {
    ResealGivesMine(d, w, c, n);
    SentAgainStands(w, c, Reseal(w.session, c.secret, c.retry.op, c.server.version, n).value);
    EntryIsGone(w.store, c.retry.entry);
  }

  lemma EntryIsGone(s: Store, entry: nat)
    ensures forall x :: x in RemoveOutbox(s, entry).outbox ==> x.id != entry
  {
    forall x | x in Without(s.outbox, entry) ensures x.id != entry {
      WithoutMembers(s.outbox, entry, x);
    }
  }

  lemma DeleteAgainWins(w: World, c: Card, n: Nonces)
    requires TablesOk(w.wire.tables) && StillAsShown(w, c) && ClearWay(w.wire, c.secret)
    requires c.retry.AgainDelete? || c.retry.AgainOutboxDelete?
    ensures var (w', r) := RetryMine(w, c, n);
            && r == Ok(None) && MineStands(w', c)
            && (c.retry.AgainOutboxDelete? ==> forall x :: x in w'.store.outbox ==> x.id != c.retry.entry)
  {
    ClearCall(w.wire, w.session.user, Delete(w.session.user, c.secret, c.server.version), c.secret);
    if c.retry.AgainOutboxDelete? {
      EntryIsGone(ClientModel.DeleteSecret(w, c.vault, c.secret, c.server.version).0.store, c.retry.entry);
    }
  }

  /** One "mine" is enough when nobody interferes: the server takes it, the cache shows it, the queue forgets it. */
  lemma MineWins(d: Directory, w: World, c: Card, n: Nonces)
    requires Inv(d, w) && CardOk(d, c) && StillAsShown(w, c) && ClearWay(w.wire, c.secret)
    ensures var (w', r) := RetryMine(w, c, n);
            && r == Ok(None) && MineStands(w', c)
            && (c.retry.AgainOutboxUpdate? || c.retry.AgainOutboxDelete? ==>
                  forall x :: x in w'.store.outbox ==> x.id != c.retry.entry)
  {
    match c.retry
    case AgainUpdate(_, _) => UpdateAgainWins(d, w, c, n);
    case AgainOutboxUpdate(_, _) => OutboxUpdateAgainWins(d, w, c, n);
    case _ => DeleteAgainWins(w, c, n);
  }
}

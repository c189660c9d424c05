/** What a pull reports: success if every call that it needed was answered, or the error of the first that was not. */
module PullReports {
  import opened Types
  import opened ServerModel
  import opened ServerLaws
  import opened S = StoreModel
  import opened ClientModel
  import opened Freshness
  import opened StagedSync

  function ErrorOf(reply: Reply): Error {
    if reply.Fault? then reply.error else Internal
  }

  /** The world when the pull of this place in the list begins, whatever became of those before it. */
  function PulledUpTo(w: World, toSync: seq<VaultVersion>, j: nat): World
    requires j <= |toSync|
    decreases j
  {
    if j == 0 then w
    else var last := toSync[j - 1]; PullVaultRows(PulledUpTo(w, toSync, j - 1), last.id, last.version).0
  }

  /** What the server answers to the pull of this place. */
  function RowsReply(w: World, toSync: seq<VaultVersion>, j: nat): Reply
    requires j < |toSync|
  {
    var v := PulledUpTo(w, toSync, j); Call(v.wire, ListRows(v.session.user, toSync[j].id)).1
  }

  ghost predicate UnansweredFirst(w: World, toSync: seq<VaultVersion>, j: nat) {
    && j < |toSync| && !RowsReply(w, toSync, j).Rows?
    && forall i :: 0 <= i < j ==> RowsReply(w, toSync, i).Rows?
  }

  lemma {:induction false} PulledUpToRest(w: World, toSync: seq<VaultVersion>, j: nat)
    requires 0 < j <= |toSync|
    ensures PulledUpTo(w, toSync, j) ==
            PulledUpTo(PullVaultRows(w, toSync[0].id, toSync[0].version).0, toSync[1..], j - 1)
    decreases j
  {
    if j > 1 {
      PulledUpToRest(w, toSync, j - 1);
      assert toSync[1..][j - 2] == toSync[j - 1];
    }
  }

  lemma AnsweredPull(w: World, vault: VaultId, version: int)
    ensures var reply := Call(w.wire, ListRows(w.session.user, vault)).1;
            PullVaultRows(w, vault, version).1 == if reply.Rows? then Ok(Unit) else Err(ErrorOf(reply))
  {
  }

  lemma ReplyOfRest(w: World, toSync: seq<VaultVersion>, j: nat)
    requires 0 < j < |toSync|
    ensures RowsReply(w, toSync, j) ==
            RowsReply(PullVaultRows(w, toSync[0].id, toSync[0].version).0, toSync[1..], j - 1)
  {
    PulledUpToRest(w, toSync, j);
    assert toSync[1..][j - 1] == toSync[j];
  }

  lemma {:induction false} AllAnswered(w: World, toSync: seq<VaultVersion>)
    requires forall i :: 0 <= i < |toSync| ==> RowsReply(w, toSync, i).Rows?
    ensures PullEach(w, toSync) == (PulledUpTo(w, toSync, |toSync|), Ok(Unit))
    decreases |toSync|
  {
    if toSync != [] {
      var w1, rest := PullVaultRows(w, toSync[0].id, toSync[0].version).0, toSync[1..];
      assert RowsReply(w, toSync, 0).Rows?;
      AnsweredPull(w, toSync[0].id, toSync[0].version);
      forall i | 0 <= i < |rest| ensures RowsReply(w1, rest, i).Rows? { ReplyOfRest(w, toSync, i + 1); }
      AllAnswered(w1, rest);
      PulledUpToRest(w, toSync, |toSync|);
    }
  }

  lemma {:induction false} OneUnanswered(w: World, toSync: seq<VaultVersion>, j: nat)
    requires UnansweredFirst(w, toSync, j)
    ensures PullEach(w, toSync) == (PulledUpTo(w, toSync, j + 1), Err(ErrorOf(RowsReply(w, toSync, j))))
    decreases |toSync|
  {
    AnsweredPull(w, toSync[0].id, toSync[0].version);
    assert PulledUpTo(w, toSync, 0) == w;
    if j > 0 {
      var w1, rest := PullVaultRows(w, toSync[0].id, toSync[0].version).0, toSync[1..];
      assert RowsReply(w, toSync, 0).Rows?;
      ReplyOfRest(w, toSync, j);
      forall i | 0 <= i < j - 1 ensures RowsReply(w1, rest, i).Rows? { ReplyOfRest(w, toSync, i + 1); }
      OneUnanswered(w1, rest, j - 1);
      PulledUpToRest(w, toSync, j + 1);
    }
  }

  lemma {:induction false} UnansweredOrNone(w: World, toSync: seq<VaultVersion>, k: nat)
    requires k <= |toSync|
    ensures (forall i :: 0 <= i < k ==> RowsReply(w, toSync, i).Rows?) || exists j: nat :: UnansweredFirst(w, toSync, j)
    decreases k
  {
    if k > 0 {
      UnansweredOrNone(w, toSync, k - 1);
      if (forall i :: 0 <= i < k - 1 ==> RowsReply(w, toSync, i).Rows?) && !RowsReply(w, toSync, k - 1).Rows? {
        assert UnansweredFirst(w, toSync, k - 1);
      }
    }
  }

  /** The calls before any rows: the versions, and the vault list if a vault is not known. */
  lemma PrepareReports(w: World)
    ensures var user := w.session.user;
            var (wire, versions) := Call(w.wire, CheckFreshness(user));
            var listed := Call(wire, ListVaults(user)).1;
            Prepare(w).1 ==
              if !versions.Vaults? then Err(ErrorOf(versions))
              else if NeedsVaultMeta(versions.vaults, w.store.vaults) && !listed.Vaults? then Err(ErrorOf(listed))
              else Ok(versions.vaults)
  {
  }

  /**
   * Both pulls report success if and only if everything they begin with and every vault they ask for was answered; and
   * otherwise the error of the first call that was not.
   */
  lemma SyncReports(w: World)
    ensures var (w1, prepared) := Prepare(w);
            var toSync, r := AskedBy(w), Sync(w).1;
            && SyncWithProgress(w).1 == r
            && (r.Ok? <==> prepared.Ok? && forall i :: 0 <= i < |toSync| ==> RowsReply(w1, toSync, i).Rows?)
            && (r.Err? ==> r.error == if prepared.Err? then prepared.error else FirstError(w1, toSync))
  {
    var (w1, prepared) := Prepare(w);
    StagedIsSyncThenLoad(w);
    if prepared.Ok? {
      var toSync := AskedBy(w);
      PullEachIsPullStale(w1, prepared.value, w1.store.vaults);
      UnansweredOrNone(w1, toSync, |toSync|);
      if j: nat :| UnansweredFirst(w1, toSync, j) {
        OneUnanswered(w1, toSync, j);
        FirstErrorIs(w1, toSync, j);
      } else {
        AllAnswered(w1, toSync);
      }
    }
  }

  /** The error of the first pull that was not answered. */
  function FirstError(w: World, toSync: seq<VaultVersion>): Error
    decreases |toSync|
  {
    if toSync == [] then Internal
    else
      var reply := Call(w.wire, ListRows(w.session.user, toSync[0].id)).1;
      if !reply.Rows? then ErrorOf(reply)
      else FirstError(PullVaultRows(w, toSync[0].id, toSync[0].version).0, toSync[1..])
  }

  lemma {:induction false} FirstErrorIs(w: World, toSync: seq<VaultVersion>, j: nat)
    requires UnansweredFirst(w, toSync, j)
    ensures FirstError(w, toSync) == ErrorOf(RowsReply(w, toSync, j))
    decreases |toSync|
  {
    assert PulledUpTo(w, toSync, 0) == w;
    if j > 0 {
      var w1, rest := PullVaultRows(w, toSync[0].id, toSync[0].version).0, toSync[1..];
      assert RowsReply(w, toSync, 0).Rows?;
      ReplyOfRest(w, toSync, j);
      forall i | 0 <= i < j - 1 ensures RowsReply(w1, rest, i).Rows? { ReplyOfRest(w, toSync, i + 1); }
      FirstErrorIs(w1, rest, j - 1);
    }
  }
}

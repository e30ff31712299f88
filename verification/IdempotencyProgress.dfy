/** What the Idempotency-Key protocol achieves: a free key is claimed, and a success is replayed as it was sent. */
module IdempotencyProgress {
  import opened Wrappers
  import opened IdempotencyProtocol
  import opened IdempotencySafety

  /** Nothing stands in the way of transaction `t` claiming the key for its request. */
  predicate MayClaim(s: State, t: TxId) {
    && t in s.txs && s.txs[t].step.Open? && s.txs[t].owner in s.requests
    && (var q := s.requests[s.txs[t].owner]; !q.closed && q.failed.None? && q.claimTx.None?)
    && s.lock.None? && Live(s).None?
  }

  /** The four steps of an undisturbed claim. */
  function AfterClaim(s: State, t: TxId): State {
    Do(Do(Do(Do(s, ClaimCall(t, false)), TryLock(t)), CheckRow(t)), InsertRow(t))
  }

  /** The row a claim inserts. */
  function ClaimRow(s: State, q: Request): Row {
    Row(s.nextRow, q.hash, false, q.opts.successStatus, None, Null, false, false, false)
  }

  lemma ClaimInserts(s: State, t: TxId)
    requires MayClaim(s, t)
    ensures var r := s.txs[t].owner;
            var q := s.requests[r];
            AfterClaim(s, t) == s.(txs := s.txs[t := Tx(r, TxStep.Claimed)], lock := Some(t),
              pending := Some(ClaimRow(s, q)),
              requests := s.requests[r := q.(claimTx := Some(t), rowId := Some(s.nextRow))], nextRow := s.nextRow + 1)
  {
    var s1 := Do(s, ClaimCall(t, false));
    assert s1 == SetStep(s, t, Locking);
    var s2 := Do(s1, TryLock(t));
    assert s2.txs[t].step == Checking && s2.lock == Some(t);
    var s3 := Do(s2, CheckRow(t));
    assert s3.txs[t].step == Inserting(if s.row.Some? then Some(s.row.value.id) else None);
    var s4 := Do(s3, InsertRow(t));
    assert s4.txs == s.txs[t := Tx(s.txs[t].owner, TxStep.Claimed)];
  }

  /**
   * When the key is free, a claim goes through, and its commit makes the posting and its live key row visible at once.
   */
  lemma FreeKeyPosts(s: State, t: TxId, recordedEntity: bool)
    requires MayClaim(s, t)
    ensures var r := s.txs[t].owner;
            var q, s' := s.requests[r], Do(AfterClaim(s, t), Commit(t, recordedEntity));
            && s'.postings == s.postings + [Posting(r, s.nextRow, q.hash)]
            && s'.row == Live(s') == Some(ClaimRow(s, q).(hasEntity := recordedEntity))
            && s'.requests == s.requests[r := q.(claimTx := Some(t), rowId := Some(s.nextRow))]
            && s' == s.(row := s'.row, pending := None, lock := None, txs := s.txs - {t}, requests := s'.requests,
                        nextRow := s.nextRow + 1, postings := s'.postings)
  {
    ClaimInserts(s, t);
    hide AfterClaim;
    var claimed := AfterClaim(s, t);
    assert claimed.txs - {t} == s.txs - {t};
  }

  /** Transaction `t` neither commits nor rolls back. */
  predicate KeepsRunning(actions: seq<Action>, t: TxId) {
    forall a :: a in actions ==> !(a.Commit? && a.t == t) && !(a.Rollback? && a.t == t)
  }

  /**
   * Until the transaction that holds the key's lock ends, whatever the requests do, it keeps the lock, no other
   * transaction is on its way to the key row, and nothing is posted; a claim that asks for the lock is refused.
   */
  lemma {:induction false} HeldKeyRefuses(before: seq<Action>, after: seq<Action>, holder: TxId)
    requires Run(before).lock == Some(holder) && KeepsRunning(after, holder)
    ensures var s' := Run(before + after);
            && s'.lock == Some(holder) && holder in s'.txs
            && s'.postings == Run(before).postings
            && (forall t :: t in s'.txs && t != holder ==>
                 !s'.txs[t].step.Checking? && !s'.txs[t].step.Inserting? && !s'.txs[t].step.Claimed?)
            && (forall t :: t in s'.txs && t != holder && s'.txs[t].step.Locking? ==>
                 Do(s', TryLock(t)) == SetStep(s', t, Open))
  {
    EveryRunKeeps(before + after);
    hide Run, Do, Inv;
    if after == [] {
      assert before + after == before;
    } else {
      var n := |after| - 1;
      HeldKeyRefuses(before, after[..n], holder);
      OneMore(before + after[..n], after[n]);
      assert before + after[..n] + [after[n]] == before + after;
      EveryRunKeeps(before + after[..n]);
      HolderKeepsLock(Run(before + after[..n]), after[n], holder);
    }
    OnlyTheHolder(Run(before + after), holder);
  }

  lemma OnlyTheHolder(s: State, holder: TxId)
    requires Inv(s) && s.lock == Some(holder)
    ensures holder in s.txs
    ensures forall t :: t in s.txs && t != holder ==>
              !s.txs[t].step.Checking? && !s.txs[t].step.Inserting? && !s.txs[t].step.Claimed?
    ensures forall t :: t in s.txs && t != holder && s.txs[t].step.Locking? ==> Do(s, TryLock(t)) == SetStep(s, t, Open)
  {
    hide PendingOk, IdsOk, PostingsOk, RowOk, RequestOk;
  }

  lemma HolderKeepsLock(s: State, a: Action, holder: TxId)
    requires Inv(s) && s.lock == Some(holder)
    requires !(a.Commit? && a.t == holder) && !(a.Rollback? && a.t == holder)
    ensures Do(s, a).lock == Some(holder) && Do(s, a).postings == s.postings
  {
    if a.Commit? {
      OthersCommitNothing(s, a.t, a.recordedEntity, holder);
    } else {
      OtherActionKeepsLock(s, a, holder);
    }
    hide *;
  }

  lemma OtherActionKeepsLock(s: State, a: Action, holder: TxId)
    requires s.lock == Some(holder) && !a.Commit? && !(a.Rollback? && a.t == holder)
    ensures Do(s, a).lock == Some(holder) && Do(s, a).postings == s.postings
  {
    hide ReplayOf, RowBusy, Live;
  }

  lemma OthersCommitNothing(s: State, t: TxId, recordedEntity: bool, holder: TxId)
    requires Inv(s) && s.lock == Some(holder) && t != holder
    ensures Do(s, Commit(t, recordedEntity)).lock == Some(holder)
    ensures Do(s, Commit(t, recordedEntity)).postings == s.postings
  {
    hide PendingOk, IdsOk, PostingsOk, RowOk, RequestOk;
  }
}

/** Route bugs of the Idempotency-Key protocol fail closed for good. */
module IdempotencyRouteBugs {
  import opened Wrappers
  import opened IdempotencyProtocol
  import opened IdempotencySafety
  import opened IdempotencyTheorems

  // ---------- A route bug is for good ----------

  ghost predicate Failed(s: State, r: RequestId) {
    r in s.requests && s.requests[r].failed.Some?
  }

  lemma FailedStays(s: State, a: Action, r: RequestId)
    requires Failed(s, r)
    ensures Failed(Do(s, a), r)
  {
  }

  lemma {:induction false} FailedForever(before: seq<Action>, after: seq<Action>, r: RequestId)
    requires Failed(Run(before), r)
    ensures Failed(Run(before + after), r)
  {
    if after == [] {
      assert before + after == before;
    } else {
      var n := |after| - 1;
      FailedForever(before, after[..n], r);
      assert (before + after)[..|before + after| - 1] == before + after[..n];
      FailedStays(Run(before + after[..n]), after[n], r);
      hide Do, Failed;
    }
  }

  /**
   * A claim in a second transaction, or inside a savepoint, makes the request fail whatever happens afterwards: it
   * never answers a success through res.json.
   */
  lemma SecondClaimNeverSucceeds(before: seq<Action>, t: TxId, savepoint: bool, after: seq<Action>)
    requires var s := Run(before);
             && t in s.txs && s.txs[t].step.Open? && s.txs[t].owner in s.requests
             && (var q := s.requests[s.txs[t].owner];
                 !q.closed && q.claimTx != Some(t) && (q.failed.Some? || q.claimTx.Some? || savepoint))
    ensures var r, s' := Run(before).txs[t].owner, Run(before + [ClaimCall(t, savepoint)] + after);
            Failed(s', r) && (s'.requests[r].phase.Responded? ==> !IsSuccess(s'.requests[r].phase.reply.status))
  {
    var r, bug := Run(before).txs[t].owner, before + [ClaimCall(t, savepoint)];
    assert bug[..|bug| - 1] == before;
    assert Run(bug) == Do(Run(before), ClaimCall(t, savepoint));
    assert Failed(Run(bug), r);
    FailedForever(bug, after, r);
    hide Do, Run;
    if Run(bug + after).requests[r].phase.Responded? {
      RouteBugsNeverSucceed(bug + after, r);
    }
  }

  /** The transactions from `n` on of a request hold no part of the key. */
  ghost predicate NoneClaims(s: State, r: RequestId, n: TxId) {
    forall t :: t in s.txs && n <= t && s.txs[t].owner == r ==> s.txs[t].step.Open? || s.txs[t].step.Unguarded?
  }

  lemma NoneClaimsStays(s: State, a: Action, r: RequestId, n: TxId)
    requires Failed(s, r) && NoneClaims(s, r, n)
    ensures NoneClaims(Do(s, a), r, n)
  {
  }

  /** After a route bug no transaction that the request begins ever claims the key. */
  lemma {:induction false} NothingClaimsAfterABug(before: seq<Action>, after: seq<Action>, r: RequestId)
    requires Failed(Run(before), r)
    ensures NoneClaims(Run(before + after), r, Run(before).nextTx)
  {
    hide Run, Do, Failed, NoneClaims, Inv;
    if after == [] {
      assert before + after == before;
      EveryRunKeeps(before);
      NoneBegunClaims(Run(before), r);
    } else {
      var n := |after| - 1;
      NothingClaimsAfterABug(before, after[..n], r);
      FailedForever(before, after[..n], r);
      OneMore(before + after[..n], after[n]);
      assert before + after[..n] + [after[n]] == before + after;
      NoneClaimsStays(Run(before + after[..n]), after[n], r, Run(before).nextTx);
    }
  }

  lemma NoneBegunClaims(s: State, r: RequestId)
    requires Inv(s)
    ensures NoneClaims(s, r, s.nextTx)
  {
    hide PendingOk, IdsOk, PostingsOk, RowOk, RequestOk;
  }
}

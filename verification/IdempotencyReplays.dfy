/**
 * How long the answer of a request comes back to its retries, over every continuation of a run: until its row
 * expires or another request of the same hash stores a route bug in it.
 */
module IdempotencyReplays {
  import opened Wrappers
  import opened IdempotencyProtocol
  import opened IdempotencySafety
  import opened IdempotencyTheorems
  import opened IdempotencyProgress

  /** The row holds no error: it is 'committed', or 'done' with a success. */
  predicate Successful(row: Row) {
    !row.done || (row.responseStatus.Some? && IsSuccess(row.responseStatus.value))
  }

  // ---------- Who changes the key row ----------

  /** The store of a route bug that finds a live row of its request's hash; it does not ask whose row that is. */
  predicate RewritesRow(s: State, a: Action) {
    && a.SettleBug? && a.stored && a.r in s.requests && s.requests[a.r].phase.SettlingBug?
    && Live(s).Some? && Live(s).value.hash == s.requests[a.r].hash
  }

  /** The store of a success by the request whose row it is. */
  predicate OwnSettlement(s: State, a: Action) {
    && a.SettleDone? && a.stored && a.r in s.requests && s.requests[a.r].phase.SettlingDone?
    && s.row.Some? && s.requests[a.r].rowId == Some(s.row.value.id) && !RowBusy(s)
  }

  /** The guards under which an action changes the key row. */
  predicate ChangesRow(s: State, a: Action) {
    match a
    case Expire => s.row.Some? && !s.row.value.expired
    case Sweep => s.row.Some? && s.row.value.expired && !RowBusy(s)
    case Commit(t, _) => t in s.txs && s.txs[t].step.Claimed?
    case SettleDone(_, _) => OwnSettlement(s, a)
    case SettleBug(r, stored) =>
      RewritesRow(s, a) || (stored && r in s.requests && s.requests[r].phase.SettlingBug? && s.row.None? && !RowBusy(s))
    case _ => false
  }

  /** A stored success is its request's last word: the request has been answered. */
  ghost predicate DoneIsAnswered(s: State) {
    s.row.Some? && s.row.value.done && Successful(s.row.value) ==>
      forall r :: r in s.requests && s.requests[r].rowId == Some(s.row.value.id) ==> s.requests[r].phase.Responded?
  }

  lemma ActionAnswers(s: State, a: Action)
    requires Inv(s) && DoneIsAnswered(s)
    ensures DoneIsAnswered(Do(s, a))
  {
    if a.SettleBug? {
      BugAnswersNobody(s, a.r, a.stored);
    } else if a.Commit? {
      CommitIsNotDone(s, a.t, a.recordedEntity);
    } else {
      OtherActionAnswers(s, a);
    }
    hide Inv, DoneIsAnswered, Do;
  }

  lemma BugAnswersNobody(s: State, r: RequestId, stored: bool)
    requires Inv(s) && DoneIsAnswered(s)
    ensures DoneIsAnswered(Do(s, SettleBug(r, stored)))
  {
    if r in s.requests { BugStatusIsAnError(s, r); }
    hide Inv, RowBusy;
  }

  lemma CommitIsNotDone(s: State, t: TxId, recordedEntity: bool)
    requires Inv(s) && DoneIsAnswered(s)
    ensures DoneIsAnswered(Do(s, Commit(t, recordedEntity)))
  {
    hide TxsOk, PostingsOk, RowOk, RequestOk, IdsOk;
  }

  lemma OtherActionAnswers(s: State, a: Action)
    requires Inv(s) && DoneIsAnswered(s) && !a.SettleBug? && !a.Commit?
    ensures DoneIsAnswered(Do(s, a))
  {
    hide TxsOk, PostingsOk, RowOk, RequestOk, PendingOk, IdsOk, DoneIsAnswered, RowBusy, ReplayOf;
    if a.SettleDone? {
      OwnSettlementAnswers(s, a.r, a.stored);
      hide *;
    } else if a.Expire? {
      ExpiryAnswers(s);
      hide *;
    } else if a.ClaimCall? || a.TryLock? || a.CheckRow? || a.InsertRow? || a.Rollback? {
      ClaimStepAnswers(s, a);
      hide *;
    } else {
      hide Inv;
      SameRowAnswers(s, Do(s, a));
    }
  }

  lemma ClaimStepAnswers(s: State, a: Action)
    requires Inv(s) && DoneIsAnswered(s) && (a.ClaimCall? || a.TryLock? || a.CheckRow? || a.InsertRow? || a.Rollback?)
    ensures DoneIsAnswered(Do(s, a))
  {
    hide Inv, DoneIsAnswered;
    RowIsOld(s);
    var s' := Do(s, a);
    assert s'.row == s.row;
    forall r | r in s'.requests && s.row.Some? && s'.requests[r].rowId == Some(s.row.value.id)
      ensures r in s.requests && s.requests[r].rowId == s'.requests[r].rowId
                && s'.requests[r].phase == s.requests[r].phase
    {
    }
    hide Do;
    SameRowAnswers(s, s');
  }

  lemma OwnSettlementAnswers(s: State, r: RequestId, stored: bool)
    requires Inv(s) && DoneIsAnswered(s)
    ensures DoneIsAnswered(Do(s, SettleDone(r, stored)))
  {
    hide TxsOk, PostingsOk, RowOk, RequestOk, PendingOk, RowBusy;
  }

  lemma ExpiryAnswers(s: State)
    requires DoneIsAnswered(s)
    ensures DoneIsAnswered(Do(s, Expire))
  {
  }

  lemma RowIsOld(s: State)
    requires Inv(s)
    ensures s.row.Some? ==> s.row.value.id < s.nextRow
  {
    hide TxsOk, PendingOk, PostingsOk, RowOk, RequestOk;
  }

  lemma SameRowAnswers(s: State, s': State)
    requires DoneIsAnswered(s) && (s'.row == s.row || s'.row.None?)
    requires forall r :: r in s'.requests && s.row.Some? && s'.requests[r].rowId == Some(s.row.value.id) ==>
               && r in s.requests && s.requests[r].rowId == s'.requests[r].rowId
               && (s.requests[r].phase.Responded? ==> s'.requests[r].phase.Responded?)
    ensures DoneIsAnswered(s')
  {
  }

  lemma {:induction false} RunsAnswer(actions: seq<Action>)
    ensures DoneIsAnswered(Run(actions))
  {
    if actions != [] {
      var n := |actions| - 1;
      RunsAnswer(actions[..n]);
      EveryRunKeeps(actions[..n]);
      ActionAnswers(Run(actions[..n]), actions[n]);
    }
  }

  /**
   * In every reachable state the row changes only under one of these guards, and while it holds no error under each of
   * them. A live row is settled by its own request, and by any request of its hash that stores a route bug.
   */
  lemma WhoChangesTheRow(actions: seq<Action>, a: Action)
    ensures var s := Run(actions);
            && (Do(s, a).row != s.row ==> ChangesRow(s, a))
            && (ChangesRow(s, a) && (s.row.Some? ==> Successful(s.row.value)) ==> Do(s, a).row != s.row)
  {
    EveryRunKeeps(actions);
    RunsAnswer(actions);
    GuardsAreExact(Run(actions), a);
  }

  lemma GuardsAreExact(s: State, a: Action)
    requires Inv(s) && DoneIsAnswered(s)
    ensures Do(s, a).row != s.row ==> ChangesRow(s, a)
    ensures ChangesRow(s, a) && (s.row.Some? ==> Successful(s.row.value)) ==> Do(s, a).row != s.row
  {
    if a.SettleBug? {
      BugGuardIsExact(s, a.r, a.stored);
    } else if a.Commit? {
      CommitGuardIsExact(s, a.t, a.recordedEntity);
    } else {
      OtherGuardsAreExact(s, a);
    }
    hide *;
  }

  lemma BugGuardIsExact(s: State, r: RequestId, stored: bool)
    requires Inv(s)
    ensures var s', a := Do(s, SettleBug(r, stored)), SettleBug(r, stored);
            && (s'.row != s.row ==> ChangesRow(s, a))
            && (ChangesRow(s, a) && (s.row.Some? ==> Successful(s.row.value)) ==> s'.row != s.row)
  {
    if r in s.requests { BugStatusIsAnError(s, r); }
    LiveRowIsFree(s);
    hide Inv, RowBusy;
  }

  lemma BugStatusIsAnError(s: State, r: RequestId)
    requires Inv(s) && r in s.requests
    ensures s.requests[r].phase.SettlingBug? ==> !IsSuccess(s.requests[r].phase.status)
  {
    hide TxsOk, PendingOk, IdsOk, PostingsOk, RowOk;
    assert RequestOk(s, s.requests[r]);
  }

  lemma CommitGuardIsExact(s: State, t: TxId, recordedEntity: bool)
    requires Inv(s)
    ensures Do(s, Commit(t, recordedEntity)).row != s.row <==> ChangesRow(s, Commit(t, recordedEntity))
  {
    hide TxsOk, PostingsOk, RowOk, RequestOk;
  }

  lemma OtherGuardsAreExact(s: State, a: Action)
    requires DoneIsAnswered(s) && !a.SettleBug? && !a.Commit?
    ensures Do(s, a).row != s.row ==> ChangesRow(s, a)
    ensures ChangesRow(s, a) && (s.row.Some? ==> Successful(s.row.value)) ==> Do(s, a).row != s.row
  {
    hide RowBusy;
  }

  /** Nobody writes a live row in a transaction. */
  lemma LiveRowIsFree(s: State)
    requires Inv(s)
    ensures Live(s).Some? ==> !RowBusy(s)
  {
    hide IdsOk, PostingsOk, RowOk, RequestOk;
  }

  // ---------- The success status of a row is its request's ----------

  /** A row claimed by a request carries the success status of that request's route. */
  ghost predicate OwnStatus(s: State) {
    && (forall r :: r in s.requests && s.row.Some? && s.requests[r].rowId == Some(s.row.value.id) ==>
          s.row.value.successStatus == s.requests[r].opts.successStatus)
    && (forall r :: r in s.requests && s.pending.Some? && s.requests[r].rowId == Some(s.pending.value.id) ==>
          s.pending.value.successStatus == s.requests[r].opts.successStatus)
  }

  lemma ActionKeepsStatus(s: State, a: Action)
    requires IdsOk(s) && OwnStatus(s)
    ensures OwnStatus(Do(s, a))
  {
    hide OwnStatus, IdsOk, Do;
    if a.SettleBug? || a.SettleDone? {
      SettlingKeepsStatus(s, a);
    } else if a.InsertRow? {
      InsertKeepsStatus(s, a.t);
    } else if a.Commit? || a.Rollback? || a.Expire? || a.Sweep? {
      RowActionKeepsStatus(s, a);
    } else {
      OtherActionKeepsStatus(s, a);
    }
  }

  lemma RowActionKeepsStatus(s: State, a: Action)
    requires OwnStatus(s) && (a.Commit? || a.Rollback? || a.Expire? || a.Sweep?)
    ensures OwnStatus(Do(s, a))
  {
    hide RowBusy;
  }

  lemma SettlingKeepsStatus(s: State, a: Action)
    requires IdsOk(s) && OwnStatus(s) && (a.SettleBug? || a.SettleDone?)
    ensures OwnStatus(Do(s, a))
  {
    hide RowBusy;
  }

  lemma InsertKeepsStatus(s: State, t: TxId)
    requires IdsOk(s) && OwnStatus(s)
    ensures OwnStatus(Do(s, InsertRow(t)))
  {
  }

  lemma OtherActionKeepsStatus(s: State, a: Action)
    requires OwnStatus(s) && !a.SettleBug? && !a.SettleDone? && !a.InsertRow?
    requires !a.Commit? && !a.Rollback? && !a.Expire? && !a.Sweep?
    ensures OwnStatus(Do(s, a))
  {
    hide RowBusy, ReplayOf, OwnStatus, Live;
    SameIdentities(s, Do(s, a));
  }

  lemma SameIdentities(s: State, s': State)
    requires OwnStatus(s) && s'.row == s.row && s'.pending == s.pending
    requires forall r :: r in s'.requests && s'.requests[r].rowId.Some? ==>
               r in s.requests && s.requests[r].rowId == s'.requests[r].rowId
                 && s.requests[r].opts == s'.requests[r].opts
    ensures OwnStatus(s')
  {
  }

  lemma {:induction false} RunsOwnStatus(actions: seq<Action>)
    ensures OwnStatus(Run(actions))
  {
    hide OwnStatus, IdsOk;
    if actions == [] {
      assert OwnStatus(Init) by { EmptyOwnsStatus(); }
    } else {
      var n := |actions| - 1;
      RunsOwnStatus(actions[..n]);
      EveryRunKeeps(actions[..n]);
      ActionKeepsStatus(Run(actions[..n]), actions[n]);
    }
  }

  lemma EmptyOwnsStatus()
    ensures OwnStatus(Init)
  {
  }

  // ---------- The answer of a request, over every continuation ----------

  /** Request `r` has its answer, and its row is live. */
  ghost predicate Answered(s: State, r: RequestId) {
    && r in s.requests && s.requests[r].phase.Responded?
    && Live(s).Some? && s.requests[r].rowId == Some(Live(s).value.id)
  }

  /** Some action of the continuation stores a route bug in the row. */
  ghost predicate Rewritten(before: seq<Action>, after: seq<Action>) {
    exists k :: 0 <= k < |after| && RewritesRow(Run(before + after[..k]), after[k])
  }

  lemma RewrittenOneLonger(before: seq<Action>, after: seq<Action>)
    requires after != []
    ensures var n := |after| - 1;
            Rewritten(before, after) <==>
              Rewritten(before, after[..n]) || RewritesRow(Run(before + after[..n]), after[n])
  {
    hide RewritesRow, Run;
    var n := |after| - 1;
    forall k | 0 <= k < n ensures after[..n][..k] == after[..k] && after[..n][k] == after[k] {}
    if Rewritten(before, after) {
      var k :| 0 <= k < |after| && RewritesRow(Run(before + after[..k]), after[k]);
      if k < n {
        assert RewritesRow(Run(before + after[..n][..k]), after[..n][k]);
      }
    }
    if Rewritten(before, after[..n]) {
      var k :| 0 <= k < n && RewritesRow(Run(before + after[..n][..k]), after[..n][k]);
      assert RewritesRow(Run(before + after[..k]), after[k]);
    }
  }

  lemma NothingRewritten(before: seq<Action>)
    ensures !Rewritten(before, [])
  {
  }

  /** The answer and the row's identity are as they were. */
  ghost predicate Kept(s: State, s': State, r: RequestId)
    requires Answered(s, r)
  {
    && Answered(s', r) && s'.requests[r].phase == s.requests[r].phase
    && s'.row.value.id == s.row.value.id && s'.row.value.hash == s.row.value.hash
    && s'.row.value.successStatus == s.row.value.successStatus
  }

  lemma ActionKeepsAnswer(s: State, a: Action, r: RequestId)
    requires Inv(s) && Answered(s, r) && !a.Expire?
    ensures Kept(s, Do(s, a), r)
    ensures if RewritesRow(s, a) then IsBugRow(Do(s, a).row.value) else Do(s, a).row == s.row
  {
    if a.SettleBug? {
      BugKeepsAnswer(s, a.r, a.stored, r);
    } else if a.Commit? || a.InsertRow? {
      ClaimKeepsAnswer(s, a, r);
    } else {
      OtherActionKeepsAnswer(s, a, r);
    }
    hide Inv, Answered, Kept, Do;
  }

  lemma BugKeepsAnswer(s: State, x: RequestId, stored: bool, r: RequestId)
    requires Inv(s) && Answered(s, r)
    ensures var s' := Do(s, SettleBug(x, stored));
            Kept(s, s', r) && if RewritesRow(s, SettleBug(x, stored)) then IsBugRow(s'.row.value) else s'.row == s.row
  {
    hide Inv, RowBusy;
    LiveRowIsFree(s);
    if x in s.requests { BugStatusIsAnError(s, x); }
  }

  lemma ClaimKeepsAnswer(s: State, a: Action, r: RequestId)
    requires Inv(s) && Answered(s, r) && (a.Commit? || a.InsertRow?)
    ensures Kept(s, Do(s, a), r) && Do(s, a).row == s.row
  {
    hide IdsOk, PostingsOk, RowOk, RequestOk, RowBusy;
  }

  lemma OtherActionKeepsAnswer(s: State, a: Action, r: RequestId)
    requires Inv(s) && Answered(s, r) && !a.Expire? && !a.SettleBug? && !a.Commit? && !a.InsertRow?
    ensures Kept(s, Do(s, a), r) && Do(s, a).row == s.row
  {
    hide TxsOk, PendingOk, PostingsOk, RowOk, RequestOk, RowBusy;
  }

  /**
   * Whatever the requests do, until the row expires its request keeps its answer and the row its identity; it is
   * unchanged unless a route bug of its hash was stored in it, and then it holds an error.
   */
  lemma {:induction false} AnsweredRowStays(before: seq<Action>, after: seq<Action>, r: RequestId)
    requires Answered(Run(before), r) && NothingExpires(after)
    ensures Kept(Run(before), Run(before + after), r)
    ensures if Rewritten(before, after) then IsBugRow(Run(before + after).row.value)
              else Run(before + after).row == Run(before).row
  {
    hide Do, Inv, Answered, IsBugRow, Rewritten, RewritesRow;
    if after == [] {
      assert before + after == before;
      NothingRewritten(before);
    } else {
      var n := |after| - 1;
      AnsweredRowStays(before, after[..n], r);
      RewrittenOneLonger(before, after);
      var s := Run(before + after[..n]);
      assert (before + after)[..|before + after| - 1] == before + after[..n];
      EveryRunKeeps(before + after[..n]);
      ActionKeepsAnswer(s, after[n], r);
    }
  }

  /** What the retry `retry` is told by its first lookup after the run. */
  function Told(actions: seq<Action>, retry: RequestId, readerOk: bool): Option<Reply> {
    var s := Do(Run(actions), PreCheck(retry, readerOk));
    if retry in s.requests && s.requests[retry].phase.Responded? then Some(s.requests[retry].phase.reply) else None
  }

  /**
   * Wherever a run stands, a retry of a live posting is told what its row holds, and without a stored body the success
   * status is that of the request which posted. This covers a process that dies between its commit and its answer.
   */
  lemma PostingIsTold(actions: seq<Action>, i: nat, retry: RequestId, readerOk: bool)
    requires i < |Run(actions).postings| && Run(actions).postings[i].row !in Run(actions).expired
    requires Retries(Run(actions), retry) && Run(actions).requests[retry].hash == Run(actions).postings[i].hash
    ensures var s, told := Run(actions), Told(actions, retry, readerOk);
            && told.Some? && Live(s).Some? && Live(s).value.id == s.postings[i].row
            && Replays(Live(s).value, s.requests[retry].opts, readerOk, told.value)
            && s.postings[i].request in s.requests
            && Live(s).value.successStatus == s.requests[s.postings[i].request].opts.successStatus
  {
    hide Run, Replays, TxsOk, PendingOk, IdsOk, RowOk, RequestOk;
    EveryRunKeeps(actions);
    RunsOwnStatus(actions);
    LivePostingIsFound(actions, i);
    RetryNeverRunsAgain(actions, i, retry, readerOk);
  }

  /** `retry` has just arrived with the hash of the row. */
  predicate Retries(s: State, retry: RequestId) {
    && retry in s.requests && s.requests[retry].phase.Arrived?
    && s.row.Some? && s.requests[retry].hash == s.row.value.hash
  }

  /**
   * A retry of an answered success, after any continuation in which the row does not expire, is told a success if and
   * only if no route bug of its hash was stored in the row, or one whose error was not kept; without one it is told
   * what the row held when the request was answered.
   */
  lemma RetryIsToldASuccess(before: seq<Action>, after: seq<Action>, r: RequestId, retry: RequestId, readerOk: bool)
    requires Answered(Run(before), r) && Successful(Run(before).row.value) && NothingExpires(after)
    requires Retries(Run(before + after), retry)
    ensures var s' := Run(before + after);
            var told := Told(before + after, retry, readerOk);
            && s'.row.Some? && told.Some?
            && (IsSuccess(told.value.status) <==> !Rewritten(before, after) || s'.row.value.responseBody == Null)
            && (!Rewritten(before, after) ==>
                 Replays(Run(before).row.value, s'.requests[retry].opts, readerOk, told.value))
  {
    hide Run, Rewritten, TxsOk, PendingOk, IdsOk, PostingsOk, RequestOk;
    EveryRunKeeps(before + after);
    AnsweredRowStays(before, after, r);
    var s' := Run(before + after);
    RowsKeepASuccess(s');
    hide Inv;
    if IsBugRow(s'.row.value) { BugRowReplay(s'.row.value, s'.requests[retry].opts, readerOk); }
  }

  lemma RowsKeepASuccess(s: State)
    requires Inv(s) && s.row.Some?
    ensures IsSuccess(s.row.value.successStatus)
  {
    hide TxsOk, PendingOk, IdsOk, PostingsOk, RequestOk;
  }

  /** A success that is being settled, on a live row that is its request's own. */
  ghost predicate Settling(s: State, r: RequestId, status: int, body: Body) {
    && r in s.requests && s.requests[r].phase == SettlingDone(status, body)
    && Live(s).Some? && s.requests[r].rowId == Some(Live(s).value.id)
  }

  lemma SettlementAnswers(before: seq<Action>, r: RequestId, status: int, body: Body, stored: bool)
    requires Settling(Run(before), r, status, body)
    ensures var s, s' := Run(before), Run(before + [SettleDone(r, stored)]);
            && IsSuccess(status) && Answered(s', r)
                 && s'.requests[r].phase == Responded(Reply(status, FromHandler), None)
            && s'.row == Some(if stored
                              then s.row.value.(done := true, responseStatus := Some(status),
                                responseBody := body.Stored(), truncated := body.Oversize?)
                              else s.row.value)
  {
    hide Run, Do, Inv, Settling, Answered;
    OneMore(before, SettleDone(r, stored));
    EveryRunKeeps(before);
    SettlementOfOne(Run(before), r, status, body, stored);
  }

  lemma SettlementOfOne(s: State, r: RequestId, status: int, body: Body, stored: bool)
    requires Inv(s) && Settling(s, r, status, body)
    ensures var s' := Do(s, SettleDone(r, stored));
            && IsSuccess(status) && Answered(s', r)
                 && s'.requests[r].phase == Responded(Reply(status, FromHandler), None)
            && s'.row == Some(if stored
                              then s.row.value.(done := true, responseStatus := Some(status),
                                responseBody := body.Stored(), truncated := body.Oversize?)
                              else s.row.value)
  {
    LiveRowIsFree(s);
    SettlingIsASuccess(s, r);
    hide RowBusy, Inv;
  }

  lemma SettlingIsASuccess(s: State, r: RequestId)
    requires Inv(s) && r in s.requests && s.requests[r].phase.SettlingDone?
    ensures IsSuccess(s.requests[r].phase.status)
  {
    hide TxsOk, PendingOk, IdsOk, PostingsOk, RowOk;
    assert RequestOk(s, s.requests[r]);
  }

  /**
   * A success comes back to its retries with the status it was sent with and its stored body, unless the route reads
   * the record afresh. Unstored, it still comes back as a success. This holds after any continuation in which the row
   * neither expires nor is rewritten by a route bug of its hash.
   */
  lemma SuccessComesBack(before: seq<Action>, r: RequestId, status: int, body: Body, stored: bool, after: seq<Action>,
          retry: RequestId, readerOk: bool)
    requires Settling(Run(before), r, status, body) && (stored || !Run(before).row.value.done) && NothingExpires(after)
    requires Retries(Run(before + [SettleDone(r, stored)] + after), retry)
    ensures var settled := before + [SettleDone(r, stored)];
            var s', told := Run(settled + after), Told(settled + after, retry, readerOk);
            && r in s'.requests && s'.requests[r].phase == Responded(Reply(status, FromHandler), None)
            && s'.row.Some? && told.Some?
            && (IsSuccess(told.value.status) <==> !Rewritten(settled, after) || s'.row.value.responseBody == Null)
            && (!Rewritten(settled, after) ==>
                  var opts, row := s'.requests[retry].opts, Run(before).row.value;
                  if stored && body.Value? then
                    && told.value.status == status && s'.row.value.responseBody == body
                    && (told.value.source == FromReader
                        <==> opts.liveReplay && opts.hasReader && readerOk && row.hasEntity)
                    && (told.value.source == FromReader || told.value.source == FromStore)
                  else if opts.hasReader && readerOk then
                    told.value == Reply(Run(before).requests[r].opts.successStatus, FromReader)
                  else told.value == Reply(200, Minimal))
  {
    var settled := before + [SettleDone(r, stored)];
    hide Run, Rewritten, Do, Told, Retries;
    SettlementAnswers(before, r, status, body, stored);
    RunsOwnStatus(before);
    AnsweredRowStays(settled, after, r);
    RetryIsToldASuccess(settled, after, r, retry, readerOk);
  }

  /**
   * What a handler answers is what its request is sent, stored or not: a success when the key was claimed and when it
   * was not, an error that is not replaced by a replay, and the error of a route bug, which a success becomes.
   */
  lemma OwnAnswerIsSent(s: State, r: RequestId, status: int, body: Body, stored: bool, readerOk: bool)
    requires r in s.requests && s.requests[r].phase.Running? && !RowBusy(s)
    ensures var q, answered := s.requests[r], Do(s, Answer(r, status, body));
            var settled :=
              if q.failed.Some? then Do(answered, SettleBug(r, stored))
              else if !IsSuccess(status) then Do(answered, SettleRefusal(r, false, readerOk))
              else if q.rowId.Some? then Do(answered, SettleDone(r, stored))
              else answered;
            && settled.requests[r].phase == Responded(
                 Reply(if q.failed.Some? && IsSuccess(status) then 500 else status, FromHandler), None)
            && settled.requests[r].closed
  {
    hide ReplayOf, Live, RowBusy;
    var answered := Do(s, Answer(r, status, body));
    assert answered == s.(requests := answered.requests);
    assert !RowBusy(answered) by { SameTransactions(s, answered); }
  }

  lemma SameTransactions(s: State, s': State)
    requires s'.txs == s.txs && s'.lock == s.lock
    ensures RowBusy(s') == RowBusy(s)
  {
  }

  /**
   * A stored route bug comes back to every retry for as long as its row stays: with its status and its body, or, its
   * body not stored, as a success.
   */
  lemma BugComesBack(before: seq<Action>, r: RequestId, status: int, body: Body, after: seq<Action>, retry: RequestId,
          readerOk: bool)
    requires var s := Run(before);
             && r in s.requests && s.requests[r].phase == SettlingBug(status, body) && !RowBusy(s)
             && (s.row.None? || (!s.row.value.expired && s.row.value.hash == s.requests[r].hash))
    requires var stored := before + [SettleBug(r, true)];
             Run(stored + after).row == Run(stored).row && Retries(Run(stored + after), retry)
    ensures var stored := before + [SettleBug(r, true)];
            var s', told := Run(stored + after), Told(stored + after, retry, readerOk);
            && told.Some? && s'.row.value.responseBody == body.Stored()
            && if body.Value? then told.value == Reply(status, FromStore) else IsSuccess(told.value.status)
  {
    hide Run, Inv, RowBusy;
    var stored := before + [SettleBug(r, true)];
    OneMore(before, SettleBug(r, true));
    EveryRunKeeps(before);
    BugStatusIsAnError(Run(before), r);
    EveryRunKeeps(stored + after);
    RowsKeepASuccess(Run(stored + after));
  }

  /** A claim on a free key, its commit, and the request's success. */
  function PostAndAnswer(t: TxId, r: RequestId, status: int, v: int): seq<Action> {
    [ClaimCall(t, false), TryLock(t), CheckRow(t), InsertRow(t), Commit(t, true), Answer(r, status, Value(v)),
      SettleDone(r, true)]
  }

  /** The state after a post on a free key and its answer. */
  function PostedAndAnswered(s: State, t: TxId, status: int, v: int): State
    requires MayClaim(s, t)
  {
    var r := s.txs[t].owner;
    var q := s.requests[r];
    s.(txs := s.txs - {t}, lock := None, pending := None, nextRow := s.nextRow + 1,
       postings := s.postings + [Posting(r, s.nextRow, q.hash)],
       row := Some(Row(s.nextRow, q.hash, true, q.opts.successStatus, Some(status), Value(v), false, true, false)),
       requests := s.requests[r := q.(claimTx := Some(t), rowId := Some(s.nextRow), closed := true,
                                      phase := Responded(Reply(status, FromHandler), None))])
  }

  lemma AnswerAndSettle(s: State, r: RequestId, status: int, v: int)
    requires r in s.requests && s.requests[r].phase.Running? && s.requests[r].failed.None? && IsSuccess(status)
    requires s.lock.None? && s.row.Some? && s.requests[r].rowId == Some(s.row.value.id)
    ensures Do(Do(s, Answer(r, status, Value(v))), SettleDone(r, true)) ==
      s.(row := Some(s.row.value.(done := true, responseStatus := Some(status), responseBody := Value(v),
        truncated := false)),
         requests := s.requests[r :=
           s.requests[r].(phase := Responded(Reply(status, FromHandler), None), closed := true)])
  {
    var answered := Do(s, Answer(r, status, Value(v)));
    assert answered == SetRequest(s, r, s.requests[r].(phase := SettlingDone(status, Value(v)), closed := true));
    hide DoAnswer;
  }

  lemma AnswerSettles(s: State, t: TxId, status: int, v: int)
    requires MayClaim(s, t) && s.requests[s.txs[t].owner].phase.Running? && IsSuccess(status)
    ensures var r := s.txs[t].owner;
            Do(Do(Do(AfterClaim(s, t), Commit(t, true)), Answer(r, status, Value(v))), SettleDone(r, true))
              == PostedAndAnswered(s, t, status, v)
  {
    FreeKeyPosts(s, t, true);
    hide AfterClaim, Do;
    AnswerAndSettle(Do(AfterClaim(s, t), Commit(t, true)), s.txs[t].owner, status, v);
  }

  lemma PostAndAnswerRuns(before: seq<Action>, t: TxId, status: int, v: int)
    requires MayClaim(Run(before), t) && Run(before).requests[Run(before).txs[t].owner].phase.Running?
               && IsSuccess(status)
    ensures Run(before + PostAndAnswer(t, Run(before).txs[t].owner, status, v))
              == PostedAndAnswered(Run(before), t, status, v)
  {
    var s := Run(before);
    var r := s.txs[t].owner;
    hide Run, Do, MayClaim, PostedAndAnswered;
    var claim := [ClaimCall(t, false), TryLock(t), CheckRow(t), InsertRow(t), Commit(t, true)];
    FiveMore(before, ClaimCall(t, false), TryLock(t), CheckRow(t), InsertRow(t), Commit(t, true));
    TwoMore(before + claim, Answer(r, status, Value(v)), SettleDone(r, true));
    assert before + claim + [Answer(r, status, Value(v)), SettleDone(r, true)]
             == before + PostAndAnswer(t, r, status, v);
    AnswerSettles(s, t, status, v);
  }

  /**
   * A request that finds the key free posts once, and after any continuation in which nothing expires there is still
   * one posting more, and a retry is told the status that was answered unless a route bug of its hash was stored
   * meanwhile.
   */
  lemma PostAndRetry(before: seq<Action>, t: TxId, status: int, v: int, after: seq<Action>, retry: RequestId,
          readerOk: bool)
    requires MayClaim(Run(before), t) && Run(before).requests[Run(before).txs[t].owner].phase.Running?
               && IsSuccess(status)
    requires NothingExpires(after)
    requires Retries(Run(before + PostAndAnswer(t, Run(before).txs[t].owner, status, v) + after), retry)
    ensures var s, r := Run(before), Run(before).txs[t].owner;
            var answered := before + PostAndAnswer(t, r, status, v);
            var s', told := Run(answered + after), Told(answered + after, retry, readerOk);
            && s'.postings == s.postings + [Posting(r, s.nextRow, s.requests[r].hash)]
            && told.Some? && s'.row.Some?
            && (!Rewritten(answered, after) ==>
                  var opts := s'.requests[retry].opts;
                  told.value == Reply(status,
                    if opts.liveReplay && opts.hasReader && readerOk then FromReader else FromStore))
            && (IsSuccess(told.value.status) <==> !Rewritten(answered, after) || s'.row.value.responseBody == Null)
  {
    var s, r := Run(before), Run(before).txs[t].owner;
    var answered := before + PostAndAnswer(t, r, status, v);
    PostAndAnswerRuns(before, t, status, v);
    EveryRunKeeps(before);
    NewRowIsLive(Run(before));
    assert Run(answered) == PostedAndAnswered(s, t, status, v);
    hide Run, Rewritten, Do, Told, Retries, Inv, PostAndAnswer;
    NoSecondPosting(answered, after, |s.postings|);
    assert Answered(Run(answered), r);
    hide Answered;
    RetryIsToldASuccess(answered, after, r, retry, readerOk);
  }

  lemma NewRowIsLive(s: State)
    requires Inv(s)
    ensures s.nextRow !in s.expired
  {
    hide TxsOk, PendingOk, PostingsOk, RowOk, RequestOk;
  }

  // ---------- A route bug of another request ----------

  /** Two requests of one hash arrive and find the key free. */
  function BothStart(opts: Options): seq<Action> {
    [Arrive(0, 7, opts), Arrive(1, 7, opts), PreCheck(0, false), PreCheck(1, false), Begin(0)]
  }

  /** The second one claims inside a savepoint and answers its error. */
  function RouteBugOfTheSecond(error: Body): seq<Action> {
    [Begin(1), ClaimCall(1, true), Rollback(1), Answer(1, 500, error), SettleBug(1, true)]
  }

  /** Between the two the first one posts and answers 201; a retry comes last. */
  function ForeignBug(v: int, error: Body, opts: Options): seq<Action> {
    BothStart(opts) + PostAndAnswer(0, 0, 201, v) + RouteBugOfTheSecond(error)
      + [Arrive(2, 7, opts), PreCheck(2, false)]
  }

  function Bystander(opts: Options, phase: Phase, failed: Option<RouteBug>): Request {
    Request(7, opts, phase, phase.Responded?, failed, None, None)
  }

  function FirstAnswer(opts: Options): Request {
    Request(7, opts, Responded(Reply(201, FromHandler), None), true, None, Some(0), Some(0))
  }

  /** The table with the posting of request 0 and its row, done with the given outcome. */
  function Table(requests: map<RequestId, Request>, opts: Options, status: int, body: Body): State {
    Init.(requests := requests, nextTx := 1, nextRow := 1, postings := [Posting(0, 0, 7)],
          row := Some(Row(0, 7, true, opts.successStatus, Some(status), body, false, true, false)))
  }

  lemma BothArrive(opts: Options)
    requires IsSuccess(opts.successStatus)
    ensures Run([Arrive(0, 7, opts), Arrive(1, 7, opts)]) ==
      Init.(requests := map[0 := Bystander(opts, Arrived, None), 1 := Bystander(opts, Arrived, None)])
  {
    assert [] + [Arrive(0, 7, opts), Arrive(1, 7, opts)] == [Arrive(0, 7, opts), Arrive(1, 7, opts)] && Run([]) == Init;
    hide Run, Do;
    TwoMore([], Arrive(0, 7, opts), Arrive(1, 7, opts));
    FreshArrival(Init, 0, 7, opts);
    FreshArrival(Do(Init, Arrive(0, 7, opts)), 1, 7, opts);
  }

  lemma BothRun(opts: Options)
    requires IsSuccess(opts.successStatus)
    ensures Run(BothStart(opts)) ==
      Init.(requests := map[0 := Bystander(opts, Running, None), 1 := Bystander(opts, Running, None)],
            txs := map[0 := Tx(0, Open)], nextTx := 1)
  {
    var before := [Arrive(0, 7, opts), Arrive(1, 7, opts)];
    assert before + [PreCheck(0, false), PreCheck(1, false), Begin(0)] == BothStart(opts);
    hide Run, Do, BothStart;
    BothArrive(opts);
    ThreeMore(before, PreCheck(0, false), PreCheck(1, false), Begin(0));
    var s := Run(before);
    FreePreCheck(s, 0);
    FreePreCheck(Do(s, PreCheck(0, false)), 1);
    RunningBegins(Do(Do(s, PreCheck(0, false)), PreCheck(1, false)), 0);
  }

  lemma FirstPosts(v: int, opts: Options)
    requires IsSuccess(opts.successStatus)
    ensures Run(BothStart(opts) + PostAndAnswer(0, 0, 201, v)) ==
      Table(map[0 := FirstAnswer(opts), 1 := Bystander(opts, Running, None)], opts, 201, Value(v))
  {
    BothRun(opts);
    PostAndAnswerRuns(BothStart(opts), 0, 201, v);
    hide Run, PostAndAnswer, BothStart;
  }

  lemma SecondIsStored(before: seq<Action>, error: Body, opts: Options, body: Body)
    requires IsSuccess(opts.successStatus)
    requires Run(before) == Table(map[0 := FirstAnswer(opts), 1 := Bystander(opts, Running, None)], opts, 201, body)
    ensures Run(before + RouteBugOfTheSecond(error)) ==
      Table(map[0 := FirstAnswer(opts),
        1 := Bystander(opts, Responded(Reply(500, FromHandler), None), Some(InSavepoint))],
        opts, 500, error.Stored()).(nextTx := 2)
  {
    hide Run, Do;
    FiveMore(before, Begin(1), ClaimCall(1, true), Rollback(1), Answer(1, 500, error), SettleBug(1, true));
    var s := Run(before);
    SavepointFails(s, 1);
    BugSettles(Do(Do(Do(s, Begin(1)), ClaimCall(1, true)), Rollback(1)), 1, error);
  }

  /**
   * A live row of an answered success is not safe from another request of its hash: request 0 posted and was answered
   * 201, request 1 stores its error over it, and the retry is told 500 (or, when that error was not kept, a success).
   */
  lemma ForeignBugRewrites(v: int, error: Body, opts: Options)
    requires IsSuccess(opts.successStatus)
    ensures var s := Run(ForeignBug(v, error, opts));
            && s.postings == [Posting(0, 0, 7)] && s.expired == {}
            && s.requests.Keys == {0, 1, 2}
            && s.requests[0].phase == Responded(Reply(201, FromHandler), None) && s.requests[0].rowId == Some(0)
            && s.requests[1].rowId == None
            && s.requests[2].phase.Responded?
            && (error.Value? ==> s.requests[2].phase.reply == Reply(500, FromStore))
            && (IsSuccess(s.requests[2].phase.reply.status) <==> !error.Value?)
  {
    var first := BothStart(opts) + PostAndAnswer(0, 0, 201, v);
    var before := first + RouteBugOfTheSecond(error);
    hide Run, Do, BothStart, PostAndAnswer, RouteBugOfTheSecond;
    FirstPosts(v, opts);
    SecondIsStored(first, error, opts, Value(v));
    TwoMore(before, Arrive(2, 7, opts), PreCheck(2, false));
    FreshArrival(Run(before), 2, 7, opts);
    RetryIsReplayed(Do(Run(before), Arrive(2, 7, opts)), 2);
  }
}

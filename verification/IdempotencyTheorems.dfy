/** The promises of the Idempotency-Key protocol, over every run of any number of concurrent requests. */
module IdempotencyTheorems {
  import opened Wrappers
  import opened IdempotencyProtocol
  import opened IdempotencySafety

  // ---------- One posting per key ----------

  /** Of all postings made under the key at most one has not outlived its 24 hours. */
  lemma OneOfTwoExpired(actions: seq<Action>, i: nat, j: nat)
    requires i < j < |Run(actions).postings|
    ensures Run(actions).postings[i].row in Run(actions).expired || Run(actions).postings[j].row in Run(actions).expired
  {
    EveryRunKeeps(actions);
  }

  predicate NothingExpires(actions: seq<Action>) {
    forall a :: a in actions ==> !a.Expire?
  }

  /** Without an expiry an action adds nothing to the expired rows and at most a live posting to the history. */
  lemma OneActionPosts(s: State, a: Action)
    requires Inv(s) && !a.Expire?
    ensures Do(s, a).expired == s.expired
    ensures Do(s, a).postings != s.postings ==>
              && |Do(s, a).postings| == |s.postings| + 1 && s.postings <= Do(s, a).postings
              && Do(s, a).postings[|s.postings|].row !in s.expired
  {
    if a.Commit? {
      CommitPosts(s, a.t, a.recordedEntity);
    } else {
      OthersPostNothing(s, a);
    }
    hide Inv, Do;
  }

  lemma CommitPosts(s: State, t: TxId, recordedEntity: bool)
    requires Inv(s)
    ensures var s' := Do(s, Commit(t, recordedEntity));
            && s'.expired == s.expired
            && (s'.postings != s.postings ==>
                  |s'.postings| == |s.postings| + 1 && s.postings <= s'.postings
                    && s'.postings[|s.postings|].row !in s.expired)
  {
    hide TxsOk, PostingsOk, RowOk, RequestOk;
  }

  lemma OthersPostNothing(s: State, a: Action)
    requires !a.Expire? && !a.Commit?
    ensures Do(s, a).expired == s.expired && Do(s, a).postings == s.postings
  {
  }

  /** Once a posting is live, whatever the requests do, no other posting commits before it expires. */
  lemma {:induction false} NoSecondPosting(before: seq<Action>, after: seq<Action>, i: nat)
    requires i < |Run(before).postings| && Run(before).postings[i].row !in Run(before).expired
    requires NothingExpires(after)
    ensures Run(before + after).postings == Run(before).postings
    ensures Run(before + after).expired == Run(before).expired
  {
    if after == [] {
      assert before + after == before;
    } else {
      var n := |after| - 1;
      NoSecondPosting(before, after[..n], i);
      var s := Run(before + after[..n]);
      assert (before + after)[..|before + after| - 1] == before + after[..n];
      assert Run(before + after) == Do(s, after[n]);
      EveryRunKeeps(before + after[..n]);
      OneActionPosts(s, after[n]);
      if Run(before + after).postings != s.postings {
        OneOfTwoExpired(before + after, i, |s.postings|);
        assert false;
      }
    }
  }

  lemma {:induction false} NothingExpired(actions: seq<Action>)
    requires NothingExpires(actions)
    ensures Run(actions).expired == {}
  {
    if actions != [] {
      var n := |actions| - 1;
      NothingExpired(actions[..n]);
      EveryRunKeeps(actions[..n]);
      OneActionPosts(Run(actions[..n]), actions[n]);
    }
  }

  /** Inside one 24-hour window the key posts once at most. */
  lemma OnePostingPerWindow(actions: seq<Action>)
    requires NothingExpires(actions)
    ensures |Run(actions).postings| <= 1
  {
    NothingExpired(actions);
    if |Run(actions).postings| > 1 {
      OneOfTwoExpired(actions, 0, 1);
      assert false;
    }
  }

  // ---------- Retries ----------

  /** While a posting is live its key row is in the table, live, with the posting's hash. */
  lemma LivePostingIsFound(actions: seq<Action>, i: nat)
    requires i < |Run(actions).postings| && Run(actions).postings[i].row !in Run(actions).expired
    ensures var s := Run(actions);
            Live(s).Some? && Live(s).value.id == s.postings[i].row && Live(s).value.hash == s.postings[i].hash
  {
    EveryRunKeeps(actions);
    hide TxsOk, PendingOk, RowOk, RequestOk;
  }

  /** The row holds the body that was sent. */
  predicate HoldsBody(row: Row) {
    row.done && row.responseStatus.Some? && !row.truncated && row.responseBody != Null
  }

  /**
   * `reply` is what a retry of `row` may be sent. A stored body comes back with its status, read afresh exactly when
   * the route replays successes live, its reader works and the row names the record. Without a stored body the reader
   * answers with the status of a success, and if it cannot the reply is the minimal one.
   */
  predicate Replays(row: Row, opts: Options, readerOk: bool, reply: Reply) {
    var read := opts.hasReader && readerOk;
    if HoldsBody(row) then
      && reply.status == row.responseStatus.value
      && (reply.source == FromReader <==> read && opts.liveReplay && row.hasEntity && IsSuccess(reply.status))
      && (reply.source == FromReader || reply.source == FromStore)
    else
      && (reply.source == FromReader <==> read)
      && (reply.source == FromReader ==> reply.status == row.successStatus)
      && (reply.source != FromReader ==> reply == Reply(200, Minimal))
  }

  lemma ReplayIsLawful(row: Row, opts: Options)
    ensures Replays(row, opts, true, ReplayOf(row, opts, true)) && Replays(row, opts, false, ReplayOf(row, opts, false))
  {
  }

  /** A retry of a live posting is answered by a replay before its handler runs, another request is refused. */
  lemma RetryNeverRunsAgain(actions: seq<Action>, i: nat, r: RequestId, readerOk: bool)
    requires i < |Run(actions).postings| && Run(actions).postings[i].row !in Run(actions).expired
    requires r in Run(actions).requests && Run(actions).requests[r].phase.Arrived?
    ensures var s := Run(actions);
            var q, after := s.requests[r], Do(s, PreCheck(r, readerOk)).requests[r];
            if q.hash == s.postings[i].hash
            then && Live(s).Some? && after.phase.Responded? && after.phase.replayed == Live(s)
                 && Replays(Live(s).value, q.opts, readerOk, after.phase.reply)
            else after.phase == Responded(Reply(422, KeyReused), None)
  {
    LivePostingIsFound(actions, i);
  }

  /**
   * A request that fails although a posting of its hash stands, its own or that of a concurrent first attempt, answers
   * with the replay of that posting.
   */
  lemma FailureAfterCommitIsReplayed(actions: seq<Action>, i: nat, r: RequestId, readerOk: bool)
    requires i < |Run(actions).postings| && Run(actions).postings[i].row !in Run(actions).expired
    requires r in Run(actions).requests && Run(actions).requests[r].phase.SettlingRefusal?
    requires Run(actions).postings[i].hash == Run(actions).requests[r].hash
    ensures var s := Run(actions);
            var q, after := s.requests[r], Do(s, SettleRefusal(r, true, readerOk)).requests[r];
            && Live(s).Some? && Live(s).value.id == s.postings[i].row
            && after.phase.Responded? && after.phase.replayed == Live(s)
            && Replays(Live(s).value, q.opts, readerOk, after.phase.reply)
            && (s.postings[i].request == r ==> Some(Live(s).value.id) == q.rowId)
  {
    EveryRunKeeps(actions);
    LivePostingIsFound(actions, i);
    hide TxsOk, PendingOk, IdsOk, RowOk, RequestOk;
  }

  /** A posting of the hash that has not outlived its 24 hours. */
  ghost predicate LivePosting(s: State, hash: Hash) {
    exists i :: 0 <= i < |s.postings| && s.postings[i].hash == hash && s.postings[i].row !in s.expired
  }

  /** A live row of the hash that records a route bug and stands for no posting. */
  ghost predicate LiveBug(s: State, hash: Hash) {
    Live(s).Some? && Live(s).value.hash == hash && IsBugRow(Live(s).value) && !IsPosted(s.postings, Live(s).value)
  }

  lemma LiveRowsArePostingsOrBugs(s: State, hash: Hash)
    requires Inv(s)
    ensures Live(s).Some? && Live(s).value.hash == hash <==> LivePosting(s, hash) || LiveBug(s, hash)
  {
    hide TxsOk, PendingOk, RequestOk;
    if Live(s).Some? && Live(s).value.hash == hash && IsPosted(s.postings, Live(s).value) {
      var i :| 0 <= i < |s.postings| && s.postings[i].row == Live(s).value.id
        && s.postings[i].hash == Live(s).value.hash;
    }
  }

  /**
   * A refused request is answered by a replay exactly when the second lookup works and its hash has a live posting or
   * the live record of a route bug; otherwise it gets its own error.
   */
  lemma RefusedUnlessPostedOrBug(actions: seq<Action>, r: RequestId, found: bool, readerOk: bool)
    requires r in Run(actions).requests && Run(actions).requests[r].phase.SettlingRefusal?
    ensures var s := Run(actions);
            var q, after := s.requests[r], Do(s, SettleRefusal(r, found, readerOk)).requests[r];
            && after.phase.Responded?
            && (after.phase.replayed.Some? <==> found && (LivePosting(s, q.hash) || LiveBug(s, q.hash)))
            && (if after.phase.replayed.None? then after.phase.reply == Reply(q.phase.status, FromHandler)
                else after.phase.replayed == Live(s) && Replays(Live(s).value, q.opts, readerOk, after.phase.reply))
  {
    EveryRunKeeps(actions);
    LiveRowsArePostingsOrBugs(Run(actions), Run(actions).requests[r].hash);
    hide Inv, LivePosting, LiveBug;
  }

  // ---------- What a reply means ----------

  /** Every replay is of a row stored for the very same request: a posting's, or a route bug's error. */
  lemma ReplaysMatchTheRequest(actions: seq<Action>, r: RequestId)
    requires r in Run(actions).requests && Run(actions).requests[r].phase.Responded?
    requires Run(actions).requests[r].phase.replayed.Some?
    ensures var s := Run(actions);
            var row := s.requests[r].phase.replayed.value;
            && row.hash == s.requests[r].hash && (IsPosted(s.postings, row) || IsBugRow(row))
            && (|| Replays(row, s.requests[r].opts, true, s.requests[r].phase.reply)
                || Replays(row, s.requests[r].opts, false, s.requests[r].phase.reply))
  {
    hide Run, TxsOk, PendingOk, IdsOk, PostingsOk, RowOk, Replays, ReplayOf, IsPosted;
    EveryRunKeeps(actions);
    ReplayIsLawful(Run(actions).requests[r].phase.replayed.value, Run(actions).requests[r].opts);
    assert RequestOk(Run(actions), Run(actions).requests[r]);
  }

  /** A request that hit a route bug never answers a success through res.json, whatever its handler does. */
  lemma RouteBugsNeverSucceed(actions: seq<Action>, r: RequestId)
    requires r in Run(actions).requests && Run(actions).requests[r].failed.Some?
    requires Run(actions).requests[r].phase.Responded?
    ensures !IsSuccess(Run(actions).requests[r].phase.reply.status)
  {
    EveryRunKeeps(actions);
    assert RequestOk(Run(actions), Run(actions).requests[r]);
  }

  /** Writes that the key does not guard happen only in transactions begun or claimed after the handler answered. */
  lemma UnguardedOnlyAfterTheAnswer(actions: seq<Action>, t: TxId)
    requires t in Run(actions).txs && Run(actions).txs[t].step.Unguarded?
    ensures Run(actions).txs[t].owner in Run(actions).requests
              && Run(actions).requests[Run(actions).txs[t].owner].closed
  {
    EveryRunKeeps(actions);
    hide PendingOk, IdsOk, PostingsOk, RowOk, RequestOk;
  }

  // ---------- Replayed successes ----------

  /** The stored error of a route bug replays as that error exactly when its body was stored. */
  lemma BugRowReplay(row: Row, opts: Options, readerOk: bool)
    requires IsBugRow(row) && IsSuccess(row.successStatus)
    ensures IsSuccess(ReplayOf(row, opts, readerOk).status) <==> row.responseBody == Null
  {
  }

  /** Every error a handler answers has a body that can be stored: not the JSON null, and under the size cap. */
  predicate ErrorsHaveBodies(actions: seq<Action>) {
    forall a :: a in actions && a.Answer? && !IsSuccess(a.status) ==> a.body.Value?
  }

  ghost predicate BodiesKept(s: State) {
    && (s.row.Some? && !IsPosted(s.postings, s.row.value) ==> s.row.value.responseBody.Value?)
    && (forall r :: r in s.requests && s.requests[r].phase.SettlingBug? ==> s.requests[r].phase.body.Value?)
    && (forall r :: r in s.requests && s.requests[r].phase.Responded? && s.requests[r].phase.replayed.Some? ==>
          var row := s.requests[r].phase.replayed.value;
          IsPosted(s.postings, row) || row.responseBody.Value?)
  }

  /** A change of the row that keeps its posting, makes it one, or gives it a body. */
  lemma RowKeepsBodies(s: State, s': State)
    requires BodiesKept(s) && s.postings <= s'.postings && s'.requests == s.requests
    requires s'.row.Some? ==>
               || IsPosted(s'.postings, s'.row.value) || s'.row.value.responseBody.Value?
               || (s.row.Some? && s'.row.value == s.row.value.(expired := s'.row.value.expired))
    ensures BodiesKept(s')
  {
    if s.row.Some? && s'.row.Some? && IsPosted(s.postings, s.row.value) && s.row.value.id == s'.row.value.id
      && s.row.value.hash == s'.row.value.hash {
      var i :| 0 <= i < |s.postings| && s.postings[i].row == s.row.value.id && s.postings[i].hash == s.row.value.hash;
      assert s'.postings[i] == s.postings[i];
    }
    forall r | r in s.requests && s.requests[r].phase.Responded? && s.requests[r].phase.replayed.Some?
      ensures IsPosted(s'.postings, s.requests[r].phase.replayed.value)
                || s.requests[r].phase.replayed.value.responseBody.Value?
    {
      if IsPosted(s.postings, s.requests[r].phase.replayed.value) {
        PostedStays(s.postings, s'.postings, s.requests[r].phase.replayed.value);
      }
    }
  }

  lemma RequestKeepsBodies(s: State, r: RequestId, q': Request)
    requires BodiesKept(s)
    requires q'.phase.SettlingBug? ==> q'.phase.body.Value?
    requires q'.phase.Responded? && q'.phase.replayed.Some? ==>
               q'.phase.replayed == s.row || (r in s.requests && q'.phase == s.requests[r].phase)
    ensures BodiesKept(SetRequest(s, r, q'))
  {
  }

  lemma {:induction false} RowActionKeepsBodies(s: State, a: Action)
    requires Inv(s) && BodiesKept(s)
    requires a.Commit? || a.Rollback? || a.Expire? || a.Sweep?
    ensures BodiesKept(Do(s, a))
  {
    hide BodiesKept, TxsOk, PendingOk, IdsOk, PostingsOk, RowOk, RequestOk;
    var s' := Do(s, a);
    if s'.postings != s.postings {
      var n := |s.postings|;
      assert s'.postings[n].row == s'.row.value.id && s'.postings[n].hash == s'.row.value.hash;
    }
    RowKeepsBodies(s, s');
  }

  lemma SettlingKeepsBodies(s: State, a: Action)
    requires Inv(s) && BodiesKept(s)
    requires a.SettleBug? || a.SettleDone?
    ensures BodiesKept(Do(s, a))
  {
    hide TxsOk, PendingOk, IdsOk, PostingsOk, RequestOk;
    var s' := Do(s, a);
    if s' != s {
      var mid := SetRequest(s, a.r, s'.requests[a.r]);
      RequestKeepsBodies(s, a.r, s'.requests[a.r]);
      if a.SettleDone? && s'.row != s.row {
        assert s.requests[a.r].rowId == Some(s.row.value.id);
        assert IsPosted(s.postings, s.row.value);
        var i :| 0 <= i < |s.postings| && s.postings[i].row == s.row.value.id && s.postings[i].hash == s.row.value.hash;
      }
      RowKeepsBodies(mid, s');
    }
  }

  lemma ActionKeepsBodies(s: State, a: Action)
    requires Inv(s) && BodiesKept(s)
    requires a.Answer? && !IsSuccess(a.status) ==> a.body.Value?
    ensures BodiesKept(Do(s, a))
  {
    hide TxsOk, PendingOk, IdsOk, PostingsOk, RowOk, RequestOk;
    if a.Commit? || a.Rollback? || a.Expire? || a.Sweep? {
      RowActionKeepsBodies(s, a);
    } else if a.SettleBug? || a.SettleDone? {
      SettlingKeepsBodies(s, a);
    } else {
      OtherActionKeepsBodies(s, a);
    }
  }

  lemma OtherActionKeepsBodies(s: State, a: Action)
    requires BodiesKept(s)
    requires !(a.Commit? || a.Rollback? || a.Expire? || a.Sweep? || a.SettleBug? || a.SettleDone?)
    requires a.Answer? && !IsSuccess(a.status) ==> a.body.Value?
    ensures BodiesKept(Do(s, a))
  {
    if a.Answer? {
      AnswerKeepsBodies(s, a.r, a.status, a.body);
      hide *;
    } else if a.PreCheck? || a.SettleRefusal? {
      LookupKeepsBodies(s, a);
      hide *;
    } else {
      hide IsPosted;
      if a.Arrive? || a.AnswerRaw? { RequestKeepsBodiesAlone(s, a); } else { ClaimKeepsBodies(s, a); }
      hide *;
    }
  }

  /** Transactions and claims do not touch the row and what has been answered. */
  lemma ClaimKeepsBodies(s: State, a: Action)
    requires BodiesKept(s)
    requires a.Begin? || a.ClaimCall? || a.TryLock? || a.CheckRow? || a.InsertRow?
    ensures BodiesKept(Do(s, a))
  {
    hide IsPosted;
  }

  lemma RequestKeepsBodiesAlone(s: State, a: Action)
    requires BodiesKept(s) && (a.Arrive? || a.AnswerRaw?)
    ensures BodiesKept(Do(s, a))
  {
    hide IsPosted;
  }

  lemma LookupKeepsBodies(s: State, a: Action)
    requires BodiesKept(s) && (a.PreCheck? || a.SettleRefusal?)
    ensures BodiesKept(Do(s, a))
  {
    hide BodiesKept, ReplayOf;
    if a.r in s.requests && Do(s, a) != s {
      RequestKeepsBodies(s, a.r, Do(s, a).requests[a.r]);
    }
  }

  lemma AnswerKeepsBodies(s: State, r: RequestId, status: int, body: Body)
    requires BodiesKept(s) && (!IsSuccess(status) ==> body.Value?)
    ensures BodiesKept(Do(s, Answer(r, status, body)))
  {
    hide BodiesKept;
    if r in s.requests && s.requests[r].phase.Running? {
      RequestKeepsBodies(s, r, DoAnswer(s, r, status, body).requests[r]);
    }
  }

  lemma {:induction false} RunsKeepBodies(actions: seq<Action>)
    requires ErrorsHaveBodies(actions)
    ensures BodiesKept(Run(actions))
  {
    if actions != [] {
      var n := |actions| - 1;
      RunsKeepBodies(actions[..n]);
      EveryRunKeeps(actions[..n]);
      ActionKeepsBodies(Run(actions[..n]), actions[n]);
    }
  }

  /** When errors have bodies, a replayed success always stands for a committed posting of the same request. */
  lemma ReplayedSuccessWasPosted(actions: seq<Action>, r: RequestId)
    requires ErrorsHaveBodies(actions)
    requires r in Run(actions).requests && Run(actions).requests[r].phase.Responded?
    requires Run(actions).requests[r].phase.replayed.Some? && IsSuccess(Run(actions).requests[r].phase.reply.status)
    ensures var s := Run(actions);
            exists i :: 0 <= i < |s.postings| && s.postings[i].hash == s.requests[r].hash
                        && s.postings[i].row == s.requests[r].phase.replayed.value.id
  {
    EveryRunKeeps(actions);
    RunsKeepBodies(actions);
    var s := Run(actions);
    var q := s.requests[r];
    var row := q.phase.replayed.value;
    assert RequestOk(s, q);
    if IsBugRow(row) {
      BugRowReplay(row, q.opts, true);
      BugRowReplay(row, q.opts, false);
    }
    var i :| 0 <= i < |s.postings| && s.postings[i].row == row.id && s.postings[i].hash == row.hash;
  }

  // ---------- Single steps, for the runs below ----------

  lemma FreshArrival(s: State, r: RequestId, hash: Hash, opts: Options)
    requires r !in s.requests && IsSuccess(opts.successStatus)
    ensures Do(s, Arrive(r, hash, opts)) == SetRequest(s, r, Request(hash, opts, Arrived, false, None, None, None))
  {
  }

  lemma FreePreCheck(s: State, r: RequestId)
    requires r in s.requests && s.requests[r].phase.Arrived? && Live(s).None?
    ensures Do(s, PreCheck(r, false)) == SetRequest(s, r, s.requests[r].(phase := Running))
  {
  }

  lemma RunningBegins(s: State, r: RequestId)
    requires r in s.requests && s.requests[r].phase.Running?
    ensures Do(s, Begin(r)) == s.(txs := s.txs[s.nextTx := Tx(r, Open)], nextTx := s.nextTx + 1)
  {
  }

  /** A transaction that claims inside a savepoint and rolls back. */
  lemma SavepointFails(s: State, r: RequestId)
    requires r in s.requests && s.requests[r].phase.Running? && s.nextTx !in s.txs && s.lock.None?
    requires var q := s.requests[r]; !q.closed && q.failed.None? && q.claimTx.None?
    ensures Do(Do(Do(s, Begin(r)), ClaimCall(s.nextTx, true)), Rollback(s.nextTx)) ==
      SetRequest(s, r, s.requests[r].(failed := Some(InSavepoint))).(nextTx := s.nextTx + 1)
  {
    var begun := Do(s, Begin(r));
    assert begun == s.(txs := s.txs[s.nextTx := Tx(r, Open)], nextTx := s.nextTx + 1);
    assert begun.txs - {s.nextTx} == s.txs;
  }

  /** The error of a failed request, and what its settlement stores. */
  lemma BugSettles(s: State, r: RequestId, error: Body)
    requires r in s.requests && s.requests[r].phase.Running? && s.requests[r].failed.Some? && s.lock.None?
    requires Live(s).Some? && Live(s).value.hash == s.requests[r].hash
    ensures Do(Do(s, Answer(r, 500, error)), SettleBug(r, true)) ==
      s.(requests := s.requests[r := s.requests[r].(phase := Responded(Reply(500, FromHandler), None), closed := true)],
         row := Some(s.row.value.(done := true, responseStatus := Some(500),
           responseBody := error.Stored(), truncated := false)))
  {
    var answered := Do(s, Answer(r, 500, error));
    assert answered == SetRequest(s, r, s.requests[r].(phase := SettlingBug(500, error), closed := true));
    hide DoAnswer;
  }

  function BugRow(s: State, r: RequestId, error: Body): Row
    requires r in s.requests
  {
    var q := s.requests[r];
    Row(s.nextRow, q.hash, true, q.opts.successStatus, Some(500), error.Stored(), false, false, false)
  }

  lemma BugIsInserted(s: State, r: RequestId, error: Body)
    requires r in s.requests && s.requests[r].phase.Running? && s.requests[r].failed.Some? && s.lock.None?
               && s.row.None?
    ensures Do(Do(s, Answer(r, 500, error)), SettleBug(r, true)) ==
      s.(requests := s.requests[r := s.requests[r].(phase := Responded(Reply(500, FromHandler), None), closed := true)],
         row := Some(BugRow(s, r, error)), nextRow := s.nextRow + 1)
  {
    var answered := Do(s, Answer(r, 500, error));
    assert answered == SetRequest(s, r, s.requests[r].(phase := SettlingBug(500, error), closed := true));
    hide DoAnswer;
  }

  /** A retry of a row of its hash is told what the row replays. */
  lemma RetryIsReplayed(s: State, r: RequestId)
    requires r in s.requests && s.requests[r].phase.Arrived? && Live(s).Some?
               && Live(s).value.hash == s.requests[r].hash
    ensures Do(s, PreCheck(r, false)) ==
      SetRequest(s, r, s.requests[r].(phase := Responded(ReplayOf(Live(s).value, s.requests[r].opts, false), Live(s))))
  {
    hide ReplayOf;
  }

  // ---------- A replayed success without a posting ----------

  function Start(opts: Options): seq<Action> {
    [Arrive(0, 7, opts), PreCheck(0, false)]
  }

  function Bug(body: Body): seq<Action> {
    [Begin(0), ClaimCall(0, true), Rollback(0), Answer(0, 500, body), SettleBug(0, true)]
  }

  /** The run in which a handler claims inside a savepoint and answers its error with `body`, and a retry follows. */
  function BugThenRetry(body: Body, opts: Options): seq<Action> {
    Start(opts) + Bug(body) + [Arrive(1, 7, opts), PreCheck(1, false)]
  }

  lemma StartRuns(opts: Options)
    requires IsSuccess(opts.successStatus)
    ensures Run(Start(opts)) == Init.(requests := map[0 := Request(7, opts, Running, false, None, None, None)])
  {
    assert [] + Start(opts) == Start(opts) && Run([]) == Init;
    hide Run, Do;
    TwoMore([], Arrive(0, 7, opts), PreCheck(0, false));
    FreshArrival(Init, 0, 7, opts);
    FreePreCheck(Do(Init, Arrive(0, 7, opts)), 0);
  }

  lemma BugIsStored(body: Body, opts: Options)
    requires IsSuccess(opts.successStatus)
    ensures var s := Run(Start(opts) + Bug(body));
            && s.postings == [] && s.requests.Keys == {0}
            && s.row == Some(Row(0, 7, true, opts.successStatus, Some(500), body.Stored(), false, false, false))
  {
    hide Run, Do, Start;
    StartRuns(opts);
    FiveMore(Start(opts), Begin(0), ClaimCall(0, true), Rollback(0), Answer(0, 500, body), SettleBug(0, true));
    SavepointFails(Run(Start(opts)), 0);
    BugIsInserted(Do(Do(Do(Run(Start(opts)), Begin(0)), ClaimCall(0, true)), Rollback(0)), 0, body);
  }

  /**
   * The condition is needed: an error body that is the JSON null, or over the cap, is stored as no body, and the
   * retry of a request that posted nothing is told that it was committed.
   */
  lemma UnstoredErrorReplaysAsSuccess(body: Body, opts: Options)
    requires IsSuccess(opts.successStatus)
    ensures var s := Run(BugThenRetry(body, opts));
            && s.postings == []
            && 1 in s.requests && s.requests[1].phase.Responded? && s.requests[1].phase.replayed.Some?
            && (IsSuccess(s.requests[1].phase.reply.status) <==> !body.Value?)
  {
    var before := Start(opts) + Bug(body);
    hide Run, Do, Start, Bug;
    BugIsStored(body, opts);
    TwoMore(before, Arrive(1, 7, opts), PreCheck(1, false));
    FreshArrival(Run(before), 1, 7, opts);
    RetryIsReplayed(Do(Run(before), Arrive(1, 7, opts)), 1);
  }
}

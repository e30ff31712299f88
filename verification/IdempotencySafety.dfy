/** What every run of the Idempotency-Key protocol keeps. */
module IdempotencySafety {
  import opened Wrappers
  import opened IdempotencyProtocol

  /** The row was inserted by a claim whose transaction committed. */
  ghost predicate IsPosted(postings: seq<Posting>, row: Row) {
    exists i :: 0 <= i < |postings| && postings[i].row == row.id && postings[i].hash == row.hash
  }

  /** The row records a route bug: an error, never a success. */
  predicate IsBugRow(row: Row) {
    row.done && row.responseStatus.Some? && !IsSuccess(row.responseStatus.value) && !row.truncated
  }

  // ---------- The invariant, part by part ----------

  ghost predicate TxsOk(s: State) {
    && (forall t :: t in s.txs ==> t < s.nextTx && s.txs[t].owner in s.requests)
    && (forall t :: t in s.txs ==> s.requests[s.txs[t].owner].phase.Running? || s.requests[s.txs[t].owner].closed)
    && (s.lock.Some? ==> s.lock.value in s.txs)
    && (forall t :: t in s.txs && (s.txs[t].step.Checking? || s.txs[t].step.Inserting? || s.txs[t].step.Claimed?) ==>
         s.lock == Some(t))
    && (forall t :: t in s.txs && s.txs[t].step.Inserting? && s.txs[t].step.replaced.Some? ==>
          s.row.Some? && s.row.value.expired && s.txs[t].step.replaced.value == s.row.value.id)
    && (forall t :: t in s.txs && s.txs[t].step.Unguarded? ==> s.requests[s.txs[t].owner].closed)
  }

  /** Only the lock holder has an uncommitted row, it is the row of its request, and no live row stands against it. */
  ghost predicate PendingOk(s: State) {
    && (forall t :: t in s.txs && s.txs[t].step.Claimed? ==> s.pending.Some?)
    && (s.pending.Some? ==>
          && s.lock.Some? && s.lock.value in s.txs && s.txs[s.lock.value].step.Claimed?
          && s.txs[s.lock.value].owner in s.requests
          && (var q := s.requests[s.txs[s.lock.value].owner];
              q.rowId == Some(s.pending.value.id) && q.claimTx == s.lock && q.hash == s.pending.value.hash)
          && !s.pending.value.done && !s.pending.value.expired && IsSuccess(s.pending.value.successStatus)
          && (s.row.None? || s.row.value.expired))
  }

  ghost predicate IdsOk(s: State) {
    && (s.row.Some? ==> s.row.value.id < s.nextRow && (s.row.value.expired <==> s.row.value.id in s.expired))
    && (s.pending.Some? ==> s.pending.value.id < s.nextRow && s.pending.value.id !in s.expired)
    && (s.pending.Some? ==> forall i :: 0 <= i < |s.postings| ==> s.postings[i].row != s.pending.value.id)
    && (forall id :: id in s.expired ==> id < s.nextRow)
    && (forall i :: 0 <= i < |s.postings| ==> s.postings[i].row < s.nextRow)
    && (forall r :: r in s.requests && s.requests[r].rowId.Some? ==> s.requests[r].rowId.value < s.nextRow)
    && (forall r, r' :: r in s.requests && r' in s.requests && r != r' && s.requests[r].rowId.Some? ==>
          s.requests[r].rowId != s.requests[r'].rowId)
  }

  /** Every posting belongs to one request, and has a live row or has outlived it. */
  ghost predicate PostingsOk(s: State) {
    && (forall i, j :: 0 <= i < j < |s.postings| ==> s.postings[i].row != s.postings[j].row)
    && (forall i :: 0 <= i < |s.postings| ==>
          s.postings[i].row in s.expired
            || (s.row.Some? && s.row.value.id == s.postings[i].row && s.row.value.hash == s.postings[i].hash))
    && (forall i :: 0 <= i < |s.postings| ==>
          && s.postings[i].request in s.requests
          && s.requests[s.postings[i].request].hash == s.postings[i].hash
          && (s.postings[i].row in s.expired || s.requests[s.postings[i].request].rowId == Some(s.postings[i].row)))
  }

  /** The key row stands for a posting, or for a route bug that no request claimed. */
  ghost predicate RowOk(s: State) {
    s.row.Some? ==>
      && IsSuccess(s.row.value.successStatus)
      && (IsPosted(s.postings, s.row.value)
          || (IsBugRow(s.row.value) && forall r :: r in s.requests ==> s.requests[r].rowId != Some(s.row.value.id)))
  }

  /** A replay was made from a row of the request's own hash that stands for a posting or a route bug. */
  ghost predicate ReplayOk(s: State, q: Request, reply: Reply, row: Row) {
    && row.hash == q.hash
    && IsSuccess(row.successStatus)
    && (IsPosted(s.postings, row) || IsBugRow(row))
    && (reply == ReplayOf(row, q.opts, true) || reply == ReplayOf(row, q.opts, false))
  }

  ghost predicate RequestOk(s: State, q: Request) {
    && IsSuccess(q.opts.successStatus)
    && (q.failed.Some? ==> match q.phase
          case Running => true
          case SettlingBug(status, _) => !IsSuccess(status)
          case Responded(reply, replayed) => replayed.None? && !IsSuccess(reply.status)
          case Bypassed => true
          case _ => false)
    && (q.phase.Responded? && q.phase.replayed.Some? ==> ReplayOk(s, q, q.phase.reply, q.phase.replayed.value))
    && (q.phase.SettlingBug? ==> q.failed.Some?)
    && (q.phase.SettlingDone? ==> IsSuccess(q.phase.status) && q.rowId.Some?)
    && (q.phase.SettlingRefusal? ==> !IsSuccess(q.phase.status))
    && (q.phase.Arrived? ==> q.failed.None? && q.rowId.None?)
    && (!q.closed ==> q.phase.Arrived? || q.phase.Running? || (q.phase.Responded? && q.failed.None?))
    && (q.closed ==> !q.phase.Arrived? && !q.phase.Running?)
  }

  ghost predicate Inv(s: State) {
    && TxsOk(s) && PendingOk(s) && IdsOk(s) && PostingsOk(s) && RowOk(s)
    && forall r :: r in s.requests ==> RequestOk(s, s.requests[r])
  }

  // ---------- Every action keeps it ----------

  /** A request may move on as long as it keeps its identity, its claim and what holds of every request. */
  ghost predicate MovesOn(q: Request, q': Request) {
    && q'.hash == q.hash && q'.rowId == q.rowId && q'.claimTx == q.claimTx
    && (q.closed ==> q'.closed)
    && (q.phase.Running? || q.closed ==> q'.phase.Running? || q'.closed)
  }

  lemma RequestMovesTxs(s: State, r: RequestId, q': Request)
    requires TxsOk(s) && PendingOk(s) && r in s.requests && MovesOn(s.requests[r], q')
    ensures TxsOk(SetRequest(s, r, q')) && PendingOk(SetRequest(s, r, q'))
  {
  }

  lemma RequestMovesRows(s: State, r: RequestId, q': Request)
    requires IdsOk(s) && PostingsOk(s) && RowOk(s) && r in s.requests && MovesOn(s.requests[r], q')
    ensures IdsOk(SetRequest(s, r, q')) && PostingsOk(SetRequest(s, r, q')) && RowOk(SetRequest(s, r, q'))
  {
  }

  lemma RequestMoves(s: State, r: RequestId, q': Request)
    requires Inv(s) && r in s.requests && MovesOn(s.requests[r], q') && RequestOk(s, q')
    ensures Inv(SetRequest(s, r, q'))
  {
    hide TxsOk, PendingOk, IdsOk, PostingsOk, RowOk, RequestOk;
    RequestMovesTxs(s, r, q');
    RequestMovesRows(s, r, q');
    var s' := SetRequest(s, r, q');
    forall x | x in s'.requests ensures RequestOk(s', s'.requests[x]) {
      SameHistory(s, s', s'.requests[x]);
    }
  }

  /** What a request's replay rests on is history: it stays true. */
  lemma SameHistory(s: State, s': State, q: Request)
    requires RequestOk(s, q) && s.postings <= s'.postings
    ensures RequestOk(s', q)
  {
    if q.phase.Responded? && q.phase.replayed.Some? && IsPosted(s.postings, q.phase.replayed.value) {
      PostedStays(s.postings, s'.postings, q.phase.replayed.value);
    }
  }

  lemma PostedStays(a: seq<Posting>, b: seq<Posting>, row: Row)
    requires a <= b && IsPosted(a, row)
    ensures IsPosted(b, row)
  {
    var i :| 0 <= i < |a| && a[i].row == row.id && a[i].hash == row.hash;
    assert b[i] == a[i];
  }

  /** Transactions and the lock do not touch the rows. */
  lemma RowsUntouched(s: State, s': State)
    requires IdsOk(s) && PostingsOk(s) && RowOk(s)
    requires s' == s.(txs := s'.txs, lock := s'.lock, nextTx := s'.nextTx)
    ensures IdsOk(s') && PostingsOk(s') && RowOk(s')
  {
  }

  lemma RequestsUnchanged(s: State, s': State)
    requires s'.requests == s.requests && s.postings <= s'.postings
    requires forall r :: r in s.requests ==> RequestOk(s, s.requests[r])
    ensures forall r :: r in s'.requests ==> RequestOk(s', s'.requests[r])
  {
    forall r | r in s'.requests ensures RequestOk(s', s'.requests[r]) {
      SameHistory(s, s', s.requests[r]);
    }
  }

  lemma ArriveTxs(s: State, r: RequestId, q: Request)
    requires TxsOk(s) && PendingOk(s) && r !in s.requests
    ensures TxsOk(SetRequest(s, r, q)) && PendingOk(SetRequest(s, r, q))
  {
  }

  lemma ArriveRows(s: State, r: RequestId, q: Request)
    requires IdsOk(s) && PostingsOk(s) && RowOk(s) && r !in s.requests && q.rowId.None?
    ensures IdsOk(SetRequest(s, r, q)) && PostingsOk(SetRequest(s, r, q)) && RowOk(SetRequest(s, r, q))
  {
  }

  lemma ArriveKeeps(s: State, r: RequestId, hash: Hash, opts: Options)
    requires Inv(s)
    ensures Inv(Do(s, Arrive(r, hash, opts)))
  {
    var s' := Do(s, Arrive(r, hash, opts));
    if s' != s {
      var q := Request(hash, opts, Arrived, false, None, None, None);
      ArriveTxs(s, r, q);
      ArriveRows(s, r, q);
      assert RequestOk(s', q);
      hide TxsOk, PendingOk, IdsOk, PostingsOk, RowOk, RequestOk;
      forall x | x in s'.requests ensures RequestOk(s', s'.requests[x]) {
        if x != r { SameHistory(s, s', s.requests[x]); }
      }
    }
  }

  lemma PreCheckKeeps(s: State, r: RequestId, readerOk: bool)
    requires Inv(s)
    ensures Inv(Do(s, PreCheck(r, readerOk)))
  {
    hide TxsOk, PendingOk, IdsOk, PostingsOk;
    var s' := Do(s, PreCheck(r, readerOk));
    if s' != s {
      RequestMoves(s, r, s'.requests[r]);
    }
  }

  lemma AnswerKeeps(s: State, r: RequestId, status: int, body: Body)
    requires Inv(s)
    ensures Inv(Do(s, Answer(r, status, body))) && Inv(Do(s, AnswerRaw(r)))
  {
    hide TxsOk, PendingOk, IdsOk, PostingsOk, RowOk;
    if r in s.requests && s.requests[r].phase.Running? {
      RequestMoves(s, r, Do(s, Answer(r, status, body)).requests[r]);
      RequestMoves(s, r, Do(s, AnswerRaw(r)).requests[r]);
    }
  }

  lemma SettleRefusalKeeps(s: State, r: RequestId, found: bool, readerOk: bool)
    requires Inv(s)
    ensures Inv(Do(s, SettleRefusal(r, found, readerOk)))
  {
    hide TxsOk, PendingOk, IdsOk, PostingsOk;
    var s' := Do(s, SettleRefusal(r, found, readerOk));
    if s' != s {
      RequestMoves(s, r, s'.requests[r]);
    }
  }

  /** A transaction may move between the steps of a claim, short of having claimed. */
  ghost predicate MayMove(s: State, t: TxId, step: TxStep, lock: Option<TxId>) {
    && t in s.txs && !s.txs[t].step.Claimed? && !step.Claimed?
    && (lock == s.lock || (s.lock.None? && lock == Some(t)))
    && (step.Checking? || step.Inserting? ==> lock == Some(t))
    && (step.Inserting? && step.replaced.Some? ==>
         s.row.Some? && s.row.value.expired && step.replaced.value == s.row.value.id)
    && (step.Unguarded? ==> s.txs[t].owner in s.requests && s.requests[s.txs[t].owner].closed)
  }

  lemma StepMovesTxs(s: State, t: TxId, step: TxStep, lock: Option<TxId>)
    requires TxsOk(s) && PendingOk(s) && MayMove(s, t, step, lock)
    ensures TxsOk(SetStep(s, t, step).(lock := lock)) && PendingOk(SetStep(s, t, step).(lock := lock))
  {
  }

  lemma StepMoves(s: State, t: TxId, step: TxStep, lock: Option<TxId>)
    requires Inv(s) && MayMove(s, t, step, lock)
    ensures Inv(SetStep(s, t, step).(lock := lock))
  {
    var s' := SetStep(s, t, step).(lock := lock);
    StepMovesTxs(s, t, step, lock);
    hide TxsOk, PendingOk, IdsOk, PostingsOk, RowOk, RequestOk;
    RowsUntouched(s, s');
    RequestsUnchanged(s, s');
  }

  lemma ClaimCallKeeps(s: State, t: TxId, savepoint: bool)
    requires Inv(s)
    ensures Inv(Do(s, ClaimCall(t, savepoint)))
  {
    hide TxsOk, PendingOk, IdsOk, PostingsOk, RowOk, RequestOk;
    var s' := Do(s, ClaimCall(t, savepoint));
    if s' != s {
      var r := s.txs[t].owner;
      TxOwner(s, t);
      if s'.requests == s.requests {
        StepMoves(s, t, s'.txs[t].step, s.lock);
      } else {
        FailureIsOk(s, r, s'.requests[r]);
        RequestMoves(s, r, s'.requests[r]);
      }
    }
  }

  lemma TxOwner(s: State, t: TxId)
    requires Inv(s) && t in s.txs
    ensures s.txs[t].owner in s.requests
    ensures s.requests[s.txs[t].owner].phase.Running? || s.requests[s.txs[t].owner].closed
    ensures s.txs[t].step.Claimed? ==> s.requests[s.txs[t].owner].claimTx == Some(t)
  {
    hide IdsOk, PostingsOk, RowOk, RequestOk;
  }

  lemma FailureIsOk(s: State, r: RequestId, q': Request)
    requires Inv(s) && r in s.requests && s.requests[r].phase.Running? && !s.requests[r].closed
    requires q' == s.requests[r].(failed := q'.failed)
    ensures RequestOk(s, q')
  {
    hide TxsOk, PendingOk, IdsOk, PostingsOk, RowOk;
    assert RequestOk(s, s.requests[r]);
  }

  lemma TryLockKeeps(s: State, t: TxId)
    requires Inv(s)
    ensures Inv(Do(s, TryLock(t)))
  {
    hide TxsOk, PendingOk, IdsOk, PostingsOk, RowOk, RequestOk;
    var s' := Do(s, TryLock(t));
    if s' != s {
      StepMoves(s, t, s'.txs[t].step, s'.lock);
    }
  }

  lemma CheckRowKeeps(s: State, t: TxId)
    requires Inv(s)
    ensures Inv(Do(s, CheckRow(t)))
  {
    var s' := Do(s, CheckRow(t));
    if s' != s {
      assert s.lock == Some(t);
      hide TxsOk, PendingOk, IdsOk, PostingsOk, RowOk, RequestOk;
      StepMoves(s, t, s'.txs[t].step, s.lock);
    }
  }

  lemma BeginKeeps(s: State, r: RequestId)
    requires Inv(s)
    ensures Inv(Do(s, Begin(r)))
  {
    hide TxsOk, PendingOk, IdsOk, PostingsOk, RowOk, RequestOk;
    var s' := Do(s, Begin(r));
    if s' != s {
      BeginTxs(s, r);
      RowsUntouched(s, s');
      RequestsUnchanged(s, s');
    }
  }

  lemma BeginTxs(s: State, r: RequestId)
    requires TxsOk(s) && PendingOk(s) && r in s.requests && (s.requests[r].phase.Running? || s.requests[r].closed)
    ensures TxsOk(s.(txs := s.txs[s.nextTx := Tx(r, Open)], nextTx := s.nextTx + 1))
    ensures PendingOk(s.(txs := s.txs[s.nextTx := Tx(r, Open)], nextTx := s.nextTx + 1))
  {
  }

  /** The state after a successful insert. */
  function Inserted(s: State, t: TxId): State
    requires t in s.txs && s.txs[t].owner in s.requests
  {
    var r := s.txs[t].owner;
    var q := s.requests[r];
    SetRequest(SetStep(s, t, Claimed), r, q.(claimTx := Some(t), rowId := Some(s.nextRow)))
      .(pending := Some(Row(s.nextRow, q.hash, false, q.opts.successStatus, None, Null, false, false, false)),
        nextRow := s.nextRow + 1)
  }

  lemma InsertedTxs(s: State, t: TxId)
    requires TxsOk(s) && PendingOk(s) && t in s.txs && s.txs[t].owner in s.requests && s.txs[t].step.Inserting?
    requires s.row.Some? ==> s.txs[t].step.replaced == Some(s.row.value.id)
    requires IsSuccess(s.requests[s.txs[t].owner].opts.successStatus)
    ensures TxsOk(Inserted(s, t)) && PendingOk(Inserted(s, t))
  {
  }

  lemma InsertedIds(s: State, t: TxId)
    requires TxsOk(s) && IdsOk(s) && t in s.txs && s.txs[t].step.Inserting?
    ensures IdsOk(Inserted(s, t))
  {
  }

  lemma InsertedPostings(s: State, t: TxId)
    requires TxsOk(s) && IdsOk(s) && PostingsOk(s) && RowOk(s) && t in s.txs && s.txs[t].step.Inserting?
    requires s.row.Some? ==> s.txs[t].step.replaced == Some(s.row.value.id)
    ensures PostingsOk(Inserted(s, t)) && RowOk(Inserted(s, t))
  {
  }

  lemma InsertedRequests(s: State, t: TxId)
    requires Inv(s) && t in s.txs && s.txs[t].owner in s.requests && s.txs[t].step.Inserting?
    ensures forall x :: x in Inserted(s, t).requests ==> RequestOk(Inserted(s, t), Inserted(s, t).requests[x])
  {
    hide PendingOk, IdsOk, PostingsOk, RowOk;
    forall x | x in s.requests ensures RequestOk(Inserted(s, t), Inserted(s, t).requests[x]) {
      SameHistory(s, Inserted(s, t), s.requests[x]);
    }
  }

  lemma InsertRowKeeps(s: State, t: TxId)
    requires Inv(s)
    ensures Inv(Do(s, InsertRow(t)))
  {
    var s' := Do(s, InsertRow(t));
    if s' != s {
      assert s.txs[t].owner in s.requests && s.txs[t].step.Inserting?
               && IsSuccess(s.requests[s.txs[t].owner].opts.successStatus);
      hide TxsOk, PendingOk, IdsOk, PostingsOk, RowOk, RequestOk;
      if s'.txs[t].step.Aborted? {
        StepMoves(s, t, Aborted, s.lock);
      } else {
        assert s' == Inserted(s, t);
        InsertedTxs(s, t);
        InsertedIds(s, t);
        InsertedPostings(s, t);
        InsertedRequests(s, t);
      }
    }
  }

  /** The end of a transaction that has not claimed, by commit or rollback, releases its lock and nothing else. */
  lemma UnclaimedTxEnds(s: State, t: TxId)
    requires Inv(s) && t in s.txs && !s.txs[t].step.Claimed?
    ensures Inv(EndTx(s, t))
  {
    EndTxTxs(s, t);
    hide TxsOk, PendingOk, IdsOk, PostingsOk, RowOk, RequestOk;
    RowsUntouched(s, EndTx(s, t));
    RequestsUnchanged(s, EndTx(s, t));
  }

  lemma EndTxTxs(s: State, t: TxId)
    requires TxsOk(s) && PendingOk(s) && t in s.txs
    ensures TxsOk(EndTx(s, t))
    ensures !s.txs[t].step.Claimed? ==> PendingOk(EndTx(s, t))
    ensures s.txs[t].step.Claimed? ==> s.pending.Some? && s.lock == Some(t) && PendingOk(EndTx(s, t).(pending := None))
  {
  }

  lemma RollbackKeeps(s: State, t: TxId)
    requires Inv(s)
    ensures Inv(Do(s, Rollback(t)))
  {
    if t in s.txs {
      var s' := Do(s, Rollback(t));
      hide Inv;
      if s.txs[t].step.Claimed? {
        ClaimedTxRollsBack(s, t);
      } else {
        UnclaimedTxEnds(s, t);
      }
    }
  }

  lemma ClaimedTxRollsBack(s: State, t: TxId)
    requires Inv(s) && t in s.txs && s.txs[t].step.Claimed?
    ensures Inv(EndTx(s, t).(pending := None))
  {
    hide TxsOk, PendingOk, IdsOk, PostingsOk, RowOk, RequestOk;
    EndTxTxs(s, t);
    var s' := EndTx(s, t).(pending := None);
    assert TxsOk(s') by { NoPendingTxs(EndTx(s, t)); }
    NoPendingRows(s, EndTx(s, t).(pending := None));
    RequestsUnchanged(s, EndTx(s, t).(pending := None));
  }

  lemma NoPendingTxs(s: State)
    requires TxsOk(s)
    ensures TxsOk(s.(pending := None))
  {
  }

  lemma NoPendingRows(s: State, s': State)
    requires IdsOk(s) && PostingsOk(s) && RowOk(s) && s' == s.(txs := s'.txs, lock := s'.lock, pending := None)
    ensures IdsOk(s') && PostingsOk(s') && RowOk(s')
  {
  }

  /** The state after the commit of a claimed transaction. */
  function Posted(s: State, t: TxId, recordedEntity: bool): State
    requires t in s.txs && s.pending.Some?
  {
    EndTx(s, t).(row := Some(s.pending.value.(hasEntity := recordedEntity)), pending := None,
                 postings := s.postings + [Posting(s.txs[t].owner, s.pending.value.id, s.pending.value.hash)])
  }

  lemma PostedTxs(s: State, t: TxId, recordedEntity: bool)
    requires TxsOk(s) && PendingOk(s) && t in s.txs && s.txs[t].step.Claimed?
    ensures s.pending.Some? && TxsOk(Posted(s, t, recordedEntity)) && PendingOk(Posted(s, t, recordedEntity))
  {
  }

  lemma PostedIds(s: State, t: TxId, recordedEntity: bool)
    requires PendingOk(s) && IdsOk(s) && t in s.txs && s.pending.Some?
    ensures IdsOk(Posted(s, t, recordedEntity))
  {
  }

  lemma PostedPostings(s: State, t: TxId, recordedEntity: bool)
    requires TxsOk(s) && PendingOk(s) && IdsOk(s) && PostingsOk(s) && t in s.txs && s.txs[t].step.Claimed?
               && s.pending.Some?
    ensures PostingsOk(Posted(s, t, recordedEntity))
  {
  }

  lemma PostedRow(s: State, t: TxId, recordedEntity: bool)
    requires PendingOk(s) && t in s.txs && s.pending.Some?
    ensures RowOk(Posted(s, t, recordedEntity))
  {
    var s', n := Posted(s, t, recordedEntity), |s.postings|;
    assert s'.postings[n].row == s'.row.value.id && s'.postings[n].hash == s'.row.value.hash;
  }

  lemma CommitKeeps(s: State, t: TxId, recordedEntity: bool)
    requires Inv(s)
    ensures Inv(Do(s, Commit(t, recordedEntity)))
  {
    hide TxsOk, PendingOk, IdsOk, PostingsOk, RowOk, RequestOk;
    var s' := Do(s, Commit(t, recordedEntity));
    if t in s.txs && s.txs[t].step.Claimed? {
      PostedTxs(s, t, recordedEntity);
      PostedIds(s, t, recordedEntity);
      PostedPostings(s, t, recordedEntity);
      PostedRow(s, t, recordedEntity);
      assert s' == Posted(s, t, recordedEntity);
      RequestsUnchanged(s, s');
    } else if s' != s {
      UnclaimedTxEnds(s, t);
    }
  }

  // A change of the row alone, part by part.

  lemma RowChangeTxs(s: State, s': State)
    requires TxsOk(s) && s' == s.(row := s'.row, expired := s'.expired, nextRow := s'.nextRow)
    requires forall t :: t in s.txs && s.txs[t].step.Inserting? && s.txs[t].step.replaced.Some? ==>
               s'.row.Some? && s'.row.value.expired && s.txs[t].step.replaced.value == s'.row.value.id
    ensures TxsOk(s')
  {
  }

  /** A row nobody is writing is not being replaced. */
  lemma FreeRowTxs(s: State, s': State)
    requires TxsOk(s) && !RowBusy(s) && s' == s.(row := s'.row, expired := s'.expired, nextRow := s'.nextRow)
    ensures TxsOk(s')
  {
    RowChangeTxs(s, s');
  }

  lemma RowChangePending(s: State, s': State)
    requires PendingOk(s) && s' == s.(row := s'.row, expired := s'.expired, nextRow := s'.nextRow)
    requires s.pending.None? || s'.row.None? || s'.row.value.expired
    ensures PendingOk(s')
  {
  }

  lemma FreeRowHasNoPending(s: State)
    requires PendingOk(s) && !RowBusy(s)
    ensures s.pending.None?
  {
  }

  lemma RowChangeIds(s: State, s': State)
    requires IdsOk(s) && s' == s.(row := s'.row)
    requires s'.row.Some? ==>
               s.row.Some? && s'.row.value.id == s.row.value.id && s'.row.value.expired == s.row.value.expired
    ensures IdsOk(s')
  {
  }

  lemma RowChangePostings(s: State, s': State)
    requires PostingsOk(s) && s' == s.(row := s'.row)
    requires s'.row.Some? && s.row.Some? && s'.row.value.id == s.row.value.id && s'.row.value.hash == s.row.value.hash
    ensures PostingsOk(s')
  {
  }

  lemma SamePosting(postings: seq<Posting>, row: Row, row': Row)
    requires row'.id == row.id && row'.hash == row.hash
    ensures IsPosted(postings, row) ==> IsPosted(postings, row')
  {
    if IsPosted(postings, row) {
      var i :| 0 <= i < |postings| && postings[i].row == row.id && postings[i].hash == row.hash;
      assert postings[i].row == row'.id;
    }
  }

  lemma RowChangeRow(s: State, s': State)
    requires RowOk(s) && s' == s.(row := s'.row, expired := s'.expired) && s.row.Some? && s'.row.Some?
    requires s'.row.value.id == s.row.value.id && s'.row.value.hash == s.row.value.hash
    requires s'.row.value.successStatus == s.row.value.successStatus
    requires IsPosted(s.postings, s.row.value) || IsBugRow(s'.row.value)
    ensures RowOk(s')
  {
    SamePosting(s.postings, s.row.value, s'.row.value);
    hide IsPosted, IsBugRow;
  }

  /** The row may be settled by a writer that does not wait for it, keeping its identity. */
  lemma RowMoves(s: State, row: Row)
    requires Inv(s) && !RowBusy(s) && s.row.Some?
    requires row.id == s.row.value.id && row.hash == s.row.value.hash && row.expired == s.row.value.expired
    requires row.successStatus == s.row.value.successStatus
    requires IsPosted(s.postings, s.row.value) || IsBugRow(row)
    ensures Inv(s.(row := Some(row)))
  {
    hide TxsOk, PendingOk, IdsOk, PostingsOk, RowOk, RequestOk, RowBusy, IsPosted, IsBugRow;
    var s' := s.(row := Some(row));
    FreeRowTxs(s, s');
    FreeRowHasNoPending(s);
    RowChangePending(s, s');
    RowChangeIds(s, s');
    RowChangePostings(s, s');
    RowChangeRow(s, s');
    RequestsUnchanged(s, s');
  }

  /** A route bug without a row leaves one that no request claimed. */
  lemma BugRowArrives(s: State, row: Row)
    requires Inv(s) && !RowBusy(s) && s.row.None?
    requires row.id == s.nextRow && !row.expired && IsBugRow(row) && IsSuccess(row.successStatus)
    ensures Inv(s.(row := Some(row), nextRow := s.nextRow + 1))
  {
    hide TxsOk, PendingOk, IdsOk, PostingsOk, RowOk, RequestOk, RowBusy, IsBugRow;
    var s' := s.(row := Some(row), nextRow := s.nextRow + 1);
    FreeRowTxs(s, s');
    FreeRowHasNoPending(s);
    RowChangePending(s, s');
    NewRow(s, row);
    RequestsUnchanged(s, s');
  }

  lemma NewRow(s: State, row: Row)
    requires IdsOk(s) && PostingsOk(s) && s.row.None?
    requires row.id == s.nextRow && !row.expired && IsBugRow(row) && IsSuccess(row.successStatus)
    ensures var s' := s.(row := Some(row), nextRow := s.nextRow + 1); IdsOk(s') && PostingsOk(s') && RowOk(s')
  {
  }

  lemma SettleBugKeeps(s: State, r: RequestId, stored: bool)
    requires Inv(s)
    ensures Inv(Do(s, SettleBug(r, stored)))
  {
    hide TxsOk, PendingOk, IdsOk, PostingsOk, RowOk, RequestOk;
    var s' := Do(s, SettleBug(r, stored));
    if s' != s {
      var mid := SetRequest(s, r, s'.requests[r]);
      SettledBugIsOk(s, r, s'.requests[r]);
      RequestMoves(s, r, s'.requests[r]);
      assert !RowBusy(mid);
      if s'.row != s.row {
        if s.row.None? { BugRowArrives(mid, s'.row.value); } else { RowMoves(mid, s'.row.value); }
      }
      assert s' == mid.(row := s'.row, nextRow := s'.nextRow);
    }
  }

  lemma SettledBugIsOk(s: State, r: RequestId, q': Request)
    requires Inv(s) && r in s.requests && s.requests[r].phase.SettlingBug?
    requires q' == s.requests[r].(phase := Responded(Reply(s.requests[r].phase.status, FromHandler), None))
    ensures RequestOk(s, q') && MovesOn(s.requests[r], q')
    ensures !IsSuccess(s.requests[r].phase.status) && IsSuccess(q'.opts.successStatus)
  {
    hide TxsOk, PendingOk, IdsOk, PostingsOk, RowOk;
    assert RequestOk(s, s.requests[r]);
  }

  lemma SettleDoneKeeps(s: State, r: RequestId, stored: bool)
    requires Inv(s)
    ensures Inv(Do(s, SettleDone(r, stored)))
  {
    hide TxsOk, PendingOk, IdsOk, PostingsOk, RowOk, RequestOk;
    var s' := Do(s, SettleDone(r, stored));
    if s' != s {
      var mid := SetRequest(s, r, s'.requests[r]);
      SettledDoneIsOk(s, r, s'.requests[r]);
      RequestMoves(s, r, s'.requests[r]);
      if s'.row != s.row {
        assert s.requests[r].rowId == Some(s.row.value.id) && !RowBusy(mid);
        OwnRowIsPosted(s, r);
        RowMoves(mid, s'.row.value);
      }
      assert s' == mid.(row := s'.row);
    }
  }

  lemma SettledDoneIsOk(s: State, r: RequestId, q': Request)
    requires Inv(s) && r in s.requests && s.requests[r].phase.SettlingDone?
    requires q' == s.requests[r].(phase := Responded(Reply(s.requests[r].phase.status, FromHandler), None))
    ensures RequestOk(s, q') && MovesOn(s.requests[r], q')
  {
    hide TxsOk, PendingOk, IdsOk, PostingsOk, RowOk;
    assert RequestOk(s, s.requests[r]);
  }

  /** The row a request has claimed is a posting's. */
  lemma OwnRowIsPosted(s: State, r: RequestId)
    requires Inv(s) && r in s.requests && s.row.Some? && s.requests[r].rowId == Some(s.row.value.id)
    ensures IsPosted(s.postings, s.row.value)
  {
    hide TxsOk, PendingOk, IdsOk, PostingsOk, RequestOk;
  }

  lemma ExpireKeeps(s: State)
    requires Inv(s)
    ensures Inv(Do(s, Expire))
  {
    var s' := Do(s, Expire);
    if s' != s {
      hide TxsOk, PendingOk, IdsOk, PostingsOk, RowOk, RequestOk, IsPosted, IsBugRow;
      ReplacedIsTheRow(s);
      RowChangeTxs(s, s');
      RowChangePending(s, s');
      ExpiredIds(s, s');
      ExpiredRow(s, s');
      RequestsUnchanged(s, s');
    }
  }

  /** A transaction that replaces a row replaces the row there is. */
  lemma ReplacedIsTheRow(s: State)
    requires TxsOk(s)
    ensures forall t :: t in s.txs && s.txs[t].step.Inserting? && s.txs[t].step.replaced.Some? ==>
              s.row.Some? && s.row.value.expired && s.txs[t].step.replaced.value == s.row.value.id
  {
  }

  lemma ExpiredIds(s: State, s': State)
    requires IdsOk(s) && PostingsOk(s) && PendingOk(s) && s.row.Some?
    requires s' == s.(row := Some(s.row.value.(expired := true)), expired := s.expired + {s.row.value.id})
    ensures IdsOk(s') && PostingsOk(s')
  {
  }

  lemma ExpiredRow(s: State, s': State)
    requires RowOk(s) && s.row.Some?
    requires s' == s.(row := Some(s.row.value.(expired := true)), expired := s.expired + {s.row.value.id})
    ensures RowOk(s')
  {
    SamePosting(s.postings, s.row.value, s'.row.value);
    hide IsPosted;
  }

  lemma SweepKeeps(s: State)
    requires Inv(s)
    ensures Inv(Do(s, Sweep))
  {
    var s' := Do(s, Sweep);
    if s' != s {
      hide TxsOk, PendingOk, IdsOk, PostingsOk, RowOk, RequestOk, RowBusy;
      FreeRowTxs(s, s');
      RowChangePending(s, s');
      RowChangeIds(s, s');
      SweptRow(s, s');
      RequestsUnchanged(s, s');
    }
  }

  lemma SweptRow(s: State, s': State)
    requires IdsOk(s) && PostingsOk(s) && s' == s.(row := None) && (s.row.Some? ==> s.row.value.expired)
    ensures PostingsOk(s') && RowOk(s')
  {
  }

  lemma ActionKeeps(s: State, a: Action)
    requires Inv(s)
    ensures Inv(Do(s, a))
  {
    hide *;
    match a
    case Arrive(r, hash, opts) => ArriveKeeps(s, r, hash, opts);
    case PreCheck(r, readerOk) => PreCheckKeeps(s, r, readerOk);
    case Begin(r) => BeginKeeps(s, r);
    case ClaimCall(t, savepoint) => ClaimCallKeeps(s, t, savepoint);
    case TryLock(t) => TryLockKeeps(s, t);
    case CheckRow(t) => CheckRowKeeps(s, t);
    case InsertRow(t) => InsertRowKeeps(s, t);
    case Commit(t, recordedEntity) => CommitKeeps(s, t, recordedEntity);
    case Rollback(t) => RollbackKeeps(s, t);
    case Answer(r, status, body) => AnswerKeeps(s, r, status, body);
    case AnswerRaw(r) => AnswerKeeps(s, r, 0, Null);
    case SettleBug(r, stored) => SettleBugKeeps(s, r, stored);
    case SettleDone(r, stored) => SettleDoneKeeps(s, r, stored);
    case SettleRefusal(r, found, readerOk) => SettleRefusalKeeps(s, r, found, readerOk);
    case Expire => ExpireKeeps(s);
    case Sweep => SweepKeeps(s);
  }

  // ---------- A run and its next actions ----------

  lemma OneMore(before: seq<Action>, a: Action)
    ensures Run(before + [a]) == Do(Run(before), a)
  {
    hide Do;
    assert (before + [a])[..|before|] == before;
  }

  lemma TwoMore(before: seq<Action>, a: Action, b: Action)
    ensures Run(before + [a, b]) == Do(Do(Run(before), a), b)
  {
    hide Run, Do;
    OneMore(before, a);
    OneMore(before + [a], b);
    assert before + [a] + [b] == before + [a, b];
  }

  lemma ThreeMore(before: seq<Action>, a: Action, b: Action, c: Action)
    ensures Run(before + [a, b, c]) == Do(Do(Do(Run(before), a), b), c)
  {
    hide Run, Do;
    TwoMore(before, a, b);
    OneMore(before + [a, b], c);
    assert before + [a, b] + [c] == before + [a, b, c];
  }

  lemma FiveMore(before: seq<Action>, a: Action, b: Action, c: Action, d: Action, e: Action)
    ensures Run(before + [a, b, c, d, e]) == Do(Do(Do(Do(Do(Run(before), a), b), c), d), e)
  {
    hide Run, Do;
    ThreeMore(before, a, b, c);
    TwoMore(before + [a, b, c], d, e);
    assert before + [a, b, c] + [d, e] == before + [a, b, c, d, e];
  }

  lemma {:induction false} EveryRunKeeps(actions: seq<Action>)
    ensures Inv(Run(actions))
  {
    if actions != [] {
      EveryRunKeeps(actions[..|actions| - 1]);
      ActionKeeps(Run(actions[..|actions| - 1]), actions[|actions| - 1]);
    }
  }
}

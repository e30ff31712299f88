/**
 * The Idempotency-Key protocol for one (tenant, user, key): any number of concurrent requests, each running an
 * arbitrary handler, against one key row, one advisory lock and the transactions that claim the key.
 *
 * Every await of the middleware and of the claim is a boundary between two actions, so a run is an arbitrary
 * interleaving. An action that is not possible in a state leaves the state as it is.
 */
module IdempotencyProtocol {
  import opened Wrappers

  type RequestId = nat
  type TxId = nat
  type RowId = nat
  type Hash = int

  /** A response body: the JSON null, which reads back like a missing body, a value, or one over the stored size cap. */
  datatype Body = Null | Value(v: int) | Oversize {
    /** The stored form reads back as null when there was nothing to store or too much. */
    function Stored(): Body {
      if Oversize? then Null else this
    }
  }

  datatype RouteBug = MultiTx | InSavepoint

  /** The options of the request's route. */
  datatype Options = Options(successStatus: int, hasReader: bool, liveReplay: bool)

  /** One idempotency_keys row. `done` is its state column, 'committed' otherwise. */
  datatype Row = Row(id: RowId, hash: Hash, done: bool, successStatus: int, responseStatus: Option<int>,
    responseBody: Body,
                     truncated: bool, hasEntity: bool, expired: bool)

  datatype Source = FromHandler | FromReader | FromStore | Minimal | KeyReused

  datatype Reply = Reply(status: int, source: Source)

  predicate IsSuccess(status: int) {
    200 <= status < 300
  }

  /** The reply a replay of `row` sends; `readerOk` says whether the route's reader finds the record. */
  function ReplayOf(row: Row, opts: Options, readerOk: bool): Reply {
    if row.done && row.responseStatus.Some? && !row.truncated && row.responseBody != Null then
      if opts.liveReplay && opts.hasReader && row.hasEntity && IsSuccess(row.responseStatus.value) && readerOk
      then Reply(row.responseStatus.value, FromReader)
      else Reply(row.responseStatus.value, FromStore)
    else if opts.hasReader && readerOk then Reply(row.successStatus, FromReader)
    else Reply(200, Minimal)
  }

  // ---------- State ----------

  datatype Phase =
    | Arrived
    | Running
    | SettlingBug(status: int, body: Body)
    | SettlingDone(status: int, body: Body)
    | SettlingRefusal(status: int)
    /** `replayed` is the row a replay was made from. */
    | Responded(reply: Reply, replayed: Option<Row>)
    /** Answered without res.json: nothing is settled. */
    | Bypassed

  datatype Request = Request(hash: Hash, opts: Options, phase: Phase, closed: bool, failed: Option<RouteBug>,
                             claimTx: Option<TxId>, rowId: Option<RowId>)

  /** Where a database transaction of a handler stands with the claim of the key. */
  datatype TxStep =
    | Open
    /** The claim was a no-op because the handler had answered: writes of this transaction are not guarded. */
    | Unguarded
    | Locking
    | Checking
    /** About to insert; `replaced` is the expired row this transaction deleted. */
    | Inserting(replaced: Option<RowId>)
    | Claimed
    | Aborted

  datatype Tx = Tx(owner: RequestId, step: TxStep)

  /** A committed transaction that had claimed the key: a posting. */
  datatype Posting = Posting(request: RequestId, row: RowId, hash: Hash)

  datatype State = State(
    row: Option<Row>,
    /** The row inserted by the lock holder's transaction, invisible until it commits. */
    pending: Option<Row>,
    lock: Option<TxId>,
    txs: map<TxId, Tx>,
    requests: map<RequestId, Request>,
    nextTx: TxId,
    nextRow: RowId,
    /** History: every posting so far, and the rows that have outlived their 24 hours. */
    postings: seq<Posting>,
    expired: set<RowId>)

  const Init: State := State(None, None, None, map[], map[], 0, 0, [], {})

  // ---------- Actions ----------

  datatype Action =
    | Arrive(r: RequestId, hash: Hash, opts: Options)
    | PreCheck(r: RequestId, readerOk: bool)
    | Begin(r: RequestId)
    | ClaimCall(t: TxId, savepoint: bool)
    | TryLock(t: TxId)
    | CheckRow(t: TxId)
    | InsertRow(t: TxId)
    | Commit(t: TxId, recordedEntity: bool)
    | Rollback(t: TxId)
    | Answer(r: RequestId, status: int, body: Body)
    | AnswerRaw(r: RequestId)
    | SettleBug(r: RequestId, stored: bool)
    | SettleDone(r: RequestId, stored: bool)
    | SettleRefusal(r: RequestId, found: bool, readerOk: bool)
    | Expire
    | Sweep

  function Live(s: State): Option<Row> {
    if s.row.Some? && !s.row.value.expired then s.row else None
  }

  /** A write of the key row waits for the transaction that is writing it. */
  predicate RowBusy(s: State) {
    && s.lock.Some? && s.lock.value in s.txs
    && (s.txs[s.lock.value].step.Claimed?
         || (s.txs[s.lock.value].step.Inserting? && s.txs[s.lock.value].step.replaced.Some?))
  }

  function SetRequest(s: State, r: RequestId, q: Request): State {
    s.(requests := s.requests[r := q])
  }

  function SetStep(s: State, t: TxId, step: TxStep): State
    requires t in s.txs
  {
    s.(txs := s.txs[t := s.txs[t].(step := step)])
  }

  /** Ends a transaction; the advisory lock is released with it. */
  function EndTx(s: State, t: TxId): State {
    s.(txs := s.txs - {t}, lock := if s.lock == Some(t) then None else s.lock)
  }

  /** The first lookup: replay or refuse before anything runs. */
  function DoPreCheck(s: State, r: RequestId, readerOk: bool): State
    requires r in s.requests
  {
    var q := s.requests[r];
    if !q.phase.Arrived? then s
    else match Live(s)
      case None => SetRequest(s, r, q.(phase := Running))
      case Some(row) =>
        if row.hash != q.hash then SetRequest(s, r, q.(phase := Responded(Reply(422, KeyReused), None)))
        else SetRequest(s, r, q.(phase := Responded(ReplayOf(row, q.opts, readerOk), Some(row))))
  }

  /** The part of a claim before its first await. A raised error leaves the transaction as it was. */
  function DoClaimCall(s: State, t: TxId, savepoint: bool): State
    requires t in s.txs && s.txs[t].owner in s.requests
  {
    var r := s.txs[t].owner;
    var q := s.requests[r];
    if !(s.txs[t].step.Open? || s.txs[t].step.Claimed? || s.txs[t].step.Unguarded?) then s
    else if q.closed then (if s.txs[t].step.Open? then SetStep(s, t, Unguarded) else s)
    else if q.failed.Some? || q.claimTx == Some(t) then s
    else if q.claimTx.Some? then SetRequest(s, r, q.(failed := Some(MultiTx)))
    else if savepoint then SetRequest(s, r, q.(failed := Some(InSavepoint)))
    else SetStep(s, t, Locking)
  }

  function DoTryLock(s: State, t: TxId): State
    requires t in s.txs
  {
    if !s.txs[t].step.Locking? then s
    else if s.lock.None? || s.lock == Some(t) then SetStep(s, t, Checking).(lock := Some(t))
    else SetStep(s, t, Open)
  }

  function DoCheckRow(s: State, t: TxId): State
    requires t in s.txs
  {
    if !s.txs[t].step.Checking? then s
    else match s.row
      case None => SetStep(s, t, Inserting(None))
      case Some(prev) => if prev.expired then SetStep(s, t, Inserting(Some(prev.id))) else SetStep(s, t, Open)
  }

  /** The unique index refuses a second row for the key. */
  function DoInsertRow(s: State, t: TxId): State
    requires t in s.txs && s.txs[t].owner in s.requests
  {
    var r := s.txs[t].owner;
    var q := s.requests[r];
    if !s.txs[t].step.Inserting? then s
    else if s.row.Some? && s.txs[t].step.replaced != Some(s.row.value.id) then SetStep(s, t, Aborted)
    else
      var row := Row(s.nextRow, q.hash, false, q.opts.successStatus, None, Null, false, false, false);
      SetRequest(SetStep(s, t, Claimed), r, q.(claimTx := Some(t), rowId := Some(row.id)))
        .(pending := Some(row), nextRow := s.nextRow + 1)
  }

  function DoCommit(s: State, t: TxId, recordedEntity: bool): State
    requires t in s.txs
  {
    match s.txs[t].step
    case Open => EndTx(s, t)
    case Unguarded => EndTx(s, t)
    case Claimed =>
      if s.pending.None? then s
      else
        var row := s.pending.value;
        EndTx(s, t).(row := Some(row.(hasEntity := recordedEntity)), pending := None,
                     postings := s.postings + [Posting(s.txs[t].owner, row.id, row.hash)])
    case _ => s
  }

  function DoRollback(s: State, t: TxId): State
    requires t in s.txs
  {
    EndTx(s, t).(pending := if s.txs[t].step.Claimed? then None else s.pending)
  }

  /** The wrapped res.json: no more claims, and the settlement is chosen before its first await. */
  function DoAnswer(s: State, r: RequestId, status: int, body: Body): State
    requires r in s.requests
  {
    var q := s.requests[r];
    if !q.phase.Running? then s
    else
      var phase :=
        if q.failed.Some? then (if IsSuccess(status) then SettlingBug(500, Value(0)) else SettlingBug(status, body))
        else if IsSuccess(status) then (if q.rowId.Some? then SettlingDone(status, body)
          else Responded(Reply(status, FromHandler), None))
        else SettlingRefusal(status);
      SetRequest(s, r, q.(phase := phase, closed := true))
  }

  /** Stores the outcome of a route bug; a row of another hash, or an expired one, is left alone. */
  function DoSettleBug(s: State, r: RequestId, stored: bool): State
    requires r in s.requests
  {
    var q := s.requests[r];
    if !q.phase.SettlingBug? || RowBusy(s) then s
    else
      var text := q.phase.body.Stored();
      var s' := SetRequest(s, r, q.(phase := Responded(Reply(q.phase.status, FromHandler), None)));
      if !stored then s'
      else match s.row
        case None =>
          s'.(row := Some(Row(s.nextRow, q.hash, true, q.opts.successStatus, Some(q.phase.status), text, false, false,
            false)),
              nextRow := s.nextRow + 1)
        case Some(row) =>
          if row.hash == q.hash && !row.expired
          then s'.(row := Some(row.(done := true, responseStatus := Some(q.phase.status),
            responseBody := text, truncated := false)))
          else s'
  }

  /**
   * Marks the request's row 'done'; a failed update leaves it 'committed', and a row not in the table is not waited
   * for.
   */
  function DoSettleDone(s: State, r: RequestId, stored: bool): State
    requires r in s.requests
  {
    var q := s.requests[r];
    var own := s.row.Some? && Some(s.row.value.id) == q.rowId;
    if !q.phase.SettlingDone? || (own && RowBusy(s)) then s
    else
      var text := q.phase.body.Stored();
      var s' := SetRequest(s, r, q.(phase := Responded(Reply(q.phase.status, FromHandler), None)));
      if stored && own
      then s'.(row := Some(s.row.value.(done := true, responseStatus := Some(q.phase.status),
        responseBody := text, truncated := q.phase.body.Oversize?)))
      else s'
  }

  /** The second lookup of a refused request: `found` is false when the lookup itself fails. */
  function DoSettleRefusal(s: State, r: RequestId, found: bool, readerOk: bool): State
    requires r in s.requests
  {
    var q := s.requests[r];
    if !q.phase.SettlingRefusal? then s
    else if found && Live(s).Some? && Live(s).value.hash == q.hash
    then SetRequest(s, r, q.(phase := Responded(ReplayOf(Live(s).value, q.opts, readerOk), Live(s))))
    else SetRequest(s, r, q.(phase := Responded(Reply(q.phase.status, FromHandler), None)))
  }

  function Do(s: State, a: Action): State {
    match a
    case Arrive(r, hash, opts) =>
      if r in s.requests || !IsSuccess(opts.successStatus) then s
      else SetRequest(s, r, Request(hash, opts, Arrived, false, None, None, None))
    case PreCheck(r, readerOk) => if r in s.requests then DoPreCheck(s, r, readerOk) else s
    case Begin(r) =>
      if r in s.requests && (s.requests[r].phase.Running? || s.requests[r].closed)
        then s.(txs := s.txs[s.nextTx := Tx(r, Open)], nextTx := s.nextTx + 1) else s
    case ClaimCall(t, savepoint) => if t in s.txs && s.txs[t].owner in s.requests then DoClaimCall(s, t, savepoint)
      else s
    case TryLock(t) => if t in s.txs then DoTryLock(s, t) else s
    case CheckRow(t) => if t in s.txs then DoCheckRow(s, t) else s
    case InsertRow(t) => if t in s.txs && s.txs[t].owner in s.requests then DoInsertRow(s, t) else s
    case Commit(t, recordedEntity) => if t in s.txs then DoCommit(s, t, recordedEntity) else s
    case Rollback(t) => if t in s.txs then DoRollback(s, t) else s
    case Answer(r, status, body) => if r in s.requests then DoAnswer(s, r, status, body) else s
    case AnswerRaw(r) =>
      if r in s.requests && s.requests[r].phase.Running?
        then SetRequest(s, r, s.requests[r].(phase := Bypassed, closed := true)) else s
    case SettleBug(r, stored) => if r in s.requests then DoSettleBug(s, r, stored) else s
    case SettleDone(r, stored) => if r in s.requests then DoSettleDone(s, r, stored) else s
    case SettleRefusal(r, found, readerOk) => if r in s.requests then DoSettleRefusal(s, r, found, readerOk) else s
    case Expire =>
      if s.row.Some? then s.(row := Some(s.row.value.(expired := true)), expired := s.expired + {s.row.value.id}) else s
    case Sweep => if s.row.Some? && s.row.value.expired && !RowBusy(s) then s.(row := None) else s
  }

  /** The state after a run, from an empty table. */
  function Run(actions: seq<Action>): State {
    if actions == [] then Init else Do(Run(actions[..|actions| - 1]), actions[|actions| - 1])
  }
}

/** Only four transactions touch threads and contexts. */
module TurnThreadFrames {
  import opened Basics
  import opened TurnTypes
  import opened TurnJournal
  import opened TurnTokens
  import opened TurnThreads
  import opened TurnBatches
  import opened TurnAdmissions
  import opened TurnFrames
  import opened TurnMachine

  predicate ThreadOp(op: Op) {
    op.EnsureOp? || op.ClearOp? || op.ResolveOp? || op.RotateOp?
  }

  predicate SameThreads(db: Db, after: Db) {
    after.threads == db.threads && after.contexts == db.contexts
  }

  lemma LeftThreads(db: Db, k: RunKey, exit: Admission, outcome: Outcome, e: Event, now: real)
    requires k in db.runs && k in db.admissions
    ensures SameThreads(db, LeaveActive(db, k, exit, outcome, e, now))
  {
  }

  lemma {:induction false} OrphanThreads(db: Db, rows: seq<RunKey>, now: real)
    ensures SameThreads(db, OrphanAll(db, rows, now))
    decreases |rows|
  {
    hide OrphanOne;
    if rows != [] {
      if rows[0] in db.runs && rows[0] in db.admissions {
        var exit := db.admissions[rows[0]].(state := if db.runs[rows[0]].ended then Terminal else Orphaned);
        LeftThreads(db, rows[0], exit, RunLost, RUN_LOST_EVENT, now);
        assert OrphanOne(db, rows[0], now) == LeaveActive(db, rows[0], exit, RunLost, RUN_LOST_EVENT, now) by { OrphanIs(db, rows[0], now); }
        OrphanThreads(OrphanOne(db, rows[0], now), rows[1..], now);
      } else {
        OrphanThreads(db, rows[1..], now);
      }
    }
  }

  lemma OrphanIs(db: Db, k: RunKey, now: real)
    requires k in db.runs && k in db.admissions
    ensures OrphanOne(db, k, now)
         == LeaveActive(db, k, db.admissions[k].(state := if db.runs[k].ended then Terminal else Orphaned),
                        RunLost, RUN_LOST_EVENT, now)
  {
  }

  lemma FinishThreads(db: Db, op: Op)
    requires op.FinishOp?
    ensures SameThreads(db, Step(db, op))
  {
    assert MustFreeze(db, op.run, op.outcome) ==> op.run in db.runs;
    hide LeaveActive, Freeze, BatchToken, TerminalEvent, MustFreeze;
    var frozen := Freeze(db, op.run, op.deadline, op.now);
    FreezeFrame(db, op.run, op.deadline, op.now);
    if HoldsLease(db, op.run, op.worker) && op.run in db.runs {
      var exit := db.admissions[op.run].(state := Terminal);
      var e := TerminalEvent(op.outcome, op.provided);
      LeftThreads(db, op.run, exit, op.outcome, e, op.now);
      var f := e.(batchToken := Some(BatchToken(frozen, op.run)), bytes := op.tokenBytes);
      LeftThreads(frozen, op.run, exit, op.outcome, f, op.now);
    }
  }

  lemma CancelThreads(db: Db, op: Op)
    requires op.CancelOp?
    ensures SameThreads(db, Step(db, op))
  {
    hide LeaveActive, ResolveRunToken;
    var r := ResolveRunToken(db, op.token, CancelUse, op.scope);
    if r.Ok? && r.value in db.admissions && r.value in db.runs {
      LeftThreads(db, r.value, db.admissions[r.value].(state := Terminal, claimOwner := NONE, claimDeadline := 0.0,
                                                       payload := NONE), Cancelled, CANCELLED_EVENT, op.now);
    }
  }

  lemma AdmitThreads(db: Db, k: RunKey, bodyHash: Id, payload: Id, parent: Id, now: real)
    ensures SameThreads(db, Admit(db, k, bodyHash, payload, parent, now))
  {
    hide KeyringFor, Latest;
  }

  lemma BoundThreads(db: Db, c: ContextId, parent: Id)
    ensures SameThreads(db, BindParent(db, c, parent).db)
  {
    hide HasEmitted, PendingIn, HasUnconsumed;
  }

  lemma AcquireThreads(db: Db, t: ThreadKey, generation: int, run: Id, bodyHash: Id, payload: Id, parent: Id, now: real)
    ensures SameThreads(db, AcquireTurn(db, t, generation, run, bodyHash, payload, parent, now).db)
  {
    hide HasActive, Admit, BindParent;
    if Holds(db, t, generation) {
      var c := ContextId(t, generation);
      BoundThreads(db, c, parent);
      AdmitThreads(BindParent(db, c, parent).db, RunKey(c, run), bodyHash, payload, parent, now);
    }
  }

  lemma WriteThreads(db: Db, k: RunKey, e: Event, ended: bool, outcome: Outcome, now: real)
    requires k in db.runs
    ensures SameThreads(db, WriteEvent(db, k, e, ended, outcome, now))
  {
  }

  lemma AppendThreads(db: Db, k: RunKey, e: Event, terminal: bool, outcome: Outcome, maxEvents: int, maxBytes: int,
                      now: real)
    ensures SameThreads(db, Append(db, k, e, terminal, outcome, maxEvents, maxBytes, now).db)
  {
    hide UnfrozenManagedSuccess, WriteEvent;
    if k in db.runs {
      WriteThreads(db, k, e, terminal, outcome, now);
      WriteThreads(db, k, QUOTA_TERMINAL_EVENT, true, QuotaExceeded, now);
    }
  }

  lemma PruneThreads(db: Db, retention: real, now: real)
    ensures SameThreads(db, Prune(db, retention, now))
  {
    hide Max;
  }

  lemma OpenThreads(db: Db, k: RunKey, a: int, now: real)
    ensures SameThreads(db, OpenRun(db, k, now).db) && SameThreads(db, AcquireSubscriber(db, k, a, now).db)
  {
  }

  lemma DispatchThreads(db: Db, k: RunKey, owner: Id, deadline: real, now: real)
    ensures k in db.admissions ==> SameThreads(db, ClaimDispatch(db, k, owner, deadline, now))
    ensures SameThreads(db, AckDispatch(db, k, owner).db)
  {
    hide Max;
  }

  lemma AdmissionsAlone(db: Db, admissions: map<RunKey, Admission>)
    ensures SameThreads(db, db.(admissions := admissions)) && SameThreads(db, db)
  {
  }

  lemma LeaseThreads(db: Db, k: RunKey, worker: Id, now: real)
    ensures SameThreads(db, AdoptRun(db, k, worker, now).db) && SameThreads(db, Heartbeat(db, k, worker, now).db)
    ensures SameThreads(db, StartTurn(db, k, worker, now).db)
  {
    hide Active, SameThreads;
    AdmissionsAlone(db, AdoptRun(db, k, worker, now).db.admissions);
    AdmissionsAlone(db, Heartbeat(db, k, worker, now).db.admissions);
    AdmissionsAlone(db, StartTurn(db, k, worker, now).db.admissions);
  }

  lemma LedgerThreads(db: Db, c: CallKey, tool: Id, id: Id, version: Id, k: RunKey, provided: set<Id>)
    ensures SameThreads(db, RecordCall(db, c, tool, id, version).db) && SameThreads(db, ConsumeCalls(db, k, provided).db)
  {
    hide PendingCalls, ConsumeEmitted;
  }

  lemma BatchOpThreads(db: Db, op: Op)
    requires op.ClaimOp? || op.RenewOp? || op.BeginOp? || op.DepositOp? || op.ExpireOp?
    ensures SameThreads(db, Step(db, op))
  {
    hide EnsureThread, ClearPending, ResolveFinish, Rotate, OpenRun, AcquireSubscriber, Append, Prune, AcquireTurn,
      ClaimDispatch, AckDispatch, AdoptRun, StartTurn, Heartbeat, FinishTurn, OrphanAll, RecordCall, ConsumeCalls,
      ClaimBatch, RenewBatch, BeginCall, DepositCall, ExpireBatch, CancelRun, PruneKeys, NextToDispatch, StaleRows, Overdue;
    match op
    case ClaimOp(token, id, lease, scope, now) => ClaimFrame(db, token, id, lease, scope, now);
    case RenewOp(token, lease, scope, now) => RenewFrame(db, token, lease, scope, now);
    case BeginOp(token, id, version, scope, now) => BeginFrame(db, token, id, version, scope, now);
    case DepositOp(token, kind, payload, scope, now) => DepositFrame(db, token, kind, payload, scope, now);
    case ExpireOp(k, _) => ExpireBatchFrame(db, k); SameFrame(db);
  }

  lemma KeysThreads(db: Db)
    ensures SameThreads(db, PruneKeys(db).db)
  {
    hide TurnTokens.Prunable;
  }

  lemma OtherThreads(db: Db, op: Op)
    requires !ThreadOp(op)
    ensures SameThreads(db, Step(db, op))
  {
    hide SameThreads, EnsureThread, ClearPending, ResolveFinish, Rotate, OpenRun, AcquireSubscriber, Append, Prune, AcquireTurn,
      ClaimDispatch, AckDispatch, AdoptRun, StartTurn, Heartbeat, FinishTurn, OrphanAll, RecordCall, ConsumeCalls,
      ClaimBatch, RenewBatch, BeginCall, DepositCall, ExpireBatch, CancelRun, PruneKeys, StaleRows, Overdue;
    match op
    case SetManaged(publications) => Renamed(db, publications);
    case AcquireOp(t, g, run, body, payload, parent, now) => AcquireThreads(db, t, g, run, body, payload, parent, now);
    case FinishOp(_, _, _, _, _, _, _) => FinishThreads(db, op);
    case OrphanOp(rows, _, now) => Renamed(db, db.managed); OrphanThreads(db, rows, now);
    case CancelOp(_, _, _) => CancelThreads(db, op);
    case PruneKeysOp => KeysThreads(db);
    case DispatchOp(k, owner, deadline, now) => Renamed(db, db.managed); DispatchThreads(db, k, owner, deadline, now);
    case AckOp(k, owner) => DispatchThreads(db, k, owner, 0.0, 0.0);
    case AdoptOp(k, worker, now) => LeaseThreads(db, k, worker, now);
    case StartOp(k, worker, now) => LeaseThreads(db, k, worker, now);
    case HeartbeatOp(k, worker, now) => LeaseThreads(db, k, worker, now);
    case OpenOp(k, now) => OpenThreads(db, k, 0, now);
    case SubscribeOp(k, a, now) => OpenThreads(db, k, a, now);
    case AppendOp(k, e, terminal, outcome, events, bytes, now) => AppendThreads(db, k, e, terminal, outcome, events, bytes, now);
    case PruneOp(retention, now) => PruneThreads(db, retention, now);
    case RecordOp(c, tool, id, version) => LedgerThreads(db, c, tool, id, version, c.run, {});
    case ConsumeOp(k, provided) => Renamed(db, db.managed); LedgerThreads(db, CallKey(k, NONE), NONE, NONE, NONE, k, provided);
    case _ =>
      if op.ClaimOp? || op.RenewOp? || op.BeginOp? || op.DepositOp? || op.ExpireOp? {
        BatchOpThreads(db, op);
      }
  }

  lemma Renamed(db: Db, managed: set<Id>)
    ensures SameThreads(db, db.(managed := managed)) && db.(managed := db.managed) == db
  {
  }
}

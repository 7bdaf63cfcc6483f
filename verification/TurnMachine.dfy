/** Runs of the turn machine: arbitrary sequences of its transactions, from an empty database. */
module TurnMachine {
  import opened Basics
  import opened TurnTypes
  import opened TurnTokens
  import opened TurnJournal
  import opened TurnThreads
  import opened TurnBatches
  import opened TurnAdmissions
  import opened TurnInvariants
  import opened TurnEvolution
  import opened TurnSteps
  import opened TurnThreadSteps
  import opened TurnFreezeSteps

  /** One committed transaction, with everything its caller chose. */
  datatype Op =
    | SetManaged(publications: set<Id>)
    | EnsureOp(thread: ThreadKey)
    | ClearOp(thread: ThreadKey, marker: Conversation, generation: Option<nat>)
    | ResolveOp(publication: Publication, thread: ThreadKey, expected: int)
    | RotateOp(thread: ThreadKey, isolated: bool, expected: int, close: bool)
    | OpenOp(run: RunKey, now: real)
    | SubscribeOp(run: RunKey, after: int, now: real)
    | AppendOp(run: RunKey, event: Event, terminal: bool, outcome: Outcome, maxEvents: int, maxBytes: int, now: real)
    | PruneOp(retention: real, now: real)
    | AcquireOp(thread: ThreadKey, expected: int, id: Id, bodyHash: Id, payload: Id, parent: Id, now: real)
    | DispatchOp(run: RunKey, owner: Id, deadline: real, now: real)
    | AckOp(run: RunKey, owner: Id)
    | AdoptOp(run: RunKey, worker: Id, now: real)
    | StartOp(run: RunKey, worker: Id, now: real)
    | HeartbeatOp(run: RunKey, worker: Id, now: real)
    | FinishOp(run: RunKey, worker: Id, outcome: Outcome, provided: Option<Event>, deadline: real,
               tokenBytes: nat, now: real)
    | OrphanOp(rows: seq<RunKey>, timeout: real, now: real)
    | RecordOp(call: CallKey, tool: Id, catalogueId: Id, catalogueVersion: Id)
    | ConsumeOp(run: RunKey, calls: set<Id>)
    | ClaimOp(token: Token, claimId: Id, lease: real, scope: Option<Scope>, now: real)
    | RenewOp(token: Token, lease: real, scope: Option<Scope>, now: real)
    | BeginOp(token: Token, catalogueId: Id, catalogueVersion: Id, scope: Option<Scope>, now: real)
    | DepositOp(token: Token, kind: Kind, payload: Id, scope: Option<Scope>, now: real)
    | ExpireOp(run: RunKey, now: real)
    | PruneKeysOp
    | CancelOp(token: Token, scope: Option<Scope>, now: real)

  /** The database a transaction commits. A selection the database would not make commits nothing:
      dispatching another row than the oldest, sweeping other rows than the stale ones, expiring a
      batch that is not overdue, or the classic consumption of a run that has a batch. */
  ghost function Step(db: Db, op: Op): Db {
    match op
    case SetManaged(publications) => db.(managed := publications)
    case EnsureOp(t) => EnsureThread(db, t).db
    case ClearOp(t, marker, generation) => ClearPending(db, t, marker, generation)
    case ResolveOp(p, t, expected) => ResolveFinish(db, p, t, expected).db
    case RotateOp(t, isolated, expected, close) => Rotate(db, t, isolated, expected, close).db
    case OpenOp(k, now) => OpenRun(db, k, now).db
    case SubscribeOp(k, a, now) => AcquireSubscriber(db, k, a, now).db
    case AppendOp(k, e, terminal, outcome, maxEvents, maxBytes, now) =>
      Append(db, k, e, terminal, outcome, maxEvents, maxBytes, now).db
    case PruneOp(retention, now) => Prune(db, retention, now)
    case AcquireOp(t, expected, id, bodyHash, payload, parent, now) =>
      AcquireTurn(db, t, expected, id, bodyHash, payload, parent, now).db
    case DispatchOp(k, owner, deadline, now) =>
      if NextToDispatch(db, k, now) then ClaimDispatch(db, k, owner, deadline, now) else db
    case AckOp(k, owner) => AckDispatch(db, k, owner).db
    case AdoptOp(k, worker, now) => AdoptRun(db, k, worker, now).db
    case StartOp(k, worker, now) => StartTurn(db, k, worker, now).db
    case HeartbeatOp(k, worker, now) => Heartbeat(db, k, worker, now).db
    case FinishOp(k, worker, outcome, provided, deadline, tokenBytes, now) =>
      FinishTurn(db, k, worker, outcome, provided, deadline, tokenBytes, now).db
    case OrphanOp(rows, timeout, now) =>
      if StaleRows(db, rows, Cutoff(timeout, now)) then OrphanAll(db, rows, now) else db
    case RecordOp(c, tool, id, version) => RecordCall(db, c, tool, id, version).db
    case ConsumeOp(k, calls) => if k in db.batches then db else ConsumeCalls(db, k, calls).db
    case ClaimOp(token, claimId, lease, scope, now) => ClaimBatch(db, token, claimId, lease, scope, now).db
    case RenewOp(token, lease, scope, now) => RenewBatch(db, token, lease, scope, now).db
    case BeginOp(token, id, version, scope, now) => BeginCall(db, token, id, version, scope, now).db
    case DepositOp(token, kind, payload, scope, now) => DepositCall(db, token, kind, payload, scope, now).db
    case ExpireOp(k, now) => if Overdue(db, k, now) then ExpireBatch(db, k) else db
    case PruneKeysOp => PruneKeys(db).db
    case CancelOp(token, scope, now) => CancelRun(db, token, scope, now).db
  }

  predicate AdmissionOp(op: Op) {
    op.AcquireOp? || op.DispatchOp? || op.AckOp? || op.AdoptOp? || op.StartOp? || op.HeartbeatOp? || op.FinishOp?
    || op.OrphanOp? || op.CancelOp?
  }

  predicate BatchOp(op: Op) {
    op.RecordOp? || op.ConsumeOp? || op.ClaimOp? || op.RenewOp? || op.BeginOp? || op.DepositOp? || op.ExpireOp?
    || op.PruneKeysOp?
  }

  lemma ThreadStepKeeps(db: Db, op: Op)
    requires Inv(db) && !AdmissionOp(op) && !BatchOp(op)
    ensures Keeps(db, Step(db, op))
  {
    hide Inv, Evolves, EnsureThread, ClearPending, ResolveFinish, Rotate, OpenRun, AcquireSubscriber, Append, Prune;
    match op
    case SetManaged(publications) => SetManagedKeeps(db, publications);
    case EnsureOp(t) => EnsureThreadKeeps(db, t);
    case ClearOp(t, marker, generation) => ClearPendingKeeps(db, t, marker, generation);
    case ResolveOp(p, t, expected) => ResolveFinishKeeps(db, p, t, expected);
    case RotateOp(t, isolated, expected, close) => RotateKeeps(db, t, isolated, expected, close);
    case OpenOp(k, now) => OpenRunKeeps(db, k, now);
    case SubscribeOp(k, a, now) => AcquireSubscriberKeeps(db, k, a, now);
    case AppendOp(k, e, terminal, outcome, maxEvents, maxBytes, now) =>
      AppendKeeps(db, k, e, terminal, outcome, maxEvents, maxBytes, now);
    case PruneOp(retention, now) => PruneKeeps(db, retention, now);
  }

  lemma AdmissionStepKeeps(db: Db, op: Op)
    requires Inv(db) && AdmissionOp(op)
    ensures Keeps(db, Step(db, op))
  {
    hide Inv, Evolves, AcquireTurn, ClaimDispatch, AckDispatch, AdoptRun, StartTurn, Heartbeat, FinishTurn, OrphanAll,
      CancelRun;
    Unchanged(db);
    match op
    case AcquireOp(t, expected, id, bodyHash, payload, parent, now) =>
      AcquireTurnKeeps(db, t, expected, id, bodyHash, payload, parent, now);
    case DispatchOp(k, owner, deadline, now) =>
      if NextToDispatch(db, k, now) { DispatchKeeps(db, k, owner, deadline, now); }
    case AckOp(k, owner) => AckKeeps(db, k, owner);
    case AdoptOp(k, worker, now) => AdoptKeeps(db, k, worker, now);
    case StartOp(k, worker, now) => StartKeeps(db, k, worker, now);
    case HeartbeatOp(k, worker, now) => HeartbeatKeeps(db, k, worker, now);
    case FinishOp(k, worker, outcome, provided, deadline, tokenBytes, now) =>
      FinishTurnKeeps(db, k, worker, outcome, provided, deadline, tokenBytes, now);
    case OrphanOp(rows, timeout, now) =>
      if StaleRows(db, rows, Cutoff(timeout, now)) { OrphanAllKeeps(db, rows, now); }
    case CancelOp(token, scope, now) => CancelKeeps(db, token, scope, now);
  }

  lemma BatchStepKeeps(db: Db, op: Op)
    requires Inv(db) && BatchOp(op)
    ensures Keeps(db, Step(db, op))
  {
    hide Inv, Evolves, RecordCall, ConsumeCalls, ClaimBatch, RenewBatch, BeginCall, DepositCall, ExpireBatch, PruneKeys;
    Unchanged(db);
    match op
    case RecordOp(c, tool, id, version) => RecordCallKeeps(db, c, tool, id, version);
    case ConsumeOp(k, calls) => if k !in db.batches { ConsumeCallsKeeps(db, k, calls); }
    case ClaimOp(token, claimId, lease, scope, now) => ClaimBatchKeeps(db, token, claimId, lease, scope, now);
    case RenewOp(token, lease, scope, now) => RenewBatchKeeps(db, token, lease, scope, now);
    case BeginOp(token, id, version, scope, now) => BeginCallKeeps(db, token, id, version, scope, now);
    case DepositOp(token, kind, payload, scope, now) => DepositCallKeeps(db, token, kind, payload, scope, now);
    case ExpireOp(k, now) => if Overdue(db, k, now) { ExpireBatchKeeps(db, k); }
    case PruneKeysOp => PruneKeysKeeps(db);
  }

  /** Every transaction keeps the invariants and moves the tables only forward. */
  lemma StepKeeps(db: Db, op: Op)
    requires Inv(db)
    ensures Keeps(db, Step(db, op))
  {
    hide Inv, Evolves, Keeps, Step;
    if AdmissionOp(op) {
      AdmissionStepKeeps(db, op);
    } else if BatchOp(op) {
      BatchStepKeeps(db, op);
    } else {
      ThreadStepKeeps(db, op);
    }
  }

  /** The states a run passes through. */
  ghost predicate IsRun(states: seq<Db>, ops: seq<Op>) {
    && |states| == |ops| + 1
    && Init(states[0])
    && forall i :: 0 <= i < |ops| ==> states[i + 1] == Step(states[i], ops[i])
  }

  /** Every reachable state satisfies the invariants. */
  lemma {:induction false} Reachable(states: seq<Db>, ops: seq<Op>, i: nat)
    requires IsRun(states, ops) && i < |states|
    ensures Inv(states[i])
  {
    hide Inv, Step, Init, Evolves;
    if i == 0 {
      InitHolds(states[0]);
    } else {
      Reachable(states, ops, i - 1);
      StepKeeps(states[i - 1], ops[i - 1]);
    }
  }

  /** Between any two states of a run the tables only moved forward. */
  lemma {:induction false} Forward(states: seq<Db>, ops: seq<Op>, i: nat, j: nat)
    requires IsRun(states, ops) && i <= j < |states|
    ensures Inv(states[i]) && Inv(states[j]) && Evolves(states[i], states[j])
    decreases j - i
  {
    hide Inv, Step, Init, Evolves;
    Reachable(states, ops, i);
    Unchanged(states[i]);
    if i < j {
      Forward(states, ops, i, j - 1);
      StepKeeps(states[j - 1], ops[j - 1]);
      ComposeKept(states[i], states[j - 1], states[j]);
    }
  }
}

/** No call is ever executed, nor carries an effect outcome, unless a begin let it through. */
module TurnEffects {
  import opened Basics
  import opened TurnTypes
  import opened TurnTokens
  import opened TurnJournal
  import opened TurnThreads
  import opened TurnBatches
  import opened TurnAdmissions
  import opened TurnFrames
  import opened TurnMachine

  /** The step begins (or repeats the begin of) this call under a receipt of its batch's claim. */
  ghost predicate BeganBy(db: Db, op: Op, c: CallKey) {
    && op.BeginOp?
    && BeginCall(db, op.token, op.catalogueId, op.catalogueVersion, op.scope, op.now).result.Ok?
    && KnownCall(db, op.token) && CallOf(db, op.token) == c
  }

  /** Executing, or carrying an outcome that only an executing call can have. */
  predicate Begun(e: Exec) { e.Executing? || (e.Done? && Effect(e.kind)) }

  /** No transaction other than a begin makes a call begun. */
  ghost predicate ExecMoves(before: map<CallKey, Call>, after: map<CallKey, Call>) {
    forall c :: c in after && Begun(after[c].exec) ==> c in before && Begun(before[c].exec)
  }

  lemma LeftExec(calls: map<CallKey, Call>, k: RunKey, n: nat)
    ensures ExecMoves(calls, AbandonEmitted(calls, k)) && ExecMoves(calls, ConsumeEmitted(calls, k))
    ensures ExecMoves(calls, WithHandles(calls, k, n))
    ensures ExecMoves(calls, map c | c in calls :: if c.run == k then Lapse(calls[c]) else calls[c])
  {
  }

  lemma {:induction false} OrphansExec(db: Db, rows: seq<RunKey>, now: real)
    ensures ExecMoves(db.calls, OrphanAll(db, rows, now).calls)
    decreases |rows|
  {
    if rows != [] {
      if rows[0] in db.runs && rows[0] in db.admissions {
        LeftExec(db.calls, rows[0], 0);
        OrphansExec(OrphanOne(db, rows[0], now), rows[1..], now);
      } else {
        OrphansExec(db, rows[1..], now);
      }
    }
  }

  lemma FinishExec(db: Db, op: Op)
    requires op.FinishOp?
    ensures ExecMoves(db.calls, Step(db, op).calls)
  {
    hide Freeze, TerminalEvent, Terminalize, ExecMoves;
    var frozen := Freeze(db, op.run, op.deadline, op.now);
    assert ExecMoves(db.calls, db.calls) by { SameExec(db.calls); }
    assert frozen.calls == WithHandles(db.calls, op.run, EnsureKey(db).supply) by { FreezeFrame(db, op.run, op.deadline, op.now); }
    LeftExec(db.calls, op.run, EnsureKey(db).supply);
    LeftExec(frozen.calls, op.run, 0);
    if HoldsLease(db, op.run, op.worker) && MustFreeze(db, op.run, op.outcome) {
      assert frozen.runs == db.runs by { FreezeFrame(db, op.run, op.deadline, op.now); }
    }
  }

  lemma SameExec(calls: map<CallKey, Call>)
    ensures ExecMoves(calls, calls)
  {
  }

  lemma CancelExec(db: Db, op: Op)
    requires op.CancelOp?
    ensures ExecMoves(db.calls, Step(db, op).calls)
  {
    hide Terminalize, ExecMoves, ResolveRunToken;
    SameExec(db.calls);
    var r := ResolveRunToken(db, op.token, CancelUse, op.scope);
    if r.Ok? { LeftExec(db.calls, r.value, 0); }
  }

  lemma MintedCalls(db: Db, k: RunKey, bodyHash: Id, payload: Id, parent: Id, now: real)
    ensures Admit(db, k, bodyHash, payload, parent, now).calls == db.calls
  {
    hide KeyringFor, Latest;
  }

  lemma BoundExec(db: Db, c: ContextId, parent: Id)
    ensures ExecMoves(db.calls, BindParent(db, c, parent).db.calls)
  {
    hide ExecMoves;
    SameExec(db.calls);
    if HasUnconsumed(db, c) { LeftExec(db.calls, UnconsumedBatch(db, c), 0); }
  }

  lemma AcquireExec(db: Db, t: ThreadKey, generation: int, run: Id, bodyHash: Id, payload: Id, parent: Id, now: real)
    ensures ExecMoves(db.calls, AcquireTurn(db, t, generation, run, bodyHash, payload, parent, now).db.calls)
  {
    hide ExecMoves, Admit, BindParent, HasActive;
    SameExec(db.calls);
    if Holds(db, t, generation) {
      var c := ContextId(t, generation);
      BoundExec(db, c, parent);
      MintedCalls(BindParent(db, c, parent).db, RunKey(c, run), bodyHash, payload, parent, now);
    }
  }

  lemma CompletedCalls(db: Db, k: RunKey)
    ensures CompleteIfDone(db, k).calls == db.calls
    ensures k in db.batches ==> ExpireClaim(db, k).calls == db.calls
  {
  }

  lemma BeginCalls(db: Db, x: CallKey, catalogueId: Id, catalogueVersion: Id, now: real)
    requires x in db.calls && x.run in db.batches
    ensures var r := BeginKnown(db, x, catalogueId, catalogueVersion, now);
            var v := CatalogueVerdict(db.calls[x], catalogueId, catalogueVersion);
            || r.db.calls == db.calls
            || (v.Some? && r.db.calls == db.calls[x := db.calls[x].(exec := Done(v.value, NONE))])
            || (r.result.Ok? && r.db.calls == db.calls[x := db.calls[x].(exec := Executing)])
  {
    hide CompleteIfDone, CatalogueVerdict, Lapsed, ExpireClaim, Open;
    CompletedCalls(db, x.run);
    var v := CatalogueVerdict(db.calls[x], catalogueId, catalogueVersion);
    if v.Some? { CompletedCalls(Decide(db, x, v.value, NONE), x.run); }
  }

  lemma BeginKnownExec(db: Db, x: CallKey, catalogueId: Id, catalogueVersion: Id, now: real, c: CallKey)
    requires x in db.calls && x.run in db.batches
    ensures var r := BeginKnown(db, x, catalogueId, catalogueVersion, now);
            c in r.db.calls && Begun(r.db.calls[c].exec) ==>
              (c in db.calls && Begun(db.calls[c].exec)) || (c == x && r.result.Ok?)
  {
    hide CatalogueVerdict, BeginKnown;
    BeginCalls(db, x, catalogueId, catalogueVersion, now);
    VerdictHarmless(db.calls[x], catalogueId, catalogueVersion);
  }

  lemma VerdictHarmless(call: Call, catalogueId: Id, catalogueVersion: Id)
    ensures var v := CatalogueVerdict(call, catalogueId, catalogueVersion); v.Some? ==> !Effect(v.value)
  {
  }

  lemma BeginExec(db: Db, op: Op, c: CallKey)
    requires op.BeginOp?
    requires var after := BeginCall(db, op.token, op.catalogueId, op.catalogueVersion, op.scope, op.now).db;
             c in after.calls && Begun(after.calls[c].exec)
    ensures (c in db.calls && Begun(db.calls[c].exec)) || BeganBy(db, op, c)
  {
    hide CallByReceipt, BeginKnown, Begun;
    var r := CallByReceipt(db, op.token, op.scope);
    if r.Ok? {
      ReceiptNames(db, op.token, op.scope);
      BeginKnownExec(db, r.value, op.catalogueId, op.catalogueVersion, op.now, c);
    }
  }

  lemma DecidedExec(db: Db, c: CallKey, kind: Kind, payload: Id)
    requires c in db.calls && (db.calls[c].exec.Executing? || !Effect(kind))
    ensures ExecMoves(db.calls, Decide(db, c, kind, payload).calls)
  {
  }

  lemma DepositKnownExec(db: Db, c: CallKey, kind: Kind, payload: Id, now: real)
    requires c in db.calls && c.run in db.batches
    ensures ExecMoves(db.calls, DepositKnown(db, c, kind, payload, now).db.calls)
  {
    hide CompleteIfDone, Lapsed, ExpireClaim, Open, ExecMoves, Decide;
    SameExec(db.calls);
    CompletedCalls(db, c.run);
    CompletedCalls(Decide(db, c, kind, payload), c.run);
    if db.calls[c].exec.Executing? || !Effect(kind) { DecidedExec(db, c, kind, payload); }
  }

  lemma DepositExec(db: Db, receipt: Token, kind: Kind, payload: Id, scope: Option<Scope>, now: real)
    ensures ExecMoves(db.calls, DepositCall(db, receipt, kind, payload, scope, now).db.calls)
  {
    hide CallByReceipt, DepositKnown, ExecMoves;
    SameExec(db.calls);
    var r := CallByReceipt(db, receipt, scope);
    ReceiptNames(db, receipt, scope);
    if r.Ok? { DepositKnownExec(db, r.value, kind, payload, now); }
  }

  lemma ExpiredClaimKeeps(db: Db, k: RunKey)
    requires k in db.batches
    ensures var r := ExpireClaim(db, k);
            r.calls == db.calls && r.keyring == db.keyring && k in r.batches
            && r.batches[k].keyVersion == db.batches[k].keyVersion && r.batches[k].handle == db.batches[k].handle
  {
  }

  lemma ExpiredExec(db: Db, k: RunKey)
    ensures ExecMoves(db.calls, ExpireBatch(db, k).calls)
  {
    hide CompleteIfDone, Lapse;
    var lapsed := db.(calls := map c | c in db.calls :: if c.run == k then Lapse(db.calls[c]) else db.calls[c]);
    LeftExec(db.calls, k, 0);
    CompletedCalls(lapsed, k);
  }

  lemma RotatedExec(db: Db, t: ThreadKey, isolated: bool, expected: int, close: bool)
    ensures ExecMoves(db.calls, Rotate(db, t, isolated, expected, close).db.calls)
  {
  }

  lemma LedgerExec(db: Db, c: CallKey, tool: Id, catalogueId: Id, catalogueVersion: Id)
    ensures ExecMoves(db.calls, RecordCall(db, c, tool, catalogueId, catalogueVersion).db.calls)
  {
  }

  lemma BatchMoves(db: Db, op: Op)
    requires BatchOp(op) && !op.BeginOp?
    ensures ExecMoves(db.calls, Step(db, op).calls)
  {
    hide RecordCall, ConsumeCalls, ClaimBatch, RenewBatch, DepositCall, ExpireBatch, OnlyBatches, Overdue, ExecMoves;
    SameExec(db.calls);
    match op
    case DepositOp(token, kind, payload, scope, now) => DepositExec(db, token, kind, payload, scope, now);
    case ClaimOp(token, id, lease, scope, now) => ClaimFrame(db, token, id, lease, scope, now);
    case RenewOp(token, lease, scope, now) => RenewFrame(db, token, lease, scope, now);
    case ConsumeOp(k, provided) => ConsumedExec(db, k, provided);
    case ExpireOp(k, _) => ExpiredExec(db, k);
    case RecordOp(x, tool, id, version) => LedgerExec(db, x, tool, id, version);
    case PruneKeysOp => OtherCalls(db, op);
  }

  lemma TurnMoves(db: Db, op: Op)
    requires !BatchOp(op)
    ensures ExecMoves(db.calls, Step(db, op).calls)
  {
    hide Rotate, AcquireTurn, FinishTurn, OrphanAll, CancelRun, StaleRows, ExecMoves;
    SameExec(db.calls);
    if ElsewhereOp(op) {
      hide Step;
      OtherCalls(db, op);
    } else {
      match op
      case AcquireOp(t, g, run, body, payload, parent, now) => AcquireExec(db, t, g, run, body, payload, parent, now);
      case FinishOp(_, _, _, _, _, _, _) => FinishExec(db, op);
      case OrphanOp(rows, _, now) => OrphansExec(db, rows, now);
      case CancelOp(_, _, _) => CancelExec(db, op);
      case RotateOp(t, isolated, expected, close) => RotatedExec(db, t, isolated, expected, close);
    }
  }

  lemma StepExec(db: Db, op: Op, c: CallKey)
    requires c in Step(db, op).calls && Begun(Step(db, op).calls[c].exec)
    ensures (c in db.calls && Begun(db.calls[c].exec)) || BeganBy(db, op, c)
  {
    hide BeganBy, Begun, BeginCall;
    if op.BeginOp? {
      BeginExec(db, op, c);
    } else {
      hide Step;
      if BatchOp(op) { BatchMoves(db, op); } else { TurnMoves(db, op); }
    }
  }

  lemma ConsumedExec(db: Db, k: RunKey, provided: set<Id>)
    ensures ExecMoves(db.calls, ConsumeCalls(db, k, provided).db.calls)
  {
    hide PendingCalls;
  }

  /** Transactions that do not touch the call ledger. */
  predicate ElsewhereOp(op: Op) {
    op.SetManaged? || op.EnsureOp? || op.ClearOp? || op.ResolveOp? || op.OpenOp? || op.SubscribeOp? || op.AppendOp?
    || op.PruneOp? || op.DispatchOp? || op.AckOp? || op.AdoptOp? || op.StartOp? || op.HeartbeatOp? || op.PruneKeysOp?
  }

  lemma TurnCalls(db: Db, op: Op)
    requires ElsewhereOp(op) && AdmissionOp(op)
    ensures Step(db, op).calls == db.calls
  {
    hide NextToDispatch, Max;
  }

  lemma JournalCalls(db: Db, op: Op)
    requires op.OpenOp? || op.SubscribeOp? || op.AppendOp? || op.PruneOp?
    ensures Step(db, op).calls == db.calls
  {
    hide Append, Prune;
    match op
    case OpenOp(_, _) =>
    case SubscribeOp(_, _, _) =>
    case AppendOp(k, e, terminal, outcome, maxEvents, maxBytes, now) =>
      AppendCalls(db, k, e, terminal, outcome, maxEvents, maxBytes, now);
    case PruneOp(retention, now) => PruneCalls(db, retention, now);
  }

  lemma AppendCalls(db: Db, k: RunKey, e: Event, terminal: bool, outcome: Outcome, maxEvents: int, maxBytes: int,
                    now: real)
    ensures Append(db, k, e, terminal, outcome, maxEvents, maxBytes, now).db.calls == db.calls
  {
    hide UnfrozenManagedSuccess, WriteEvent;
    if k in db.runs {
      WriteCalls(db, k, e, terminal, outcome, now);
      WriteCalls(db, k, QUOTA_TERMINAL_EVENT, true, QuotaExceeded, now);
    }
  }

  lemma WriteCalls(db: Db, k: RunKey, e: Event, ended: bool, outcome: Outcome, now: real)
    requires k in db.runs
    ensures WriteEvent(db, k, e, ended, outcome, now).calls == db.calls
  {
  }

  lemma PruneCalls(db: Db, retention: real, now: real)
    ensures Prune(db, retention, now).calls == db.calls
  {
    hide TurnJournal.Prunable;
  }

  lemma OtherCalls(db: Db, op: Op)
    requires ElsewhereOp(op)
    ensures Step(db, op).calls == db.calls
  {
    if AdmissionOp(op) {
      hide Step;
      TurnCalls(db, op);
    } else if op.OpenOp? || op.SubscribeOp? || op.AppendOp? || op.PruneOp? {
      hide Step;
      JournalCalls(db, op);
    } else {
      hide TurnTokens.Prunable;
    }
  }

  /** Every call found executing or with an effect outcome was begun earlier in the run. */
  lemma {:induction false} EffectsAreBegun(states: seq<Db>, ops: seq<Op>, j: nat, c: CallKey)
    requires IsRun(states, ops) && j < |states| && c in states[j].calls && Begun(states[j].calls[c].exec)
    ensures exists i :: 0 <= i < j && BeganBy(states[i], ops[i], c)
  {
    hide Step, BeganBy, Begun;
    if j > 0 {
      StepExec(states[j - 1], ops[j - 1], c);
      if !BeganBy(states[j - 1], ops[j - 1], c) {
        EffectsAreBegun(states, ops, j - 1, c);
      }
    }
  }
}

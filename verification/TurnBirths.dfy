/** Batches are created by the finish of a run, and by nothing else. */
module TurnBirths {
  import opened Basics
  import opened TurnTypes
  import opened TurnTokens
  import opened TurnJournal
  import opened TurnThreads
  import opened TurnBatches
  import opened TurnAdmissions
  import opened TurnFrames
  import opened TurnMachine

  predicate NoneBorn(before: map<RunKey, Batch>, after: map<RunKey, Batch>) { after.Keys <= before.Keys }

  lemma BoundNone(db: Db, c: ContextId, parent: Id)
    ensures NoneBorn(db.batches, BindParent(db, c, parent).db.batches)
  {
    hide HasEmitted, PendingIn;
  }

  lemma AdmittedBatches(db: Db, k: RunKey, bodyHash: Id, payload: Id, parent: Id, now: real)
    ensures Admit(db, k, bodyHash, payload, parent, now).batches == db.batches
  {
    hide KeyringFor, Latest;
  }

  lemma AcquireNone(db: Db, t: ThreadKey, generation: int, run: Id, bodyHash: Id, payload: Id, parent: Id, now: real)
    ensures NoneBorn(db.batches, AcquireTurn(db, t, generation, run, bodyHash, payload, parent, now).db.batches)
  {
    hide HasActive, Admit, BindParent;
    if Holds(db, t, generation) {
      var c := ContextId(t, generation);
      BoundNone(db, c, parent);
      AdmittedBatches(BindParent(db, c, parent).db, RunKey(c, run), bodyHash, payload, parent, now);
    }
  }

  lemma LeftBatches(db: Db, k: RunKey, exit: Admission, outcome: Outcome, e: Event, now: real)
    requires k in db.runs && k in db.admissions
    ensures LeaveActive(db, k, exit, outcome, e, now).batches == db.batches
  {
  }

  lemma {:induction false} OrphansNone(db: Db, rows: seq<RunKey>, now: real)
    ensures OrphanAll(db, rows, now).batches == db.batches
    decreases |rows|
  {
    hide LeaveActive;
    if rows != [] {
      if rows[0] in db.runs && rows[0] in db.admissions {
        var exit := db.admissions[rows[0]].(state := if db.runs[rows[0]].ended then Terminal else Orphaned);
        LeftBatches(db, rows[0], exit, RunLost, RUN_LOST_EVENT, now);
        OrphansNone(OrphanOne(db, rows[0], now), rows[1..], now);
      } else {
        OrphansNone(db, rows[1..], now);
      }
    }
  }

  lemma CancelNone(db: Db, op: Op)
    requires op.CancelOp?
    ensures Step(db, op).batches == db.batches
  {
    hide LeaveActive, ResolveRunToken;
    var r := ResolveRunToken(db, op.token, CancelUse, op.scope);
    if r.Ok? && r.value in db.admissions && r.value in db.runs {
      LeftBatches(db, r.value, db.admissions[r.value].(state := Terminal, claimOwner := NONE, claimDeadline := 0.0,
                                                       payload := NONE), Cancelled, CANCELLED_EVENT, op.now);
    }
  }

  lemma CompletedNone(db: Db, k: RunKey)
    ensures CompleteIfDone(db, k).batches.Keys == db.batches.Keys
    ensures k in db.batches ==>
              var after := ExpireClaim(db, k);
              && after.batches.Keys == db.batches.Keys && after.keyring == db.keyring
              && after.batches[k].keyVersion == db.batches[k].keyVersion
  {
    hide SomeUndecided;
  }

  lemma SeenNone(db: Db, k: RunKey, claimId: Id, lease: real, now: real)
    requires k in db.batches && db.batches[k].keyVersion in db.keyring.keys
    ensures NoneBorn(db.batches, ClaimSeen(db, k, claimId, lease, now).db.batches)
  {
    hide ClaimOf, Max, NoneBorn;
    SameBorn(db.batches);
    OneBorn(db.batches, k, db.batches[k].(state := Claimed, claimGeneration := db.batches[k].claimGeneration + 1,
                                          claimId := claimId, leaseDeadline := now + Max(1.0, lease)));
  }

  lemma SameBorn(batches: map<RunKey, Batch>)
    ensures NoneBorn(batches, batches)
  {
  }

  lemma OneBorn(batches: map<RunKey, Batch>, k: RunKey, b: Batch)
    requires k in batches
    ensures NoneBorn(batches, batches[k := b])
  {
  }

  lemma ClaimNone(db: Db, token: Token, claimId: Id, lease: real, scope: Option<Scope>, now: real)
    ensures NoneBorn(db.batches, ClaimBatch(db, token, claimId, lease, scope, now).db.batches)
  {
    hide ClaimSeen, BatchToken, ExpireClaim;
    if KnownBatch(db, token) && db.batches[BatchOf(db, token)].keyVersion in db.keyring.keys {
      var k := BatchOf(db, token);
      CompletedNone(db, k);
      SeenNone(db, k, claimId, lease, now);
      SeenNone(ExpireClaim(db, k), k, claimId, lease, now);
    }
  }

  lemma RenewNone(db: Db, token: Token, lease: real, scope: Option<Scope>, now: real)
    ensures NoneBorn(db.batches, RenewBatch(db, token, lease, scope, now).db.batches)
  {
    hide Judge, ExpireClaim, Max, Min, InScope;
    if KnownBatch(db, token) { CompletedNone(db, BatchOf(db, token)); }
  }

  lemma BeginKnownNone(db: Db, c: CallKey, catalogueId: Id, catalogueVersion: Id, now: real)
    requires c in db.calls && c.run in db.batches
    ensures NoneBorn(db.batches, BeginKnown(db, c, catalogueId, catalogueVersion, now).db.batches)
  {
    hide CompleteIfDone, CatalogueVerdict, ExpireClaim, Lapsed, NoneBorn, Decide;
    SameBorn(db.batches);
    OneBorn(db.batches, c.run, db.batches[c.run].(state := Committed));
    ExpiredBorn(db, c.run);
    var v := CatalogueVerdict(db.calls[c], catalogueId, catalogueVersion);
    if v.Some? { DecidedBorn(db, c, v.value, NONE); }
  }

  lemma ExpiredBorn(db: Db, k: RunKey)
    requires k in db.batches
    ensures NoneBorn(db.batches, ExpireClaim(db, k).batches)
  {
    CompletedNone(db, k);
  }

  lemma DecidedBorn(db: Db, c: CallKey, kind: Kind, payload: Id)
    requires c in db.calls
    ensures NoneBorn(db.batches, CompleteIfDone(Decide(db, c, kind, payload), c.run).batches)
  {
    hide CompleteIfDone;
    CompletedNone(Decide(db, c, kind, payload), c.run);
  }

  lemma BeginNone(db: Db, receipt: Token, catalogueId: Id, catalogueVersion: Id, scope: Option<Scope>, now: real)
    ensures NoneBorn(db.batches, BeginCall(db, receipt, catalogueId, catalogueVersion, scope, now).db.batches)
  {
    hide CallByReceipt, BeginKnown, NoneBorn;
    SameBorn(db.batches);
    var r := CallByReceipt(db, receipt, scope);
    ReceiptNames(db, receipt, scope);
    if r.Ok? { BeginKnownNone(db, r.value, catalogueId, catalogueVersion, now); }
  }

  lemma DepositKnownNone(db: Db, c: CallKey, kind: Kind, payload: Id, now: real)
    requires c in db.calls && c.run in db.batches
    ensures NoneBorn(db.batches, DepositKnown(db, c, kind, payload, now).db.batches)
  {
    hide CompleteIfDone, ExpireClaim, Effect, NoEffect, Lapsed, NoneBorn, Decide;
    SameBorn(db.batches);
    ExpiredBorn(db, c.run);
    DecidedBorn(db, c, kind, payload);
  }

  lemma DepositNone(db: Db, receipt: Token, kind: Kind, payload: Id, scope: Option<Scope>, now: real)
    ensures NoneBorn(db.batches, DepositCall(db, receipt, kind, payload, scope, now).db.batches)
  {
    hide CallByReceipt, DepositKnown, NoneBorn;
    SameBorn(db.batches);
    var r := CallByReceipt(db, receipt, scope);
    ReceiptNames(db, receipt, scope);
    if r.Ok? { DepositKnownNone(db, r.value, kind, payload, now); }
  }

  lemma RecordNone(db: Db, c: CallKey, tool: Id, catalogueId: Id, catalogueVersion: Id)
    ensures RecordCall(db, c, tool, catalogueId, catalogueVersion).db.batches == db.batches
  {
  }

  lemma LedgerNone(db: Db, op: Op)
    requires op.RecordOp? || op.ConsumeOp? || op.PruneKeysOp?
    ensures Step(db, op).batches == db.batches
  {
    hide TurnTokens.Prunable, PendingCalls, ConsumeEmitted, RecordCall;
    if op.RecordOp? { RecordNone(db, op.call, op.tool, op.catalogueId, op.catalogueVersion); }
  }

  lemma BatchOpNone(db: Db, op: Op)
    requires BatchOp(op)
    ensures NoneBorn(db.batches, Step(db, op).batches)
  {
    hide ClaimBatch, RenewBatch, BeginCall, DepositCall, ExpireBatch, NoneBorn;
    SameBorn(db.batches);
    if op.RecordOp? || op.ConsumeOp? || op.PruneKeysOp? {
      hide Step;
      LedgerNone(db, op);
    } else {
      match op
      case ClaimOp(token, id, lease, scope, now) => ClaimNone(db, token, id, lease, scope, now);
      case RenewOp(token, lease, scope, now) => RenewNone(db, token, lease, scope, now);
      case BeginOp(token, id, version, scope, now) => BeginNone(db, token, id, version, scope, now);
      case DepositOp(token, kind, payload, scope, now) => DepositNone(db, token, kind, payload, scope, now);
      case ExpireOp(k, _) => ExpireNone(db, k);
    }
  }

  lemma ExpireNone(db: Db, k: RunKey)
    ensures NoneBorn(db.batches, ExpireBatch(db, k).batches)
  {
    hide CompleteIfDone, Lapse;
    CompletedNone(db.(calls := map c | c in db.calls :: if c.run == k then Lapse(db.calls[c]) else db.calls[c]), k);
  }

  lemma WrittenNone(db: Db, k: RunKey, e: Event, ended: bool, outcome: Outcome, now: real)
    requires k in db.runs
    ensures WriteEvent(db, k, e, ended, outcome, now).batches == db.batches
  {
  }

  lemma AppendNone(db: Db, k: RunKey, e: Event, terminal: bool, outcome: Outcome, maxEvents: int, maxBytes: int, now: real)
    ensures Append(db, k, e, terminal, outcome, maxEvents, maxBytes, now).db.batches == db.batches
  {
    hide UnfrozenManagedSuccess, WriteEvent;
    if k in db.runs {
      WrittenNone(db, k, e, terminal, outcome, now);
      WrittenNone(db, k, QUOTA_TERMINAL_EVENT, true, QuotaExceeded, now);
    }
  }

  lemma PruneNone(db: Db, retention: real, now: real)
    ensures Prune(db, retention, now).batches == db.batches
  {
    hide TurnJournal.Prunable;
  }

  lemma OpenNone(db: Db, k: RunKey, a: int, now: real)
    ensures OpenRun(db, k, now).db.batches == db.batches && AcquireSubscriber(db, k, a, now).db.batches == db.batches
  {
  }

  lemma JournalOpNone(db: Db, op: Op)
    requires op.OpenOp? || op.SubscribeOp? || op.AppendOp? || op.PruneOp?
    ensures Step(db, op).batches == db.batches
  {
    hide Append, Prune, OpenRun, AcquireSubscriber;
    match op
    case OpenOp(k, now) => OpenNone(db, k, 0, now);
    case SubscribeOp(k, a, now) => OpenNone(db, k, a, now);
    case AppendOp(k, e, terminal, outcome, maxEvents, maxBytes, now) =>
      AppendNone(db, k, e, terminal, outcome, maxEvents, maxBytes, now);
    case PruneOp(retention, now) => PruneNone(db, retention, now);
  }

  lemma ThreadOpNone(db: Db, op: Op)
    requires op.SetManaged? || op.EnsureOp? || op.ClearOp? || op.ResolveOp? || op.RotateOp?
    ensures NoneBorn(db.batches, Step(db, op).batches)
  {
    hide HasActive, HasOpenBatch;
  }

  lemma LeaseNone(db: Db, op: Op)
    requires op.DispatchOp? || op.AckOp? || op.AdoptOp? || op.StartOp? || op.HeartbeatOp?
    ensures Step(db, op).batches == db.batches
  {
    hide NextToDispatch, Max;
  }

  lemma AdmissionOpNone(db: Db, op: Op)
    requires AdmissionOp(op) && !op.FinishOp?
    ensures NoneBorn(db.batches, Step(db, op).batches)
  {
    hide AcquireTurn, OrphanAll, CancelRun, StaleRows, NoneBorn;
    SameBorn(db.batches);
    if op.DispatchOp? || op.AckOp? || op.AdoptOp? || op.StartOp? || op.HeartbeatOp? {
      hide Step;
      LeaseNone(db, op);
    } else {
      match op
      case AcquireOp(t, g, run, body, payload, parent, now) => AcquireNone(db, t, g, run, body, payload, parent, now);
      case OrphanOp(rows, _, now) => OrphansNone(db, rows, now);
      case CancelOp(_, _, _) => CancelNone(db, op);
    }
  }

  /** No transaction but a finish creates a batch. */
  lemma NoOtherBirth(db: Db, op: Op)
    requires !op.FinishOp?
    ensures NoneBorn(db.batches, Step(db, op).batches)
  {
    hide Step;
    if AdmissionOp(op) {
      AdmissionOpNone(db, op);
    } else if BatchOp(op) {
      BatchOpNone(db, op);
    } else if op.OpenOp? || op.SubscribeOp? || op.AppendOp? || op.PruneOp? {
      JournalOpNone(db, op);
    } else {
      ThreadOpNone(db, op);
    }
  }

  lemma OnlyFrozen(db: Db, k: RunKey, deadline: real, now: real)
    ensures Freeze(db, k, deadline, now).batches.Keys == db.batches.Keys + {k}
  {
    hide KeyringFor, Latest, WithHandles, Max;
  }
}

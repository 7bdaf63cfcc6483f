/** A managed success with pending calls always has a batch, published in its own journal. */
module TurnManaged {
  import opened Basics
  import opened TurnTypes
  import opened TurnJournal
  import opened TurnBatches
  import opened TurnAdmissions
  import opened TurnFrames
  import opened TurnInvariants
  import opened TurnEvolution
  import opened TurnSteps
  import opened TurnMachine
  import opened TurnHistory
  import opened TurnCredentials
  import opened TurnBirths

  /** The managed pilot's discipline: a run succeeds through finish only, never by a direct append. */
  ghost predicate Disciplined(ops: seq<Op>) {
    forall i :: 0 <= i < |ops| && ops[i].AppendOp? ==> !(ops[i].terminal && ops[i].outcome.Success?)
  }

  /** The run's publication is managed throughout. */
  ghost predicate AlwaysManaged(states: seq<Db>, k: RunKey) {
    forall i :: 0 <= i < |states| ==> k.context.thread.publication in states[i].managed
  }

  /** The run's journal ended in success. */
  ghost predicate Succeeded(db: Db, k: RunKey) {
    k in db.runs && db.runs[k].ended && db.runs[k].outcome.Success?
  }

  /** A successful run has left, and its pending calls are in a batch. */
  ghost predicate Covered(db: Db, k: RunKey) {
    Succeeded(db, k) ==>
      && k in db.admissions && !Active(db.admissions[k])
      && (HasEmitted(db.calls, k) ==> k in db.batches)
  }

  lemma AppendedOutcome(db: Db, op: Op, k: RunKey)
    requires op.AppendOp? && !(op.terminal && op.outcome.Success?)
    requires Succeeded(Append(db, op.run, op.event, op.terminal, op.outcome, op.maxEvents, op.maxBytes, op.now).db, k)
    ensures Succeeded(db, k)
  {
    hide UnfrozenManagedSuccess, WriteEvent;
    if op.run in db.runs {
      WrittenOutcome(db, op.run, op.event, op.terminal, op.outcome, op.now);
      WrittenOutcome(db, op.run, QUOTA_TERMINAL_EVENT, true, QuotaExceeded, op.now);
    }
  }

  lemma WrittenOutcome(db: Db, k: RunKey, e: Event, ended: bool, outcome: Outcome, now: real)
    requires k in db.runs
    ensures var r := WriteEvent(db, k, e, ended, outcome, now).runs;
            && r.Keys == db.runs.Keys
            && (forall j :: j in r && j != k ==> r[j] == db.runs[j])
            && r[k].ended == ended && (ended ==> r[k].outcome == outcome)
  {
  }

  lemma FinishOk(db: Db, op: Op, k: RunKey)
    requires op.FinishOp? && Emits(db, op, k) != []
    ensures op.run == k && k in db.runs && !db.runs[k].ended && HoldsLease(db, k, op.worker)
    ensures FinishTurn(db, k, op.worker, op.outcome, op.provided, op.deadline, op.tokenBytes, op.now).result.Ok?
  {
    hide MustFreeze, Freeze, LeaveActive, BatchToken, TerminalEvent;
  }

  /** A run that was not successful and now is ended by an event of this very transaction. */
  lemma EndedNow(db: Db, after: Db, k: RunKey, events: seq<Event>)
    requires Journals(db, after, k, events) && Succeeded(after, k) && !Succeeded(db, k)
    requires k in db.runs ==> RunGrows(db.runs[k], after.runs[k])
    ensures k in db.runs && events != []
  {
  }

  lemma Silent(db: Db, op: Op, k: RunKey)
    requires !op.AppendOp? && !op.FinishOp? && !op.OrphanOp? && !op.CancelOp?
    ensures Emits(db, op, k) == []
  {
  }

  /** Only a finish makes a run successful. */
  lemma SuccessByFinish(db: Db, op: Op, k: RunKey)
    requires Inv(db) && !(op.AppendOp? && op.terminal && op.outcome.Success?)
    requires Succeeded(Step(db, op), k) && !Succeeded(db, k)
    ensures op.FinishOp? && op.run == k && op.outcome.Success? && k in db.runs && !db.runs[k].ended
    ensures HoldsLease(db, k, op.worker)
    ensures FinishTurn(db, k, op.worker, op.outcome, op.provided, op.deadline, op.tokenBytes, op.now).result.Ok?
  {
    if op.AppendOp? {
      hide Inv, Append;
      AppendedOutcome(db, op, k);
    } else {
      hide Inv, Step, Emits, Journals, Evolves, FinishTurn, HoldsLease;
      StepKeeps(db, op);
      StepJournals(db, op, k);
      GrowthFacts(db, Step(db, op), k);
      EndedNow(db, Step(db, op), k, Emits(db, op, k));
      if op.FinishOp? {
        FinishOk(db, op, k);
        FinishJournals(db, op, k);
      } else if op.OrphanOp? {
        OrphanOpJournals(db, op, k);
      } else if op.CancelOp? {
        CancelJournals(db, op, k);
      } else {
        Silent(db, op, k);
      }
    }
  }

  lemma LeftTables(db: Db, k: RunKey, exit: Admission, e: Event, now: real)
    requires k in db.runs && k in db.admissions && !db.runs[k].ended
    ensures var after := LeaveActive(db, k, exit, Success, e, now);
            && after.batches == db.batches && after.calls == db.calls
            && k in after.admissions && after.admissions[k].state == exit.state
  {
  }

  /** A finish covers the success it journals. */
  lemma FinishCovers(db: Db, op: Op, k: RunKey)
    requires op.FinishOp? && op.run == k && op.outcome.Success? && k in db.runs && !db.runs[k].ended
    requires HoldsLease(db, k, op.worker) && k.context in db.contexts
    requires k.context.thread.publication in db.managed
    requires FinishTurn(db, k, op.worker, op.outcome, op.provided, op.deadline, op.tokenBytes, op.now).result.Ok?
    ensures var after := FinishTurn(db, k, op.worker, op.outcome, op.provided, op.deadline, op.tokenBytes, op.now).db;
            Covered(after, k)
  {
    hide BatchToken, TerminalEvent, Freeze, LeaveActive, Succeeded;
    FreezeFrame(db, k, op.deadline, op.now);
    var exit := db.admissions[k].(state := Terminal);
    var e := TerminalEvent(op.outcome, op.provided);
    LeftTables(db, k, exit, e, op.now);
    var frozen := Freeze(db, k, op.deadline, op.now);
    LeftTables(frozen, k, exit, e.(batchToken := Some(BatchToken(frozen, k)), bytes := op.tokenBytes), op.now);
  }

  /** A success already covered stays covered. */
  lemma StaysCovered(db: Db, after: Db, k: RunKey)
    requires InContext(after) && Covered(db, k) && Succeeded(db, k)
    requires k.context in after.contexts && InContext(db)
    requires TurnsAdvance(db.admissions, after.admissions, after.contexts)
    requires BatchesAdvance(db.batches, after.batches, after.expired, after.contexts)
    requires CallsAdvance(db.calls, after.calls, db.batches, after.batches, db.admissions, after.contexts)
    ensures Covered(after, k)
  {
    assert k in after.admissions && !Active(after.admissions[k]);
    if HasEmitted(after.calls, k) {
      var x :| x in after.calls && x.run == k && after.calls[x].state.Emitted?;
      assert x in db.calls && db.calls[x].state.Emitted?;
    }
  }

  lemma StepStaysCovered(db: Db, after: Db, k: RunKey)
    requires Inv(db) && Inv(after) && Evolves(db, after) && Covered(db, k) && Succeeded(db, k) && Succeeded(after, k)
    ensures Covered(after, k)
  {
    Placed(db);
    Placed(after);
    RunPlaced(after, k);
    hide CurrentOnly, Rooted, Fenced, Exited, Journaled, Ledgered, Earned, OneBatch, Progressed, LiveClaims, Named,
      Minted, Keyed, Parented, Published;
    hide ThreadsGrow, ContextsAge, TurnsAdvance, FencesGrow, FencesFresh, RunsGrow, RowsKept, CallsAdvance,
      BatchesAdvance, KeysAge, HandlesKept, InContext, Covered;
    StaysCovered(db, after, k);
  }

  lemma RunPlaced(db: Db, k: RunKey)
    requires InContext(db) && Succeeded(db, k)
    ensures k.context in db.contexts
  {
  }

  lemma StepCovers(db: Db, op: Op, k: RunKey)
    requires Inv(db) && Covered(db, k) && k.context.thread.publication in db.managed
    requires !(op.AppendOp? && op.terminal && op.outcome.Success?)
    ensures Covered(Step(db, op), k)
  {
    hide Inv, Evolves, FinishTurn;
    if Succeeded(Step(db, op), k) {
      StepKeeps(db, op);
      if Succeeded(db, k) {
        hide Step;
        StepStaysCovered(db, Step(db, op), k);
      } else {
        SuccessByFinish(db, op, k);
        assert Step(db, op)
            == FinishTurn(db, k, op.worker, op.outcome, op.provided, op.deadline, op.tokenBytes, op.now).db;
        hide Step, Covered;
        TurnFacts(db, k);
        FinishCovers(db, op, k);
      }
    }
  }

  lemma {:induction false} CoveredAlways(states: seq<Db>, ops: seq<Op>, n: nat, k: RunKey)
    requires IsRun(states, ops) && n <= |ops| && Disciplined(ops) && AlwaysManaged(states, k)
    ensures Covered(states[n], k)
  {
    hide Inv, Step, Init, Covered;
    if n == 0 {
      InitUncovered(states[0], k);
    } else {
      CoveredAlways(states, ops, n - 1, k);
      Reachable(states, ops, n - 1);
      StepCovers(states[n - 1], ops[n - 1], k);
    }
  }

  lemma InitUncovered(db: Db, k: RunKey)
    requires Init(db)
    ensures Covered(db, k)
  {
  }

  /** The journaled terminal of the run is a RUN_FINISHED carrying its batch's token, and that
      token reaches the batch. */
  ghost predicate TokenPublished(db: Db, k: RunKey) {
    && k in db.batches && k in db.runs && db.batches[k].keyVersion in db.keyring.keys
    && (var j := JournalKey(k, db.runs[k].committed);
        j in db.journal ==> db.journal[j].kind.Finished? && db.journal[j].batchToken == Some(BatchToken(db, k)))
    && (forall claimId, lease, now :: claimId != NONE ==>
          ClaimBatch(db, BatchToken(db, k), claimId, lease, None, now) == ClaimKnown(db, k, claimId, lease, now))
  }

  lemma PublishedOf(db: Db, k: RunKey)
    requires Published(db.batches, db.runs, db.journal, db.keyring) && k in db.batches && k in db.runs
    requires Named(db.batches, db.calls, db.runTokens, db.expired, db.supply)
    requires db.batches[k].keyVersion in db.keyring.keys
    ensures TokenPublished(db, k)
  {
    TokenNames(db, BatchToken(db, k), k);
    hide ClaimKnown, Named;
  }

  /** A finish of a managed run journals its success. */
  ghost predicate FinishesManaged(db: Db, op: Op, k: RunKey) {
    && op.FinishOp? && op.run == k && op.outcome.Success?
    && k.context in db.contexts && k.context.thread.publication in db.managed
    && k in db.runs && !db.runs[k].ended && HoldsLease(db, k, op.worker)
    && FinishTurn(db, k, op.worker, op.outcome, op.provided, op.deadline, op.tokenBytes, op.now).result.Ok?
  }

  lemma FinishBorn(db: Db, op: Op, k: RunKey)
    requires op.FinishOp? && k !in db.batches && k in Step(db, op).batches
    ensures FinishesManaged(db, op, k)
  {
    hide TerminalEvent, BatchToken, Freeze, LeaveActive;
    var r := op.run;
    FreezeFrame(db, r, op.deadline, op.now);
    OnlyFrozen(db, r, op.deadline, op.now);
    if HoldsLease(db, r, op.worker) && r in db.runs {
      var exit := db.admissions[r].(state := Terminal);
      var e := TerminalEvent(op.outcome, op.provided);
      LeftBatches(db, r, exit, op.outcome, e, op.now);
      var frozen := Freeze(db, r, op.deadline, op.now);
      LeftBatches(frozen, r, exit, op.outcome, e.(batchToken := Some(BatchToken(frozen, r)), bytes := op.tokenBytes), op.now);
    }
  }

  /** A batch was created by the finish that journaled its run's success. */
  lemma {:induction false} BornByFinish(states: seq<Db>, ops: seq<Op>, n: nat, k: RunKey) returns (i: nat)
    requires IsRun(states, ops) && n <= |ops| && k in states[n].batches
    ensures i < n && FinishesManaged(states[i], ops[i], k)
  {
    hide Step, Init, FinishesManaged;
    InitBare(states[0]);
    if k in states[n - 1].batches {
      i := BornByFinish(states, ops, n - 1, k);
    } else {
      i := n - 1;
      if ops[i].FinishOp? { FinishBorn(states[i], ops[i], k); } else { NoOtherBirth(states[i], ops[i]); }
    }
  }

  lemma InitBare(db: Db)
    requires Init(db)
    ensures db.batches == map[]
  {
  }

  /** A success with pending calls has a batch exactly when a finish journaled it while the run was managed; then its
      journaled RUN_FINISHED is that batch's claimable token. */
  lemma ManagedSuccessHasBatch(states: seq<Db>, ops: seq<Op>, n: nat, k: RunKey)
    requires IsRun(states, ops) && n <= |ops| && Succeeded(states[n], k) && HasEmitted(states[n].calls, k)
    ensures k in states[n].batches <==> exists i :: 0 <= i < n && FinishesManaged(states[i], ops[i], k)
    ensures k in states[n].batches ==> TokenPublished(states[n], k)
  {
    if k in states[n].batches {
      hide IsRun, Published, Named, TokenPublished;
      var i := BornByFinish(states, ops, n, k);
      Reachable(states, ops, n);
      BatchContext(states[n], k);
      PublishedOf(states[n], k);
    } else if i :| 0 <= i < n && FinishesManaged(states[i], ops[i], k) {
      hide Inv, Evolves, Init, Step, Covered;
      FinishedCovers(states[i], ops[i], k);
      Forward(states, ops, i + 1, n);
      StepStaysCovered(states[i + 1], states[n], k);
      CoveredMeans(states[n], k);
      assert false;
    }
  }

  lemma FinishedCovers(db: Db, op: Op, k: RunKey)
    requires FinishesManaged(db, op, k)
    ensures Covered(Step(db, op), k) && Succeeded(Step(db, op), k)
  {
    hide FinishTurn, Covered, HoldsLease;
    FinishCovers(db, op, k);
    FinishSucceeds(db, op, k);
  }

  lemma FinishSucceeds(db: Db, op: Op, k: RunKey)
    requires FinishesManaged(db, op, k)
    ensures Succeeded(Step(db, op), k)
  {
    hide TerminalEvent, BatchToken, Freeze, LeaveActive, MustFreeze;
    FreezeFrame(db, k, op.deadline, op.now);
    var exit := db.admissions[k].(state := Terminal);
    var e := TerminalEvent(op.outcome, op.provided);
    LeftSucceeds(db, k, exit, e, op.now);
    var frozen := Freeze(db, k, op.deadline, op.now);
    LeftSucceeds(frozen, k, exit, e.(batchToken := Some(BatchToken(frozen, k)), bytes := op.tokenBytes), op.now);
  }

  lemma LeftSucceeds(db: Db, k: RunKey, exit: Admission, e: Event, now: real)
    requires k in db.runs && k in db.admissions && !db.runs[k].ended
    ensures Succeeded(LeaveActive(db, k, exit, Success, e, now), k)
  {
  }

  lemma CoveredMeans(db: Db, k: RunKey)
    requires Covered(db, k) && Succeeded(db, k) && HasEmitted(db.calls, k)
    ensures k in db.batches
  {
  }

  // ---- how a success escapes ----

  /** A finish leaves a managed success with pending calls uncovered exactly when the journal had already ended in
      success with a call emitted. */
  lemma FinishUncoversIff(db: Db, k: RunKey, worker: Id, outcome: Outcome, provided: Option<Event>, deadline: real,
                          tokenBytes: nat, now: real)
    requires Inv(db) && HoldsLease(db, k, worker) && k.context.thread.publication in db.managed
    requires FinishTurn(db, k, worker, outcome, provided, deadline, tokenBytes, now).result.Ok?
    ensures k in db.runs && k !in db.batches
    ensures !Covered(FinishTurn(db, k, worker, outcome, provided, deadline, tokenBytes, now).db, k)
            <==> Succeeded(db, k) && HasEmitted(db.calls, k)
  {
    hide Inv, Freeze, LeaveActive, TerminalEvent, BatchToken, Covered;
    TurnFacts(db, k);
    FreezeFrame(db, k, deadline, now);
    FrozenAdds(db, k, deadline, now);
    var exit := db.admissions[k].(state := Terminal);
    var e := TerminalEvent(outcome, provided);
    LeftCovered(db, k, exit, outcome, e, now);
    var frozen := Freeze(db, k, deadline, now);
    LeftCovered(frozen, k, exit, outcome, e.(batchToken := Some(BatchToken(frozen, k)), bytes := tokenBytes), now);
  }

  lemma FrozenAdds(db: Db, k: RunKey, deadline: real, now: real)
    ensures k in Freeze(db, k, deadline, now).batches
  {
  }

  lemma LeftCovered(db: Db, k: RunKey, exit: Admission, outcome: Outcome, e: Event, now: real)
    requires k in db.runs && k in db.admissions && exit.state.Terminal? && !outcome.NoOutcome?
    ensures Covered(LeaveActive(db, k, exit, outcome, e, now), k)
            <==> (Effective(db, k, outcome).Success? && HasEmitted(db.calls, k) ==> k in db.batches)
  {
    hide WriteEvent;
    LeftBatches(db, k, exit, outcome, e, now);
    if !db.runs[k].ended { WrittenOutcome(db, k, e, true, outcome, now); }
  }

}

/** Every transaction keeps the invariants and evolves the tables. */
module TurnSteps {
  import opened Basics
  import opened TurnTypes
  import opened TurnJournal
  import opened TurnBatches
  import opened TurnAdmissions
  import opened TurnInvariants
  import opened TurnEvolution
  import opened TurnStepTables

  ghost predicate Keeps(db: Db, after: Db) { Inv(after) && Evolves(db, after) }

  // ---- journal ----

  /** What the journal tables owe the rest: everything a change of runs and rows has to keep. */
  ghost predicate RunsKept(db: Db, after: Db) {
    && Rooted(db.contexts, db.admissions, db.fences, after.runs) && Exited(db.admissions, after.runs)
    && Minted(db.runTokens, db.admissions, after.runs) && Journaled(after.runs, after.journal)
    && Published(db.batches, after.runs, after.journal, db.keyring)
    && RunsGrow(db.runs, after.runs, db.contexts) && RowsKept(db.journal, after.journal)
  }

  lemma OpenedRun(db: Db, k: RunKey, run: JournalRun)
    requires Rooted(db.contexts, db.admissions, db.fences, db.runs) && Exited(db.admissions, db.runs)
    requires Minted(db.runTokens, db.admissions, db.runs) && Journaled(db.runs, db.journal)
    requires Published(db.batches, db.runs, db.journal, db.keyring) && Earned(db.batches, db.admissions)
    requires k !in db.runs && k.context in db.contexts && run == NEW_RUN_COUNTERS.(updatedAt := run.updatedAt)
    ensures RunsKept(db, db.(runs := db.runs[k := run]))
  {
    RunsMove(db.contexts, db.admissions, db.fences, db.runs, db.runs[k := run], db.runTokens);
    RunsPublish(db.batches, db.runs, db.runs[k := run], db.journal, db.journal, db.keyring);
  }

  lemma TouchedRun(db: Db, k: RunKey, run: JournalRun)
    requires Rooted(db.contexts, db.admissions, db.fences, db.runs) && Exited(db.admissions, db.runs)
    requires Minted(db.runTokens, db.admissions, db.runs) && Journaled(db.runs, db.journal)
    requires Published(db.batches, db.runs, db.journal, db.keyring) && Earned(db.batches, db.admissions)
    requires k in db.runs && run == db.runs[k].(epoch := run.epoch, updatedAt := run.updatedAt)
    requires db.runs[k].epoch <= run.epoch
    ensures RunsKept(db, db.(runs := db.runs[k := run]))
  {
    RunsMove(db.contexts, db.admissions, db.fences, db.runs, db.runs[k := run], db.runTokens);
    RunsPublish(db.batches, db.runs, db.runs[k := run], db.journal, db.journal, db.keyring);
  }

  lemma WrittenRun(db: Db, k: RunKey, e: Event, ended: bool, outcome: Outcome, now: real)
    requires Rooted(db.contexts, db.admissions, db.fences, db.runs) && Exited(db.admissions, db.runs)
    requires Minted(db.runTokens, db.admissions, db.runs) && Journaled(db.runs, db.journal)
    requires Published(db.batches, db.runs, db.journal, db.keyring) && Earned(db.batches, db.admissions)
    requires k in db.runs && !db.runs[k].ended && (ended ==> !outcome.NoOutcome?)
    ensures RunsKept(db, WriteEvent(db, k, e, ended, outcome, now))
  {
    var after := WriteEvent(db, k, e, ended, outcome, now);
    EventWritten(db, k, e, ended, outcome, now);
    RunsMove(db.contexts, db.admissions, db.fences, db.runs, after.runs, db.runTokens);
    assert k !in db.batches;
    RunsPublish(db.batches, db.runs, after.runs, db.journal, after.journal, db.keyring);
  }

  lemma PrunedRuns(db: Db, retention: real, now: real)
    requires Rooted(db.contexts, db.admissions, db.fences, db.runs) && Exited(db.admissions, db.runs)
    requires Minted(db.runTokens, db.admissions, db.runs) && Journaled(db.runs, db.journal)
    requires Published(db.batches, db.runs, db.journal, db.keyring) && Earned(db.batches, db.admissions)
    ensures RunsKept(db, Prune(db, retention, now))
  {
    var after := Prune(db, retention, now);
    PrunedJournal(db, retention, now);
    PrunedRows(db, retention, now);
    hide Prune, Exited, Minted, Journaled, Published;
    RunsMove(db.contexts, db.admissions, db.fences, db.runs, after.runs, db.runTokens);
    RunsPublish(db.batches, db.runs, after.runs, db.journal, after.journal, db.keyring);
  }

  lemma PrunedRows(db: Db, retention: real, now: real)
    requires Journaled(db.runs, db.journal) && Published(db.batches, db.runs, db.journal, db.keyring)
    requires Rooted(db.contexts, db.admissions, db.fences, db.runs) && Earned(db.batches, db.admissions)
    requires Exited(db.admissions, db.runs)
    ensures var after := Prune(db, retention, now);
            && RunsGrow(db.runs, after.runs, db.contexts) && RowsKept(db.journal, after.journal)
            && after.runs.Keys == db.runs.Keys
            && (forall k :: k in db.batches ==> k in db.runs && after.runs[k].committed == db.runs[k].committed)
            && (forall j :: j in after.journal ==> j in db.journal && after.journal[j] == db.journal[j])
  {
  }

  lemma PrunedJournal(db: Db, retention: real, now: real)
    requires Journaled(db.runs, db.journal)
    ensures var after := Prune(db, retention, now); Journaled(after.runs, after.journal)
  {
  }

  lemma OpenRunKeeps(db: Db, k: RunKey, now: real)
    requires Inv(db)
    ensures Keeps(db, OpenRun(db, k, now).db)
  {
    hide CurrentOnly, Rooted, Fenced, Exited, Journaled, Ledgered, Earned, OneBatch, Progressed, LiveClaims, Named,
      Minted, Keyed, Parented, Published;
    hide ThreadsGrow, ContextsAge, TurnsAdvance, FencesGrow, FencesFresh, RunsGrow, RowsKept, CallsAdvance,
      BatchesAdvance, KeysAge, HandlesKept;
    Unchanged(db);
    if k.run != NONE && k !in db.runs && k.context in db.contexts { OpenedRun(db, k, NEW_RUN_COUNTERS.(updatedAt := now)); }
  }

  lemma AcquireSubscriberKeeps(db: Db, k: RunKey, a: int, now: real)
    requires Inv(db)
    ensures Keeps(db, AcquireSubscriber(db, k, a, now).db)
  {
    hide CurrentOnly, Rooted, Fenced, Exited, Journaled, Ledgered, Earned, OneBatch, Progressed, LiveClaims, Named,
      Minted, Keyed, Parented, Published;
    hide ThreadsGrow, ContextsAge, TurnsAdvance, FencesGrow, FencesFresh, RunsGrow, RowsKept, CallsAdvance,
      BatchesAdvance, KeysAge, HandlesKept;
    Unchanged(db);
    if 0 <= a && k in db.runs && a <= db.runs[k].committed {
      TouchedRun(db, k, db.runs[k].(epoch := db.runs[k].epoch + 1, updatedAt := now));
    }
  }

  lemma WriteEventKeeps(db: Db, k: RunKey, e: Event, ended: bool, outcome: Outcome, now: real)
    requires Inv(db) && k in db.runs && !db.runs[k].ended && (ended ==> !outcome.NoOutcome?)
    ensures Keeps(db, WriteEvent(db, k, e, ended, outcome, now))
  {
    hide CurrentOnly, Rooted, Fenced, Exited, Journaled, Ledgered, Earned, OneBatch, Progressed, LiveClaims, Named,
      Minted, Keyed, Parented, Published;
    hide ThreadsGrow, ContextsAge, TurnsAdvance, FencesGrow, FencesFresh, RunsGrow, RowsKept, CallsAdvance,
      BatchesAdvance, KeysAge, HandlesKept;
    Unchanged(db);
    WrittenRun(db, k, e, ended, outcome, now);
  }

  lemma AppendKeeps(db: Db, k: RunKey, e: Event, terminal: bool, outcome: Outcome, maxEvents: int,
                    maxBytes: int, now: real)
    requires Inv(db)
    ensures Keeps(db, Append(db, k, e, terminal, outcome, maxEvents, maxBytes, now).db)
  {
    hide Inv, Evolves;
    Unchanged(db);
    if k in db.runs && !db.runs[k].ended && (terminal ==> !outcome.NoOutcome?) {
      WriteEventKeeps(db, k, e, terminal, outcome, now);
      WriteEventKeeps(db, k, QUOTA_TERMINAL_EVENT, true, QuotaExceeded, now);
    }
  }

  lemma PruneKeeps(db: Db, retention: real, now: real)
    requires Inv(db)
    ensures Keeps(db, Prune(db, retention, now))
  {
    hide CurrentOnly, Rooted, Fenced, Exited, Journaled, Ledgered, Earned, OneBatch, Progressed, LiveClaims, Named,
      Minted, Keyed, Parented, Published;
    hide ThreadsGrow, ContextsAge, TurnsAdvance, FencesGrow, FencesFresh, RunsGrow, RowsKept, CallsAdvance,
      BatchesAdvance, KeysAge, HandlesKept;
    Unchanged(db);
    PrunedRuns(db, retention, now);
  }

  // ---- turns that stay active ----

  lemma ActiveTurnKeeps(db: Db, k: RunKey, a: Admission)
    requires Inv(db) && k in db.admissions && Active(db.admissions[k]) && Active(a) && a.outcome.NoOutcome?
    requires TurnAdvances(db.admissions[k], a) && (a.state.Running? <==> a.leaseOwner != NONE)
    ensures Keeps(db, db.(admissions := db.admissions[k := a]))
  {
    hide CurrentOnly, Rooted, Fenced, Exited, Journaled, Ledgered, Earned, OneBatch, Progressed, LiveClaims, Named,
      Minted, Keyed, Parented, Published;
    hide ThreadsGrow, ContextsAge, TurnsAdvance, FencesGrow, FencesFresh, RunsGrow, RowsKept, CallsAdvance,
      BatchesAdvance, KeysAge, HandlesKept;
    Unchanged(db);
    ActiveTurn(db.contexts, db.admissions, db.fences, db.runs, k, a);
    ActiveLedger(db.admissions, db.batches, db.calls, db.runTokens, db.runs, k, a);
    ActiveParents(db.admissions, db.batches, k, a);
    AdvanceOne(db.admissions, db.contexts, db.fences, k, a);
  }

  /** What a wrapper needs to know of one turn. */
  lemma TurnFacts(db: Db, k: RunKey)
    requires Inv(db) && k in db.admissions
    ensures k in db.runs && k.context in db.fences && k.context in db.contexts
    ensures db.admissions[k].state.Running? <==> db.admissions[k].leaseOwner != NONE
    ensures Active(db.admissions[k]) ==> db.admissions[k].outcome.NoOutcome? && k !in db.batches
  {
  }

  lemma DispatchKeeps(db: Db, k: RunKey, owner: Id, deadline: real, now: real)
    requires Inv(db) && k in db.admissions && Dispatchable(db.admissions[k], now)
    ensures Keeps(db, ClaimDispatch(db, k, owner, deadline, now))
  {
    hide Inv, Evolves;
    TurnFacts(db, k);
    ActiveTurnKeeps(db, k, ClaimDispatch(db, k, owner, deadline, now).admissions[k]);
  }

  lemma AckKeeps(db: Db, k: RunKey, owner: Id)
    requires Inv(db)
    ensures Keeps(db, AckDispatch(db, k, owner).db)
  {
    hide Inv, Evolves;
    Unchanged(db);
    if AckDispatch(db, k, owner).db != db {
      TurnFacts(db, k);
      ActiveTurnKeeps(db, k, AckDispatch(db, k, owner).db.admissions[k]);
    }
  }

  lemma AdoptKeeps(db: Db, k: RunKey, worker: Id, now: real)
    requires Inv(db)
    ensures Keeps(db, AdoptRun(db, k, worker, now).db)
  {
    hide Inv, Evolves;
    Unchanged(db);
    if AdoptRun(db, k, worker, now).db != db {
      TurnFacts(db, k);
      ActiveTurnKeeps(db, k, AdoptRun(db, k, worker, now).db.admissions[k]);
    }
  }

  lemma StartKeeps(db: Db, k: RunKey, worker: Id, now: real)
    requires Inv(db)
    ensures Keeps(db, StartTurn(db, k, worker, now).db)
  {
    hide Inv, Evolves;
    Unchanged(db);
    if StartTurn(db, k, worker, now).db != db {
      TurnFacts(db, k);
      ActiveTurnKeeps(db, k, StartTurn(db, k, worker, now).db.admissions[k]);
    }
  }

  lemma HeartbeatKeeps(db: Db, k: RunKey, worker: Id, now: real)
    requires Inv(db)
    ensures Keeps(db, Heartbeat(db, k, worker, now).db)
  {
    hide Inv, Evolves;
    Unchanged(db);
    if HoldsLease(db, k, worker) {
      TurnFacts(db, k);
      ActiveTurnKeeps(db, k, Heartbeat(db, k, worker, now).db.admissions[k]);
    }
  }

  // ---- leaving the active states ----

  /** The exit row a caller may hand to LeaveActive. */
  predicate ExitOf(a: Admission, exit: Admission) {
    !Active(exit) && exit.fence == a.fence && exit.parent == a.parent && exit.bodyHash == a.bodyHash
  }

  lemma LeftOutcome(db: Db, k: RunKey, outcome: Outcome, e: Event, now: real)
    requires k in db.runs
    ensures var r := Terminalize(db, k, outcome, e, now).runs;
            k in r && r[k].ended && r[k].outcome == Effective(db, k, outcome)
  {
    var run := db.runs[k];
    if !run.ended {
      assert Terminalize(db, k, outcome, e, now).runs[k].ended;
    }
  }

  lemma LeftFence(db: Db, k: RunKey, a: Admission)
    requires Rooted(db.contexts, db.admissions, db.fences, db.runs) && Fenced(db.admissions, db.fences)
    requires k in db.admissions && Active(db.admissions[k]) && !Active(a) && a.fence == db.admissions[k].fence
    ensures k.context in db.fences
    ensures var later := db.fences[k.context := db.fences[k.context] + 1];
            Fenced(db.admissions[k := a], later) && FencesGrow(db.fences, later, db.contexts)
  {
    LeftFenced(db.admissions, db.fences, k, a);
  }

  lemma LeaveActiveKeeps(db: Db, k: RunKey, exit: Admission, outcome: Outcome, e: Event, now: real)
    requires Inv(db) && k in db.admissions && k in db.runs && Active(db.admissions[k])
    requires ExitOf(db.admissions[k], exit) && !outcome.NoOutcome?
    ensures Keeps(db, LeaveActive(db, k, exit, outcome, e, now))
  {
    hide CurrentOnly, Rooted, Fenced, Exited, Journaled, Ledgered, Earned, OneBatch, Progressed, LiveClaims, Named,
      Minted, Keyed, Parented, Published;
    hide ThreadsGrow, ContextsAge, TurnsAdvance, FencesGrow, FencesFresh, RunsGrow, RowsKept, CallsAdvance,
      BatchesAdvance, KeysAge, HandlesKept;
    Unchanged(db);
    var after := LeaveActive(db, k, exit, outcome, e, now);
    var a := after.admissions[k];
    var journaled := Terminalize(db, k, outcome, e, now);
    if !db.runs[k].ended { WrittenRun(db, k, e, true, outcome, now); }
    LeftOutcome(db, k, outcome, e, now);
    LeftFence(db, k, a);
    LeftRooted(db.contexts, db.admissions, db.fences, journaled.runs, k, a, db.fences[k.context] + 1);
    LeftExited(db.admissions, journaled.runs, k, a);
    LeftLedger(db.admissions, db.calls, after.calls, k, a);
    LeftBatches(db.admissions, db.batches, db.runTokens, journaled.runs, k, a);
    ActiveParents(db.admissions, db.batches, k, a);
    AdvanceOne(db.admissions, db.contexts, db.fences, k, a);
    AbandonedCalls(db.batches, db.calls, db.runTokens, db.expired, db.supply, k);
    AbandonedAdvance(db.batches, db.calls, db.admissions, db.contexts, k);
  }

  lemma OrphanOneKeeps(db: Db, k: RunKey, now: real)
    requires Inv(db) && k in db.admissions && k in db.runs && Active(db.admissions[k])
    ensures Keeps(db, OrphanOne(db, k, now))
  {
    hide Inv, Evolves;
    LeaveActiveKeeps(db, k, db.admissions[k].(state := if db.runs[k].ended then Terminal else Orphaned),
                     RunLost, RUN_LOST_EVENT, now);
  }

  lemma CancelKeeps(db: Db, token: Token, scope: Option<Scope>, now: real)
    requires Inv(db)
    ensures Keeps(db, CancelRun(db, token, scope, now).db)
  {
    hide Inv, Evolves;
    Unchanged(db);
    var r := ResolveRunToken(db, token, CancelUse, scope);
    if r.Ok? && r.value in db.admissions && Active(db.admissions[r.value]) {
      var k := r.value;
      TurnFacts(db, k);
      LeaveActiveKeeps(db, k, db.admissions[k].(state := Terminal, claimOwner := NONE, claimDeadline := 0.0,
                                                payload := NONE), Cancelled, CANCELLED_EVENT, now);
    }
  }

  // ---- batch claims ----

  /** An open batch changed in place, with its claim possibly expired on the way. */
  lemma BatchStepKeeps(db: Db, k: RunKey, d: Batch, expired: set<ExpiredClaim>)
    requires Inv(db) && k in db.batches && Open(db.batches[k]) && Open(d) && SameBatch(db.batches[k], d)
    requires expired == db.expired || expired == db.expired + {ExpiredClaim(db.batches[k].handle, db.batches[k].claimId)}
    requires BatchAdvances(db.batches[k], d, expired)
    requires d.state.Frozen? || d.state.Claimed? ==> db.batches[k].state.Frozen? || db.batches[k].state.Claimed?
    requires Live(d) ==> ExpiredClaim(d.handle, d.claimId) !in expired
    ensures Keeps(db, db.(batches := db.batches[k := d], expired := expired))
  {
    hide CurrentOnly, Rooted, Fenced, Exited, Journaled, Ledgered, Earned, OneBatch, Progressed, LiveClaims, Named,
      Minted, Keyed, Parented, Published;
    hide ThreadsGrow, ContextsAge, TurnsAdvance, FencesGrow, FencesFresh, RunsGrow, RowsKept, CallsAdvance,
      BatchesAdvance, KeysAge, HandlesKept;
    Unchanged(db);
    BatchKept(db.admissions, db.batches, k, d);
    BatchNamed(db.batches, db.calls, db.runTokens, db.expired, expired, db.supply, k, d);
    BatchKeyed(db.batches, db.runTokens, db.keyring, db.runs, db.journal, k, d);
    BatchProgress(db.batches, db.calls, k, d);
    BatchAdvanceOne(db.batches, expired, db.contexts, db.calls, db.admissions, k, d);
    BatchClaims(db, k, d, expired);
  }

  lemma BatchClaims(db: Db, k: RunKey, d: Batch, expired: set<ExpiredClaim>)
    requires LiveClaims(db.batches, db.expired) && Named(db.batches, db.calls, db.runTokens, db.expired, db.supply)
    requires k in db.batches && SameBatch(db.batches[k], d)
    requires expired == db.expired || expired == db.expired + {ExpiredClaim(db.batches[k].handle, db.batches[k].claimId)}
    requires Live(d) ==> ExpiredClaim(d.handle, d.claimId) !in expired
    ensures LiveClaims(db.batches[k := d], expired)
  {
  }

  lemma ExpireClaimKeeps(db: Db, k: RunKey)
    requires Inv(db) && k in db.batches && db.batches[k].state.Claimed?
    ensures Keeps(db, ExpireClaim(db, k))
  {
    hide Inv, Evolves;
    var after := ExpireClaim(db, k);
    BatchStepKeeps(db, k, after.batches[k], after.expired);
  }

  lemma ClaimFrozenKeeps(db: Db, k: RunKey, d: Batch)
    requires Inv(db) && k in db.batches && db.batches[k].state.Frozen? && SameBatch(db.batches[k], d)
    requires d.state.Claimed? && d.claimGeneration > db.batches[k].claimGeneration
    requires ExpiredClaim(d.handle, d.claimId) !in db.expired
    ensures Keeps(db, db.(batches := db.batches[k := d]))
  {
    hide Inv, Evolves;
    BatchStepKeeps(db, k, d, db.expired);
  }

  lemma ClaimSeenKeeps(db: Db, k: RunKey, claimId: Id, lease: real, now: real)
    requires Inv(db) && k in db.batches && db.batches[k].keyVersion in db.keyring.keys
    ensures Keeps(db, ClaimSeen(db, k, claimId, lease, now).db)
  {
    hide Inv, Evolves;
    Unchanged(db);
    var after := ClaimSeen(db, k, claimId, lease, now).db;
    if after != db { ClaimFrozenKeeps(db, k, after.batches[k]); }
  }

  lemma ClaimKnownKeeps(db: Db, k: RunKey, claimId: Id, lease: real, now: real)
    requires Inv(db) && k in db.batches && db.batches[k].keyVersion in db.keyring.keys
    ensures Keeps(db, ClaimKnown(db, k, claimId, lease, now).db)
  {
    hide Inv, Evolves;
    Unchanged(db);
    if Open(db.batches[k]) && db.batches[k].absoluteDeadline <= now {
      return;
    }
    if Lapsed(db.batches[k], now) {
      ExpireClaimKeeps(db, k);
      ClaimSeenKeeps(ExpireClaim(db, k), k, claimId, lease, now);
      ComposeKept(db, ExpireClaim(db, k), ClaimKnown(db, k, claimId, lease, now).db);
    } else {
      ClaimSeenKeeps(db, k, claimId, lease, now);
    }
  }

  lemma ComposeKept(a: Db, m: Db, b: Db)
    requires Inv(a) && Keeps(a, m) && Keeps(m, b)
    ensures Keeps(a, b)
  {
    hide Journaled, CurrentOnly, Evolves;
    Placed(a);
    Placed(b);
    Compose(a, m, b);
  }

  lemma ClaimBatchKeeps(db: Db, token: Token, claimId: Id, lease: real, scope: Option<Scope>, now: real)
    requires Inv(db)
    ensures Keeps(db, ClaimBatch(db, token, claimId, lease, scope, now).db)
  {
    hide Inv, Evolves;
    Unchanged(db);
    if KnownBatch(db, token) && db.batches[BatchOf(db, token)].keyVersion in db.keyring.keys {
      ClaimKnownKeeps(db, BatchOf(db, token), claimId, lease, now);
    }
  }

  lemma LiveClaimFacts(db: Db, k: RunKey)
    requires Inv(db) && k in db.batches && Live(db.batches[k])
    ensures ExpiredClaim(db.batches[k].handle, db.batches[k].claimId) !in db.expired
  {
  }

  lemma RenewedKeeps(db: Db, k: RunKey, lease: real)
    requires Inv(db) && k in db.batches && db.batches[k].state.Claimed?
    ensures Keeps(db, db.(batches := db.batches[k := db.batches[k].(leaseDeadline := lease)]))
  {
    hide Inv, Evolves;
    LiveClaimFacts(db, k);
    BatchStepKeeps(db, k, db.batches[k].(leaseDeadline := lease), db.expired);
  }

  lemma RenewBatchKeeps(db: Db, token: Token, lease: real, scope: Option<Scope>, now: real)
    requires Inv(db)
    ensures Keeps(db, RenewBatch(db, token, lease, scope, now).db)
  {
    hide Inv, Evolves;
    Unchanged(db);
    if KnownBatch(db, token) {
      var k := BatchOf(db, token);
      if db.batches[k].state.Claimed? {
        ExpireClaimKeeps(db, k);
        RenewedKeeps(db, k, Min(now + Max(1.0, lease), db.batches[k].absoluteDeadline));
      }
    }
  }

  // ---- begin, deposit and the absolute deadline ----

  /** An open batch's call moves and the batch moves with it. */
  lemma CallStepKeeps(db: Db, c: CallKey, e: Exec, d: Batch)
    requires Inv(db) && c in db.calls && c.run in db.batches && Open(db.batches[c.run])
    requires SameBatch(db.batches[c.run], d) && Unconsumed(d) && BatchAdvances(db.batches[c.run], d, db.expired)
    requires Live(d) ==> ExpiredClaim(d.handle, d.claimId) !in db.expired
    requires !db.calls[c].exec.Done? && (db.calls[c].exec.Executing? ==> !e.Unbegun?)
    requires Open(d) <==> SomeUndecided(db.calls[c := db.calls[c].(exec := e)], c.run)
    requires d.state.Frozen? || d.state.Claimed? ==>
               Untouched(e) && (db.batches[c.run].state.Frozen? || db.batches[c.run].state.Claimed?)
    ensures Keeps(db, db.(calls := db.calls[c := db.calls[c].(exec := e)], batches := db.batches[c.run := d]))
  {
    hide CurrentOnly, Rooted, Fenced, Exited, Journaled, Ledgered, Earned, OneBatch, Progressed, LiveClaims, Named,
      Minted, Keyed, Parented, Published;
    hide ThreadsGrow, ContextsAge, TurnsAdvance, FencesGrow, FencesFresh, RunsGrow, RowsKept, CallsAdvance,
      BatchesAdvance, KeysAge, HandlesKept;
    Unchanged(db);
    var later := db.batches[c.run := d];
    BatchKept(db.admissions, db.batches, c.run, d);
    BatchNamed(db.batches, db.calls, db.runTokens, db.expired, db.expired, db.supply, c.run, d);
    BatchKeyed(db.batches, db.runTokens, db.keyring, db.runs, db.journal, c.run, d);
    BatchAdvanceOne(db.batches, db.expired, db.contexts, db.calls, db.admissions, c.run, d);
    BatchClaims(db, c.run, d, db.expired);
    CallDecided(later, db.calls, db.admissions, db.runTokens, db.expired, db.supply, c, e);
    CallAdvanceOne(db.batches, later, db.calls, db.admissions, db.contexts, c, e);
    ProgressCall(db.batches, db.calls, c, e, d);
  }

  /** What a wrapper needs to know of one call with a batch. */
  lemma CallFacts(db: Db, c: CallKey)
    requires Inv(db) && c in db.calls && c.run in db.batches && Open(db.batches[c.run])
    requires db.calls[c].handle != NoHandle
    ensures db.calls[c].state.Emitted?
    ensures db.calls[c].exec.Executing? ==> db.batches[c.run].state.Committed?
    ensures Live(db.batches[c.run]) ==>
              ExpiredClaim(db.batches[c.run].handle, db.batches[c.run].claimId) !in db.expired
  {
  }

  lemma DecidedShape(db: Db, c: CallKey, kind: Kind, payload: Id)
    requires c in db.calls && c.run in db.batches && Open(db.batches[c.run])
    ensures var b := db.batches[c.run];
            var calls := db.calls[c := db.calls[c].(exec := Done(kind, payload))];
            var d := if SomeUndecided(calls, c.run) then b else b.(state := Complete, leaseDeadline := 0.0);
            CompleteIfDone(Decide(db, c, kind, payload), c.run)
              == db.(calls := calls, batches := db.batches[c.run := d])
  {
    hide SomeUndecided;
    assert db.batches[c.run := db.batches[c.run]] == db.batches;
  }

  lemma DecideKeeps(db: Db, c: CallKey, kind: Kind, payload: Id)
    requires Inv(db) && c in db.calls && c.run in db.batches && Open(db.batches[c.run])
    requires db.calls[c].handle != NoHandle && !db.calls[c].exec.Done?
    requires db.calls[c].exec.Unbegun? ==> NoEffect(kind)
    ensures Keeps(db, CompleteIfDone(Decide(db, c, kind, payload), c.run))
  {
    hide Inv, Evolves;
    CallFacts(db, c);
    hide CompleteIfDone, Decide;
    DecidedShape(db, c, kind, payload);
    var b := db.batches[c.run];
    var calls := db.calls[c := db.calls[c].(exec := Done(kind, payload))];
    CallStepKeeps(db, c, Done(kind, payload),
                  if SomeUndecided(calls, c.run) then b else b.(state := Complete, leaseDeadline := 0.0));
  }

  lemma BeginKnownKeeps(db: Db, c: CallKey, catalogueId: Id, catalogueVersion: Id, now: real)
    requires Inv(db) && c in db.calls && c.run in db.batches && db.calls[c].handle != NoHandle
    ensures Keeps(db, BeginKnown(db, c, catalogueId, catalogueVersion, now).db)
  {
    hide Inv, Evolves;
    Unchanged(db);
    var b := db.batches[c.run];
    if !Open(b) || b.absoluteDeadline <= now {
      return;
    }
    CallFacts(db, c);
    if Lapsed(b, now) {
      ExpireClaimKeeps(db, c.run);
    } else if !b.state.Frozen? && db.calls[c].exec.Unbegun? {
      var verdict := CatalogueVerdict(db.calls[c], catalogueId, catalogueVersion);
      if verdict.Some? {
        DecideKeeps(db, c, verdict.value, NONE);
      } else {
        var after := db.calls[c := db.calls[c].(exec := Executing)];
        assert c in after && Undecided(after[c]);
        CallStepKeeps(db, c, Executing, b.(state := Committed));
      }
    }
  }

  lemma DepositKnownKeeps(db: Db, c: CallKey, kind: Kind, payload: Id, now: real)
    requires Inv(db) && c in db.calls && c.run in db.batches && db.calls[c].handle != NoHandle
    ensures Keeps(db, DepositKnown(db, c, kind, payload, now).db)
  {
    hide Inv, Evolves;
    Unchanged(db);
    var b := db.batches[c.run];
    if Open(b) && !db.calls[c].exec.Done? {
      if Lapsed(b, now) { ExpireClaimKeeps(db, c.run); }
      if db.calls[c].exec.Unbegun? ==> NoEffect(kind) { DecideKeeps(db, c, kind, payload); }
    }
  }

  lemma BeginCallKeeps(db: Db, receipt: Token, catalogueId: Id, catalogueVersion: Id, scope: Option<Scope>, now: real)
    requires Inv(db)
    ensures Keeps(db, BeginCall(db, receipt, catalogueId, catalogueVersion, scope, now).db)
  {
    hide Inv, Evolves;
    Unchanged(db);
    var r := CallByReceipt(db, receipt, scope);
    if r.Ok? { BeginKnownKeeps(db, r.value, catalogueId, catalogueVersion, now); }
  }

  lemma DepositCallKeeps(db: Db, receipt: Token, kind: Kind, payload: Id, scope: Option<Scope>, now: real)
    requires Inv(db)
    ensures Keeps(db, DepositCall(db, receipt, kind, payload, scope, now).db)
  {
    hide Inv, Evolves;
    Unchanged(db);
    var r := CallByReceipt(db, receipt, scope);
    if r.Ok? { DepositKnownKeeps(db, r.value, kind, payload, now); }
  }

  lemma ExpireBatchKeeps(db: Db, k: RunKey)
    requires Inv(db) && k in db.batches && Open(db.batches[k])
    ensures Keeps(db, ExpireBatch(db, k)) && !Open(ExpireBatch(db, k).batches[k])
  {
    hide CurrentOnly, Rooted, Fenced, Exited, Journaled, Ledgered, Earned, OneBatch, Progressed, LiveClaims, Named,
      Minted, Keyed, Parented, Published;
    hide ThreadsGrow, ContextsAge, TurnsAdvance, FencesGrow, FencesFresh, RunsGrow, RowsKept, CallsAdvance,
      BatchesAdvance, KeysAge, HandlesKept;
    Unchanged(db);
    var d := db.batches[k].(state := Complete, leaseDeadline := 0.0);
    var later := db.batches[k := d];
    BatchKept(db.admissions, db.batches, k, d);
    BatchNamed(db.batches, db.calls, db.runTokens, db.expired, db.expired, db.supply, k, d);
    BatchKeyed(db.batches, db.runTokens, db.keyring, db.runs, db.journal, k, d);
    BatchAdvanceOne(db.batches, db.expired, db.contexts, db.calls, db.admissions, k, d);
    BatchClaims(db, k, d, db.expired);
    LapsedProgress(db.batches, db.calls, k, d);
    LapsedCalls(later, later, db.calls, db.admissions, db.runTokens, db.expired, db.supply, db.contexts, k);
    LapsedCallsAdvance(db, later, k);
    assert ExpireBatch(db, k) == db.(calls := LapseAll(db.calls, k), batches := later);
  }

  lemma LapsedCallsAdvance(db: Db, later: Batches, k: RunKey)
    ensures CallsAdvance(db.calls, LapseAll(db.calls, k), db.batches, later, db.admissions, db.contexts)
  {
  }

  // ---- call ledger ----

  lemma RecordCallKeeps(db: Db, c: CallKey, tool: Id, catalogueId: Id, catalogueVersion: Id)
    requires Inv(db)
    ensures Keeps(db, RecordCall(db, c, tool, catalogueId, catalogueVersion).db)
  {
    hide Inv, Evolves;
    Unchanged(db);
    var after := RecordCall(db, c, tool, catalogueId, catalogueVersion).db;
    if after != db {
      TurnFacts(db, c.run);
      RecordedKeeps(db, c, after.calls[c]);
    }
  }

  lemma RecordedKeeps(db: Db, c: CallKey, call: Call)
    requires Inv(db) && c !in db.calls && c.run in db.admissions && db.admissions[c.run].state.Running?
    requires c.run !in db.batches && call.state.Emitted? && call.exec.Unbegun? && call.handle == NoHandle
    ensures Keeps(db, db.(calls := db.calls[c := call]))
  {
    hide CurrentOnly, Rooted, Fenced, Exited, Journaled, Ledgered, Earned, OneBatch, Progressed, LiveClaims, Named,
      Minted, Keyed, Parented, Published;
    hide ThreadsGrow, ContextsAge, TurnsAdvance, FencesGrow, FencesFresh, RunsGrow, RowsKept, CallsAdvance,
      BatchesAdvance, KeysAge, HandlesKept;
    Unchanged(db);
    RecordedCall(db.batches, db.calls, db.admissions, db.runTokens, db.expired, db.supply, db.contexts, c, call);
    UntouchedRun(db, c.run);
    OtherBatchesUndecided(db.batches, db.calls, db.calls[c := call], c.run);
  }

  lemma UntouchedRun(db: Db, k: RunKey)
    requires Progressed(db.batches, db.calls) && k !in db.batches
    ensures forall c :: c in db.calls && c.run == k ==> db.calls[c].exec.Unbegun?
  {
  }

  lemma ConsumeCallsKeeps(db: Db, k: RunKey, provided: set<Id>)
    requires Inv(db) && k !in db.batches
    ensures Keeps(db, ConsumeCalls(db, k, provided).db)
  {
    hide CurrentOnly, Rooted, Fenced, Exited, Journaled, Ledgered, Earned, OneBatch, Progressed, LiveClaims, Named,
      Minted, Keyed, Parented, Published;
    hide ThreadsGrow, ContextsAge, TurnsAdvance, FencesGrow, FencesFresh, RunsGrow, RowsKept, CallsAdvance,
      BatchesAdvance, KeysAge, HandlesKept;
    Unchanged(db);
    ConsumedCalls(db.batches, db.calls, db.admissions, db.runTokens, db.expired, db.supply, db.contexts, k);
    UntouchedRun(db, k);
    OtherBatchesUndecided(db.batches, db.calls, ConsumeEmitted(db.calls, k), k);
  }

  lemma NamesBreak(batches: Batches, calls: Calls, runTokens: RunTokens, expired: set<ExpiredClaim>, supply: nat, k: RunKey,
                   c: CallKey)
    requires Named(batches, calls, runTokens, expired, supply) && Progressed(batches, calls)
    requires k in batches && c in calls && c.run == k && calls[c].state.Emitted?
    ensures !Named(batches, ConsumeEmitted(calls, k), runTokens, expired, supply)
  {
    assert Unconsumed(batches[k]) && calls[c].handle != NoHandle;
    assert ConsumeEmitted(calls, k)[c].state.Consumed?;
  }

  lemma BatchCalls(db: Db, k: RunKey, c: CallKey)
    requires Inv(db) && k in db.batches && c in db.calls && c.run == k && db.calls[c].state.Emitted?
    ensures !Inv(db.(calls := ConsumeEmitted(db.calls, k)))
  {
    hide CurrentOnly, Rooted, Fenced, Exited, Journaled, Ledgered, Earned, OneBatch, Progressed, LiveClaims, Named,
      Minted, Keyed, Parented, Published;
    NamesBreak(db.batches, db.calls, db.runTokens, db.expired, db.supply, k, c);
  }

  /** The classic consumption keeps the invariants exactly on a run without a batch, or when it consumes nothing. */
  lemma ConsumeKeepsIff(db: Db, k: RunKey, provided: set<Id>)
    requires Inv(db)
    ensures Inv(ConsumeCalls(db, k, provided).db)
            <==> k !in db.batches || provided == {} || ConsumeCalls(db, k, provided).result.Fail?
  {
    hide Inv, Evolves;
    if k !in db.batches {
      ConsumeCallsKeeps(db, k, provided);
    } else if provided == PendingCalls(db, k) {
      if provided == {} {
        NothingPending(db, k);
      } else {
        var x :| x in provided;
        var c :| c in db.calls && c.run == k && db.calls[c].state.Emitted? && c.call == x;
        BatchCalls(db, k, c);
      }
    }
  }

  lemma NothingPending(db: Db, k: RunKey)
    requires PendingCalls(db, k) == {}
    ensures ConsumeEmitted(db.calls, k) == db.calls
  {
    forall c | c in db.calls && c.run == k ensures !db.calls[c].state.Emitted? {
      assert db.calls[c].state.Emitted? ==> c.call in PendingCalls(db, k);
    }
  }
}

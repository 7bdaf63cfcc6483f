/** The journal as a window on the full event history of each run. */
module TurnHistory {
  import opened Basics
  import opened TurnTypes
  import opened TurnTokens
  import opened TurnJournal
  import opened TurnThreads
  import opened TurnBatches
  import opened TurnAdmissions
  import opened TurnFrames
  import opened TurnInvariants
  import opened TurnEvolution
  import opened TurnSteps
  import opened TurnMachine

  /** The event a transaction journals for the run, if any. */
  ghost function Emits(db: Db, op: Op, k: RunKey): seq<Event> {
    if k !in db.runs || db.runs[k].ended then []
    else match op
      case AppendOp(j, e, terminal, outcome, maxEvents, maxBytes, _) =>
        if j != k || (terminal && (outcome.NoOutcome? || (outcome.Success? && UnfrozenManagedSuccess(db, k)))) then []
        else if !terminal && (db.runs[k].eventCount + 1 > maxEvents || db.runs[k].byteCount + e.bytes > maxBytes)
        then [QUOTA_TERMINAL_EVENT]
        else [e]
      case FinishOp(j, worker, outcome, provided, deadline, tokenBytes, now) =>
        if j != k || FinishTurn(db, k, worker, outcome, provided, deadline, tokenBytes, now).result.Fail? then []
        else if MustFreeze(db, k, outcome)
        then [TerminalEvent(outcome, provided).(batchToken := Some(BatchToken(Freeze(db, k, deadline, now), k)),
                                                bytes := tokenBytes)]
        else [TerminalEvent(outcome, provided)]
      case OrphanOp(rows, timeout, now) =>
        if StaleRows(db, rows, Cutoff(timeout, now)) && k in rows then [RUN_LOST_EVENT] else []
      case CancelOp(token, scope, _) =>
        if ResolveRunToken(db, token, CancelUse, scope) == Ok(k) && k in db.admissions && Active(db.admissions[k])
        then [CANCELLED_EVENT] else []
      case _ => []
  }

  /** Everything ever journaled for the run, oldest first. */
  ghost function History(states: seq<Db>, ops: seq<Op>, n: nat, k: RunKey): seq<Event>
    requires n <= |ops| && |states| == |ops| + 1
  {
    if n == 0 then [] else History(states, ops, n - 1, k) + Emits(states[n - 1], ops[n - 1], k)
  }

  /** The surviving rows of the run are the slice (watermark, committed] of its history. */
  ghost predicate Window(db: Db, k: RunKey, history: seq<Event>) {
    k in db.runs ==>
      && db.runs[k].eventCount == db.runs[k].committed == |history|
      && db.runs[k].byteCount == Bytes(history)
      && db.runs[k].watermark <= db.runs[k].committed
      && (forall n: nat :: JournalKey(k, n) in db.journal <==> db.runs[k].watermark < n <= |history|)
      && (forall n: nat :: JournalKey(k, n) in db.journal && 0 < n <= |history|
                           ==> db.journal[JournalKey(k, n)] == history[n - 1])
  }

  function Bytes(history: seq<Event>): nat {
    if history == [] then 0 else Bytes(history[..|history| - 1]) + history[|history| - 1].bytes
  }

  lemma BytesMore(history: seq<Event>, e: Event)
    ensures Bytes(history + [e]) == Bytes(history) + e.bytes
  {
    assert (history + [e])[..|history|] == history;
  }

  /** How one transaction moves the run's journal. */
  ghost predicate Journals(db: Db, after: Db, k: RunKey, events: seq<Event>) {
    k in after.runs ==>
      && (k in db.runs || (after.runs[k].committed == 0 && after.runs[k].byteCount == 0 && !after.runs[k].ended))
      && |events| <= 1
      && (k in db.runs && events == [] ==> after.runs[k].ended == db.runs[k].ended)
      && (k in db.runs ==>
            && after.runs[k].committed == db.runs[k].committed + |events|
            && after.runs[k].byteCount == db.runs[k].byteCount + Bytes(events)
            && (events != [] ==> JournalKey(k, after.runs[k].committed) in after.journal
                                 && after.journal[JournalKey(k, after.runs[k].committed)] == events[0]))
  }

  /** The run's counters stand still. */
  ghost predicate Stands(db: Db, after: Db, k: RunKey) {
    k in after.runs ==>
      if k in db.runs
      then after.runs[k].committed == db.runs[k].committed && after.runs[k].byteCount == db.runs[k].byteCount
           && after.runs[k].ended == db.runs[k].ended
      else after.runs[k].committed == 0 && after.runs[k].byteCount == 0 && !after.runs[k].ended
  }

  lemma StandsStill(db: Db, after: Db, k: RunKey)
    requires Stands(db, after, k)
    ensures Journals(db, after, k, [])
  {
  }

  lemma WriteJournals(db: Db, j: RunKey, e: Event, ended: bool, outcome: Outcome, now: real, k: RunKey)
    requires j in db.runs
    ensures Journals(db, WriteEvent(db, j, e, ended, outcome, now), k, if j == k then [e] else [])
  {
    assert Bytes([e]) == e.bytes by { BytesMore([], e); assert [] + [e] == [e]; }
  }

  lemma AppendJournals(db: Db, op: Op, k: RunKey)
    requires op.AppendOp?
    ensures Journals(db, Step(db, op), k, Emits(db, op, k))
  {
    hide WriteEvent, Journals, UnfrozenManagedSuccess;
    StandsStill(db, db, k);
    if op.run in db.runs {
      WriteJournals(db, op.run, op.event, op.terminal, op.outcome, op.now, k);
      WriteJournals(db, op.run, QUOTA_TERMINAL_EVENT, true, QuotaExceeded, op.now, k);
    }
  }

  /** The run's journal is untouched. */
  ghost predicate Elsewhere(db: Db, after: Db, k: RunKey) {
    && (k in db.runs <==> k in after.runs) && (k in db.runs ==> after.runs[k] == db.runs[k])
    && (forall n: nat :: JournalKey(k, n) in db.journal <==> JournalKey(k, n) in after.journal)
    && (forall n: nat :: JournalKey(k, n) in db.journal ==> after.journal[JournalKey(k, n)] == db.journal[JournalKey(k, n)])
  }

  lemma JournalsElsewhere(db: Db, next: Db, after: Db, k: RunKey, events: seq<Event>)
    requires (Journals(db, next, k, events) && Elsewhere(next, after, k))
             || (Elsewhere(db, next, k) && Journals(next, after, k, events))
    ensures Journals(db, after, k, events)
  {
  }

  lemma ElsewhereTwice(db: Db, next: Db, after: Db, k: RunKey)
    requires Elsewhere(db, next, k) && Elsewhere(next, after, k)
    ensures Elsewhere(db, after, k)
  {
  }

  /** Leaving a turn journals its terminal event, unless the journal ended before. */
  lemma LeaveJournals(db: Db, j: RunKey, exit: Admission, outcome: Outcome, e: Event, now: real, k: RunKey)
    requires j in db.runs && j in db.admissions
    ensures var after := LeaveActive(db, j, exit, outcome, e, now);
            Journals(db, after, k, if j == k && !db.runs[k].ended then [e] else [])
            && (j != k ==> Elsewhere(db, after, k))
            && j in after.runs && after.runs[j].ended && after.runs[j].outcome == Effective(db, j, outcome)
  {
    LeftOutcome(db, j, outcome, e, now);
    if db.runs[j].ended {
      StandsStill(db, LeaveActive(db, j, exit, outcome, e, now), k);
    } else {
      WriteJournals(db, j, e, true, outcome, now, k);
    }
  }

  lemma CancelJournals(db: Db, op: Op, k: RunKey)
    requires Inv(db) && op.CancelOp?
    ensures Journals(db, Step(db, op), k, Emits(db, op, k))
    ensures Emits(db, op, k) != [] ==> k in Step(db, op).runs && Step(db, op).runs[k].ended
                                       && Step(db, op).runs[k].outcome == Cancelled
  {
    hide Inv, LeaveActive, Journals, ResolveRunToken;
    StandsStill(db, db, k);
    var r := ResolveRunToken(db, op.token, CancelUse, op.scope);
    if r.Ok? && r.value in db.admissions && Active(db.admissions[r.value]) {
      TurnFacts(db, r.value);
      var exit := db.admissions[r.value].(state := Terminal, claimOwner := NONE, claimDeadline := 0.0, payload := NONE);
      LeaveJournals(db, r.value, exit, Cancelled, CANCELLED_EVENT, op.now, k);
    }
  }

  lemma FinishPlain(db: Db, op: Op, k: RunKey)
    requires op.FinishOp? && !MustFreeze(db, op.run, op.outcome)
    ensures Journals(db, Step(db, op), k, Emits(db, op, k))
    ensures Emits(db, op, k) != [] ==> k in Step(db, op).runs && Step(db, op).runs[k].ended
                                       && Step(db, op).runs[k].outcome == op.outcome
  {
    hide LeaveActive, Journals, Freeze, BatchToken, TerminalEvent, MustFreeze, Elsewhere;
    StandsStill(db, db, k);
    if HoldsLease(db, op.run, op.worker) && op.run in db.runs {
      LeaveJournals(db, op.run, db.admissions[op.run].(state := Terminal), op.outcome,
                    TerminalEvent(op.outcome, op.provided), op.now, k);
    }
  }

  lemma FinishFrozen(db: Db, op: Op, k: RunKey, frozen: Db)
    requires op.FinishOp? && MustFreeze(db, op.run, op.outcome) && frozen == Freeze(db, op.run, op.deadline, op.now)
    ensures Journals(db, Step(db, op), k, Emits(db, op, k))
    ensures Emits(db, op, k) != [] ==> k in Step(db, op).runs && Step(db, op).runs[k].ended
                                       && Step(db, op).runs[k].outcome == op.outcome
  {
    assert op.run in db.runs && !db.runs[op.run].ended;
    hide LeaveActive, Journals, Freeze, BatchToken, TerminalEvent, MustFreeze, Elsewhere;
    StandsStill(db, db, k);
    FreezeFrame(db, op.run, op.deadline, op.now);
    if HoldsLease(db, op.run, op.worker) {
      var exit := db.admissions[op.run].(state := Terminal);
      var f := TerminalEvent(op.outcome, op.provided).(batchToken := Some(BatchToken(frozen, op.run)),
                                                       bytes := op.tokenBytes);
      LeaveJournals(frozen, op.run, exit, op.outcome, f, op.now, k);
      FrozenJournals(db, frozen, LeaveActive(frozen, op.run, exit, op.outcome, f, op.now), k,
                     if op.run == k then [f] else []);
    }
  }

  lemma FinishJournals(db: Db, op: Op, k: RunKey)
    requires op.FinishOp?
    ensures Journals(db, Step(db, op), k, Emits(db, op, k))
    ensures Emits(db, op, k) != [] ==> k in Step(db, op).runs && Step(db, op).runs[k].ended
                                       && Step(db, op).runs[k].outcome == op.outcome
  {
    hide Step, Emits, Journals, MustFreeze, Freeze;
    if MustFreeze(db, op.run, op.outcome) {
      FinishFrozen(db, op, k, Freeze(db, op.run, op.deadline, op.now));
    } else {
      FinishPlain(db, op, k);
    }
  }

  lemma FrozenJournals(db: Db, frozen: Db, after: Db, k: RunKey, events: seq<Event>)
    requires Journals(frozen, after, k, events) && frozen.runs == db.runs
    ensures Journals(db, after, k, events)
  {
  }

  lemma {:induction false} OrphansJournal(db: Db, rows: seq<RunKey>, now: real, k: RunKey)
    requires forall i, j :: 0 <= i < j < |rows| ==> rows[i] != rows[j]
    requires forall j :: j in rows ==> j in db.runs && j in db.admissions
    ensures Journals(db, OrphanAll(db, rows, now), k, if k in rows && !db.runs[k].ended then [RUN_LOST_EVENT] else [])
    ensures k !in rows ==> Elsewhere(db, OrphanAll(db, rows, now), k)
    ensures k in rows ==> k in OrphanAll(db, rows, now).runs && OrphanAll(db, rows, now).runs[k].ended
                          && OrphanAll(db, rows, now).runs[k].outcome == Effective(db, k, RunLost)
    decreases |rows|
  {
    hide Journals, OrphanOne, Elsewhere;
    StandsStill(db, db, k);
    if rows == [] {
      Untouched(db, k);
    } else {
      var next, after := OrphanOne(db, rows[0], now), OrphanAll(db, rows, now);
      OrphanJournals(db, rows[0], now, k);
      assert forall j :: j in rows[1..] ==> j in rows;
      OrphansJournal(next, rows[1..], now, k);
      var events := if k in rows && !db.runs[k].ended then [RUN_LOST_EVENT] else [];
      if k == rows[0] {
        assert k !in rows[1..];
        StillEnded(next, after, k);
        JournalsElsewhere(db, next, after, k, events);
      } else {
        assert k in rows <==> k in rows[1..];
        if k in rows { SameEnd(db, next, k); }
        JournalsElsewhere(db, next, after, k, events);
        if k !in rows { ElsewhereTwice(db, next, after, k); }
      }
    }
  }

  lemma Untouched(db: Db, k: RunKey)
    ensures Elsewhere(db, db, k)
  {
  }

  lemma StillEnded(next: Db, after: Db, k: RunKey)
    requires Elsewhere(next, after, k) && k in next.runs && next.runs[k].ended
    ensures k in after.runs && after.runs[k] == next.runs[k]
  {
  }

  lemma SameEnd(db: Db, next: Db, k: RunKey)
    requires Elsewhere(db, next, k) && k in db.runs
    ensures k in next.runs && next.runs[k] == db.runs[k]
  {
  }

  lemma OrphanJournals(db: Db, j: RunKey, now: real, k: RunKey)
    requires j in db.runs && j in db.admissions
    ensures var after := OrphanOne(db, j, now);
            && after.runs.Keys == db.runs.Keys && after.admissions.Keys == db.admissions.Keys
            && Journals(db, after, k, if j == k && !db.runs[k].ended then [RUN_LOST_EVENT] else [])
            && (j != k ==> Elsewhere(db, after, k))
            && after.runs[j].ended && after.runs[j].outcome == Effective(db, j, RunLost)
  {
    hide Journals, Elsewhere;
    var exit := db.admissions[j].(state := if db.runs[j].ended then Terminal else Orphaned);
    LeaveJournals(db, j, exit, RunLost, RUN_LOST_EVENT, now, k);
  }

  /** Transactions that write no journal row: the run's counters stand still. */
  lemma OtherJournals(db: Db, op: Op, k: RunKey)
    requires !op.AppendOp? && !op.FinishOp? && !op.OrphanOp? && !op.CancelOp?
    ensures Journals(db, Step(db, op), k, Emits(db, op, k))
  {
    hide Journals;
    StandsInStep(db, op, k);
    StandsStill(db, Step(db, op), k);
  }

  lemma AcquireRuns(db: Db, t: ThreadKey, generation: int, run: Id, bodyHash: Id, payload: Id, parent: Id, now: real)
    ensures var after := AcquireTurn(db, t, generation, run, bodyHash, payload, parent, now).db;
            after.runs == db.runs
            || (generation >= 0
                && var j := RunKey(ContextId(t, generation), run);
                   j !in db.runs && after.runs == db.runs[j := NEW_RUN_COUNTERS.(updatedAt := now)])
  {
    hide HasActive, Admit, BindParent;
    if Holds(db, t, generation) {
      var c := ContextId(t, generation);
      BoundRuns(db, c, parent);
      AdmitRuns(BindParent(db, c, parent).db, RunKey(c, run), bodyHash, payload, parent, now);
    }
  }

  lemma AdmitStands(db: Db, t: ThreadKey, generation: int, run: Id, bodyHash: Id, payload: Id, parent: Id, now: real,
                    k: RunKey)
    ensures Stands(db, AcquireTurn(db, t, generation, run, bodyHash, payload, parent, now).db, k)
  {
    hide AcquireTurn;
    AcquireRuns(db, t, generation, run, bodyHash, payload, parent, now);
  }

  lemma BoundRuns(db: Db, c: ContextId, parent: Id)
    ensures BindParent(db, c, parent).db.runs == db.runs
  {
  }

  lemma AdmitRuns(db: Db, k: RunKey, bodyHash: Id, payload: Id, parent: Id, now: real)
    ensures Admit(db, k, bodyHash, payload, parent, now).runs
            == if k in db.runs then db.runs else db.runs[k := NEW_RUN_COUNTERS.(updatedAt := now)]
  {
    hide KeyringFor, Latest;
  }

  lemma SameRunsStand(db: Db, after: Db, k: RunKey)
    requires after.runs == db.runs
    ensures Stands(db, after, k)
  {
  }

  lemma PruneStands(db: Db, retention: real, now: real, k: RunKey)
    ensures Stands(db, Prune(db, retention, now), k)
  {
  }

  lemma OpenStands(db: Db, j: RunKey, now: real, k: RunKey)
    ensures Stands(db, OpenRun(db, j, now).db, k)
  {
  }

  lemma SubscribeStands(db: Db, j: RunKey, a: int, now: real, k: RunKey)
    ensures Stands(db, AcquireSubscriber(db, j, a, now).db, k)
  {
  }

  lemma StandsInStep(db: Db, op: Op, k: RunKey)
    requires !op.AppendOp? && !op.FinishOp? && !op.OrphanOp? && !op.CancelOp?
    ensures Stands(db, Step(db, op), k)
  {
    hide AcquireTurn, ClaimBatch, RenewBatch, BeginCall, DepositCall, Rotate, PruneKeys, ExpireBatch, ClaimDispatch,
      AckDispatch, AdoptRun, StartTurn, Heartbeat, RecordCall, ConsumeCalls, NextToDispatch, StaleRows, Prune, FinishTurn,
      OrphanAll, CancelRun, Append, Overdue, OpenRun, AcquireSubscriber, Stands;
    match op
    case AcquireOp(t, g, run, body, payload, parent, now) => AdmitStands(db, t, g, run, body, payload, parent, now, k);
    case RotateOp(t, isolated, expected, close) => RotateStands(db, t, isolated, expected, close, k);
    case OpenOp(j, now) => OpenStands(db, j, now, k);
    case SubscribeOp(j, a, now) => SubscribeStands(db, j, a, now, k);
    case PruneOp(retention, now) => PruneStands(db, retention, now, k);
    case _ =>
      if op.DispatchOp? || op.AckOp? || op.AdoptOp? || op.StartOp? || op.HeartbeatOp? || op.RecordOp? || op.ConsumeOp? {
        TurnRuns(db, op);
      } else if op.ClaimOp? || op.RenewOp? || op.BeginOp? || op.DepositOp? || op.ExpireOp? || op.PruneKeysOp? {
        BatchRuns(db, op);
      }
      SameRunsStand(db, Step(db, op), k);
  }

  lemma RotateStands(db: Db, t: ThreadKey, isolated: bool, expected: int, close: bool, k: RunKey)
    ensures Stands(db, Rotate(db, t, isolated, expected, close).db, k)
  {
  }

  lemma TurnRuns(db: Db, op: Op)
    requires op.DispatchOp? || op.AckOp? || op.AdoptOp? || op.StartOp? || op.HeartbeatOp? || op.RecordOp? || op.ConsumeOp?
    ensures Step(db, op).runs == db.runs
  {
    hide NextToDispatch, Max, PendingCalls, ConsumeEmitted;
  }

  lemma BatchRuns(db: Db, op: Op)
    requires op.ClaimOp? || op.RenewOp? || op.BeginOp? || op.DepositOp? || op.ExpireOp? || op.PruneKeysOp?
    ensures Step(db, op).runs == db.runs
  {
    hide EnsureThread, ClearPending, ResolveFinish, Rotate, OpenRun, AcquireSubscriber, Append, Prune, AcquireTurn,
      ClaimDispatch, AckDispatch, AdoptRun, StartTurn, Heartbeat, FinishTurn, OrphanAll, RecordCall, ConsumeCalls,
      ClaimBatch, RenewBatch, BeginCall, DepositCall, ExpireBatch, CancelRun, PruneKeys, NextToDispatch, StaleRows, Overdue;
    match op
    case ClaimOp(token, id, lease, scope, now) => ClaimFrame(db, token, id, lease, scope, now);
    case RenewOp(token, lease, scope, now) => RenewFrame(db, token, lease, scope, now);
    case BeginOp(token, id, version, scope, now) => BeginFrame(db, token, id, version, scope, now);
    case DepositOp(token, kind, payload, scope, now) => DepositFrame(db, token, kind, payload, scope, now);
    case ExpireOp(k, _) => ExpireBatchFrame(db, k);
    case PruneKeysOp => PruneKeysRuns(db);
  }

  lemma PruneKeysRuns(db: Db)
    ensures PruneKeys(db).db.runs == db.runs
  {
    hide TurnTokens.Prunable;
  }

  lemma OrphanOpJournals(db: Db, op: Op, k: RunKey)
    requires Inv(db) && op.OrphanOp?
    ensures Journals(db, Step(db, op), k, Emits(db, op, k))
    ensures Emits(db, op, k) != [] ==> k in Step(db, op).runs && Step(db, op).runs[k].ended
                                       && Step(db, op).runs[k].outcome == RunLost
  {
    hide Inv, Journals, OrphanAll, Elsewhere;
    StandsStill(db, db, k);
    if StaleRows(db, op.rows, Cutoff(op.timeout, op.now)) {
      forall j | j in op.rows ensures j in db.runs && j in db.admissions { TurnFacts(db, j); }
      OrphansJournal(db, op.rows, op.now, k);
    }
  }

  lemma StepJournals(db: Db, op: Op, k: RunKey)
    requires Inv(db)
    ensures Journals(db, Step(db, op), k, Emits(db, op, k))
  {
    hide Inv, Journals, Step, Emits;
    if op.AppendOp? {
      AppendJournals(db, op, k);
    } else if op.FinishOp? {
      FinishJournals(db, op, k);
    } else if op.OrphanOp? {
      OrphanOpJournals(db, op, k);
    } else if op.CancelOp? {
      CancelJournals(db, op, k);
    } else {
      OtherJournals(db, op, k);
    }
  }

  // ---- the window over whole runs ----

  lemma BytesConcat(h: seq<Event>, events: seq<Event>)
    requires |events| <= 1
    ensures Bytes(h + events) == Bytes(h) + Bytes(events)
  {
    if events == [] {
      assert h + events == h;
    } else {
      assert events == [] + [events[0]];
      BytesMore(h, events[0]);
      BytesMore([], events[0]);
    }
  }

  lemma WindowMoves(db: Db, after: Db, k: RunKey, h: seq<Event>, events: seq<Event>)
    requires Journaled(after.runs, after.journal) && RowsKept(db.journal, after.journal)
    requires k in db.runs && k in after.runs && RunGrows(db.runs[k], after.runs[k])
    requires Window(db, k, h) && Journals(db, after, k, events)
    ensures Window(after, k, h + events)
  {
    BytesConcat(h, events);
    forall n: nat ensures JournalKey(k, n) in after.journal <==> after.runs[k].watermark < n <= |h + events| {
      assert JournalKey(k, n).run == k;
    }
    forall n: nat | JournalKey(k, n) in after.journal && 0 < n <= |h + events|
      ensures after.journal[JournalKey(k, n)] == (h + events)[n - 1]
    {
      assert JournalKey(k, n).run == k;
      if n <= |h| { assert JournalKey(k, n) in db.journal; }
    }
  }

  lemma WindowOpens(after: Db, k: RunKey)
    requires Journaled(after.runs, after.journal) && (k in after.runs ==> after.runs[k].committed == 0 == after.runs[k].byteCount)
    ensures Window(after, k, [])
  {
    if k in after.runs {
      forall n: nat ensures JournalKey(k, n) !in after.journal { assert JournalKey(k, n).run == k; }
    }
  }

  /** A run's history stays empty until the run is opened. */
  lemma {:induction false} NoHistory(states: seq<Db>, ops: seq<Op>, n: nat, k: RunKey)
    requires n <= |ops| && |states| == |ops| + 1
    requires forall i :: 0 <= i < n ==> k !in states[i].runs
    ensures History(states, ops, n, k) == []
  {
    if n > 0 { NoHistory(states, ops, n - 1, k); }
  }

  lemma StillThere(a: Db, m: Db, b: Db, k: RunKey)
    requires Rooted(a.contexts, a.admissions, a.fences, a.runs) && Rooted(b.contexts, b.admissions, b.fences, b.runs)
    requires ContextsAge(a.contexts, m.contexts, m.threads) && ThreadsGrow(m.threads, b.threads)
    requires CurrentOnly(b.threads, b.contexts) && RunsGrow(a.runs, m.runs, m.contexts)
    requires k in a.runs && k in b.runs
    ensures k in m.runs
  {
  }

  /** A dropped run never comes back. */
  lemma RunNotReopened(states: seq<Db>, ops: seq<Op>, i: nat, j: nat, l: nat, k: RunKey)
    requires IsRun(states, ops) && i <= j <= l < |states| && k in states[i].runs && k in states[l].runs
    ensures k in states[j].runs
  {
    hide IsRun, Rooted, ContextsAge, ThreadsGrow, CurrentOnly, RunsGrow;
    Forward(states, ops, i, j);
    Forward(states, ops, j, l);
    StillThere(states[i], states[j], states[l], k);
  }

  lemma GrewInPlace(db: Db, after: Db, k: RunKey)
    requires Rooted(db.contexts, db.admissions, db.fences, db.runs)
    requires Rooted(after.contexts, after.admissions, after.fences, after.runs)
    requires RunsGrow(db.runs, after.runs, after.contexts) && k in db.runs && k in after.runs
    ensures RunGrows(db.runs[k], after.runs[k])
  {
  }

  lemma OpensEmpty(db: Db, after: Db, k: RunKey, events: seq<Event>)
    requires Journals(db, after, k, events) && k !in db.runs && k in after.runs
    ensures after.runs[k].committed == 0 == after.runs[k].byteCount
  {
  }

  lemma GrowthFacts(db: Db, after: Db, k: RunKey)
    requires Inv(after) && Inv(db) && Evolves(db, after)
    ensures Journaled(after.runs, after.journal) && RowsKept(db.journal, after.journal)
    ensures k in db.runs && k in after.runs ==> RunGrows(db.runs[k], after.runs[k])
  {
    hide CurrentOnly, Fenced, Exited, Journaled, Ledgered, Earned, OneBatch, Progressed, LiveClaims, Named,
      Minted, Keyed, Parented, Published, Rooted, RunsGrow, RunGrows;
    hide ThreadsGrow, ContextsAge, TurnsAdvance, FencesGrow, FencesFresh, RowsKept, CallsAdvance,
      BatchesAdvance, KeysAge, HandlesKept;
    if k in db.runs && k in after.runs { GrewInPlace(db, after, k); }
  }

  lemma FirstWindow(states: seq<Db>, ops: seq<Op>, n: nat, k: RunKey)
    requires IsRun(states, ops) && 0 < n <= |ops| && k in states[n].runs && k !in states[n - 1].runs
    ensures Window(states[n], k, History(states, ops, n, k))
  {
    hide Step, Emits, Init, Window, Journals, Inv, Evolves;
    Forward(states, ops, n - 1, n);
    GrowthFacts(states[n - 1], states[n], k);
    FirstHistory(states, ops, n, k);
    StepJournals(states[n - 1], ops[n - 1], k);
    OpensEmpty(states[n - 1], states[n], k, Emits(states[n - 1], ops[n - 1], k));
    WindowOpens(states[n], k);
  }

  /** In every reachable state the surviving rows of each run are exactly the slice
      (watermark, committed] of everything ever journaled for it. */
  lemma {:induction false} JournalIsWindow(states: seq<Db>, ops: seq<Op>, n: nat, k: RunKey)
    requires IsRun(states, ops) && n <= |ops|
    ensures Window(states[n], k, History(states, ops, n, k))
  {
    hide Step, Emits, Init, Window, Journals, Inv, Evolves, RunGrows, Journaled, RowsKept;
    if n == 0 {
      InitEmpty(states[0]);
      NoWindow(states[0], k, []);
    } else if k !in states[n].runs {
      NoWindow(states[n], k, History(states, ops, n, k));
    } else if k !in states[n - 1].runs {
      FirstWindow(states, ops, n, k);
    } else {
      JournalIsWindow(states, ops, n - 1, k);
      Forward(states, ops, n - 1, n);
      GrowthFacts(states[n - 1], states[n], k);
      StepJournals(states[n - 1], ops[n - 1], k);
      WindowMoves(states[n - 1], states[n], k, History(states, ops, n - 1, k), Emits(states[n - 1], ops[n - 1], k));
    }
  }

  lemma NoWindow(db: Db, k: RunKey, h: seq<Event>)
    requires k !in db.runs
    ensures Window(db, k, h)
  {
  }

  lemma InitEmpty(db: Db)
    requires Init(db)
    ensures db.runs == map[]
  {
  }

  // ---- the terminal event ----

  lemma EndsByEvent(db: Db, after: Db, k: RunKey, events: seq<Event>)
    requires Journals(db, after, k, events) && k in after.runs && after.runs[k].ended
    requires k in db.runs ==> !db.runs[k].ended
    ensures k in db.runs && |events| == 1
  {
  }

  /** The transaction that ends a journal writes its terminal event, and nothing is ever journaled
      after it: the terminal event is the last of the history, and the only one at which a
      transaction found the run live and left it ended. */
  lemma {:induction false} TerminalIsLast(states: seq<Db>, ops: seq<Op>, n: nat, m: nat, k: RunKey)
    requires IsRun(states, ops) && n < m <= |ops| && k in states[m].runs && k in states[n + 1].runs
    requires !(k in states[n].runs && states[n].runs[k].ended) && states[n + 1].runs[k].ended
    ensures |Emits(states[n], ops[n], k)| == 1
    ensures History(states, ops, m, k) == History(states, ops, n, k) + Emits(states[n], ops[n], k)
    ensures states[m].runs[k].ended && states[m].runs[k].outcome == states[n + 1].runs[k].outcome
    decreases m
  {
    hide Step, Init, Journals, Inv, Evolves, Window;
    Forward(states, ops, n + 1, m);
    GrowthFacts(states[n + 1], states[m], k);
    Reachable(states, ops, n);
    StepJournals(states[n], ops[n], k);
    EndsByEvent(states[n], states[n + 1], k, Emits(states[n], ops[n], k));
    if m > n + 1 {
      RunNotReopened(states, ops, n + 1, m - 1, m, k);
      TerminalIsLast(states, ops, n, m - 1, k);
      assert Emits(states[m - 1], ops[m - 1], k) == [];
    }
  }

  // ---- quota ----

  /** Every progress event of the run is appended under one fixed quota. */
  ghost predicate FixedQuota(ops: seq<Op>, k: RunKey, maxEvents: nat, maxBytes: nat) {
    forall i :: 0 <= i < |ops| && ops[i].AppendOp? && ops[i].run == k && !ops[i].terminal ==>
      ops[i].maxEvents == maxEvents && ops[i].maxBytes == maxBytes
  }

  /** All events but the terminal one fit the quota. */
  ghost predicate WithinQuota(run: JournalRun, h: seq<Event>, maxEvents: nat, maxBytes: nat) {
    if run.ended then |h| > 0 && |h| - 1 <= maxEvents && Bytes(h[..|h| - 1]) <= maxBytes
    else |h| <= maxEvents && Bytes(h) <= maxBytes
  }

  /** A transaction that journals an event and leaves the run live was a progress append within its quota. */
  lemma ProgressAppended(db: Db, op: Op, k: RunKey)
    requires Inv(db) && Emits(db, op, k) != [] && k in Step(db, op).runs && !Step(db, op).runs[k].ended
    ensures op.AppendOp? && op.run == k && !op.terminal && k in db.runs && Emits(db, op, k) == [op.event]
    ensures db.runs[k].eventCount + 1 <= op.maxEvents && db.runs[k].byteCount + op.event.bytes <= op.maxBytes
  {
    hide Inv, UnfrozenManagedSuccess;
    if op.AppendOp? {
      AppendedLive(db, op, k);
    } else if op.FinishOp? {
      FinishJournals(db, op, k);
    } else if op.OrphanOp? {
      OrphanOpJournals(db, op, k);
    } else if op.CancelOp? {
      CancelJournals(db, op, k);
    }
  }

  lemma WrittenEnd(db: Db, j: RunKey, e: Event, ended: bool, outcome: Outcome, now: real)
    requires j in db.runs
    ensures var after := WriteEvent(db, j, e, ended, outcome, now); j in after.runs && after.runs[j].ended == ended
  {
  }

  lemma AppendedLive(db: Db, op: Op, k: RunKey)
    requires op.AppendOp? && Emits(db, op, k) != []
    requires var after := Append(db, op.run, op.event, op.terminal, op.outcome, op.maxEvents, op.maxBytes, op.now).db;
             k in after.runs && !after.runs[k].ended
    ensures op.run == k && !op.terminal && k in db.runs && Emits(db, op, k) == [op.event]
    ensures db.runs[k].eventCount + 1 <= op.maxEvents && db.runs[k].byteCount + op.event.bytes <= op.maxBytes
  {
    hide UnfrozenManagedSuccess, WriteEvent;
    if op.run in db.runs {
      WrittenEnd(db, op.run, op.event, op.terminal, op.outcome, op.now);
      WrittenEnd(db, op.run, QUOTA_TERMINAL_EVENT, true, QuotaExceeded, op.now);
    }
  }

  lemma QuotaMoves(db: Db, after: Db, k: RunKey, h: seq<Event>, events: seq<Event>, maxEvents: nat, maxBytes: nat)
    requires k in db.runs && k in after.runs && Journals(db, after, k, events)
    requires db.runs[k].eventCount == |h| && db.runs[k].byteCount == Bytes(h)
    requires WithinQuota(db.runs[k], h, maxEvents, maxBytes)
    requires db.runs[k].ended ==> events == []
    requires events != [] && !after.runs[k].ended ==>
               db.runs[k].eventCount + 1 <= maxEvents && db.runs[k].byteCount + events[0].bytes <= maxBytes
    ensures WithinQuota(after.runs[k], h + events, maxEvents, maxBytes)
  {
    BytesConcat(h, events);
    if events == [] {
      assert h + events == h;
    } else {
      OneEvent(events);
      hide Bytes;
      assert (h + events)[..|h + events| - 1] == h;
    }
  }

  lemma OneEvent(events: seq<Event>)
    requires |events| == 1
    ensures Bytes(events) == events[0].bytes
  {
    assert events == [] + [events[0]];
    BytesMore([], events[0]);
  }

  lemma QuotaOpens(db: Db, after: Db, k: RunKey, events: seq<Event>, maxEvents: nat, maxBytes: nat)
    requires k !in db.runs && k in after.runs && Journals(db, after, k, events)
    ensures WithinQuota(after.runs[k], [], maxEvents, maxBytes)
  {
  }

  lemma {:induction false} QuotaHolds(states: seq<Db>, ops: seq<Op>, n: nat, k: RunKey, maxEvents: nat, maxBytes: nat)
    requires IsRun(states, ops) && n <= |ops| && k in states[n].runs && FixedQuota(ops, k, maxEvents, maxBytes)
    ensures WithinQuota(states[n].runs[k], History(states, ops, n, k), maxEvents, maxBytes)
  {
    hide Step, Emits, Init, Journals, Inv, Evolves, WithinQuota;
    if n == 0 {
      InitEmpty(states[0]);
    } else {
      var db, after := states[n - 1], states[n];
      Reachable(states, ops, n - 1);
      StepJournals(db, ops[n - 1], k);
      if k in db.runs {
        QuotaHolds(states, ops, n - 1, k, maxEvents, maxBytes);
        JournalIsWindow(states, ops, n - 1, k);
        SilentOnceEnded(db, ops[n - 1], k);
        if Emits(db, ops[n - 1], k) != [] && !after.runs[k].ended { ProgressAppended(db, ops[n - 1], k); }
        QuotaMoves(db, after, k, History(states, ops, n - 1, k), Emits(db, ops[n - 1], k), maxEvents, maxBytes);
      } else {
        FirstHistory(states, ops, n, k);
        QuotaOpens(db, after, k, Emits(db, ops[n - 1], k), maxEvents, maxBytes);
      }
    }
  }

  lemma FirstHistory(states: seq<Db>, ops: seq<Op>, n: nat, k: RunKey)
    requires IsRun(states, ops) && 0 < n <= |ops| && k in states[n].runs && k !in states[n - 1].runs
    ensures History(states, ops, n, k) == []
  {
    hide Step, Emits, Init, Inv, Evolves;
    forall i | 0 <= i < n ensures k !in states[i].runs {
      if k in states[i].runs { RunNotReopened(states, ops, i, n - 1, n, k); }
    }
    NoHistory(states, ops, n, k);
  }

  lemma SilentOnceEnded(db: Db, op: Op, k: RunKey)
    ensures k in db.runs && db.runs[k].ended ==> Emits(db, op, k) == []
  {
  }
}

/** The store itself: one field per table, one method per transaction, updated in place. Each method
    is proved to commit exactly what the transaction function of the same name says. */
module TurnStore {
  import opened Basics
  import opened TurnTypes
  import opened TurnTokens
  import opened TurnInvariants
  import opened TurnEvolution
  import opened TurnStepTables
  import opened TurnSteps
  import opened TurnThreadSteps
  import opened TurnFreezeSteps
  import J = TurnJournal
  import T = TurnThreads
  import B = TurnBatches
  import A = TurnAdmissions
  import F = TurnFrames
  import C = TurnCredentials

  class Store {
    var managed: set<Id>
    var threads: map<ThreadKey, Thread>
    var contexts: map<ContextId, Conversation>
    var tombstones: set<RunKey>
    var admissions: map<RunKey, Admission>
    var fences: map<ContextId, nat>
    var runs: map<RunKey, JournalRun>
    var journal: map<JournalKey, Event>
    var calls: map<CallKey, Call>
    var batches: map<RunKey, Batch>
    var expired: set<ExpiredClaim>
    var keyring: Keyring
    var runTokens: map<RunKey, RunToken>
    var supply: nat

    function Snapshot(): Db
      reads this
    {
      Db(managed, threads, contexts, tombstones, admissions, fences, runs, journal, calls, batches, expired,
         keyring, runTokens, supply)
    }

    ghost predicate Valid()
      reads this
    {
      Inv(Snapshot())
    }

    /** The transaction committed and was answered as specified. */
    ghost predicate Did<X>(tx: Tx<X>, r: Result<X>)
      reads this
    {
      Snapshot() == tx.db && r == tx.result
    }

    constructor ()
      ensures Valid() && Init(Snapshot())
    {
      managed, threads, contexts, tombstones, admissions, fences := {}, map[], map[], {}, map[], map[];
      runs, journal, calls, batches, expired := map[], map[], map[], map[], {};
      keyring, runTokens, supply := Keyring(map[], 0), map[], 0;
      new;
      InitHolds(Snapshot());
    }

    // ---- threads ----

    method EnsureThread(t: ThreadKey) returns (r: Result<nat>)
      requires Valid()
      modifies `threads
      ensures Valid() && Did(T.EnsureThread(old(Snapshot()), t), r)
    {
      hide Inv, Evolves;
      EnsureThreadKeeps(Snapshot(), t);
      if t.thread == NONE { return Fail(InvalidArgument); }
      if t in threads { return Ok(threads[t].generation); }
      threads := threads[t := Thread(0, 0, None)];
      r := Ok(0);
    }

    method ClearPending(t: ThreadKey, marker: Conversation, generation: Option<nat>)
      requires Valid()
      modifies `threads
      ensures Valid() && Snapshot() == T.ClearPending(old(Snapshot()), t, marker, generation)
    {
      hide Inv, Evolves;
      ClearPendingKeeps(Snapshot(), t, marker, generation);
      if t in threads && threads[t].pending == Some(marker)
         && (generation.Some? ==> threads[t].generation == generation.value) {
        threads := threads[t := threads[t].(pending := None)];
      }
    }

    method ResolveFinish(p: Publication, t: ThreadKey, generation: int) returns (r: Result<Conversation>)
      requires Valid()
      modifies `contexts
      ensures Valid() && Did(T.ResolveFinish(old(Snapshot()), p, t, generation), r)
    {
      hide Inv, Evolves;
      ResolveFinishKeeps(Snapshot(), p, t, generation);
      if t !in threads { return Fail(ThreadRotated(0)); }
      if generation < threads[t].closedBefore || generation != threads[t].generation {
        return Fail(ThreadRotated(threads[t].generation));
      }
      var c := ContextId(t, generation);
      if c in contexts { return Ok(contexts[c]); }
      contexts := contexts[c := T.Internal(p, c)];
      r := Ok(contexts[c]);
    }

    /** SELECT of the context's active turn. */
    method FindActive(c: ContextId) returns (found: Option<RunKey>)
      requires Valid()
      ensures found.Some? <==> T.HasActive(Snapshot(), c)
      ensures found.Some? ==> found.value == T.ActiveRun(Snapshot(), c)
    {
      hide Inv;
      if k :| k in admissions && k.context == c && Active(admissions[k]) {
        OneActive(Snapshot(), k, T.ActiveRun(Snapshot(), c));
        return Some(k);
      }
      return None;
    }

    /** SELECT of the context's open batch. */
    method FindOpenBatch(c: ContextId) returns (found: Option<RunKey>)
      requires Valid()
      ensures found.Some? <==> T.HasOpenBatch(Snapshot(), c)
      ensures found.Some? ==> found.value == T.OpenBatch(Snapshot(), c)
    {
      hide Inv;
      if k :| k in batches && k.context == c && Open(batches[k]) {
        OneUnconsumed(Snapshot(), k, T.OpenBatch(Snapshot(), c));
        return Some(k);
      }
      return None;
    }

    /** SELECT of the context's batch not yet consumed. */
    method FindUnconsumed(c: ContextId) returns (found: Option<RunKey>)
      requires Valid()
      ensures found.Some? <==> A.HasUnconsumed(Snapshot(), c)
      ensures found.Some? ==> found.value == A.UnconsumedBatch(Snapshot(), c)
    {
      hide Inv;
      if k :| k in batches && k.context == c && A.Unconsumed(batches[k]) {
        OneUnconsumed(Snapshot(), k, A.UnconsumedBatch(Snapshot(), c));
        return Some(k);
      }
      return None;
    }

    method RotateThread(t: ThreadKey, isolated: bool, expected: int, close: bool) returns (r: Result<nat>)
      requires Valid()
      modifies this
      ensures Valid() && Did(T.Rotate(old(Snapshot()), t, isolated, expected, close), r)
    {
      hide Inv, Evolves;
      ghost var before := Snapshot();
      if t in threads { DropShape(before, ContextId(t, threads[t].generation)); }
      RotateKeeps(Snapshot(), t, isolated, expected, close);
      if t !in threads { return Fail(UnknownThread); }
      var thread := threads[t];
      if expected != thread.generation { return Fail(ThreadRotated(thread.generation)); }
      if thread.pending.Some? { return Fail(CleanupPending); }
      var c := ContextId(t, thread.generation);
      var active := FindActive(c);
      if active.Some? { return Fail(TurnBusy(active.value.run)); }
      var open := FindOpenBatch(c);
      if open.Some? { return Fail(TurnBusy(open.value.run)); }
      var marker := if isolated && c in contexts then Some(contexts[c]) else None;
      var next := thread.generation + 1;
      var closed := thread.closedBefore;
      if close && closed < next { closed := next; }
      DropRows(c);
      threads := threads[t := Thread(next, closed, marker)];
      tombstones := set k | k in tombstones && !(k.context.thread == t && k.context.generation < next);
      r := Ok(next);
    }

    /** Delete the context row; its dependent rows cascade. */
    method DropRows(c: ContextId)
      modifies `contexts, `admissions, `fences, `runs, `journal, `calls, `batches, `runTokens
      ensures Snapshot() == T.DropContext(old(Snapshot()), c)
    {
      hide T.Besides, T.Outside, T.RowsOutside, T.CallsOutside;
      DropTurns(c);
      DropLedger(c);
    }

    method DropTurns(c: ContextId)
      modifies `contexts, `admissions, `fences, `runs
      ensures contexts == T.Besides(old(contexts), c) && fences == T.Besides(old(fences), c)
      ensures admissions == T.Outside(old(admissions), c) && runs == T.Outside(old(runs), c)
    {
      hide T.Besides, T.Outside;
      contexts := T.Besides(contexts, c);
      fences := T.Besides(fences, c);
      admissions := T.Outside(admissions, c);
      runs := T.Outside(runs, c);
    }

    method DropLedger(c: ContextId)
      modifies `journal, `calls, `batches, `runTokens
      ensures journal == T.RowsOutside(old(journal), c) && calls == T.CallsOutside(old(calls), c)
      ensures batches == T.Outside(old(batches), c) && runTokens == T.Outside(old(runTokens), c)
    {
      hide T.Outside, T.RowsOutside, T.CallsOutside;
      journal := T.RowsOutside(journal, c);
      calls := T.CallsOutside(calls, c);
      batches := T.Outside(batches, c);
      runTokens := T.Outside(runTokens, c);
    }

    // ---- journal ----

    method OpenRun(k: RunKey, now: real) returns (r: Result<JournalRun>)
      requires Valid()
      modifies `runs
      ensures Valid() && Did(J.OpenRun(old(Snapshot()), k, now), r)
    {
      hide Inv, Evolves;
      OpenRunKeeps(Snapshot(), k, now);
      if k.run == NONE { return Fail(InvalidArgument); }
      if k !in runs {
        if k.context !in contexts { return Fail(RunUnknown); }
        runs := runs[k := NEW_RUN_COUNTERS.(updatedAt := now)];
      }
      r := Ok(runs[k]);
    }

    method AcquireSubscriber(k: RunKey, a: int, now: real) returns (r: Result<nat>)
      requires Valid()
      modifies `runs
      ensures Valid() && Did(J.AcquireSubscriber(old(Snapshot()), k, a, now), r)
    {
      hide Inv, Evolves;
      AcquireSubscriberKeeps(Snapshot(), k, a, now);
      if a < 0 { return Fail(InvalidArgument); }
      if k !in runs { return Fail(RunUnknown); }
      if a > runs[k].committed { return Fail(InvalidArgument); }
      runs := runs[k := runs[k].(epoch := runs[k].epoch + 1, updatedAt := now)];
      r := Ok(runs[k].epoch);
    }

    method WriteEvent(k: RunKey, e: Event, ended: bool, outcome: Outcome, now: real)
      requires k in runs
      modifies `runs, `journal
      ensures Snapshot() == J.WriteEvent(old(Snapshot()), k, e, ended, outcome, now)
    {
      var run := runs[k];
      var sequence := run.committed + 1;
      journal := journal[JournalKey(k, sequence) := e];
      runs := runs[k := run.(committed := sequence, eventCount := run.eventCount + 1,
                             byteCount := run.byteCount + e.bytes, ended := ended,
                             outcome := if ended then outcome else NoOutcome, updatedAt := now)];
    }

    /** SELECT of some emitted call of the run. */
    method FindEmitted(k: RunKey) returns (found: bool)
      ensures found == A.HasEmitted(calls, k)
    {
      if c :| c in calls && c.run == k && calls[c].state.Emitted? { return true; }
      return false;
    }

    method Append(k: RunKey, e: Event, terminal: bool, outcome: Outcome, maxEvents: int, maxBytes: int, now: real)
      returns (r: Result<nat>)
      requires Valid()
      modifies `runs, `journal
      ensures Valid() && Did(J.Append(old(Snapshot()), k, e, terminal, outcome, maxEvents, maxBytes, now), r)
    {
      hide Inv, Evolves, J.WriteEvent;
      AppendKeeps(Snapshot(), k, e, terminal, outcome, maxEvents, maxBytes, now);
      if terminal && outcome.NoOutcome? { return Fail(InvalidArgument); }
      if k !in runs { return Fail(RunUnknown); }
      var pending := FindEmitted(k);
      if terminal && outcome.Success? && k.context in contexts && k.context.thread.publication in managed
         && pending && k !in batches {
        return Fail(ManagedSuccessWithoutBatch);
      }
      var run := runs[k];
      if run.ended { return Fail(RunTerminal(run.outcome)); }
      if !terminal && (run.eventCount + 1 > maxEvents || run.byteCount + e.bytes > maxBytes) {
        WriteEvent(k, QUOTA_TERMINAL_EVENT, true, QuotaExceeded, now);
        return Fail(RunQuotaExceeded);
      }
      WriteEvent(k, e, terminal, outcome, now);
      r := Ok(run.committed + 1);
    }

    /** SELECT ... WHERE seq > cursor ORDER BY seq LIMIT limit. The journal has no gap, so the next row
        in order is the one with the next sequence. */
    method NextRows(k: RunKey, cursor: nat, limit: nat) returns (rows: seq<J.Row>)
      requires k in runs && J.Gapless(Snapshot(), k) && runs[k].watermark <= cursor <= runs[k].committed
      ensures |rows| == if cursor + limit < runs[k].committed then limit else runs[k].committed - cursor
      ensures forall i :: 0 <= i < |rows| ==>
                JournalKey(k, cursor + 1 + i) in journal
                && rows[i] == J.Row(cursor + 1 + i, journal[JournalKey(k, cursor + 1 + i)])
    {
      rows := [];
      while |rows| < limit && JournalKey(k, cursor + 1 + |rows|) in journal
        invariant |rows| <= limit && cursor + |rows| <= runs[k].committed
        invariant forall i :: 0 <= i < |rows| ==>
                    JournalKey(k, cursor + 1 + i) in journal
                    && rows[i] == J.Row(cursor + 1 + i, journal[JournalKey(k, cursor + 1 + i)])
        decreases limit - |rows|
      {
        rows := rows + [J.Row(cursor + 1 + |rows|, journal[JournalKey(k, cursor + 1 + |rows|)])];
      }
    }

    /** One page of the committed tail after a cursor. */
    method ReadEvents(k: RunKey, cursor: int, limit: int, epoch: Option<nat>) returns (r: Result<seq<J.Row>>)
      requires Valid()
      ensures k in runs ==> J.Gapless(Snapshot(), k)
      ensures r == J.ReadEvents(Snapshot(), k, cursor, limit, epoch)
      ensures r.Ok? ==> 0 <= cursor && |r.value| <= limit && forall i :: 0 <= i < |r.value| ==>
                JournalKey(k, cursor + 1 + i) in journal
                && r.value[i] == J.Row(cursor + 1 + i, journal[JournalKey(k, cursor + 1 + i)])
      ensures r.Ok? && |r.value| < limit ==>
                forall j :: j in journal && j.run == k ==> j.sequence <= cursor + |r.value|
    {
      hide Inv, J.Gapless, J.RowsBetween;
      if k in runs { JournalGapless(Snapshot(), k); }
      if limit <= 0 || cursor < 0 { return Fail(InvalidArgument); }
      if k !in runs { return Fail(RunUnknown); }
      var run := runs[k];
      if epoch.Some? && run.epoch != epoch.value { return Fail(SubscriberTakenOver); }
      if cursor > run.committed { return Fail(InvalidArgument); }
      if cursor < run.watermark { return Fail(ReplayExpired); }
      var rows := NextRows(k, cursor, limit);
      PageIs(journal, k, cursor, rows);
      r := Ok(rows);
    }

    /** One pass over the ended runs past their retention. */
    method Prune(retention: real, now: real) returns (pruned: nat)
      requires Valid()
      modifies `runs, `journal
      ensures Valid() && Snapshot() == J.Prune(old(Snapshot()), retention, now)
      ensures pruned == |ToPrune(old(runs), now - Max(0.0, retention))|
    {
      hide Inv, Evolves, J.Prune, RunsSoFar, RowsSoFar, ToPrune, Max, J.Prunable;
      ghost var before := Snapshot();
      PruneKeeps(before, retention, now);
      PruneEnds(before, retention, now);
      PruneStarts(before, now - Max(0.0, retention), now);
      var cutoff := now - Max(0.0, retention);
      pruned := PruneRows(ToPrune(runs, cutoff), cutoff, now);
    }

    method PruneRows(selected: set<RunKey>, cutoff: real, now: real) returns (pruned: nat)
      requires forall k :: k in selected ==> k in runs && J.Prunable(runs[k], cutoff)
      requires runs == RunsSoFar(runs, selected, cutoff, now) && journal == RowsSoFar(runs, journal, selected, cutoff)
      modifies `runs, `journal
      ensures runs == RunsSoFar(old(runs), {}, cutoff, now)
      ensures journal == RowsSoFar(old(runs), old(journal), {}, cutoff)
      ensures pruned == |selected|
    {
      hide RunsSoFar, RowsSoFar, RowsBut, J.Prunable;
      var rows := selected;
      pruned := 0;
      while rows != {}
        invariant rows <= selected && pruned + |rows| == |selected|
        invariant runs == RunsSoFar(old(runs), rows, cutoff, now)
        invariant journal == RowsSoFar(old(runs), old(journal), rows, cutoff)
        decreases rows
      {
        var k :| k in rows;
        PruneOne(old(runs), old(journal), rows, k, cutoff, now);
        journal := RowsBut(journal, k);
        runs := runs[k := runs[k].(watermark := runs[k].committed, updatedAt := now)];
        rows := rows - {k};
        pruned := pruned + 1;
      }
    }

    // ---- keyring and run handles ----

    /** The current key version, minting the first key of an empty keyring. */
    method CurrentKey() returns (version: nat)
      modifies `keyring, `supply
      ensures Snapshot() == EnsureKey(old(Snapshot()))
      ensures version == Latest(keyring.keys)
    {
      if keyring.keys.Keys == {} {
        keyring := KeyringFor(keyring, supply);
        supply := supply + 1;
      }
      version := HighestKey(keyring.keys);
    }

    method MintRunHandle(k: RunKey)
      modifies `keyring, `supply, `runTokens
      ensures Snapshot() == A.MintRunHandle(old(Snapshot()), k)
    {
      hide KeyringFor, Latest;
      if k in runTokens { return; }
      var version := CurrentKey();
      runTokens := runTokens[k := RunToken(RunHandle(supply), version)];
      supply := supply + 1;
    }

    // ---- admission ----

    method ConsumeBatch(k: RunKey)
      requires k in batches
      modifies `batches, `calls
      ensures Snapshot() == B.ConsumeBatch(old(Snapshot()), k)
    {
      hide B.ConsumeEmitted;
      if batches[k].state.Complete? { batches := batches[k := batches[k].(state := BatchConsumed)]; }
      calls := B.ConsumeEmitted(calls, k);
    }

    method BindParent(c: ContextId, parent: Id) returns (r: Result<bool>)
      requires Valid()
      modifies `batches, `calls
      ensures Did(A.BindParent(old(Snapshot()), c, parent), r)
    {
      hide Inv, B.ConsumeBatch;
      var batch := FindUnconsumed(c);
      if batch.Some? {
        var k := batch.value;
        if !batches[k].state.Complete? { return Fail(BatchIncomplete(k.run)); }
        if parent != k.run { return Fail(ParentMismatch); }
        ConsumeBatch(k);
        return Ok(true);
      }
      var pending := FindPending(c);
      if pending {
        var named := FindEmitted(RunKey(c, parent));
        return if named then Ok(true) else Fail(ParentMismatch);
      }
      if parent != NONE { return Fail(ParentMismatch); }
      r := Ok(false);
    }

    /** SELECT of some emitted call of the context. */
    method FindPending(c: ContextId) returns (found: bool)
      ensures found == A.PendingIn(Snapshot(), c)
    {
      if x :| x in calls && x.run.context == c && calls[x].state.Emitted? { return true; }
      return false;
    }

    method AcquireTurn(t: ThreadKey, generation: int, run: Id, bodyHash: Id, payload: Id, parent: Id, now: real)
      returns (r: Result<A.Acquired>)
      requires Valid()
      modifies this
      ensures Valid() && Did(A.AcquireTurn(old(Snapshot()), t, generation, run, bodyHash, payload, parent, now), r)
    {
      hide Inv, Evolves, A.BindParent, A.MintRunHandle;
      ghost var before := Snapshot();
      AcquireTurnKeeps(before, t, generation, run, bodyHash, payload, parent, now);
      if run == NONE || bodyHash == NONE { return Fail(InvalidArgument); }
      if t !in threads { return Fail(ThreadRotated(0)); }
      if generation < threads[t].closedBefore || generation != threads[t].generation {
        return Fail(ThreadRotated(threads[t].generation));
      }
      var c := ContextId(t, generation);
      var k := RunKey(c, run);
      if c !in contexts { return Fail(ThreadRotated(generation)); }
      if k in admissions {
        if admissions[k].bodyHash != bodyHash { return Fail(IdempotencyConflict); }
        return Ok(A.Acquired(admissions[k], true));
      }
      if k in tombstones { return Fail(IdempotencyExpired); }
      var active := FindActive(c);
      if active.Some? { return Fail(TurnBusy(active.value.run)); }
      var bound := BindParent(c, parent);
      if bound.Fail? {
        BoundFails(before, c, parent);
        return Fail(bound.error);
      }
      Admit(k, bodyHash, payload, parent, now);
      r := Ok(A.Acquired(admissions[k], false));
    }

    method Admit(k: RunKey, bodyHash: Id, payload: Id, parent: Id, now: real)
      modifies this
      ensures Snapshot() == A.Admit(old(Snapshot()), k, bodyHash, payload, parent, now)
    {
      hide A.MintRunHandle;
      if k.context !in fences { fences := fences[k.context := 0]; }
      fences := fences[k.context := fences[k.context] + 1];
      admissions := admissions[k := Admission(bodyHash, parent, Reserved, NoOutcome, fences[k.context], payload,
                                              NONE, 0.0, NONE, 0.0, now)];
      if k !in runs { runs := runs[k := NEW_RUN_COUNTERS.(updatedAt := now)]; }
      assert fences == old(fences)[k.context := fences[k.context]];
      MintRunHandle(k);
    }

    // ---- outbox, lease and fence ----

    /** The oldest dispatchable admission, if any. */
    method ClaimDispatch(owner: Id, deadline: real, now: real) returns (claimed: Option<RunKey>)
      requires Valid()
      modifies `admissions
      ensures Valid()
      ensures claimed.Some? ==> A.NextToDispatch(old(Snapshot()), claimed.value, now)
                                && Snapshot() == A.ClaimDispatch(old(Snapshot()), claimed.value, owner, deadline, now)
      ensures claimed.None? ==> Snapshot() == old(Snapshot())
                                && forall k :: k in admissions ==> !A.Dispatchable(admissions[k], now)
    {
      hide Inv, Evolves;
      claimed := OldestDispatchable(now);
      if claimed.Some? {
        var k := claimed.value;
        DispatchKeeps(Snapshot(), k, owner, deadline, now);
        admissions := admissions[k := admissions[k].(
          state := Dispatching, claimOwner := owner, claimDeadline := now + Max(1.0, deadline))];
      }
    }

    /** SELECT ... ORDER BY created_at LIMIT 1. */
    method OldestDispatchable(now: real) returns (oldest: Option<RunKey>)
      ensures oldest.Some? ==> A.NextToDispatch(Snapshot(), oldest.value, now)
      ensures oldest.None? ==> forall k :: k in admissions ==> !A.Dispatchable(admissions[k], now)
    {
      oldest := None;
      var rest := admissions.Keys;
      while rest != {}
        invariant rest <= admissions.Keys
        invariant oldest.None? ==> forall k :: k in admissions && k !in rest ==> !A.Dispatchable(admissions[k], now)
        invariant oldest.Some? ==>
                    && oldest.value in admissions && A.Dispatchable(admissions[oldest.value], now)
                    && forall k :: k in admissions && k !in rest && A.Dispatchable(admissions[k], now)
                                   ==> admissions[oldest.value].createdAt <= admissions[k].createdAt
        decreases rest
      {
        var k :| k in rest;
        rest := rest - {k};
        if A.Dispatchable(admissions[k], now)
           && (oldest.None? || admissions[k].createdAt < admissions[oldest.value].createdAt) {
          oldest := Some(k);
        }
      }
    }

    method AckDispatch(k: RunKey, owner: Id) returns (r: Result<bool>)
      requires Valid()
      modifies `admissions
      ensures Valid() && Did(A.AckDispatch(old(Snapshot()), k, owner), r)
    {
      hide Inv, Evolves;
      AckKeeps(Snapshot(), k, owner);
      if k !in admissions { return Ok(false); }
      var a := admissions[k];
      if a.state.Accepted? || a.state.Running? || a.state.Terminal? || a.state.Orphaned? { return Ok(true); }
      if !a.state.Dispatching? || a.claimOwner != owner { return Ok(false); }
      admissions := admissions[k := a.(state := Accepted, payload := NONE, claimOwner := NONE, claimDeadline := 0.0)];
      r := Ok(true);
    }

    method AdoptRun(k: RunKey, worker: Id, now: real) returns (r: Result<nat>)
      requires Valid()
      modifies `admissions
      ensures Valid() && Did(A.AdoptRun(old(Snapshot()), k, worker, now), r)
    {
      hide Inv, Evolves;
      AdoptKeeps(Snapshot(), k, worker, now);
      if worker == NONE { return Fail(InvalidArgument); }
      if k !in admissions { return Fail(FenceLost); }
      var a := admissions[k];
      if a.state.Running? {
        return if a.leaseOwner != worker then Fail(FenceLost) else Ok(a.fence);
      }
      if !(a.state.Reserved? || a.state.Accepted? || a.state.Dispatching?) { return Fail(FenceLost); }
      admissions := admissions[k := a.(state := Running, leaseOwner := worker, heartbeat := now, claimOwner := NONE,
                                       claimDeadline := 0.0, payload := NONE)];
      r := Ok(a.fence);
    }

    method StartTurn(k: RunKey, worker: Id, now: real) returns (r: Result<nat>)
      requires Valid()
      modifies `admissions
      ensures Valid() && Did(A.StartTurn(old(Snapshot()), k, worker, now), r)
    {
      hide Inv, Evolves;
      StartKeeps(Snapshot(), k, worker, now);
      if worker == NONE { return Fail(InvalidArgument); }
      if k !in admissions || !admissions[k].state.Accepted? { return Fail(FenceLost); }
      admissions := admissions[k := admissions[k].(state := Running, leaseOwner := worker, heartbeat := now)];
      r := Ok(admissions[k].fence);
    }

    method Heartbeat(k: RunKey, worker: Id, now: real) returns (r: Result<bool>)
      requires Valid()
      modifies `admissions
      ensures Valid() && Did(A.Heartbeat(old(Snapshot()), k, worker, now), r)
    {
      hide Inv, Evolves;
      HeartbeatKeeps(Snapshot(), k, worker, now);
      if k in admissions && admissions[k].state.Running? && admissions[k].leaseOwner == worker {
        admissions := admissions[k := admissions[k].(heartbeat := now)];
        return Ok(true);
      }
      r := Ok(false);
    }

    // ---- leaving the active states ----

    method Terminalize(k: RunKey, outcome: Outcome, e: Event, now: real) returns (effective: Outcome)
      requires k in runs
      modifies `runs, `journal
      ensures Snapshot() == J.Terminalize(old(Snapshot()), k, outcome, e, now)
      ensures effective == J.Effective(old(Snapshot()), k, outcome)
    {
      hide J.WriteEvent;
      if runs[k].ended { return runs[k].outcome; }
      WriteEvent(k, e, true, outcome, now);
      effective := outcome;
    }

    method LeaveActive(k: RunKey, exit: Admission, outcome: Outcome, e: Event, now: real)
      requires k in runs && k in admissions
      modifies `admissions, `fences, `runs, `journal, `calls
      ensures Snapshot() == A.LeaveActive(old(Snapshot()), k, exit, outcome, e, now)
    {
      hide J.Terminalize, A.AbandonEmitted;
      var effective := Terminalize(k, outcome, e, now);
      admissions := admissions[k := exit.(outcome := effective, leaseOwner := NONE, heartbeat := 0.0)];
      if k.context in fences { fences := fences[k.context := fences[k.context] + 1]; }
      if !effective.Success? { calls := A.AbandonEmitted(calls, k); }
    }

    /** Freeze the run's batch; the answer is its claimable token. */
    method Freeze(k: RunKey, deadline: real, now: real) returns (token: Token)
      modifies `keyring, `supply, `batches, `calls
      ensures Snapshot() == B.Freeze(old(Snapshot()), k, deadline, now)
      ensures k in batches && batches[k].keyVersion in keyring.keys && token == B.BatchToken(Snapshot(), k)
    {
      hide KeyringFor, Latest, B.WithHandles;
      var version := CurrentKey();
      batches := batches[k := Batch(Frozen, BatchHandle(supply), version, 0, NONE, 0.0, now + Max(1.0, deadline))];
      calls := B.WithHandles(calls, k, supply);
      supply := supply + 1;
      token := Derive(keyring.keys, version, batches[k].handle, BatchUse, OfRun(k), 0);
    }

    method FinishTurn(k: RunKey, worker: Id, outcome: Outcome, provided: Option<Event>, deadline: real,
                      tokenBytes: nat, now: real) returns (r: Result<bool>)
      requires Valid()
      modifies this
      ensures Valid()
      ensures Did(A.FinishTurn(old(Snapshot()), k, worker, outcome, provided, deadline, tokenBytes, now), r)
    {
      hide Inv, Evolves, A.LeaveActive, B.Freeze, B.BatchToken, A.TerminalEvent;
      FinishTurnKeeps(Snapshot(), k, worker, outcome, provided, deadline, tokenBytes, now);
      F.FreezeFrame(Snapshot(), k, deadline, now);
      if outcome.NoOutcome? { return Fail(InvalidArgument); }
      if provided.Some? && (!provided.value.parses || outcome.Success? != provided.value.kind.Finished?) {
        return Fail(InvalidArgument);
      }
      if k !in admissions || !admissions[k].state.Running? || admissions[k].leaseOwner != worker {
        return Fail(FenceLost);
      }
      TurnFacts(Snapshot(), k);
      var isManaged := k.context in contexts && k.context.thread.publication in managed;
      var pending := FindEmitted(k);
      var exit := admissions[k].(state := Terminal);
      var e := A.TerminalEvent(outcome, provided);
      if outcome.Success? && isManaged && pending && !runs[k].ended {
        var token := Freeze(k, deadline, now);
        e := e.(batchToken := Some(token), bytes := tokenBytes);
      }
      LeaveActive(k, exit, outcome, e, now);
      r := Ok(true);
    }

    /** The stale runs, in some order. */
    method StaleRuns(cutoff: real) returns (rows: seq<RunKey>)
      ensures A.StaleRows(Snapshot(), rows, cutoff)
    {
      rows := [];
      var rest := admissions.Keys;
      while rest != {}
        invariant rest <= admissions.Keys
        invariant forall i, j :: 0 <= i < j < |rows| ==> rows[i] != rows[j]
        invariant forall k :: k in rows <==> k in admissions && k !in rest && A.Stale(admissions[k], cutoff)
        decreases rest
      {
        var k :| k in rest;
        rest := rest - {k};
        if A.Stale(admissions[k], cutoff) { rows := rows + [k]; }
      }
    }

    /** Every run whose worker stopped its heartbeat leaves, in one transaction. */
    method OrphanExpired(timeout: real, now: real) returns (rows: seq<RunKey>)
      requires Valid()
      modifies this
      ensures Valid() && A.StaleRows(old(Snapshot()), rows, A.Cutoff(timeout, now))
      ensures Snapshot() == A.OrphanAll(old(Snapshot()), rows, now)
      ensures forall k :: k in admissions ==> !A.Stale(admissions[k], A.Cutoff(timeout, now))
    {
      hide Inv, Evolves, A.OrphanOne, A.OrphanAll;
      ghost var before := Snapshot();
      rows := StaleRuns(A.Cutoff(timeout, now));
      OrphanAllKeeps(before, rows, now);
      OrphansGone(before, rows, A.Cutoff(timeout, now), now);
      OrphanRows(rows, now);
    }

    method OrphanRows(rows: seq<RunKey>, now: real)
      requires Valid() && Sweepable(Snapshot(), rows)
      modifies this
      ensures Valid() && Snapshot() == A.OrphanAll(old(Snapshot()), rows, now)
    {
      hide Inv, Evolves, A.OrphanOne, Sweepable;
      ghost var before := Snapshot();
      var i := 0;
      assert rows[0..] == rows;
      while i < |rows|
        invariant 0 <= i <= |rows| && Valid() && Sweepable(Snapshot(), rows[i..])
        invariant A.OrphanAll(Snapshot(), rows[i..], now) == A.OrphanAll(before, rows, now)
      {
        SweepOne(Snapshot(), rows[i..], now);
        assert rows[i..][0] == rows[i] && rows[i..][1..] == rows[i + 1..];
        OrphanRun(rows[i], now);
        i := i + 1;
      }
    }

    method OrphanRun(k: RunKey, now: real)
      requires k in runs && k in admissions
      modifies `admissions, `fences, `runs, `journal, `calls
      ensures Snapshot() == A.OrphanOne(old(Snapshot()), k, now)
    {
      hide A.LeaveActive;
      LeaveActive(k, admissions[k].(state := if runs[k].ended then Terminal else Orphaned), RunLost, RUN_LOST_EVENT, now);
    }

    // ---- call ledger ----

    method RecordCall(c: CallKey, tool: Id, catalogueId: Id, catalogueVersion: Id) returns (r: Result<bool>)
      requires Valid()
      modifies `calls
      ensures Valid() && Did(A.RecordCall(old(Snapshot()), c, tool, catalogueId, catalogueVersion), r)
    {
      hide Inv, Evolves;
      RecordCallKeeps(Snapshot(), c, tool, catalogueId, catalogueVersion);
      if c.call == NONE { return Fail(InvalidArgument); }
      if c.run !in admissions { return Fail(RunTerminal(NoOutcome)); }
      if !admissions[c.run].state.Running? { return Fail(RunTerminal(admissions[c.run].outcome)); }
      if c.run.context in contexts && c.run.context.thread.publication in managed
         && (catalogueId == NONE || catalogueVersion == NONE) {
        return Fail(InvalidArgument);
      }
      TurnFacts(Snapshot(), c.run);
      if c !in calls {
        calls := calls[c := Call(tool, Emitted, NoHandle, Unbegun, catalogueId, catalogueVersion)];
      }
      r := Ok(true);
    }

    /** The classic path, blind to batches: on a run that has one it can break the ledger. */
    method ConsumeCalls(k: RunKey, provided: set<Id>) returns (r: Result<bool>)
      requires Valid()
      modifies `calls
      ensures Did(A.ConsumeCalls(old(Snapshot()), k, provided), r)
      ensures Valid() <==> k !in batches || provided == {} || r.Fail?
    {
      hide Inv, Evolves, A.PendingCalls, B.ConsumeEmitted;
      ConsumeKeepsIff(Snapshot(), k, provided);
      if provided != A.PendingCalls(Snapshot(), k) { return Fail(ParentMismatch); }
      calls := B.ConsumeEmitted(calls, k);
      r := Ok(true);
    }

    // ---- batches ----

    /** SELECT of the batch by the token's handle. */
    method FindBatch(token: Token) returns (found: Option<RunKey>)
      requires Valid()
      ensures found.Some? <==> B.KnownBatch(Snapshot(), token)
      ensures found.Some? ==> found.value in batches && found.value == B.BatchOf(Snapshot(), token)
    {
      hide Inv;
      if token.Token? {
        if k :| k in batches && batches[k].handle == token.handle {
          NamedBatch(Snapshot(), token, k);
          return Some(k);
        }
      }
      return None;
    }

    method ExpireClaim(k: RunKey)
      requires k in batches
      modifies `expired, `batches
      ensures Snapshot() == B.ExpireClaim(old(Snapshot()), k)
    {
      var b := batches[k];
      expired := expired + {ExpiredClaim(b.handle, b.claimId)};
      batches := batches[k := b.(state := Frozen, claimId := NONE, leaseDeadline := 0.0,
                                 claimGeneration := b.claimGeneration + 1)];
    }

    method ClaimBatch(token: Token, claimId: Id, lease: real, scope: Option<B.Scope>, now: real)
      returns (r: Result<B.Claim>)
      requires Valid()
      modifies `expired, `batches
      ensures Valid() && Did(B.ClaimBatch(old(Snapshot()), token, claimId, lease, scope, now), r)
    {
      hide Inv, Evolves, B.BatchToken, B.ClaimKnown;
      ClaimBatchKeeps(Snapshot(), token, claimId, lease, scope, now);
      if claimId == NONE { return Fail(InvalidArgument); }
      var found := FindBatch(token);
      if found.None? { return Fail(TokenInvalid); }
      var k := found.value;
      if !B.InScope(Snapshot(), k.context, scope) { return Fail(TokenInvalid); }
      if batches[k].keyVersion !in keyring.keys { return Fail(KeyMissing); }
      if token != B.BatchToken(Snapshot(), k) { return Fail(TokenInvalid); }
      r := ClaimKnown(k, claimId, lease, now);
    }

    method ClaimKnown(k: RunKey, claimId: Id, lease: real, now: real) returns (r: Result<B.Claim>)
      requires k in batches && batches[k].keyVersion in keyring.keys
      modifies `expired, `batches
      ensures Did(B.ClaimKnown(old(Snapshot()), k, claimId, lease, now), r)
    {
      hide B.ClaimOf;
      if Open(batches[k]) && batches[k].absoluteDeadline <= now { return Fail(ClaimExpired); }
      if batches[k].state.Claimed? && batches[k].leaseDeadline <= now { ExpireClaim(k); }
      var b := batches[k];
      if ExpiredClaim(b.handle, claimId) in expired { return Fail(ClaimExpired); }
      if b.state.Frozen? {
        batches := batches[k := b.(state := Claimed, claimGeneration := b.claimGeneration + 1, claimId := claimId,
                                   leaseDeadline := now + Max(1.0, lease))];
      } else if b.state.Claimed? || b.state.Committed? {
        if b.claimId != claimId { return Fail(BatchClaimed); }
      } else {
        return Fail(ClaimExpired);
      }
      r := Ok(B.ClaimOf(Snapshot(), k));
    }

    method RenewBatch(token: Token, lease: real, scope: Option<B.Scope>, now: real) returns (r: Result<bool>)
      requires Valid()
      modifies `expired, `batches
      ensures Valid() && Did(B.RenewBatch(old(Snapshot()), token, lease, scope, now), r)
    {
      hide Inv, Evolves, Judge, B.ExpireClaim;
      RenewBatchKeeps(Snapshot(), token, lease, scope, now);
      var found := FindBatch(token);
      if found.None? { return Fail(TokenInvalid); }
      var k := found.value;
      var b := batches[k];
      if !B.InScope(Snapshot(), k.context, scope) { return Fail(TokenInvalid); }
      if b.keyVersion !in keyring.keys { return Fail(KeyMissing); }
      var verdict := VerifyGenerationBound(keyring.keys, b.keyVersion, b.handle, OwnerUse, OfRun(k), b.claimGeneration,
                                           token);
      if verdict.Stale? { return Fail(ClaimExpired); }
      if verdict.Invalid? { return Fail(TokenInvalid); }
      if b.state.Committed? { return Ok(true); }
      if !b.state.Claimed? || b.absoluteDeadline <= now { return Fail(ClaimExpired); }
      if b.leaseDeadline <= now {
        ExpireClaim(k);
        return Fail(ClaimExpired);
      }
      batches := batches[k := b.(leaseDeadline := Min(now + Max(1.0, lease), b.absoluteDeadline))];
      r := Ok(true);
    }

    /** The call a receipt names, verified against its batch's current claim generation. */
    method CallByReceipt(receipt: Token, scope: Option<B.Scope>) returns (r: Result<CallKey>)
      requires Valid()
      ensures r == B.CallByReceipt(Snapshot(), receipt, scope)
      ensures r.Ok? ==> r.value in calls && r.value.run in batches
    {
      hide Inv, Judge;
      if receipt.Malformed? || receipt.handle == NoHandle { return Fail(TokenInvalid); }
      if c :| c in calls && calls[c].handle == receipt.handle {
        NamedCall(Snapshot(), receipt, c);
        if !B.InScope(Snapshot(), c.run.context, scope) || c.run !in batches { return Fail(TokenInvalid); }
        var b := batches[c.run];
        if b.keyVersion !in keyring.keys { return Fail(KeyMissing); }
        var verdict := VerifyGenerationBound(keyring.keys, b.keyVersion, receipt.handle, ReceiptUse, OfCall(c),
                                             b.claimGeneration, receipt);
        return match verdict case Valid => Ok(c) case Stale => Fail(ClaimExpired) case Invalid => Fail(TokenInvalid);
      }
      r := Fail(TokenInvalid);
    }

    /** SELECT COUNT of the run's undecided calls. */
    method AnyUndecided(k: RunKey) returns (some: bool)
      ensures some == B.SomeUndecided(calls, k)
    {
      if c :| c in calls && c.run == k && Undecided(calls[c]) { return true; }
      return false;
    }

    method CompleteIfDone(k: RunKey)
      modifies `batches
      ensures Snapshot() == B.CompleteIfDone(old(Snapshot()), k)
    {
      var remaining := AnyUndecided(k);
      if !remaining && k in batches && !batches[k].state.Complete? {
        batches := batches[k := batches[k].(state := Complete, leaseDeadline := 0.0)];
      }
    }

    method BeginCall(receipt: Token, catalogueId: Id, catalogueVersion: Id, scope: Option<B.Scope>, now: real)
      returns (r: Result<bool>)
      requires Valid()
      modifies `calls, `batches, `expired
      ensures Valid() && Did(B.BeginCall(old(Snapshot()), receipt, catalogueId, catalogueVersion, scope, now), r)
    {
      hide Inv, Evolves, B.CallByReceipt, B.ExpireClaim, B.CompleteIfDone;
      BeginCallKeeps(Snapshot(), receipt, catalogueId, catalogueVersion, scope, now);
      var found := CallByReceipt(receipt, scope);
      if found.Fail? { return Fail(found.error); }
      r := BeginKnown(found.value, catalogueId, catalogueVersion, now);
    }

    method BeginKnown(c: CallKey, catalogueId: Id, catalogueVersion: Id, now: real) returns (r: Result<bool>)
      requires c in calls && c.run in batches
      modifies `calls, `batches, `expired
      ensures Did(B.BeginKnown(old(Snapshot()), c, catalogueId, catalogueVersion, now), r)
    {
      hide B.ExpireClaim, B.CompleteIfDone;
      var b := batches[c.run];
      if b.state.Complete? || b.state.BatchConsumed? { return Fail(ClaimExpired); }
      if b.absoluteDeadline <= now { return Fail(ClaimExpired); }
      if b.state.Claimed? {
        if b.leaseDeadline <= now {
          ExpireClaim(c.run);
          return Fail(ClaimExpired);
        }
      } else if !b.state.Committed? {
        return Fail(ClaimExpired);
      }
      if calls[c].exec.Executing? { return Ok(true); }
      if calls[c].exec.Done? { return Fail(DepositRejected); }
      var rejection := B.CatalogueVerdict(calls[c], catalogueId, catalogueVersion);
      if rejection.Some? {
        calls := calls[c := calls[c].(exec := Done(rejection.value, NONE))];
        CompleteIfDone(c.run);
        return Fail(CatalogueRejected(rejection.value));
      }
      batches := batches[c.run := b.(state := Committed)];
      calls := calls[c := calls[c].(exec := Executing)];
      r := Ok(true);
    }

    method DepositCall(receipt: Token, kind: Kind, payload: Id, scope: Option<B.Scope>, now: real)
      returns (r: Result<B.Deposit>)
      requires Valid()
      modifies `calls, `batches, `expired
      ensures Valid() && Did(B.DepositCall(old(Snapshot()), receipt, kind, payload, scope, now), r)
    {
      hide Inv, Evolves, B.CallByReceipt, B.DepositKnown;
      DepositCallKeeps(Snapshot(), receipt, kind, payload, scope, now);
      var found := CallByReceipt(receipt, scope);
      if found.Fail? { return Fail(found.error); }
      r := DepositKnown(found.value, kind, payload, now);
    }

    method DepositKnown(c: CallKey, kind: Kind, payload: Id, now: real) returns (r: Result<B.Deposit>)
      requires c in calls && c.run in batches
      modifies `calls, `batches, `expired
      ensures Did(B.DepositKnown(old(Snapshot()), c, kind, payload, now), r)
    {
      hide B.ExpireClaim, B.CompleteIfDone, Effect, NoEffect;
      var b := batches[c.run];
      var closed := b.state.Complete? || b.state.BatchConsumed?;
      var exec := calls[c].exec;
      if exec.Done? {
        if exec.kind == kind && exec.payload == payload { return Ok(B.Deposit(kind, payload, b.state, true)); }
        return if closed then Ok(B.Deposit(exec.kind, exec.payload, b.state, true)) else Fail(ReceiptConflict);
      }
      if closed { return Ok(B.Deposit(UnknownKind(NONE), NONE, b.state, true)); }
      if exec.Executing? {
        if !Effect(kind) { return Fail(DepositRejected); }
      } else {
        if !NoEffect(kind) { return Fail(DepositRejected); }
        if b.state.Claimed? && b.leaseDeadline <= now {
          ExpireClaim(c.run);
          return Fail(ClaimExpired);
        }
      }
      calls := calls[c := calls[c].(exec := Done(kind, payload))];
      CompleteStill(Snapshot(), c.run);
      CompleteIfDone(c.run);
      r := Ok(B.Deposit(kind, payload, batches[c.run].state, false));
    }

    /** The absolute-deadline sweep: one transaction per batch, until none is overdue. */
    method ExpireBatches(now: real) returns (count: nat)
      requires Valid()
      modifies `calls, `batches
      ensures Valid() && forall k :: !B.Overdue(Snapshot(), k, now)
      ensures count == |OverdueSet(old(batches), now)|
      ensures forall k :: k in old(batches) && !B.Overdue(old(Snapshot()), k, now)
                          ==> k in batches && batches[k] == old(batches[k])
    {
      hide Inv, Evolves, B.ExpireBatch, OverdueSet;
      count := 0;
      var more := true;
      while more
        invariant Valid() && batches.Keys == old(batches).Keys
        invariant count + |OverdueSet(batches, now)| == |OverdueSet(old(batches), now)|
        invariant !more ==> OverdueSet(batches, now) == {}
        invariant forall k :: k in batches && k !in OverdueSet(old(batches), now) ==> batches[k] == old(batches[k])
        invariant OverdueSet(batches, now) <= OverdueSet(old(batches), now)
        decreases |OverdueSet(batches, now)|, more
      {
        var k := FindOverdue(now);
        if k.None? {
          more := false;
        } else {
          ExpireBatchKeeps(Snapshot(), k.value);
          ExpiredOne(Snapshot(), k.value, now);
          ExpireBatch(k.value);
          count := count + 1;
        }
      }
      NoneOverdue(Snapshot(), now);
      OverdueBefore(old(Snapshot()), now);
    }

    method FindOverdue(now: real) returns (found: Option<RunKey>)
      ensures found.Some? ==> B.Overdue(Snapshot(), found.value, now)
      ensures found.None? ==> OverdueSet(batches, now) == {}
    {
      if k :| k in batches && Open(batches[k]) && batches[k].absoluteDeadline <= now { return Some(k); }
      return None;
    }

    method ExpireBatch(k: RunKey)
      modifies `calls, `batches
      ensures Snapshot() == B.ExpireBatch(old(Snapshot()), k)
    {
      LapseIs(Snapshot(), k);
      hide B.CompleteIfDone, LapseAll, B.ExpireBatch;
      calls := LapseAll(calls, k);
      CompleteIfDone(k);
    }

    /** Drop keys neither current nor pinned by a batch or a run handle. */
    method PruneKeys() returns (r: Result<nat>)
      requires Valid()
      modifies `keyring
      ensures Valid() && Did(TurnTokens.PruneKeys(old(Snapshot())), r)
    {
      hide Inv, Evolves, PinnedKeys;
      PruneKeysKeeps(Snapshot());
      if keyring.keys.Keys == {} {
        NoKeys(Snapshot());
        return Ok(0);
      }
      var current := HighestKey(keyring.keys);
      KeptAre(Snapshot(), current);
      hide TurnTokens.PruneKeys;
      var kept := PinnedKeys(Snapshot(), current);
      r := Ok(|keyring.keys.Keys - kept.Keys|);
      keyring := keyring.(keys := kept);
    }

    // ---- cancellation ----

    method ResolveRunToken(token: Token, usage: Usage, scope: Option<B.Scope>) returns (r: Result<RunKey>)
      requires Valid()
      ensures r == A.ResolveRunToken(Snapshot(), token, usage, scope)
      ensures r.Ok? ==> r.value in runTokens
    {
      hide Inv;
      if token.Token? {
        if k :| k in runTokens && runTokens[k].handle == token.handle {
          NamedRun(Snapshot(), token, k);
          if !B.InScope(Snapshot(), k.context, scope) { return Fail(TokenInvalid); }
          if runTokens[k].keyVersion !in keyring.keys { return Fail(KeyMissing); }
          return if token != A.RunCredential(Snapshot(), k, usage) then Fail(TokenInvalid) else Ok(k);
        }
      }
      r := Fail(TokenInvalid);
    }

    method CancelRun(token: Token, scope: Option<B.Scope>, now: real) returns (r: Result<A.CancelAnswer>)
      requires Valid()
      modifies this
      ensures Valid() && Did(A.CancelRun(old(Snapshot()), token, scope, now), r)
    {
      hide Inv, Evolves, A.ResolveRunToken, A.LeaveActive;
      CancelKeeps(Snapshot(), token, scope, now);
      var resolved := ResolveRunToken(token, CancelUse, scope);
      if resolved.Fail? { return Fail(resolved.error); }
      var k := resolved.value;
      if k !in admissions { return Fail(TokenInvalid); }
      if !Active(admissions[k]) { return Ok(A.CancelAnswer(k, admissions[k].outcome, true)); }
      TurnFacts(Snapshot(), k);
      var exit := admissions[k].(state := Terminal, claimOwner := NONE, claimDeadline := 0.0, payload := NONE);
      LeftHas(Snapshot(), k, exit, Cancelled, CANCELLED_EVENT, now);
      LeaveActive(k, exit, Cancelled, CANCELLED_EVENT, now);
      r := Ok(A.CancelAnswer(k, admissions[k].outcome, false));
    }
  }

  function ToPrune(runs: map<RunKey, JournalRun>, cutoff: real): set<RunKey> {
    set k | k in runs && J.Prunable(runs[k], cutoff)
  }

  /** The journal tables while a prune still has these rows to do. */
  function RunsSoFar(runs: map<RunKey, JournalRun>, rows: set<RunKey>, cutoff: real, now: real): map<RunKey, JournalRun> {
    map k | k in runs ::
      if k !in rows && J.Prunable(runs[k], cutoff)
      then runs[k].(watermark := runs[k].committed, updatedAt := now) else runs[k]
  }

  function RowsBut(journal: map<JournalKey, Event>, k: RunKey): map<JournalKey, Event> {
    map j | j in journal && j.run != k :: journal[j]
  }

  function RowsSoFar(runs: map<RunKey, JournalRun>, journal: map<JournalKey, Event>, rows: set<RunKey>, cutoff: real)
    : map<JournalKey, Event>
  {
    map j | j in journal && !(j.run in runs && j.run !in rows && J.Prunable(runs[j.run], cutoff)) :: journal[j]
  }

  lemma PruneStarts(db: Db, cutoff: real, now: real)
    ensures var rows := ToPrune(db.runs, cutoff);
            && (forall k :: k in rows ==> k in db.runs && J.Prunable(db.runs[k], cutoff))
            && RunsSoFar(db.runs, rows, cutoff, now) == db.runs
            && RowsSoFar(db.runs, db.journal, rows, cutoff) == db.journal
  {
    assert forall k :: k in db.runs ==> (k !in ToPrune(db.runs, cutoff) <==> !J.Prunable(db.runs[k], cutoff));
  }

  lemma PruneOne(runs: map<RunKey, JournalRun>, journal: map<JournalKey, Event>, rows: set<RunKey>, k: RunKey,
                 cutoff: real, now: real)
    requires k in rows && k in runs && J.Prunable(runs[k], cutoff)
    ensures var r := RunsSoFar(runs, rows, cutoff, now);
            && k in r
            && RunsSoFar(runs, rows - {k}, cutoff, now) == r[k := r[k].(watermark := r[k].committed, updatedAt := now)]
            && RowsSoFar(runs, journal, rows - {k}, cutoff) == RowsBut(RowsSoFar(runs, journal, rows, cutoff), k)
  {
  }

  lemma PruneEnds(db: Db, retention: real, now: real)
    ensures var cutoff := now - Max(0.0, retention); var after := J.Prune(db, retention, now);
            after == db.(runs := RunsSoFar(db.runs, {}, cutoff, now), journal := RowsSoFar(db.runs, db.journal, {}, cutoff))
  {
  }

  lemma BoundFails(db: Db, c: ContextId, parent: Id)
    ensures var bound := A.BindParent(db, c, parent); bound.result.Fail? ==> bound.db == db
  {
  }

  /** SELECT MAX(version). */
  method HighestKey(keys: map<nat, Id>) returns (version: nat)
    requires keys.Keys != {}
    ensures version == Latest(keys)
  {
    version :| version in keys;
    var rest := keys.Keys;
    while rest != {}
      invariant rest <= keys.Keys && version in keys
      invariant forall w :: w in keys && w !in rest ==> w <= version
      decreases rest
    {
      var w :| w in rest;
      rest := rest - {w};
      if version < w { version := w; }
    }
  }

  lemma LeftHas(db: Db, k: RunKey, exit: Admission, outcome: Outcome, e: Event, now: real)
    requires k in db.runs && k in db.admissions
    ensures k in A.LeaveActive(db, k, exit, outcome, e, now).admissions
  {
  }

  /** One row of the sweep leaves the rest to be swept. */
  lemma SweepOne(db: Db, rows: seq<RunKey>, now: real)
    requires Inv(db) && Sweepable(db, rows) && rows != []
    ensures rows[0] in db.runs && rows[0] in db.admissions
    ensures var next := A.OrphanOne(db, rows[0], now);
            Inv(next) && Sweepable(next, rows[1..]) && A.OrphanAll(db, rows, now) == A.OrphanAll(next, rows[1..], now)
  {
    hide Inv, Evolves, A.OrphanOne;
    TurnFacts(db, rows[0]);
    OrphanOneKeeps(db, rows[0], now);
    OrphanedRow(db, rows[0], now);
  }

  /** After the sweep no run is stale. */
  lemma {:induction false} OrphansGone(db: Db, rows: seq<RunKey>, cutoff: real, now: real)
    requires Inv(db) && Sweepable(db, rows)
    requires forall k :: k in db.admissions && A.Stale(db.admissions[k], cutoff) ==> k in rows
    ensures var after := A.OrphanAll(db, rows, now).admissions;
            forall k :: k in after ==> !A.Stale(after[k], cutoff)
    decreases |rows|
  {
    hide Inv, Evolves, A.OrphanOne, Sweepable;
    if rows != [] {
      SweepOne(db, rows, now);
      var next := A.OrphanOne(db, rows[0], now);
      OrphanedRow(db, rows[0], now);
      OrphanStops(db, rows[0], now);
      assert rows == [rows[0]] + rows[1..];
      OrphansGone(next, rows[1..], cutoff, now);
    }
  }

  lemma OrphanStops(db: Db, k: RunKey, now: real)
    requires k in db.runs && k in db.admissions
    ensures var next := A.OrphanOne(db, k, now); k in next.admissions && !next.admissions[k].state.Running?
  {
  }

  lemma NamedBatch(db: Db, token: Token, k: RunKey)
    requires Inv(db) && token.Token? && k in db.batches && db.batches[k].handle == token.handle
    ensures B.KnownBatch(db, token) && B.BatchOf(db, token) == k
  {
    hide CurrentOnly, Rooted, Fenced, Exited, Journaled, Ledgered, Earned, OneBatch, Progressed, LiveClaims, Named,
      Minted, Keyed, Parented, Published;
    C.TokenNames(db, token, k);
  }

  lemma NamedCall(db: Db, receipt: Token, c: CallKey)
    requires Inv(db) && receipt.Token? && receipt.handle != NoHandle
    requires c in db.calls && db.calls[c].handle == receipt.handle
    ensures B.KnownCall(db, receipt) && B.CallOf(db, receipt) == c
  {
    hide CurrentOnly, Rooted, Fenced, Exited, Journaled, Ledgered, Earned, OneBatch, Progressed, LiveClaims, Named,
      Minted, Keyed, Parented, Published;
    C.ReceiptNamesCall(db, receipt, c);
  }

  lemma NamedRun(db: Db, token: Token, k: RunKey)
    requires Inv(db) && token.Token? && k in db.runTokens && db.runTokens[k].handle == token.handle
    ensures A.KnownRun(db, token) && A.RunOf(db, token) == k
  {
    assert A.IsRunOf(db, token, k);
  }

  lemma CompleteStill(db: Db, k: RunKey)
    ensures k in db.batches ==> k in B.CompleteIfDone(db, k).batches
  {
  }

  function OverdueSet(batches: map<RunKey, Batch>, now: real): set<RunKey> {
    set k | k in batches && Open(batches[k]) && batches[k].absoluteDeadline <= now
  }

  lemma NoneOverdue(db: Db, now: real)
    requires OverdueSet(db.batches, now) == {}
    ensures forall k :: !B.Overdue(db, k, now)
  {
    forall k ensures !B.Overdue(db, k, now) {
      assert k !in OverdueSet(db.batches, now);
    }
  }

  lemma OverdueBefore(db: Db, now: real)
    ensures forall k :: k in OverdueSet(db.batches, now) <==> B.Overdue(db, k, now)
  {
  }

  /** Expiring one overdue batch closes it and touches no other batch. */
  lemma ExpiredOne(db: Db, k: RunKey, now: real)
    requires B.Overdue(db, k, now) && !Open(B.ExpireBatch(db, k).batches[k])
    ensures var after := B.ExpireBatch(db, k).batches;
            && after.Keys == db.batches.Keys
            && (forall j :: j in db.batches && j != k ==> after[j] == db.batches[j])
            && k in OverdueSet(db.batches, now)
            && OverdueSet(after, now) == OverdueSet(db.batches, now) - {k}
            && |OverdueSet(after, now)| == |OverdueSet(db.batches, now)| - 1
  {
    var after := B.ExpireBatch(db, k).batches;
    assert OverdueSet(after, now) == OverdueSet(db.batches, now) - {k};
  }

  lemma LapseIs(db: Db, k: RunKey)
    ensures B.ExpireBatch(db, k) == B.CompleteIfDone(db.(calls := LapseAll(db.calls, k)), k)
  {
    hide B.CompleteIfDone;
    assert LapseAll(db.calls, k) == map c | c in db.calls :: if c.run == k then B.Lapse(db.calls[c]) else db.calls[c];
  }

  function PinnedKeys(db: Db, current: nat): map<nat, Id> {
    map v | v in db.keyring.keys
            && (v == current || v in (set k | k in db.batches :: db.batches[k].keyVersion)
                || v in (set k | k in db.runTokens :: db.runTokens[k].keyVersion)) :: db.keyring.keys[v]
  }

  lemma NoKeys(db: Db)
    requires db.keyring.keys.Keys == {}
    ensures TurnTokens.PruneKeys(db) == Tx(db, Ok(0))
  {
    var r := TurnTokens.PruneKeys(db);
    assert r.db.keyring.keys == db.keyring.keys;
    assert db.keyring.keys.Keys - r.db.keyring.keys.Keys == {};
  }

  lemma KeptAre(db: Db, current: nat)
    requires db.keyring.keys.Keys != {} && current == Latest(db.keyring.keys)
    ensures TurnTokens.PruneKeys(db)
         == Tx(db.(keyring := db.keyring.(keys := PinnedKeys(db, current))),
               Ok(|db.keyring.keys.Keys - PinnedKeys(db, current).Keys|))
  {
    var kept := TurnTokens.PruneKeys(db).db.keyring.keys;
    forall v ensures v in kept <==> v in PinnedKeys(db, current) {
      if v in kept { assert !TurnTokens.Prunable(db, v); }
    }
    assert kept == PinnedKeys(db, current);
  }

  lemma PageIs(journal: map<JournalKey, Event>, k: RunKey, cursor: nat, rows: seq<J.Row>)
    requires forall i :: 0 <= i < |rows| ==>
               JournalKey(k, cursor + 1 + i) in journal
               && rows[i] == J.Row(cursor + 1 + i, journal[JournalKey(k, cursor + 1 + i)])
    ensures forall i: nat :: cursor < i <= cursor + |rows| ==> JournalKey(k, i) in journal
    ensures rows == J.RowsBetween(journal, k, cursor, cursor + |rows|)
  {
    forall i: nat | cursor < i <= cursor + |rows| ensures JournalKey(k, i) in journal {
      var at := rows[i - cursor - 1];
      assert at.sequence == i;
    }
  }

  lemma JournalGapless(db: Db, k: RunKey)
    requires Inv(db) && k in db.runs
    ensures J.Gapless(db, k) && (forall j :: j in db.journal && j.run == k ==> j.sequence <= db.runs[k].committed)
  {
  }

  lemma DropShape(db: Db, c: ContextId)
    ensures var d := T.DropContext(db, c);
            d == db.(contexts := d.contexts, admissions := d.admissions, fences := d.fences, runs := d.runs,
                     journal := d.journal, calls := d.calls, batches := d.batches, runTokens := d.runTokens)
  {
  }

  lemma OneActive(db: Db, j: RunKey, k: RunKey)
    requires Inv(db) && j in db.admissions && k in db.admissions && j.context == k.context
    requires Active(db.admissions[j]) && Active(db.admissions[k])
    ensures j == k
  {
  }

  lemma OneUnconsumed(db: Db, j: RunKey, k: RunKey)
    requires Inv(db) && j in db.batches && k in db.batches && j.context == k.context
    requires A.Unconsumed(db.batches[j]) && A.Unconsumed(db.batches[k])
    ensures j == k
  {
  }
}

/** How a turn enters and is worked on: admission, outbox, leases and the call ledger, told from the arguments and the
    rows alone. */
module TurnEntryLaws {
  import opened Basics
  import opened TurnTypes
  import opened TurnThreads
  import opened TurnBatches
  import opened TurnAdmissions
  import opened TurnInvariants
  import opened TurnBatchLaws

  // ---- the parent of a follow-up ----

  /** A run of the context waits for its batch to be fed back. */
  ghost predicate WaitsForBatch(db: Db, c: ContextId, k: RunKey) {
    k in db.batches && k.context == c && !db.batches[k].state.BatchConsumed?
  }

  /** The run has calls that nobody answered. */
  ghost predicate Unanswered(db: Db, k: RunKey) {
    exists x :: x in db.calls && x.run == k && db.calls[x].state.Emitted?
  }

  ghost predicate AnyUnanswered(db: Db, c: ContextId) {
    exists x :: x in db.calls && x.run.context == c && db.calls[x].state.Emitted?
  }

  /** A complete batch is consumed by the follow-up: the batch row and the run's emitted calls move on. */
  ghost predicate Consumes(db: Db, after: Db, k: RunKey)
    requires k in db.batches
  {
    && after == db.(calls := after.calls, batches := db.batches[k := db.batches[k].(state := BatchConsumed)])
    && after.calls.Keys == db.calls.Keys
    && forall c :: c in db.calls ==>
         after.calls[c] == if c.run == k && db.calls[c].state.Emitted? then db.calls[c].(state := Consumed) else db.calls[c]
  }

  /** Whom a new run must name as its parent: the run of a complete batch, which is then consumed; in a context without a
      batch that waits, a run with unanswered calls; and nobody when nothing is pending. */
  ghost predicate BindsAs(db: Db, c: ContextId, parent: Id, r: Tx<bool>) {
    if exists k :: WaitsForBatch(db, c, k) then
      exists k :: WaitsForBatch(db, c, k)
        && if !db.batches[k].state.Complete? then r == Tx(db, Fail(BatchIncomplete(k.run)))
           else if parent != k.run then r == Tx(db, Fail(ParentMismatch))
           else r.result == Ok(true) && Consumes(db, r.db, k)
    else
      && r.db == db
      && r.result == if AnyUnanswered(db, c) && Unanswered(db, RunKey(c, parent)) then Ok(true)
                     else if !AnyUnanswered(db, c) && parent == NONE then Ok(false)
                     else Fail(ParentMismatch)
  }

  lemma BindsIs(db: Db, c: ContextId, parent: Id)
    ensures BindsAs(db, c, parent, BindParent(db, c, parent))
  {
    hide Consumes, ConsumeBatch;
    WaitsIs(db, c);
    if HasUnconsumed(db, c) {
      var k := UnconsumedBatch(db, c);
      assert WaitsForBatch(db, c, k);
      if db.batches[k].state.Complete? { ConsumesIs(db, k); }
    }
  }

  lemma WaitsIs(db: Db, c: ContextId)
    ensures (exists k :: WaitsForBatch(db, c, k)) <==> HasUnconsumed(db, c)
  {
    forall k ensures WaitsForBatch(db, c, k) <==> k in db.batches && k.context == c && Unconsumed(db.batches[k]) {
    }
    hide WaitsForBatch, Unconsumed;
  }

  lemma ConsumesIs(db: Db, k: RunKey)
    requires k in db.batches && db.batches[k].state.Complete?
    ensures Consumes(db, ConsumeBatch(db, k), k)
  {
  }

  // ---- admission ----

  /** A run without a handle gets one of its own, under the newest key. */
  ghost predicate MintsAs(db: Db, after: Db, k: RunKey) {
    && after == db.(runTokens := after.runTokens, keyring := after.keyring, supply := after.supply)
    && (k in db.runTokens ==> after == db)
    && (k !in db.runTokens ==>
          && k in after.runTokens && after.runTokens == db.runTokens[k := after.runTokens[k]]
          && after.runTokens[k].keyVersion in after.keyring.keys && after.runTokens[k].handle.RunHandle?
          && db.supply <= after.runTokens[k].handle.n < after.supply
          && (forall v :: v in after.keyring.keys ==> v <= after.runTokens[k].keyVersion)
          && (db.keyring.keys != map[] ==> after.keyring == db.keyring)
          && (db.keyring.keys == map[] ==> after.runTokens[k].keyVersion == db.keyring.highWater + 1))
  }

  lemma MintsIs(db: Db, k: RunKey)
    ensures MintsAs(db, MintRunHandle(db, k), k)
  {
  }

  /** The reserved row with its fence one past the context's last, its journal and its handle. */
  ghost predicate AdmitsAs(db: Db, after: Db, k: RunKey, bodyHash: Id, payload: Id, parent: Id, now: real) {
    var fence := (if k.context in db.fences then db.fences[k.context] else 0) + 1;
    MintsAs(db.(fences := db.fences[k.context := fence],
                admissions := db.admissions[k := Admission(bodyHash, parent, Reserved, NoOutcome, fence, payload, NONE, 0.0,
                                                           NONE, 0.0, now)],
                runs := if k in db.runs then db.runs
                        else db.runs[k := JournalRun(false, NoOutcome, 0, 0, 0, 0, 0, now)]), after, k)
  }

  lemma AdmitsIs(db: Db, k: RunKey, bodyHash: Id, payload: Id, parent: Id, now: real)
    ensures AdmitsAs(db, Admit(db, k, bodyHash, payload, parent, now), k, bodyHash, payload, parent, now)
  {
    hide MintsAs, MintRunHandle;
    var token := (if k.context in db.fences then db.fences[k.context] else 0) + 1;
    var reserved := db.(
      fences := db.fences[k.context := token],
      admissions := db.admissions[k := Admission(bodyHash, parent, Reserved, NoOutcome, token, payload,
                                                 NONE, 0.0, NONE, 0.0, now)],
      runs := if k in db.runs then db.runs else db.runs[k := NEW_RUN_COUNTERS.(updatedAt := now)]);
    MintsIs(reserved, k);
  }

  /** The thread is at this generation, not closed to it, and has a context. */
  ghost predicate Enters(db: Db, t: ThreadKey, generation: int) {
    && t in db.threads && db.threads[t].generation == generation && db.threads[t].closedBefore <= generation
    && ContextId(t, generation) in db.contexts
  }

  /** A turn of the context is under way. */
  ghost predicate Busy(db: Db, k: RunKey, c: ContextId) {
    k in db.admissions && k.context == c && !db.admissions[k].state.Terminal? && !db.admissions[k].state.Orphaned?
  }

  ghost predicate AcquiresAs(db: Db, k: RunKey, bodyHash: Id, payload: Id, parent: Id, now: real, r: Tx<Acquired>) {
    if k in db.admissions then
      r == Tx(db, if db.admissions[k].bodyHash == bodyHash then Ok(Acquired(db.admissions[k], true))
                  else Fail(IdempotencyConflict))
    else if k in db.tombstones then r == Tx(db, Fail(IdempotencyExpired))
    else if exists j :: Busy(db, j, k.context) then
      exists j :: Busy(db, j, k.context) && r == Tx(db, Fail(TurnBusy(j.run)))
    else
      exists bound :: BindsAs(db, k.context, parent, bound)
        && if bound.result.Fail? then r == Tx(db, Fail(bound.result.error))
           else
             && AdmitsAs(bound.db, r.db, k, bodyHash, payload, parent, now)
             && k in r.db.admissions && r.result == Ok(Acquired(r.db.admissions[k], false))
  }

  lemma BusyIs(db: Db, c: ContextId)
    ensures HasActive(db, c) <==> exists k :: Busy(db, k, c)
    ensures HasActive(db, c) ==> Busy(db, ActiveRun(db, c), c)
  {
    if k :| Busy(db, k, c) { assert Active(db.admissions[k]); }
    if HasActive(db, c) { assert Busy(db, ActiveRun(db, c), c); }
  }

  lemma AcquiresKnown(db: Db, t: ThreadKey, generation: int, run: Id, bodyHash: Id, payload: Id, parent: Id, now: real)
    requires Enters(db, t, generation) && run != NONE && bodyHash != NONE
    ensures generation >= 0
    ensures AcquiresAs(db, RunKey(ContextId(t, generation), run), bodyHash, payload, parent, now,
                       AcquireTurn(db, t, generation, run, bodyHash, payload, parent, now))
  {
    hide BindParent, Admit, BindsAs, AdmitsAs, HasActive, Busy;
    var c := ContextId(t, generation);
    BusyIs(db, c);
    BindsIs(db, c, parent);
    var bound := BindParent(db, c, parent);
    AdmitsIs(bound.db, RunKey(c, run), bodyHash, payload, parent, now);
  }

  /** Outside the thread's current generation nothing is admitted. */
  lemma AcquireLaw(db: Db, t: ThreadKey, generation: int, run: Id, bodyHash: Id, payload: Id, parent: Id, now: real)
    ensures var r := AcquireTurn(db, t, generation, run, bodyHash, payload, parent, now);
            if run == NONE || bodyHash == NONE then r == Tx(db, Fail(InvalidArgument))
            else if !Enters(db, t, generation) then
              r == Tx(db, Fail(ThreadRotated(if t in db.threads then db.threads[t].generation else 0)))
            else
              && generation >= 0
              && AcquiresAs(db, RunKey(ContextId(t, generation), run), bodyHash, payload, parent, now, r)
  {
    hide AcquiresAs, BindParent, Admit, HasActive;
    if run != NONE && bodyHash != NONE && Enters(db, t, generation) {
      AcquiresKnown(db, t, generation, run, bodyHash, payload, parent, now);
    }
  }

  // ---- outbox and leases ----

  /** Waiting to be dispatched: never taken, or taken by a worker whose time is up. */
  predicate Waiting(a: Admission, now: real) { a.state.Reserved? || (a.state.Dispatching? && now >= a.claimDeadline) }

  /** The row dispatched is a waiting one, none of the others is older, and its owner gets at least a second. */
  lemma DispatchLaw(db: Db, k: RunKey, owner: Id, seconds: real, now: real)
    requires NextToDispatch(db, k, now)
    ensures k in db.admissions && Waiting(db.admissions[k], now)
    ensures forall j :: j in db.admissions && Waiting(db.admissions[j], now) ==>
              db.admissions[k].createdAt <= db.admissions[j].createdAt
    ensures ClaimDispatch(db, k, owner, seconds, now)
            == db.(admissions := db.admissions[k := db.admissions[k].(
                 state := Dispatching, claimOwner := owner, claimDeadline := now + AtLeastOne(seconds))])
  {
    forall j | j in db.admissions && Waiting(db.admissions[j], now)
      ensures db.admissions[k].createdAt <= db.admissions[j].createdAt
    {
      assert Dispatchable(db.admissions[j], now);
    }
  }

  lemma NoneWaits(db: Db, now: real)
    requires forall k :: !NextToDispatch(db, k, now)
    ensures forall k :: k in db.admissions ==> !Waiting(db.admissions[k], now)
  {
    if k :| k in db.admissions && Waiting(db.admissions[k], now) {
      var waiting := set j | j in db.admissions && Dispatchable(db.admissions[j], now);
      assert k in waiting;
      var first := Oldest(db, waiting);
      assert NextToDispatch(db, first, now);
    }
  }

  lemma {:induction false} Oldest(db: Db, rows: set<RunKey>) returns (first: RunKey)
    requires rows != {} && rows <= db.admissions.Keys
    ensures first in rows && forall j :: j in rows ==> db.admissions[first].createdAt <= db.admissions[j].createdAt
    decreases |rows|
  {
    first :| first in rows;
    if rows != {first} {
      var rest := Oldest(db, rows - {first});
      if db.admissions[rest].createdAt < db.admissions[first].createdAt { first := rest; }
    }
  }

  /** Only the owner of the claim accepts the dispatch; once it was accepted, repeating is harmless. */
  lemma AckLaw(db: Db, k: RunKey, owner: Id)
    ensures var r := AckDispatch(db, k, owner);
            if k in db.admissions && db.admissions[k].state.Dispatching? && db.admissions[k].claimOwner == owner then
              r == Tx(db.(admissions := db.admissions[k := db.admissions[k].(
                        state := Accepted, payload := NONE, claimOwner := NONE, claimDeadline := 0.0)]), Ok(true))
            else
              r == Tx(db, Ok(k in db.admissions && !db.admissions[k].state.Reserved? && !db.admissions[k].state.Dispatching?))
  {
  }

  /** The first worker to adopt an active run leases it; the same worker may ask again, nobody else may. */
  lemma AdoptLaw(db: Db, k: RunKey, worker: Id, now: real)
    ensures var r := AdoptRun(db, k, worker, now);
            if worker == NONE then r == Tx(db, Fail(InvalidArgument))
            else if k in db.admissions && db.admissions[k].state.Running? && db.admissions[k].leaseOwner == worker then
              r == Tx(db, Ok(db.admissions[k].fence))
            else if k in db.admissions && (db.admissions[k].state.Reserved? || db.admissions[k].state.Dispatching?
                                           || db.admissions[k].state.Accepted?) then
              r == Tx(db.(admissions := db.admissions[k := db.admissions[k].(
                        state := Running, leaseOwner := worker, heartbeat := now, claimOwner := NONE, claimDeadline := 0.0,
                        payload := NONE)]), Ok(db.admissions[k].fence))
            else r == Tx(db, Fail(FenceLost))
  {
  }

  lemma StartLaw(db: Db, k: RunKey, worker: Id, now: real)
    ensures var r := StartTurn(db, k, worker, now);
            if worker == NONE then r == Tx(db, Fail(InvalidArgument))
            else if k in db.admissions && db.admissions[k].state.Accepted? then
              r == Tx(db.(admissions := db.admissions[k := db.admissions[k].(
                        state := Running, leaseOwner := worker, heartbeat := now)]), Ok(db.admissions[k].fence))
            else r == Tx(db, Fail(FenceLost))
  {
  }

  lemma HeartbeatLaw(db: Db, k: RunKey, worker: Id, now: real)
    ensures var r := Heartbeat(db, k, worker, now);
            if k in db.admissions && db.admissions[k].state.Running? && db.admissions[k].leaseOwner == worker then
              r == Tx(db.(admissions := db.admissions[k := db.admissions[k].(heartbeat := now)]), Ok(true))
            else r == Tx(db, Ok(false))
  {
  }

  // ---- the call ledger ----

  /** A call is recorded once, for a running turn, under a full catalogue identity if the publication is managed. */
  lemma RecordLaw(db: Db, c: CallKey, tool: Id, catalogueId: Id, catalogueVersion: Id)
    requires Inv(db)
    ensures var r := RecordCall(db, c, tool, catalogueId, catalogueVersion);
            var running := c.run in db.admissions && db.admissions[c.run].state.Running?;
            var managed := c.run.context in db.contexts && c.run.context.thread.publication in db.managed;
            var identified := catalogueId != NONE && catalogueVersion != NONE;
            if c.call != NONE && running && (managed ==> identified) then
              r == Tx(if c in db.calls then db
                      else db.(calls := db.calls[c := Call(tool, Emitted, NoHandle, Unbegun, catalogueId, catalogueVersion)]),
                      Ok(true))
            else
              && r.db == db && r.result.Fail?
              && (c.call != NONE && !running ==>
                    r.result == Fail(RunTerminal(if c.run in db.admissions then db.admissions[c.run].outcome else NoOutcome)))
              && (c.call == NONE || running ==> r.result == Fail(InvalidArgument))
  {
    RunKnown(db, c.run);
    hide Inv;
  }

  lemma RunKnown(db: Db, k: RunKey)
    requires Inv(db)
    ensures k in db.admissions ==> k in db.runs
  {
  }

  /** The classic consumption takes exactly the unanswered calls of the run, when exactly those are named. */
  lemma ConsumeLaw(db: Db, k: RunKey, provided: set<Id>)
    ensures var r := ConsumeCalls(db, k, provided);
            if forall x :: x in provided <==> CallKey(k, x) in db.calls && db.calls[CallKey(k, x)].state.Emitted? then
              && r.result == Ok(true) && r.db == db.(calls := r.db.calls) && r.db.calls.Keys == db.calls.Keys
              && forall c :: c in db.calls ==>
                   r.db.calls[c] == if c.run == k && db.calls[c].state.Emitted? then db.calls[c].(state := Consumed)
                                    else db.calls[c]
            else r == Tx(db, Fail(ParentMismatch))
  {
    PendingIs(db, k);
    hide PendingCalls;
    if forall x :: x in provided <==> CallKey(k, x) in db.calls && db.calls[CallKey(k, x)].state.Emitted? {
      assert provided == PendingCalls(db, k);
    }
  }

  lemma PendingIs(db: Db, k: RunKey)
    ensures forall x :: x in PendingCalls(db, k) <==> CallKey(k, x) in db.calls && db.calls[CallKey(k, x)].state.Emitted?
  {
    forall x | CallKey(k, x) in db.calls && db.calls[CallKey(k, x)].state.Emitted? ensures x in PendingCalls(db, k) {
      assert CallKey(k, x).call == x;
    }
    forall x | x in PendingCalls(db, k) ensures CallKey(k, x) in db.calls && db.calls[CallKey(k, x)].state.Emitted? {
      var c :| c in db.calls && c.run == k && db.calls[c].state.Emitted? && c.call == x;
      assert c == CallKey(k, x);
    }
  }
}

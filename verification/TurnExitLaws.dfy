/** How a turn leaves: what a finish, a cancellation and the orphan sweep write, told from their arguments and the rows
    alone. */
module TurnExitLaws {
  import opened Basics
  import opened TurnTypes
  import opened TurnBatches
  import opened TurnAdmissions
  import opened TurnInvariants
  import opened TurnBatchLaws

  /** The ledger after an exit: unless the run succeeded, its emitted calls are abandoned. */
  ghost predicate CallsLeft(before: map<CallKey, Call>, after: map<CallKey, Call>, k: RunKey, outcome: Outcome) {
    && after.Keys == before.Keys
    && forall c :: c in before ==>
         after[c] == if !outcome.Success? && c.run == k && before[c].state.Emitted? then before[c].(state := Abandoned)
                     else before[c]
  }

  /** The run left in this state: a live journal ends with the outcome and one more row, this event; one that had ended
      keeps row and outcome. The admission takes the journal's outcome, the lease is released, and the fence moves on. */
  ghost predicate Leaves(db: Db, after: Db, k: RunKey, row: Admission, outcome: Outcome, e: Event, now: real)
    requires k in db.runs && k in db.admissions
  {
    var run := db.runs[k];
    var last := if run.ended then run.outcome else outcome;
    && after == db.(runs := after.runs, journal := after.journal, admissions := after.admissions, fences := after.fences,
                    calls := after.calls)
    && (if run.ended then after.runs == db.runs && after.journal == db.journal
        else
          && after.runs == db.runs[k := JournalRun(true, outcome, run.eventCount + 1, run.byteCount + e.bytes,
                                                   run.committed + 1, run.watermark, run.epoch, now)]
          && after.journal == db.journal[JournalKey(k, run.committed + 1) := e])
    && after.admissions == db.admissions[k := row.(outcome := last, leaseOwner := NONE, heartbeat := 0.0)]
    && after.fences.Keys == db.fences.Keys
    && (forall c :: c in db.fences ==> after.fences[c] == db.fences[c] + if c == k.context then 1 else 0)
    && CallsLeft(db.calls, after.calls, k, last)
  }

  lemma LeavesIs(db: Db, k: RunKey, exit: Admission, outcome: Outcome, e: Event, now: real)
    requires k in db.runs && k in db.admissions
    ensures Leaves(db, LeaveActive(db, k, exit, outcome, e, now), k, exit, outcome, e, now)
  {
  }

  // ---- finish ----

  /** The terminal row a finish journals: what the worker provided, or a bare one that says how the run ended. */
  ghost predicate Says(e: Event, outcome: Outcome, provided: Option<Event>) {
    if provided.Some? then e == provided.value
    else
      && (e.kind.Finished? <==> outcome.Success?) && (!outcome.Success? ==> e.kind.Errored? && e.code == outcome)
      && e.text == NONE && e.parses && e.batchToken == None
      && e.bytes == match outcome
                    case Success => 24 case RunLost => 38 case Cancelled => 39 case QuotaExceeded => 48
                    case NoOutcome => 30 case Other(_, bytes) => 30 + bytes
  }

  /** A managed run that succeeds on a live journal with calls still emitted. */
  ghost predicate NeedsBatch(db: Db, k: RunKey, outcome: Outcome) {
    && outcome.Success? && k.context in db.contexts && k.context.thread.publication in db.managed
    && k in db.runs && !db.runs[k].ended
    && exists c :: c in db.calls && c.run == k && db.calls[c].state.Emitted?
  }

  /** The batch of the run is frozen under the newest key, each emitted call gets a handle of its own. */
  ghost predicate FreezesAs(db: Db, frozen: Db, k: RunKey, deadline: real, now: real) {
    && frozen == db.(keyring := frozen.keyring, supply := frozen.supply, batches := frozen.batches, calls := frozen.calls)
    && HasKey(frozen, k)
    && (forall v :: v in frozen.keyring.keys ==> v <= frozen.batches[k].keyVersion)
    && (db.keyring.keys != map[] ==> frozen.keyring == db.keyring)
    && (db.keyring.keys == map[] ==> frozen.batches[k].keyVersion == db.keyring.highWater + 1)
    && db.supply < frozen.supply
    && frozen.batches[k].handle.BatchHandle? && db.supply <= frozen.batches[k].handle.n < frozen.supply
    && frozen.batches == db.batches[k := Batch(Frozen, frozen.batches[k].handle, frozen.batches[k].keyVersion, 0, NONE, 0.0,
                                               now + AtLeastOne(deadline))]
    && frozen.calls.Keys == db.calls.Keys
    && forall c :: c in db.calls ==>
         frozen.calls[c] == if c.run == k && db.calls[c].state.Emitted?
                            then db.calls[c].(handle := CallHandle(frozen.batches[k].handle.n, c.call)) else db.calls[c]
  }

  lemma FreezesIs(db: Db, k: RunKey, deadline: real, now: real)
    ensures FreezesAs(db, Freeze(db, k, deadline, now), k, deadline, now)
  {
  }

  /** A finish by the lease holder. With a batch due, the row published carries the batch's claimable token. */
  ghost predicate FinishesAs(db: Db, after: Db, k: RunKey, outcome: Outcome, provided: Option<Event>, deadline: real,
                             tokenBytes: nat, now: real)
    requires k in db.admissions && k in db.runs
  {
    if NeedsBatch(db, k, outcome) then
      exists frozen, e :: FreezesAs(db, frozen, k, deadline, now) && Says(e, outcome, provided)
        && Leaves(frozen, after, k, db.admissions[k].(state := Terminal), outcome,
                  e.(batchToken := Some(Signed(frozen, k, frozen.batches[k].handle, BatchUse, OfRun(k), 0)),
                     bytes := tokenBytes), now)
    else
      exists e :: Says(e, outcome, provided) && Leaves(db, after, k, db.admissions[k].(state := Terminal), outcome, e, now)
  }

  /** No outcome is named, or an event is provided that is malformed or not of the outcome's kind. */
  predicate Misnamed(outcome: Outcome, provided: Option<Event>) {
    || outcome == NoOutcome
    || (provided.Some? && (!provided.value.parses || (provided.value.kind == Finished && outcome != Success)
                           || (provided.value.kind != Finished && outcome == Success)))
  }

  /** Who may finish, and with what: the ending is named well, and the worker holds the lease. */
  ghost predicate MayFinish(db: Db, k: RunKey, worker: Id, outcome: Outcome, provided: Option<Event>) {
    && !Misnamed(outcome, provided)
    && k in db.admissions && db.admissions[k].state.Running? && db.admissions[k].leaseOwner == worker
  }

  lemma SaysIs(outcome: Outcome, provided: Option<Event>)
    requires !outcome.NoOutcome?
    ensures Says(TerminalEvent(outcome, provided), outcome, provided)
  {
  }

  lemma RunThere(db: Db, k: RunKey)
    requires Inv(db) && k in db.admissions
    ensures k in db.runs
  {
  }

  /** The worker's answer reaches the journal. */
  lemma FinishLaw(db: Db, k: RunKey, worker: Id, outcome: Outcome, provided: Option<Event>, deadline: real,
                  tokenBytes: nat, now: real)
    requires Inv(db)
    ensures var r := FinishTurn(db, k, worker, outcome, provided, deadline, tokenBytes, now);
            if MayFinish(db, k, worker, outcome, provided) then
              && k in db.admissions && k in db.runs && r.result == Ok(true)
              && FinishesAs(db, r.db, k, outcome, provided, deadline, tokenBytes, now)
            else r == Tx(db, Fail(if Misnamed(outcome, provided) then InvalidArgument else FenceLost))
  {
    hide Inv, FinishesAs, FinishTurn, NeedsBatch, MayFinish;
    if MayFinish(db, k, worker, outcome, provided) {
      Finisher(db, k, worker, outcome, provided);
      RunThere(db, k);
      if NeedsBatch(db, k, outcome) {
        FinishesFrozen(db, k, worker, outcome, provided, deadline, tokenBytes, now);
      } else {
        FinishesBare(db, k, worker, outcome, provided, deadline, tokenBytes, now);
      }
    } else {
      FinishRefused(db, k, worker, outcome, provided, deadline, tokenBytes, now);
    }
  }

  lemma Finisher(db: Db, k: RunKey, worker: Id, outcome: Outcome, provided: Option<Event>)
    requires MayFinish(db, k, worker, outcome, provided)
    ensures k in db.admissions
  {
  }

  lemma FinishRefused(db: Db, k: RunKey, worker: Id, outcome: Outcome, provided: Option<Event>, deadline: real,
                      tokenBytes: nat, now: real)
    requires !MayFinish(db, k, worker, outcome, provided)
    ensures FinishTurn(db, k, worker, outcome, provided, deadline, tokenBytes, now)
            == Tx(db, Fail(if Misnamed(outcome, provided) then InvalidArgument else FenceLost))
  {
    hide LeaveActive, Freeze, TerminalEvent, MustFreeze, BatchToken;
  }

  lemma FinishesFrozen(db: Db, k: RunKey, worker: Id, outcome: Outcome, provided: Option<Event>, deadline: real,
                       tokenBytes: nat, now: real)
    requires MayFinish(db, k, worker, outcome, provided) && NeedsBatch(db, k, outcome)
    ensures var r := FinishTurn(db, k, worker, outcome, provided, deadline, tokenBytes, now);
            r.result == Ok(true) && FinishesAs(db, r.db, k, outcome, provided, deadline, tokenBytes, now)
  {
    hide Leaves, Says, FreezesAs, LeaveActive, Freeze, TerminalEvent, Signed, BatchToken;
    var exit := db.admissions[k].(state := Terminal);
    var e := TerminalEvent(outcome, provided);
    var frozen := Freeze(db, k, deadline, now);
    SaysIs(outcome, provided);
    FreezesIs(db, k, deadline, now);
    FrozenRows(db, frozen, k, deadline, now);
    TokenIs(frozen, k);
    LeavesIs(frozen, k, exit, outcome, e.(batchToken := Some(BatchToken(frozen, k)), bytes := tokenBytes), now);
  }

  lemma FinishesBare(db: Db, k: RunKey, worker: Id, outcome: Outcome, provided: Option<Event>, deadline: real,
                     tokenBytes: nat, now: real)
    requires MayFinish(db, k, worker, outcome, provided) && !NeedsBatch(db, k, outcome) && k in db.runs
    ensures var r := FinishTurn(db, k, worker, outcome, provided, deadline, tokenBytes, now);
            r.result == Ok(true) && FinishesAs(db, r.db, k, outcome, provided, deadline, tokenBytes, now)
  {
    hide Leaves, Says, LeaveActive, Freeze, TerminalEvent;
    SaysIs(outcome, provided);
    LeavesIs(db, k, db.admissions[k].(state := Terminal), outcome, TerminalEvent(outcome, provided), now);
  }

  lemma TokenIs(db: Db, k: RunKey)
    requires HasKey(db, k)
    ensures BatchToken(db, k) == Signed(db, k, db.batches[k].handle, BatchUse, OfRun(k), 0)
  {
  }

  lemma FrozenRows(db: Db, frozen: Db, k: RunKey, deadline: real, now: real)
    requires FreezesAs(db, frozen, k, deadline, now)
    ensures frozen.runs == db.runs && frozen.admissions == db.admissions && HasKey(frozen, k)
  {
  }

  // ---- cancel ----

  /** The cancel credential of the run, shown by somebody who may. */
  ghost predicate ShowsRun(db: Db, token: Token, usage: Usage, scope: Option<Scope>, k: RunKey) {
    && k in db.runTokens && db.runTokens[k].keyVersion in db.keyring.keys && Sees(db, k.context, scope)
    && var h := db.runTokens[k].handle; var v := db.runTokens[k].keyVersion;
       token == Token(v, h, Hmac(db.keyring.keys[v], h, usage, OfRun(k), 0))
  }

  lemma NamesRun(db: Db, token: Token, usage: Usage, scope: Option<Scope>, k: RunKey)
    requires Inv(db) && ShowsRun(db, token, usage, scope, k)
    ensures KnownRun(db, token) && RunOf(db, token) == k
  {
    assert IsRunOf(db, token, k);
  }

  lemma RunCredentialLaw(db: Db, token: Token, usage: Usage, scope: Option<Scope>)
    requires Inv(db)
    ensures forall k :: ResolveRunToken(db, token, usage, scope) == Ok(k) <==> ShowsRun(db, token, usage, scope, k)
    ensures ResolveRunToken(db, token, usage, scope).Fail? ==>
              ResolveRunToken(db, token, usage, scope) == Fail(TokenInvalid)
  {
    KeysThere(db);
    hide Inv, ShowsRun, ResolveRunToken, HasKey;
    forall k | ShowsRun(db, token, usage, scope, k) ensures KnownRun(db, token) && RunOf(db, token) == k {
      NamesRun(db, token, usage, scope, k);
    }
    if KnownRun(db, token) {
      KnownCredential(db, token, usage, scope, RunOf(db, token));
    } else {
      UnknownRun(db, token, usage, scope);
    }
  }

  lemma KnownCredential(db: Db, token: Token, usage: Usage, scope: Option<Scope>, k: RunKey)
    requires KnownRun(db, token) && RunOf(db, token) == k && db.runTokens[k].keyVersion in db.keyring.keys
    ensures ResolveRunToken(db, token, usage, scope)
            == if ShowsRun(db, token, usage, scope, k) then Ok(k) else Fail(TokenInvalid)
  {
  }

  lemma UnknownRun(db: Db, token: Token, usage: Usage, scope: Option<Scope>)
    requires !KnownRun(db, token)
    ensures ResolveRunToken(db, token, usage, scope) == Fail(TokenInvalid)
  {
  }

  /** A cancellation of an active run journals that it was cancelled; one that left is answered as it is. */
  ghost predicate CancelsAs(db: Db, k: RunKey, now: real, r: Tx<CancelAnswer>) {
    if k !in db.admissions || k !in db.runs then r == Tx(db, Fail(TokenInvalid))
    else if db.admissions[k].state.Terminal? || db.admissions[k].state.Orphaned? then
      r == Tx(db, Ok(CancelAnswer(k, db.admissions[k].outcome, true)))
    else
      && r.result == Ok(CancelAnswer(k, if db.runs[k].ended then db.runs[k].outcome else Cancelled, false))
      && Leaves(db, r.db, k, db.admissions[k].(state := Terminal, claimOwner := NONE, claimDeadline := 0.0, payload := NONE),
                Cancelled, Event(Errored, Cancelled, NONE, 66, true, None), now)
  }

  lemma CancelLaw(db: Db, token: Token, scope: Option<Scope>, now: real)
    requires Inv(db)
    ensures var r := CancelRun(db, token, scope, now);
            && (forall k :: ShowsRun(db, token, CancelUse, scope, k) ==> CancelsAs(db, k, now, r))
            && ((forall k :: !ShowsRun(db, token, CancelUse, scope, k)) ==> r == Tx(db, Fail(TokenInvalid)))
  {
    RunCredentialLaw(db, token, CancelUse, scope);
    var found := ResolveRunToken(db, token, CancelUse, scope);
    if found.Ok? {
      if found.value in db.admissions { RunThere(db, found.value); }
      hide Inv, ShowsRun, ResolveRunToken, CancelsAs;
      CancelsKnown(db, token, scope, now, found.value);
    }
  }

  lemma CancelsKnown(db: Db, token: Token, scope: Option<Scope>, now: real, k: RunKey)
    requires ResolveRunToken(db, token, CancelUse, scope) == Ok(k) && (k in db.admissions ==> k in db.runs)
    ensures CancelsAs(db, k, now, CancelRun(db, token, scope, now))
  {
    hide Leaves, LeaveActive, ResolveRunToken;
    if k in db.admissions {
      var exit := db.admissions[k].(state := Terminal, claimOwner := NONE, claimDeadline := 0.0, payload := NONE);
      LeavesIs(db, k, exit, Cancelled, CANCELLED_EVENT, now);
      LeftOutcome(db, LeaveActive(db, k, exit, Cancelled, CANCELLED_EVENT, now), k, exit, Cancelled, CANCELLED_EVENT, now);
    }
  }

  lemma LeftOutcome(db: Db, after: Db, k: RunKey, row: Admission, outcome: Outcome, e: Event, now: real)
    requires k in db.runs && k in db.admissions && Leaves(db, after, k, row, outcome, e, now)
    ensures k in after.admissions
    ensures after.admissions[k].outcome == if db.runs[k].ended then db.runs[k].outcome else outcome
  {
  }

  // ---- the orphan sweep ----

  /** A run whose worker went silent is lost, unless its journal had ended: then that is how it ended. */
  lemma OrphanLaw(db: Db, k: RunKey, now: real)
    requires k in db.runs && k in db.admissions
    ensures Leaves(db, OrphanOne(db, k, now), k,
                   db.admissions[k].(state := if db.runs[k].ended then Terminal else Orphaned),
                   RunLost, Event(Errored, RunLost, NONE, 64, true, None), now)
  {
    hide Leaves, LeaveActive;
    LeavesIs(db, k, db.admissions[k].(state := if db.runs[k].ended then Terminal else Orphaned), RunLost, RUN_LOST_EVENT, now);
  }

  /** The sweep takes exactly the running turns whose last heartbeat is at least the timeout, and a second, old, each once. */
  lemma StaleLaw(db: Db, rows: seq<RunKey>, timeout: real, now: real)
    requires StaleRows(db, rows, Cutoff(timeout, now))
    ensures forall k :: k in rows <==>
              k in db.admissions && db.admissions[k].state.Running? && now - db.admissions[k].heartbeat >= AtLeastOne(timeout)
    ensures forall i, j :: 0 <= i < |rows| && 0 <= j < |rows| && rows[i] == rows[j] ==> i == j
  {
  }
}

/** Admission, dispatch, leases, fencing and the call ledger
    (core/_a2a_turn_acquire.py, core/_a2a_turn_attach.py). */
module TurnAdmissions {
  import opened Basics
  import opened TurnTypes
  import opened TurnTokens
  import opened TurnJournal
  import opened TurnThreads
  import opened TurnBatches

  datatype Acquired = Acquired(admission: Admission, replay: bool)

  /** Unconsumed: it still waits to be executed or to be fed to a follow-up run. */
  predicate Unconsumed(b: Batch) { !b.state.BatchConsumed? }

  ghost predicate HasUnconsumed(db: Db, c: ContextId) {
    exists k :: k in db.batches && k.context == c && Unconsumed(db.batches[k])
  }

  ghost function UnconsumedBatch(db: Db, c: ContextId): (k: RunKey)
    requires HasUnconsumed(db, c)
    ensures k in db.batches && k.context == c && Unconsumed(db.batches[k])
  {
    var k :| k in db.batches && k.context == c && Unconsumed(db.batches[k]); k
  }

  ghost predicate HasEmitted(calls: map<CallKey, Call>, k: RunKey) {
    exists x :: x in calls && x.run == k && calls[x].state.Emitted?
  }

  ghost predicate PendingIn(db: Db, c: ContextId) {
    exists x :: x in db.calls && x.run.context == c && db.calls[x].state.Emitted?
  }

  /** What the follow-up run must name as parent, and the tables once it is consumed. */
  ghost function BindParent(db: Db, c: ContextId, parent: Id): Tx<bool> {
    if HasUnconsumed(db, c) then
      var k := UnconsumedBatch(db, c);
      if !db.batches[k].state.Complete? then Tx(db, Fail(BatchIncomplete(k.run)))
      else if parent != k.run then Tx(db, Fail(ParentMismatch))
      else Tx(ConsumeBatch(db, k), Ok(true))
    else if PendingIn(db, c) then
      if HasEmitted(db.calls, RunKey(c, parent)) then Tx(db, Ok(true)) else Tx(db, Fail(ParentMismatch))
    else if parent != NONE then Tx(db, Fail(ParentMismatch))
    else Tx(db, Ok(false))
  }

  ghost function AcquireTurn(db: Db, t: ThreadKey, generation: int, run: Id, bodyHash: Id, payload: Id,
                             parent: Id, now: real): Tx<Acquired>
  {
    if run == NONE || bodyHash == NONE then Tx(db, Fail(InvalidArgument))
    else if !Holds(db, t, generation) then Tx(db, Fail(ThreadRotated(Current(db, t))))
    else
      var c := ContextId(t, generation);
      var k := RunKey(c, run);
      if c !in db.contexts then Tx(db, Fail(ThreadRotated(generation)))
      else if k in db.admissions then
        if db.admissions[k].bodyHash != bodyHash then Tx(db, Fail(IdempotencyConflict))
        else Tx(db, Ok(Acquired(db.admissions[k], true)))
      else if k in db.tombstones then Tx(db, Fail(IdempotencyExpired))
      else if HasActive(db, c) then Tx(db, Fail(TurnBusy(ActiveRun(db, c).run)))
      else
        var bound := BindParent(db, c, parent);
        if bound.result.Fail? then Tx(db, Fail(bound.result.error))
        else
          var admitted := Admit(bound.db, k, bodyHash, payload, parent, now);
          Tx(admitted, Ok(Acquired(admitted.admissions[k], false)))
  }

  /** Reserve the admission, open its journal, advance the fence and mint its run handle. */
  ghost function Admit(db: Db, k: RunKey, bodyHash: Id, payload: Id, parent: Id, now: real): (r: Db)
    ensures k in r.admissions
  {
    var token := (if k.context in db.fences then db.fences[k.context] else 0) + 1;
    var reserved := db.(
      fences := db.fences[k.context := token],
      admissions := db.admissions[k := Admission(bodyHash, parent, Reserved, NoOutcome, token, payload,
                                                 NONE, 0.0, NONE, 0.0, now)],
      runs := if k in db.runs then db.runs else db.runs[k := NEW_RUN_COUNTERS.(updatedAt := now)]);
    MintRunHandle(reserved, k)
  }

  ghost function MintRunHandle(db: Db, k: RunKey): Db {
    if k in db.runTokens then db
    else
      var keyed := EnsureKey(db);
      keyed.(runTokens := keyed.runTokens[k := RunToken(RunHandle(keyed.supply), Latest(keyed.keyring.keys))],
             supply := keyed.supply + 1)
  }

  // ---- outbox ----

  predicate Dispatchable(a: Admission, now: real) {
    a.state.Reserved? || (a.state.Dispatching? && a.claimDeadline <= now)
  }

  /** The oldest dispatchable admission; ties are the database's choice. */
  ghost predicate NextToDispatch(db: Db, k: RunKey, now: real) {
    && k in db.admissions && Dispatchable(db.admissions[k], now)
    && forall j :: j in db.admissions && Dispatchable(db.admissions[j], now)
                   ==> db.admissions[k].createdAt <= db.admissions[j].createdAt
  }

  function ClaimDispatch(db: Db, k: RunKey, owner: Id, deadline: real, now: real): Db
    requires k in db.admissions
  {
    db.(admissions := db.admissions[k := db.admissions[k].(
      state := Dispatching, claimOwner := owner, claimDeadline := now + Max(1.0, deadline))])
  }

  function AckDispatch(db: Db, k: RunKey, owner: Id): Tx<bool> {
    if k !in db.admissions then Tx(db, Ok(false))
    else
      var a := db.admissions[k];
      match a.state
      case Reserved => Tx(db, Ok(false))
      case Dispatching =>
        if a.claimOwner != owner then Tx(db, Ok(false))
        else Tx(db.(admissions := db.admissions[k := a.(
                  state := Accepted, payload := NONE, claimOwner := NONE, claimDeadline := 0.0)]), Ok(true))
      case _ => Tx(db, Ok(true))
  }

  // ---- lease and fence ----

  function AdoptRun(db: Db, k: RunKey, worker: Id, now: real): Tx<nat> {
    if worker == NONE then Tx(db, Fail(InvalidArgument))
    else if k !in db.admissions then Tx(db, Fail(FenceLost))
    else
      var a := db.admissions[k];
      if a.state.Running? then
        if a.leaseOwner != worker then Tx(db, Fail(FenceLost)) else Tx(db, Ok(a.fence))
      else if !Active(a) then Tx(db, Fail(FenceLost))
      else Tx(db.(admissions := db.admissions[k := a.(
                state := Running, leaseOwner := worker, heartbeat := now, claimOwner := NONE,
                claimDeadline := 0.0, payload := NONE)]), Ok(a.fence))
  }

  function StartTurn(db: Db, k: RunKey, worker: Id, now: real): Tx<nat> {
    if worker == NONE then Tx(db, Fail(InvalidArgument))
    else if k !in db.admissions || !db.admissions[k].state.Accepted? then Tx(db, Fail(FenceLost))
    else Tx(db.(admissions := db.admissions[k := db.admissions[k].(
              state := Running, leaseOwner := worker, heartbeat := now)]), Ok(db.admissions[k].fence))
  }

  predicate HoldsLease(db: Db, k: RunKey, worker: Id) {
    k in db.admissions && db.admissions[k].state.Running? && db.admissions[k].leaseOwner == worker
  }

  function Heartbeat(db: Db, k: RunKey, worker: Id, now: real): Tx<bool> {
    if !HoldsLease(db, k, worker) then Tx(db, Ok(false))
    else Tx(db.(admissions := db.admissions[k := db.admissions[k].(heartbeat := now)]), Ok(true))
  }

  predicate CheckFence(db: Db, c: ContextId, token: nat) {
    c in db.fences && db.fences[c] == token
  }

  function AbandonEmitted(calls: map<CallKey, Call>, k: RunKey): map<CallKey, Call> {
    map c | c in calls ::
      if c.run == k && calls[c].state.Emitted? then calls[c].(state := Abandoned) else calls[c]
  }

  /** Leave the active states in one transaction: journal terminal, admission outcome, fence bump
      and, unless the run effectively succeeded, abandonment of its emitted calls. */
  function LeaveActive(db: Db, k: RunKey, exit: Admission, outcome: Outcome, e: Event, now: real): Db
    requires k in db.runs && k in db.admissions
  {
    var effective := Effective(db, k, outcome);
    var journaled := Terminalize(db, k, outcome, e, now);
    journaled.(
      admissions := db.admissions[k := exit.(outcome := effective, leaseOwner := NONE, heartbeat := 0.0)],
      fences := if k.context in db.fences then db.fences[k.context := db.fences[k.context] + 1] else db.fences,
      calls := if effective.Success? then db.calls else AbandonEmitted(db.calls, k))
  }

  function OutcomeBytes(o: Outcome): nat {
    match o
    case NoOutcome => 0
    case Success => 7
    case RunLost => 8
    case Cancelled => 9
    case QuotaExceeded => 18
    case Other(_, bytes) => bytes
  }

  function TerminalEvent(outcome: Outcome, provided: Option<Event>): Event {
    if provided.Some? then provided.value
    else if outcome.Success? then RUN_FINISHED_EVENT
    else Event(Errored, outcome, NONE, 30 + OutcomeBytes(outcome), true, None)
  }

  /** A managed success with emitted calls and a live journal must freeze its batch. */
  ghost predicate MustFreeze(db: Db, k: RunKey, outcome: Outcome) {
    && outcome.Success?
    && k.context in db.contexts && k.context.thread.publication in db.managed
    && HasEmitted(db.calls, k)
    && k in db.runs && !db.runs[k].ended
  }

  /** `tokenBytes` is the length of the terminal event re-encoded with its batch token. */
  ghost function FinishTurn(db: Db, k: RunKey, worker: Id, outcome: Outcome, provided: Option<Event>,
                            deadline: real, tokenBytes: nat, now: real): Tx<bool>
  {
    if outcome.NoOutcome? then Tx(db, Fail(InvalidArgument))
    else if provided.Some? && (!provided.value.parses || outcome.Success? != provided.value.kind.Finished?)
    then Tx(db, Fail(InvalidArgument))
    else if !HoldsLease(db, k, worker) then Tx(db, Fail(FenceLost))
    else if MustFreeze(db, k, outcome) then
      var frozen := Freeze(db, k, deadline, now);
      var e := TerminalEvent(outcome, provided).(batchToken := Some(BatchToken(frozen, k)), bytes := tokenBytes);
      Tx(LeaveActive(frozen, k, db.admissions[k].(state := Terminal), outcome, e, now), Ok(true))
    else if k !in db.runs then Tx(db, Fail(RunUnknown))
    else Tx(LeaveActive(db, k, db.admissions[k].(state := Terminal), outcome,
                        TerminalEvent(outcome, provided), now), Ok(true))
  }

  predicate Stale(a: Admission, cutoff: real) { a.state.Running? && a.heartbeat <= cutoff }

  /** One row of the orphan sweep: a journal that already ended is adopted, otherwise the run is lost. */
  function OrphanOne(db: Db, k: RunKey, now: real): Db
    requires k in db.runs && k in db.admissions
  {
    LeaveActive(db, k, db.admissions[k].(state := if db.runs[k].ended then Terminal else Orphaned),
                RunLost, RUN_LOST_EVENT, now)
  }

  function OrphanAll(db: Db, rows: seq<RunKey>, now: real): Db
    decreases |rows|
  {
    if rows == [] then db
    else if rows[0] in db.runs && rows[0] in db.admissions then OrphanAll(OrphanOne(db, rows[0], now), rows[1..], now)
    else OrphanAll(db, rows[1..], now)
  }

  function Cutoff(timeout: real, now: real): real { now - Max(1.0, timeout) }

  /** The rows an orphan sweep selected: every stale run, once. */
  ghost predicate StaleRows(db: Db, rows: seq<RunKey>, cutoff: real) {
    && (forall i, j :: 0 <= i < j < |rows| ==> rows[i] != rows[j])
    && (forall k :: k in rows <==> k in db.admissions && Stale(db.admissions[k], cutoff))
  }

  // ---- call ledger ----

  function RecordCall(db: Db, c: CallKey, tool: Id, catalogueId: Id, catalogueVersion: Id): Tx<bool> {
    if c.call == NONE then Tx(db, Fail(InvalidArgument))
    else if c.run !in db.admissions then Tx(db, Fail(RunTerminal(NoOutcome)))
    else if !db.admissions[c.run].state.Running? then Tx(db, Fail(RunTerminal(db.admissions[c.run].outcome)))
    else if c.run.context in db.contexts && c.run.context.thread.publication in db.managed
            && (catalogueId == NONE || catalogueVersion == NONE) then Tx(db, Fail(InvalidArgument))
    else if c in db.calls then Tx(db, Ok(true))
    else if c.run !in db.runs then Tx(db, Fail(RunUnknown))
    else Tx(db.(calls := db.calls[c := Call(tool, Emitted, NoHandle, Unbegun, catalogueId, catalogueVersion)]),
            Ok(true))
  }

  function PendingCalls(db: Db, k: RunKey): set<Id> {
    set c | c in db.calls && c.run == k && db.calls[c].state.Emitted? :: c.call
  }

  /** Classic mode: exactly the pending set is consumed, exactly once. */
  function ConsumeCalls(db: Db, k: RunKey, provided: set<Id>): Tx<bool> {
    if provided != PendingCalls(db, k) then Tx(db, Fail(ParentMismatch))
    else Tx(db.(calls := ConsumeEmitted(db.calls, k)), Ok(true))
  }

  // ---- run handles: attach and cancel ----

  ghost predicate IsRunOf(db: Db, token: Token, k: RunKey) {
    token.Token? && k in db.runTokens && db.runTokens[k].handle == token.handle
  }

  ghost predicate KnownRun(db: Db, token: Token) { exists k :: IsRunOf(db, token, k) }

  ghost function RunOf(db: Db, token: Token): (k: RunKey)
    requires KnownRun(db, token)
    ensures IsRunOf(db, token, k)
  {
    var k :| IsRunOf(db, token, k); k
  }

  function RunCredential(db: Db, k: RunKey, usage: Usage): Token
    requires k in db.runTokens && db.runTokens[k].keyVersion in db.keyring.keys
  {
    Derive(db.keyring.keys, db.runTokens[k].keyVersion, db.runTokens[k].handle, usage, OfRun(k), 0)
  }

  ghost function ResolveRunToken(db: Db, token: Token, usage: Usage, scope: Option<Scope>): Result<RunKey> {
    if !KnownRun(db, token) then Fail(TokenInvalid)
    else
      var k := RunOf(db, token);
      if !InScope(db, k.context, scope) then Fail(TokenInvalid)
      else if db.runTokens[k].keyVersion !in db.keyring.keys then Fail(KeyMissing)
      else if token != RunCredential(db, k, usage) then Fail(TokenInvalid)
      else Ok(k)
  }

  datatype CancelAnswer = CancelAnswer(run: RunKey, outcome: Outcome, already: bool)

  ghost function CancelRun(db: Db, token: Token, scope: Option<Scope>, now: real): Tx<CancelAnswer> {
    match ResolveRunToken(db, token, CancelUse, scope)
    case Fail(e) => Tx(db, Fail(e))
    case Ok(k) =>
      if k !in db.admissions then Tx(db, Fail(TokenInvalid))
      else if !Active(db.admissions[k]) then
        Tx(db, Ok(CancelAnswer(k, db.admissions[k].outcome, true)))
      else if k !in db.runs then Tx(db, Fail(RunUnknown))
      else
        var exit := db.admissions[k].(state := Terminal, claimOwner := NONE, claimDeadline := 0.0, payload := NONE);
        var after := LeaveActive(db, k, exit, Cancelled, CANCELLED_EVENT, now);
        Tx(after, Ok(CancelAnswer(k, after.admissions[k].outcome, false)))
  }
}

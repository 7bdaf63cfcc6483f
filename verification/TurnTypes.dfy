/** The durable tables of the AG-UI turn machine, one map per table keyed by its primary key.

  Instants and durations are reals. A random handle or secret is drawn from
  `supply`, a counter consumed in order: what the source draws at random is fresh here.
*/
module TurnTypes {
  import opened Basics

  datatype Result<+T> = Ok(value: T) | Fail(error: Error)

  /** A transaction: the committed tables and what the caller is told. */
  datatype Tx<+T> = Tx(db: Db, result: Result<T>)

  datatype Error =
    | InvalidArgument
    | ThreadRotated(current: nat)
    | CleanupPending
    | UnknownThread
    | TurnBusy(activeRun: Id)
    | BatchIncomplete(batchRun: Id)
    | ParentMismatch
    | IdempotencyConflict
    | IdempotencyExpired
    | FenceLost
    | RunUnknown
    | RunTerminal(outcome: Outcome)
    | RunQuotaExceeded
    | ManagedSuccessWithoutBatch
    | ReplayExpired
    | SubscriberTakenOver
    | TokenInvalid
    | ClaimExpired
    | BatchClaimed
    | CatalogueRejected(verdict: Kind)
    | DepositRejected
    | ReceiptConflict
    | KeyMissing

  // ---- identities ----

  datatype ThreadKey = ThreadKey(publication: Id, key: Id, thread: Id)

  /** The digest of (publication, key, thread, generation), taken to be injective. */
  datatype ContextId = ContextId(thread: ThreadKey, generation: nat)

  datatype RunKey = RunKey(context: ContextId, run: Id)
  datatype CallKey = CallKey(run: RunKey, call: Id)
  datatype JournalKey = JournalKey(run: RunKey, sequence: nat)

  /** The publication's own conversation, or the child an isolated context is given. */
  datatype Conversation = Parent(id: Id) | Child(parent: Id, context: ContextId)

  /** What a caller holds of a publication row when it opens a transaction. */
  datatype Publication = Publication(id: Id, conversation: Id, isolated: bool)

  // ---- threads and admissions ----

  datatype Thread = Thread(generation: nat, closedBefore: nat, pending: Option<Conversation>)

  datatype TurnState = Reserved | Dispatching | Accepted | Running | Terminal | Orphaned

  /** `bytes` is the length of the outcome in JSON, for the journal's byte counter. */
  datatype Outcome =
    | NoOutcome | Success | RunLost | Cancelled | QuotaExceeded
    | Other(id: Id, bytes: nat)

  datatype Admission = Admission(
    bodyHash: Id, parent: Id, state: TurnState, outcome: Outcome, fence: nat, payload: Id,
    claimOwner: Id, claimDeadline: real, leaseOwner: Id, heartbeat: real, createdAt: real)

  predicate Active(a: Admission) {
    a.state.Reserved? || a.state.Dispatching? || a.state.Accepted? || a.state.Running?
  }

  // ---- journal ----

  datatype EventKind = Finished | Errored | Progress

  /** One journaled payload. `parses` says that it is well-formed JSON. */
  datatype Event = Event(
    kind: EventKind, code: Outcome, text: Id, bytes: nat, parses: bool, batchToken: Option<Token>)

  const RUN_LOST_EVENT := Event(Errored, RunLost, NONE, 64, true, None)
  const RUN_FINISHED_EVENT := Event(Finished, NoOutcome, NONE, 24, true, None)
  const QUOTA_TERMINAL_EVENT := Event(Errored, QuotaExceeded, NONE, 84, true, None)
  const CANCELLED_EVENT := Event(Errored, Cancelled, NONE, 66, true, None)

  datatype JournalRun = JournalRun(
    ended: bool, outcome: Outcome, eventCount: nat, byteCount: nat, committed: nat,
    watermark: nat, epoch: nat, updatedAt: real)

  const NEW_RUN_COUNTERS := JournalRun(false, NoOutcome, 0, 0, 0, 0, 0, 0.0)

  // ---- frontend calls and managed batches ----

  datatype CallState = Emitted | Abandoned | Consumed

  datatype Kind =
    | Denied | LedgerUnavailable | CancelledBeforeBegin | CatalogueUnverifiable | CatalogueChanged
    | EffectResult | NullNavigation | EffectError | Indeterminate
    | DeadlineAbandoned
    | UnknownKind(id: Id)

  predicate NoEffect(k: Kind) {
    k.Denied? || k.LedgerUnavailable? || k.CancelledBeforeBegin?
    || k.CatalogueUnverifiable? || k.CatalogueChanged?
  }

  predicate Effect(k: Kind) {
    k.EffectResult? || k.NullNavigation? || k.EffectError? || k.Indeterminate?
  }

  /** exec_state with the result columns, which the source always writes together with it. */
  datatype Exec = Unbegun | Executing | Done(kind: Kind, payload: Id)

  datatype Call = Call(
    tool: Id, state: CallState, handle: Handle, exec: Exec, catalogueId: Id, catalogueVersion: Id)

  datatype BatchState = Frozen | Claimed | Committed | Complete | BatchConsumed

  datatype Batch = Batch(
    state: BatchState, handle: Handle, keyVersion: nat, claimGeneration: nat, claimId: Id,
    leaseDeadline: real, absoluteDeadline: real)

  /** An open batch holds the thread's frontend-execution lease. */
  predicate Open(b: Batch) {
    b.state.Frozen? || b.state.Claimed? || b.state.Committed?
  }

  predicate Undecided(c: Call) {
    c.state.Emitted? && (c.exec.Unbegun? || c.exec.Executing?)
  }

  // ---- credentials ----

  datatype Handle = NoHandle | BatchHandle(n: nat) | CallHandle(n: nat, call: Id) | RunHandle(n: nat)

  datatype Usage = BatchUse | OwnerUse | ReceiptUse | AttachUse | CancelUse

  datatype Identity = OfRun(run: RunKey) | OfCall(call: CallKey)

  /** HMAC (section 2 of RFC 2104) as an injective constructor; anything else is a forgery. */
  datatype Mac =
    | Hmac(secret: Id, handle: Handle, usage: Usage, identity: Identity, generation: nat)
    | Forged(id: Id)

  datatype Token = Token(version: nat, handle: Handle, mac: Mac) | Malformed(id: Id)

  datatype Keyring = Keyring(keys: map<nat, Id>, highWater: nat)

  datatype RunToken = RunToken(handle: Handle, keyVersion: nat)

  datatype ExpiredClaim = ExpiredClaim(handle: Handle, claimId: Id)

  datatype Db = Db(
    managed: set<Id>,
    threads: map<ThreadKey, Thread>,
    contexts: map<ContextId, Conversation>,
    tombstones: set<RunKey>,
    admissions: map<RunKey, Admission>,
    fences: map<ContextId, nat>,
    runs: map<RunKey, JournalRun>,
    journal: map<JournalKey, Event>,
    calls: map<CallKey, Call>,
    batches: map<RunKey, Batch>,
    expired: set<ExpiredClaim>,
    keyring: Keyring,
    runTokens: map<RunKey, RunToken>,
    supply: nat)
}

/** Managed frontend-execution batches (core/_a2a_turn_batch.py). */
module TurnBatches {
  import opened Basics
  import opened TurnTypes
  import opened TurnTokens

  /** A caller's authenticated (publication, key); None for a store-direct caller. */
  datatype Scope = Scope(publication: Id, key: Id)

  predicate InScope(db: Db, c: ContextId, scope: Option<Scope>) {
    scope.None? || (c in db.contexts && c.thread.publication == scope.value.publication
                    && c.thread.key == scope.value.key)
  }

  // ---- freeze ----

  /** Give every emitted call of the run its handle; `n` is fresh. */
  function WithHandles(calls: map<CallKey, Call>, k: RunKey, n: nat): map<CallKey, Call> {
    map c | c in calls ::
      if c.run == k && calls[c].state.Emitted? then calls[c].(handle := CallHandle(n, c.call)) else calls[c]
  }

  /** The frozen batch of a run; its claimable token is BatchToken of the result. */
  ghost function Freeze(db: Db, k: RunKey, deadline: real, now: real): (r: Db)
    ensures k in r.batches && r.batches[k].keyVersion in r.keyring.keys
  {
    var keyed := EnsureKey(db);
    var batch := Batch(Frozen, BatchHandle(keyed.supply), Latest(keyed.keyring.keys), 0, NONE, 0.0,
                       now + Max(1.0, deadline));
    keyed.(batches := keyed.batches[k := batch],
           calls := WithHandles(keyed.calls, k, keyed.supply),
           supply := keyed.supply + 1)
  }

  function BatchToken(db: Db, k: RunKey): Token
    requires k in db.batches && db.batches[k].keyVersion in db.keyring.keys
  {
    Derive(db.keyring.keys, db.batches[k].keyVersion, db.batches[k].handle, BatchUse, OfRun(k), 0)
  }

  function OwnerToken(db: Db, k: RunKey): Token
    requires k in db.batches && db.batches[k].keyVersion in db.keyring.keys
  {
    Derive(db.keyring.keys, db.batches[k].keyVersion, db.batches[k].handle, OwnerUse, OfRun(k),
           db.batches[k].claimGeneration)
  }

  function Receipt(db: Db, c: CallKey): Token
    requires c in db.calls && c.run in db.batches && db.batches[c.run].keyVersion in db.keyring.keys
  {
    Derive(db.keyring.keys, db.batches[c.run].keyVersion, db.calls[c].handle, ReceiptUse, OfCall(c),
           db.batches[c.run].claimGeneration)
  }

  function Receipts(db: Db, k: RunKey): map<CallKey, Token>
    requires k in db.batches && db.batches[k].keyVersion in db.keyring.keys
  {
    map c | c in db.calls && c.run == k && db.calls[c].state.Emitted? :: Receipt(db, c)
  }

  // ---- lookup by the token's own handle ----

  ghost predicate IsBatchOf(db: Db, token: Token, k: RunKey) {
    token.Token? && k in db.batches && db.batches[k].handle == token.handle
  }

  ghost predicate KnownBatch(db: Db, token: Token) { exists k :: IsBatchOf(db, token, k) }

  ghost function BatchOf(db: Db, token: Token): (k: RunKey)
    requires KnownBatch(db, token)
    ensures IsBatchOf(db, token, k)
  {
    var k :| IsBatchOf(db, token, k); k
  }

  ghost predicate IsCallOf(db: Db, receipt: Token, c: CallKey) {
    receipt.Token? && receipt.handle != NoHandle && c in db.calls && db.calls[c].handle == receipt.handle
  }

  ghost predicate KnownCall(db: Db, receipt: Token) { exists c :: IsCallOf(db, receipt, c) }

  ghost function CallOf(db: Db, receipt: Token): (c: CallKey)
    requires KnownCall(db, receipt)
    ensures IsCallOf(db, receipt, c)
  {
    var c :| IsCallOf(db, receipt, c); c
  }

  // ---- claim and renew ----

  /** A lapsed pre-effect claim: back to frozen, its id terminal, its generation revoked. */
  function ExpireClaim(db: Db, k: RunKey): Db
    requires k in db.batches
  {
    var b := db.batches[k];
    db.(expired := db.expired + {ExpiredClaim(b.handle, b.claimId)},
        batches := db.batches[k := b.(state := Frozen, claimId := NONE, leaseDeadline := 0.0,
                                      claimGeneration := b.claimGeneration + 1)])
  }

  predicate Lapsed(b: Batch, now: real) { b.state.Claimed? && b.leaseDeadline <= now }

  datatype Claim = Claim(run: RunKey, state: BatchState, generation: nat, owner: Token,
                         receipts: map<CallKey, Token>)

  function ClaimOf(db: Db, k: RunKey): Claim
    requires k in db.batches && db.batches[k].keyVersion in db.keyring.keys
  {
    Claim(k, db.batches[k].state, db.batches[k].claimGeneration, OwnerToken(db, k), Receipts(db, k))
  }

  ghost function ClaimBatch(db: Db, token: Token, claimId: Id, lease: real, scope: Option<Scope>,
                            now: real): Tx<Claim>
  {
    if claimId == NONE then Tx(db, Fail(InvalidArgument))
    else if !KnownBatch(db, token) then Tx(db, Fail(TokenInvalid))
    else
      var k := BatchOf(db, token);
      if !InScope(db, k.context, scope) then Tx(db, Fail(TokenInvalid))
      else if db.batches[k].keyVersion !in db.keyring.keys then Tx(db, Fail(KeyMissing))
      else if token != BatchToken(db, k) then Tx(db, Fail(TokenInvalid))
      else ClaimKnown(db, k, claimId, lease, now)
  }

  function ClaimKnown(db: Db, k: RunKey, claimId: Id, lease: real, now: real): Tx<Claim>
    requires k in db.batches && db.batches[k].keyVersion in db.keyring.keys
  {
    if Open(db.batches[k]) && db.batches[k].absoluteDeadline <= now then Tx(db, Fail(ClaimExpired))
    else ClaimSeen(if Lapsed(db.batches[k], now) then ExpireClaim(db, k) else db, k, claimId, lease, now)
  }

  /** The claim proper, once an observed lease expiry has been made durable. */
  function ClaimSeen(seen: Db, k: RunKey, claimId: Id, lease: real, now: real): Tx<Claim>
    requires k in seen.batches && seen.batches[k].keyVersion in seen.keyring.keys
  {
    var b := seen.batches[k];
    if ExpiredClaim(b.handle, claimId) in seen.expired then Tx(seen, Fail(ClaimExpired))
    else if b.state.Frozen? then
      var claimed := seen.(batches := seen.batches[k := b.(
        state := Claimed, claimGeneration := b.claimGeneration + 1, claimId := claimId,
        leaseDeadline := now + Max(1.0, lease))]);
      Tx(claimed, Ok(ClaimOf(claimed, k)))
    else if !Open(b) then Tx(seen, Fail(ClaimExpired))
    else if b.claimId != claimId then Tx(seen, Fail(BatchClaimed))
    else Tx(seen, Ok(ClaimOf(seen, k)))
  }

  ghost function RenewBatch(db: Db, token: Token, lease: real, scope: Option<Scope>, now: real): Tx<bool> {
    if !KnownBatch(db, token) then Tx(db, Fail(TokenInvalid))
    else
      var k := BatchOf(db, token);
      var b := db.batches[k];
      if !InScope(db, k.context, scope) then Tx(db, Fail(TokenInvalid))
      else if b.keyVersion !in db.keyring.keys then Tx(db, Fail(KeyMissing))
      else match Judge(db.keyring.keys, b.keyVersion, b.handle, OwnerUse, OfRun(k), b.claimGeneration, token)
        case Stale => Tx(db, Fail(ClaimExpired))
        case Invalid => Tx(db, Fail(TokenInvalid))
        case Valid =>
          if b.state.Committed? then Tx(db, Ok(true))
          else if !b.state.Claimed? || b.absoluteDeadline <= now then Tx(db, Fail(ClaimExpired))
          else if b.leaseDeadline <= now then Tx(ExpireClaim(db, k), Fail(ClaimExpired))
          else Tx(db.(batches := db.batches[k := b.(
                    leaseDeadline := Min(now + Max(1.0, lease), b.absoluteDeadline))]), Ok(true))
  }

  // ---- begin and deposit ----

  /** The call a receipt names, if the receipt is valid for the batch's current generation. */
  ghost function CallByReceipt(db: Db, receipt: Token, scope: Option<Scope>): Result<CallKey> {
    if !KnownCall(db, receipt) then Fail(TokenInvalid)
    else
      var c := CallOf(db, receipt);
      if !InScope(db, c.run.context, scope) || c.run !in db.batches then Fail(TokenInvalid)
      else if db.batches[c.run].keyVersion !in db.keyring.keys then Fail(KeyMissing)
      else match Judge(db.keyring.keys, db.batches[c.run].keyVersion, receipt.handle, ReceiptUse, OfCall(c),
                       db.batches[c.run].claimGeneration, receipt)
        case Stale => Fail(ClaimExpired)
        case Invalid => Fail(TokenInvalid)
        case Valid => Ok(c)
  }

  ghost predicate SomeUndecided(calls: map<CallKey, Call>, k: RunKey) {
    exists c :: c in calls && c.run == k && Undecided(calls[c])
  }

  /** T-complete: the batch closes with its last undecided call. */
  ghost function CompleteIfDone(db: Db, k: RunKey): Db {
    if SomeUndecided(db.calls, k) || k !in db.batches || db.batches[k].state.Complete? then db
    else db.(batches := db.batches[k := db.batches[k].(state := Complete, leaseDeadline := 0.0)])
  }

  function Decide(db: Db, c: CallKey, kind: Kind, payload: Id): Db
    requires c in db.calls
  {
    db.(calls := db.calls[c := db.calls[c].(exec := Done(kind, payload))])
  }

  /** The catalogue gate before the effect boundary: None lets the call through. */
  function CatalogueVerdict(call: Call, catalogueId: Id, catalogueVersion: Id): Option<Kind> {
    if call.catalogueId == NONE then None
    else if catalogueId == NONE || catalogueVersion == NONE then Some(CatalogueUnverifiable)
    else if catalogueId != call.catalogueId || catalogueVersion != call.catalogueVersion
    then Some(CatalogueChanged)
    else None
  }

  ghost function BeginCall(db: Db, receipt: Token, catalogueId: Id, catalogueVersion: Id,
                           scope: Option<Scope>, now: real): Tx<bool>
  {
    match CallByReceipt(db, receipt, scope)
    case Fail(e) => Tx(db, Fail(e))
    case Ok(c) => BeginKnown(db, c, catalogueId, catalogueVersion, now)
  }

  ghost function BeginKnown(db: Db, c: CallKey, catalogueId: Id, catalogueVersion: Id, now: real): Tx<bool>
    requires c in db.calls && c.run in db.batches
  {
    var b := db.batches[c.run];
    if !Open(b) || b.absoluteDeadline <= now then Tx(db, Fail(ClaimExpired))
    else if Lapsed(b, now) then Tx(ExpireClaim(db, c.run), Fail(ClaimExpired))
    else if b.state.Frozen? then Tx(db, Fail(ClaimExpired))
    else match db.calls[c].exec
      case Executing => Tx(db, Ok(true))
      case Done(_, _) => Tx(db, Fail(DepositRejected))
      case Unbegun =>
        match CatalogueVerdict(db.calls[c], catalogueId, catalogueVersion)
        case Some(verdict) =>
          Tx(CompleteIfDone(Decide(db, c, verdict, NONE), c.run), Fail(CatalogueRejected(verdict)))
        case None =>
          Tx(db.(batches := db.batches[c.run := b.(state := Committed)],
                 calls := db.calls[c := db.calls[c].(exec := Executing)]), Ok(true))
  }

  datatype Deposit = Deposit(kind: Kind, payload: Id, state: BatchState, replay: bool)

  ghost function DepositCall(db: Db, receipt: Token, kind: Kind, payload: Id, scope: Option<Scope>,
                             now: real): Tx<Deposit>
  {
    match CallByReceipt(db, receipt, scope)
    case Fail(e) => Tx(db, Fail(e))
    case Ok(c) => DepositKnown(db, c, kind, payload, now)
  }

  ghost function DepositKnown(db: Db, c: CallKey, kind: Kind, payload: Id, now: real): Tx<Deposit>
    requires c in db.calls && c.run in db.batches
  {
    var b := db.batches[c.run];
    match db.calls[c].exec
    case Done(recorded, held) =>
      if (recorded == kind && held == payload) || !Open(b) then Tx(db, Ok(Deposit(recorded, held, b.state, true)))
      else Tx(db, Fail(ReceiptConflict))
    case _ =>
      // A closed batch is never mutated: an undecided call would replay no outcome at all.
      if !Open(b) then Tx(db, Ok(Deposit(UnknownKind(NONE), NONE, b.state, true)))
      else DepositOpen(db, c, kind, payload, now)
  }

  ghost function DepositOpen(db: Db, c: CallKey, kind: Kind, payload: Id, now: real): Tx<Deposit>
    requires c in db.calls && c.run in db.batches && !db.calls[c].exec.Done?
  {
    var b := db.batches[c.run];
    match db.calls[c].exec
    case Executing =>
      if !Effect(kind) then Tx(db, Fail(DepositRejected))
      else Deposited(db, c, kind, payload)
    case Unbegun =>
      if !NoEffect(kind) then Tx(db, Fail(DepositRejected))
      else if Lapsed(b, now) then Tx(ExpireClaim(db, c.run), Fail(ClaimExpired))
      else Deposited(db, c, kind, payload)
  }

  ghost function Deposited(db: Db, c: CallKey, kind: Kind, payload: Id): Tx<Deposit>
    requires c in db.calls && c.run in db.batches
  {
    var after := CompleteIfDone(Decide(db, c, kind, payload), c.run);
    Tx(after, Ok(Deposit(kind, payload, after.batches[c.run].state, false)))
  }

  // ---- absolute deadline ----

  predicate Overdue(db: Db, k: RunKey, now: real) {
    k in db.batches && Open(db.batches[k]) && db.batches[k].absoluteDeadline <= now
  }

  /** Never-begun calls are abandoned, executing ones become indeterminate. */
  function Lapse(call: Call): Call {
    if !call.state.Emitted? then call
    else match call.exec
      case Unbegun => call.(exec := Done(DeadlineAbandoned, NONE))
      case Executing => call.(exec := Done(Indeterminate, NONE))
      case Done(_, _) => call
  }

  ghost function ExpireBatch(db: Db, k: RunKey): Db {
    CompleteIfDone(db.(calls := map c | c in db.calls ::
                         if c.run == k then Lapse(db.calls[c]) else db.calls[c]), k)
  }

  // ---- consumption by the follow-up admission ----

  function ConsumeBatch(db: Db, k: RunKey): Db
    requires k in db.batches
  {
    db.(batches := if db.batches[k].state.Complete?
                   then db.batches[k := db.batches[k].(state := BatchConsumed)] else db.batches,
        calls := ConsumeEmitted(db.calls, k))
  }

  function ConsumeEmitted(calls: map<CallKey, Call>, k: RunKey): map<CallKey, Call> {
    map c | c in calls ::
      if c.run == k && calls[c].state.Emitted? then calls[c].(state := Consumed) else calls[c]
  }
}

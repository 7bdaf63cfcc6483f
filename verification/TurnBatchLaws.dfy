/** What the batch transactions answer and write, told from their arguments and the rows alone. */
module TurnBatchLaws {
  import opened Basics
  import opened TurnTypes
  import opened TurnTokens
  import opened TurnBatches
  import opened TurnInvariants
  import C = TurnCredentials

  // ---- credentials ----

  /** The caller is nobody in particular, or the very key and publication the context belongs to. */
  ghost predicate Sees(db: Db, c: ContextId, scope: Option<Scope>) {
    scope == None || (c in db.contexts && scope == Some(Scope(c.thread.publication, c.thread.key)))
  }

  ghost predicate HasKey(db: Db, k: RunKey) { k in db.batches && db.batches[k].keyVersion in db.keyring.keys }

  /** A credential made under the batch's own key. */
  ghost function Signed(db: Db, k: RunKey, handle: Handle, usage: Usage, identity: Identity, generation: nat): Token
    requires HasKey(db, k)
  {
    var version := db.batches[k].keyVersion;
    Token(version, handle, Hmac(db.keyring.keys[version], handle, usage, identity, generation))
  }

  /** The receipt of this call at a claim generation, presented by somebody who may. */
  ghost predicate ShowsReceipt(db: Db, receipt: Token, scope: Option<Scope>, c: CallKey, generation: nat) {
    && c in db.calls && HasKey(db, c.run) && db.calls[c].handle != NoHandle && Sees(db, c.run.context, scope)
    && receipt == Signed(db, c.run, db.calls[c].handle, ReceiptUse, OfCall(c), generation)
  }

  /** The receipt of this call at its batch's current claim generation. */
  ghost predicate Holds(db: Db, receipt: Token, scope: Option<Scope>, c: CallKey) {
    c.run in db.batches && ShowsReceipt(db, receipt, scope, c, db.batches[c.run].claimGeneration)
  }

  /** The receipt of this call at an earlier claim generation. */
  ghost predicate HoldsPassed(db: Db, receipt: Token, scope: Option<Scope>, c: CallKey) {
    c.run in db.batches && exists g: nat :: g < db.batches[c.run].claimGeneration && ShowsReceipt(db, receipt, scope, c, g)
  }

  /** Why a receipt that opens nothing is refused. */
  ghost function Refusal(db: Db, receipt: Token, scope: Option<Scope>): Error {
    if exists c :: HoldsPassed(db, receipt, scope, c) then ClaimExpired else TokenInvalid
  }

  lemma NamesCall(db: Db, receipt: Token, scope: Option<Scope>, c: CallKey)
    requires Inv(db) && (Holds(db, receipt, scope, c) || HoldsPassed(db, receipt, scope, c))
    ensures KnownCall(db, receipt) && CallOf(db, receipt) == c
  {
    C.ReceiptNamesCall(db, receipt, c);
  }

  lemma KeysThere(db: Db)
    requires Inv(db)
    ensures forall k :: k in db.batches ==> HasKey(db, k)
    ensures forall k :: k in db.runTokens ==> db.runTokens[k].keyVersion in db.keyring.keys
  {
  }

  lemma KnownReceipt(db: Db, receipt: Token, scope: Option<Scope>, c: CallKey)
    requires KnownCall(db, receipt) && CallOf(db, receipt) == c && (c.run in db.batches ==> HasKey(db, c.run))
    ensures var r := CallByReceipt(db, receipt, scope);
            r == if Holds(db, receipt, scope, c) then Ok(c)
                 else if HoldsPassed(db, receipt, scope, c) then Fail(ClaimExpired) else Fail(TokenInvalid)
  {
    if c.run in db.batches {
      var b := db.batches[c.run];
      assert Sees(db, c.run.context, scope) <==> InScope(db, c.run.context, scope);
      forall g: nat
        ensures Sees(db, c.run.context, scope) ==>
                  (ShowsReceipt(db, receipt, scope, c, g)
                   <==> receipt == Derive(db.keyring.keys, b.keyVersion, receipt.handle, ReceiptUse, OfCall(c), g))
      {
      }
      hide ShowsReceipt, Derive, InScope, Sees;
    }
  }

  /** A receipt opens its call to whoever may see it at the current claim generation; one of an earlier generation is
      told so, and nothing else opens anything. */
  lemma ReceiptLaw(db: Db, receipt: Token, scope: Option<Scope>)
    requires Inv(db)
    ensures var r := CallByReceipt(db, receipt, scope);
            && (forall c :: r == Ok(c) <==> Holds(db, receipt, scope, c))
            && (r.Fail? ==> r == Fail(Refusal(db, receipt, scope)))
  {
    KeysThere(db);
    hide Inv, Holds, HoldsPassed, HasKey, KnownCall, IsCallOf, Refusal, CallByReceipt;
    forall c | Holds(db, receipt, scope, c) || HoldsPassed(db, receipt, scope, c)
      ensures KnownCall(db, receipt) && CallOf(db, receipt) == c
    {
      NamesCall(db, receipt, scope, c);
    }
    if KnownCall(db, receipt) {
      KnownReceipt(db, receipt, scope, CallOf(db, receipt));
      PassedOnly(db, receipt, scope, CallOf(db, receipt));
      OneReceipt(db, receipt, scope, CallOf(db, receipt), CallByReceipt(db, receipt, scope));
    } else {
      UnknownReceipt(db, receipt, scope);
      NoReceipt(db, receipt, scope);
    }
  }

  lemma HeldCall(db: Db, receipt: Token, scope: Option<Scope>, c: CallKey)
    requires Holds(db, receipt, scope, c)
    ensures c in db.calls && c.run in db.batches
  {
  }

  lemma OneReceipt(db: Db, receipt: Token, scope: Option<Scope>, c: CallKey, r: Result<CallKey>)
    requires forall d :: Holds(db, receipt, scope, d) || HoldsPassed(db, receipt, scope, d) ==> d == c
    requires r == if Holds(db, receipt, scope, c) then Ok(c)
                  else if HoldsPassed(db, receipt, scope, c) then Fail(ClaimExpired) else Fail(TokenInvalid)
    ensures forall d :: r == Ok(d) <==> Holds(db, receipt, scope, d)
    ensures r.Fail? ==> r == Fail(Refusal(db, receipt, scope))
  {
    hide Holds, HoldsPassed;
  }

  lemma NoReceipt(db: Db, receipt: Token, scope: Option<Scope>)
    requires forall c :: !HoldsPassed(db, receipt, scope, c)
    ensures Refusal(db, receipt, scope) == TokenInvalid
  {
  }

  lemma UnknownReceipt(db: Db, receipt: Token, scope: Option<Scope>)
    requires !KnownCall(db, receipt)
    ensures CallByReceipt(db, receipt, scope) == Fail(TokenInvalid)
  {
  }

  lemma PassedOnly(db: Db, receipt: Token, scope: Option<Scope>, c: CallKey)
    ensures HoldsPassed(db, receipt, scope, c) ==> !Holds(db, receipt, scope, c)
  {
  }

  // ---- begin ----

  /** A committed batch, or one whose claim still has time, before its absolute deadline. */
  predicate Executable(b: Batch, now: real) {
    b.absoluteDeadline > now && (b.state.Committed? || (b.state.Claimed? && b.leaseDeadline > now))
  }

  /** The identity presented is the one the call was recorded under, if it was recorded under any. */
  predicate Recorded(x: Call, catalogueId: Id, catalogueVersion: Id) {
    x.catalogueId == NONE
    || (catalogueId == x.catalogueId && catalogueVersion == x.catalogueVersion && catalogueVersion != NONE)
  }

  /** Of the run's other calls one still waits to be begun or decided. */
  ghost predicate OthersWait(calls: map<CallKey, Call>, c: CallKey) {
    exists d :: d in calls && d.run == c.run && d != c && calls[d].state.Emitted? && !calls[d].exec.Done?
  }

  /** The call is decided, and with it its batch unless another call of it waits. */
  ghost function Settled(db: Db, c: CallKey, kind: Kind, payload: Id): Db
    requires c in db.calls && c.run in db.batches
  {
    db.(calls := db.calls[c := db.calls[c].(exec := Done(kind, payload))],
        batches := if OthersWait(db.calls, c) || db.batches[c.run].state.Complete? then db.batches
                   else db.batches[c.run := db.batches[c.run].(state := Complete, leaseDeadline := 0.0)])
  }

  lemma SettledIs(db: Db, c: CallKey, kind: Kind, payload: Id)
    requires c in db.calls && c.run in db.batches
    ensures CompleteIfDone(Decide(db, c, kind, payload), c.run) == Settled(db, c, kind, payload)
  {
    var decided := Decide(db, c, kind, payload);
    if OthersWait(db.calls, c) {
      var d :| d in db.calls && d.run == c.run && d != c && db.calls[d].state.Emitted? && !db.calls[d].exec.Done?;
      assert d in decided.calls && Undecided(decided.calls[d]);
    }
  }

  /** A lapsed claim is over: the batch is frozen again, the generation passed and the claim id spent. */
  ghost function Revoked(db: Db, k: RunKey): Db
    requires k in db.batches
  {
    var b := db.batches[k];
    db.(expired := db.expired + {ExpiredClaim(b.handle, b.claimId)},
        batches := db.batches[k := Batch(Frozen, b.handle, b.keyVersion, b.claimGeneration + 1, NONE, 0.0, b.absoluteDeadline)])
  }

  /** A begin under a valid receipt: what it answers and writes. A call starts to execute exactly if its batch is
      executable and the identity presented is the recorded one; a missing half decides it as unverifiable, another
      identity as changed. */
  ghost predicate BeginsAs(db: Db, c: CallKey, catalogueId: Id, catalogueVersion: Id, now: real, r: Tx<bool>)
    requires c in db.calls && c.run in db.batches
  {
    var b, x := db.batches[c.run], db.calls[c];
    if !Executable(b, now) then
      && r.result == Fail(ClaimExpired)
      && r.db == if b.state.Claimed? && b.absoluteDeadline > now then Revoked(db, c.run) else db
    else if x.exec.Done? then r == Tx(db, Fail(DepositRejected))
    else if x.exec.Executing? then r == Tx(db, Ok(true))
    else if Recorded(x, catalogueId, catalogueVersion) then
      && r.result == Ok(true)
      && r.db == db.(batches := db.batches[c.run := b.(state := Committed)], calls := db.calls[c := x.(exec := Executing)])
    else
      var kind := if catalogueId == NONE || catalogueVersion == NONE then CatalogueUnverifiable else CatalogueChanged;
      r == Tx(Settled(db, c, kind, NONE), Fail(CatalogueRejected(kind)))
  }

  lemma BeginsKnown(db: Db, c: CallKey, catalogueId: Id, catalogueVersion: Id, now: real)
    requires c in db.calls && c.run in db.batches
    ensures BeginsAs(db, c, catalogueId, catalogueVersion, now, BeginKnown(db, c, catalogueId, catalogueVersion, now))
  {
    SettledIs(db, c, CatalogueUnverifiable, NONE);
    SettledIs(db, c, CatalogueChanged, NONE);
    hide Settled, CompleteIfDone, Decide;
  }

  /** Without a valid receipt nothing is begun. */
  lemma BeginLaw(db: Db, receipt: Token, catalogueId: Id, catalogueVersion: Id, scope: Option<Scope>, now: real)
    requires Inv(db)
    ensures var r := BeginCall(db, receipt, catalogueId, catalogueVersion, scope, now);
            && (forall c :: Holds(db, receipt, scope, c) ==>
                  c in db.calls && c.run in db.batches && BeginsAs(db, c, catalogueId, catalogueVersion, now, r))
            && ((forall c :: !Holds(db, receipt, scope, c)) ==>
                  r == Tx(db, Fail(Refusal(db, receipt, scope))))
  {
    hide Inv, Holds, Refusal, CallByReceipt, BeginKnown, BeginsAs;
    ReceiptLaw(db, receipt, scope);
    forall c | Holds(db, receipt, scope, c) ensures c in db.calls && c.run in db.batches
      && BeginsAs(db, c, catalogueId, catalogueVersion, now, BeginKnown(db, c, catalogueId, catalogueVersion, now))
    {
      HeldCall(db, receipt, scope, c);
      BeginsKnown(db, c, catalogueId, catalogueVersion, now);
    }
  }

  // ---- deposit ----

  /** The outcomes a call can be given: of an execution, and without one. */
  predicate Deposits(x: Exec, kind: Kind) {
    (x.Executing? && (kind.EffectResult? || kind.NullNavigation? || kind.EffectError? || kind.Indeterminate?))
    || (x.Unbegun? && (kind.Denied? || kind.LedgerUnavailable? || kind.CancelledBeforeBegin?
                       || kind.CatalogueUnverifiable? || kind.CatalogueChanged?))
  }

  /** A deposit under a valid receipt: what it answers and writes. */
  ghost predicate DepositsAs(db: Db, c: CallKey, kind: Kind, payload: Id, now: real, r: Tx<Deposit>)
    requires c in db.calls && c.run in db.batches
  {
    var b, x := db.batches[c.run], db.calls[c].exec;
    var closed := b.state.Complete? || b.state.BatchConsumed?;
    if x == Done(kind, payload) then r == Tx(db, Ok(Deposit(kind, payload, b.state, true)))
    else if x.Done? then r == Tx(db, if closed then Ok(Deposit(x.kind, x.payload, b.state, true)) else Fail(ReceiptConflict))
    else if closed then r == Tx(db, Ok(Deposit(UnknownKind(NONE), NONE, b.state, true)))
    else if !Deposits(x, kind) then r == Tx(db, Fail(DepositRejected))
    else if x.Unbegun? && b.state.Claimed? && b.leaseDeadline <= now then r == Tx(Revoked(db, c.run), Fail(ClaimExpired))
    else
      && r.db == Settled(db, c, kind, payload)
      && r.result == Ok(Deposit(kind, payload, if OthersWait(db.calls, c) then b.state else Complete, false))
  }

  lemma DepositsKnown(db: Db, c: CallKey, kind: Kind, payload: Id, now: real)
    requires c in db.calls && c.run in db.batches
    ensures DepositsAs(db, c, kind, payload, now, DepositKnown(db, c, kind, payload, now))
  {
    hide DepositOpen, Deposits;
    if !db.calls[c].exec.Done? && Open(db.batches[c.run]) { DepositsOpen(db, c, kind, payload, now); }
  }

  lemma DepositsOpen(db: Db, c: CallKey, kind: Kind, payload: Id, now: real)
    requires c in db.calls && c.run in db.batches && !db.calls[c].exec.Done? && Open(db.batches[c.run])
    ensures DepositsAs(db, c, kind, payload, now, DepositOpen(db, c, kind, payload, now))
  {
    SettledIs(db, c, kind, payload);
    RevokedIs(db, c.run);
    SettledState(db, c, kind, payload);
    hide CompleteIfDone, Decide, Settled, Revoked, ExpireClaim, OthersWait;
  }

  lemma SettledState(db: Db, c: CallKey, kind: Kind, payload: Id)
    requires c in db.calls && c.run in db.batches && Open(db.batches[c.run])
    ensures var after := Settled(db, c, kind, payload).batches;
            c.run in after && after[c.run].state == if OthersWait(db.calls, c) then db.batches[c.run].state else Complete
  {
    hide OthersWait;
  }

  lemma RevokedIs(db: Db, k: RunKey)
    requires k in db.batches
    ensures ExpireClaim(db, k) == Revoked(db, k)
  {
  }

  lemma DepositHeld(db: Db, receipt: Token, kind: Kind, payload: Id, scope: Option<Scope>, now: real, c: CallKey)
    requires Inv(db) && Holds(db, receipt, scope, c)
    ensures c in db.calls && c.run in db.batches
    ensures DepositsAs(db, c, kind, payload, now, DepositCall(db, receipt, kind, payload, scope, now))
  {
    hide Inv, Holds, Refusal, CallByReceipt, DepositKnown, DepositsAs;
    ReceiptLaw(db, receipt, scope);
    HeldCall(db, receipt, scope, c);
    DepositsKnown(db, c, kind, payload, now);
  }

  /** Without a valid receipt nothing is deposited. */
  lemma DepositLaw(db: Db, receipt: Token, kind: Kind, payload: Id, scope: Option<Scope>, now: real)
    requires Inv(db)
    ensures var r := DepositCall(db, receipt, kind, payload, scope, now);
            && (forall c :: Holds(db, receipt, scope, c) ==>
                  c in db.calls && c.run in db.batches && DepositsAs(db, c, kind, payload, now, r))
            && ((forall c :: !Holds(db, receipt, scope, c)) ==>
                  r == Tx(db, Fail(Refusal(db, receipt, scope))))
  {
    hide Inv, Holds, Refusal, CallByReceipt, DepositKnown, DepositsAs;
    ReceiptLaw(db, receipt, scope);
    forall c | Holds(db, receipt, scope, c) ensures c in db.calls && c.run in db.batches
      && DepositsAs(db, c, kind, payload, now, DepositCall(db, receipt, kind, payload, scope, now))
    {
      DepositHeld(db, receipt, kind, payload, scope, now, c);
    }
  }

  // ---- claim and renew ----

  /** A duration is at least a second. */
  function AtLeastOne(seconds: real): real { if seconds < 1.0 then 1.0 else seconds }

  /** The token of this use and generation for the batch, presented by somebody who may. */
  ghost predicate ShowsBatch(db: Db, token: Token, scope: Option<Scope>, k: RunKey, usage: Usage, generation: nat) {
    HasKey(db, k) && Sees(db, k.context, scope) && token == Signed(db, k, db.batches[k].handle, usage, OfRun(k), generation)
  }

  /** What a claim answers: the batch as it stands, its owner token, and one receipt for each emitted call. */
  ghost predicate Credentials(db: Db, k: RunKey, claim: Claim)
    requires HasKey(db, k)
  {
    var b := db.batches[k];
    && claim.run == k && claim.state == b.state && claim.generation == b.claimGeneration
    && claim.owner == Signed(db, k, b.handle, OwnerUse, OfRun(k), b.claimGeneration)
    && (forall c :: c in claim.receipts <==> c in db.calls && c.run == k && db.calls[c].state.Emitted?)
    && (forall c :: c in claim.receipts && c in db.calls ==>
          claim.receipts[c] == Signed(db, k, db.calls[c].handle, ReceiptUse, OfCall(c), b.claimGeneration))
  }

  lemma CredentialsOf(db: Db, k: RunKey)
    requires HasKey(db, k)
    ensures Credentials(db, k, ClaimOf(db, k))
  {
  }

  /** A claim under the batch's token: what it answers and writes. */
  ghost predicate ClaimsAs(db: Db, k: RunKey, claimId: Id, lease: real, now: real, r: Tx<Claim>)
    requires HasKey(db, k)
  {
    var b := db.batches[k];
    var closed := b.state.Complete? || b.state.BatchConsumed?;
    var lapsed := b.state.Claimed? && b.leaseDeadline <= now;
    var seen := if lapsed then Revoked(db, k) else db;
    if !closed && b.absoluteDeadline <= now then r == Tx(db, Fail(ClaimExpired))
    else if ExpiredClaim(b.handle, claimId) in db.expired || (lapsed && b.claimId == claimId) || closed then
      r == Tx(seen, Fail(ClaimExpired))
    else if b.state.Frozen? || lapsed then
      && r.db == seen.(batches := seen.batches[k := Batch(Claimed, b.handle, b.keyVersion,
                         b.claimGeneration + (if lapsed then 2 else 1), claimId, now + AtLeastOne(lease), b.absoluteDeadline)])
      && r.result.Ok? && HasKey(r.db, k) && Credentials(r.db, k, r.result.value)
    else if b.claimId != claimId then r == Tx(db, Fail(BatchClaimed))
    else r.db == db && r.result.Ok? && Credentials(db, k, r.result.value)
  }

  lemma ClaimsKnown(db: Db, k: RunKey, claimId: Id, lease: real, now: real)
    requires HasKey(db, k)
    ensures ClaimsAs(db, k, claimId, lease, now, ClaimKnown(db, k, claimId, lease, now))
  {
    hide ClaimOf, Credentials, Revoked, ExpireClaim, ClaimSeen;
    RevokedIs(db, k);
    RevokedBatch(db, k);
    var lapsed := db.batches[k].state.Claimed? && db.batches[k].leaseDeadline <= now;
    var seen := if lapsed then Revoked(db, k) else db;
    SeenAs(seen, k, claimId, lease, now);
  }

  lemma RevokedBatch(db: Db, k: RunKey)
    requires HasKey(db, k)
    ensures var r := Revoked(db, k); var b := db.batches[k];
            && HasKey(r, k) && r.expired == db.expired + {ExpiredClaim(b.handle, b.claimId)}
            && r.batches[k] == Batch(Frozen, b.handle, b.keyVersion, b.claimGeneration + 1, NONE, 0.0, b.absoluteDeadline)
  {
  }

  lemma SeenAs(seen: Db, k: RunKey, claimId: Id, lease: real, now: real)
    requires HasKey(seen, k)
    ensures var b := seen.batches[k]; var r := ClaimSeen(seen, k, claimId, lease, now);
            if ExpiredClaim(b.handle, claimId) in seen.expired || b.state.Complete? || b.state.BatchConsumed? then
              r == Tx(seen, Fail(ClaimExpired))
            else if b.state.Frozen? then
              && r.db == seen.(batches := seen.batches[k := Batch(Claimed, b.handle, b.keyVersion, b.claimGeneration + 1,
                                 claimId, now + AtLeastOne(lease), b.absoluteDeadline)])
              && r.result.Ok? && HasKey(r.db, k) && Credentials(r.db, k, r.result.value)
            else if b.claimId != claimId then r == Tx(seen, Fail(BatchClaimed))
            else r.db == seen && r.result.Ok? && Credentials(seen, k, r.result.value)
  {
    hide ClaimOf, Credentials;
    CredentialsOf(seen, k);
    var r := ClaimSeen(seen, k, claimId, lease, now);
    if r.result.Ok? { CredentialsOf(r.db, k); }
  }

  lemma NamesBatch(db: Db, token: Token, scope: Option<Scope>, k: RunKey, usage: Usage, generation: nat)
    requires Inv(db) && ShowsBatch(db, token, scope, k, usage, generation)
    ensures KnownBatch(db, token) && BatchOf(db, token) == k
  {
    C.TokenNames(db, token, k);
  }

  lemma ClaimsVerified(db: Db, token: Token, claimId: Id, lease: real, scope: Option<Scope>, now: real, k: RunKey)
    requires KnownBatch(db, token) && BatchOf(db, token) == k && HasKey(db, k) && claimId != NONE
    ensures ClaimBatch(db, token, claimId, lease, scope, now)
            == if ShowsBatch(db, token, scope, k, BatchUse, 0) then ClaimKnown(db, k, claimId, lease, now)
               else Tx(db, Fail(TokenInvalid))
  {
    hide ClaimKnown;
  }

  /** A claim id and the batch's own token are needed, and enough to be heard. */
  lemma ClaimLaw(db: Db, token: Token, claimId: Id, lease: real, scope: Option<Scope>, now: real)
    requires Inv(db)
    ensures var r := ClaimBatch(db, token, claimId, lease, scope, now);
            && (claimId == NONE ==> r == Tx(db, Fail(InvalidArgument)))
            && (claimId != NONE ==> forall k :: ShowsBatch(db, token, scope, k, BatchUse, 0) ==>
                  HasKey(db, k) && ClaimsAs(db, k, claimId, lease, now, r))
            && (claimId != NONE && (forall k :: !ShowsBatch(db, token, scope, k, BatchUse, 0)) ==>
                  r == Tx(db, Fail(TokenInvalid)))
  {
    KeysThere(db);
    if claimId != NONE {
      hide Inv, ClaimsAs, ClaimKnown;
      forall k | ShowsBatch(db, token, scope, k, BatchUse, 0)
        ensures HasKey(db, k) && KnownBatch(db, token) && BatchOf(db, token) == k
        ensures ClaimsAs(db, k, claimId, lease, now, ClaimKnown(db, k, claimId, lease, now))
      {
        NamesBatch(db, token, scope, k, BatchUse, 0);
        ClaimsKnown(db, k, claimId, lease, now);
      }
      if KnownBatch(db, token) { ClaimsVerified(db, token, claimId, lease, scope, now, BatchOf(db, token)); }
      hide ShowsBatch;
    }
  }

  /** A renewal under the owner token of the current generation. */
  ghost predicate RenewsAs(db: Db, k: RunKey, lease: real, now: real, r: Tx<bool>)
    requires k in db.batches
  {
    var b := db.batches[k];
    if b.state.Committed? then r == Tx(db, Ok(true))
    else if !b.state.Claimed? || b.absoluteDeadline <= now then r == Tx(db, Fail(ClaimExpired))
    else if b.leaseDeadline <= now then r == Tx(Revoked(db, k), Fail(ClaimExpired))
    else
      var asked := now + AtLeastOne(lease);
      && r.result == Ok(true)
      && r.db == db.(batches := db.batches[k := b.(
           leaseDeadline := if asked < b.absoluteDeadline then asked else b.absoluteDeadline)])
  }

  /** An owner token of an earlier generation. */
  ghost predicate OwnedBefore(db: Db, token: Token, scope: Option<Scope>, k: RunKey) {
    k in db.batches && exists g: nat :: g < db.batches[k].claimGeneration && ShowsBatch(db, token, scope, k, OwnerUse, g)
  }

  ghost predicate OwnsNow(db: Db, token: Token, scope: Option<Scope>, k: RunKey) {
    k in db.batches && ShowsBatch(db, token, scope, k, OwnerUse, db.batches[k].claimGeneration)
  }

  lemma RenewsKnown(db: Db, token: Token, lease: real, scope: Option<Scope>, now: real, k: RunKey)
    requires KnownBatch(db, token) && BatchOf(db, token) == k && HasKey(db, k)
    ensures var r := RenewBatch(db, token, lease, scope, now);
            if OwnsNow(db, token, scope, k) then RenewsAs(db, k, lease, now, r)
            else r == Tx(db, Fail(if OwnedBefore(db, token, scope, k) then ClaimExpired else TokenInvalid))
  {
    RevokedIs(db, k);
    hide Revoked, ExpireClaim;
    var b := db.batches[k];
    assert Sees(db, k.context, scope) <==> InScope(db, k.context, scope);
    forall g: nat
      ensures Sees(db, k.context, scope) ==>
                (ShowsBatch(db, token, scope, k, OwnerUse, g)
                 <==> token == Derive(db.keyring.keys, b.keyVersion, b.handle, OwnerUse, OfRun(k), g))
    {
    }
    hide ShowsBatch, Derive, InScope, Sees;
  }

  /** Only the owner of the current generation renews. */
  lemma RenewLaw(db: Db, token: Token, lease: real, scope: Option<Scope>, now: real)
    requires Inv(db)
    ensures var r := RenewBatch(db, token, lease, scope, now);
            && (forall k :: OwnsNow(db, token, scope, k) ==> k in db.batches && RenewsAs(db, k, lease, now, r))
            && ((forall k :: !OwnsNow(db, token, scope, k)) ==>
                  r == Tx(db, Fail(if exists k :: OwnedBefore(db, token, scope, k) then ClaimExpired else TokenInvalid)))
  {
    KeysThere(db);
    hide Inv, RenewsAs, OwnsNow, OwnedBefore, HasKey;
    forall k | OwnsNow(db, token, scope, k) || OwnedBefore(db, token, scope, k)
      ensures k in db.batches && KnownBatch(db, token) && BatchOf(db, token) == k
    {
      OwnerNames(db, token, scope, k);
    }
    if KnownBatch(db, token) { RenewsKnown(db, token, lease, scope, now, BatchOf(db, token)); }
  }

  lemma OwnerNames(db: Db, token: Token, scope: Option<Scope>, k: RunKey)
    requires Inv(db) && (OwnsNow(db, token, scope, k) || OwnedBefore(db, token, scope, k))
    ensures k in db.batches && KnownBatch(db, token) && BatchOf(db, token) == k
  {
    C.TokenNames(db, token, k);
  }

  // ---- the absolute deadline and the follow-up ----

  /** The sweep closes the batch: what was never begun is abandoned, what executes has an unknown outcome. */
  lemma ExpiryLaw(db: Db, k: RunKey)
    requires k in db.batches && !db.batches[k].state.Complete? && !db.batches[k].state.BatchConsumed?
    ensures var after := ExpireBatch(db, k);
            && after == db.(calls := after.calls, batches := db.batches[k := db.batches[k].(
                              state := Complete, leaseDeadline := 0.0)])
            && after.calls.Keys == db.calls.Keys
            && forall c :: c in db.calls ==>
                 after.calls[c] == if c.run != k || !db.calls[c].state.Emitted? || db.calls[c].exec.Done? then db.calls[c]
                                   else db.calls[c].(exec := Done(if db.calls[c].exec.Unbegun? then DeadlineAbandoned
                                                                  else Indeterminate, NONE))
  {
    var lapsed := db.(calls := map c | c in db.calls :: if c.run == k then Lapse(db.calls[c]) else db.calls[c]);
    assert !SomeUndecided(lapsed.calls, k);
    hide SomeUndecided;
  }

  /** A consumed batch takes every emitted call of its run with it, and nothing else. */
  lemma ConsumptionLaw(db: Db, k: RunKey)
    requires k in db.batches && db.batches[k].state.Complete?
    ensures var after := ConsumeBatch(db, k);
            && after == db.(calls := after.calls, batches := db.batches[k := db.batches[k].(state := BatchConsumed)])
            && after.calls.Keys == db.calls.Keys
            && forall c :: c in db.calls ==>
                 after.calls[c] == if c.run == k && db.calls[c].state.Emitted? then db.calls[c].(state := Consumed)
                                   else db.calls[c]
  {
  }
}

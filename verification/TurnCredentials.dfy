/** Claim generations, owner tokens and receipts over whole runs. */
module TurnCredentials {
  import opened Basics
  import opened TurnTypes
  import opened TurnTokens
  import opened TurnBatches
  import opened TurnAdmissions
  import opened TurnInvariants
  import opened TurnEvolution
  import opened TurnMachine
  import opened TurnSafety
  import opened TurnFrames
  import opened TurnEffects

  // ---- one claim generation for all effects of a batch ----

  lemma TouchedBatch(a: Db, c: CallKey)
    requires Progressed(a.batches, a.calls) && c in a.calls && !Untouched(a.calls[c].exec)
    ensures c.run in a.batches && (a.batches[c.run].state.Committed? || !Open(a.batches[c.run]))
  {
  }

  /** Once a call of a batch is begun or decided with an effect, the batch's claim generation is final. */
  lemma GenerationFrozen(states: seq<Db>, ops: seq<Op>, i: nat, j: nat, c: CallKey)
    requires IsRun(states, ops) && i <= j < |states| && c in states[i].calls && !Untouched(states[i].calls[c].exec)
    requires c.run.context in states[j].contexts
    ensures c.run in states[i].batches && c.run in states[j].batches
    ensures states[j].batches[c.run].claimGeneration == states[i].batches[c.run].claimGeneration
  {
    hide IsRun, Progressed, BatchesAdvance, InContext, Untouched;
    Forward(states, ops, i, j);
    Placed(states[i]);
    TouchedBatch(states[i], c);
    BatchLater(states[i], states[j], c.run);
  }

  lemma JudgedValid(db: Db, receipt: Token, scope: Option<Scope>)
    ensures var r := CallByReceipt(db, receipt, scope);
            r.Ok? ==> r.value in db.calls && r.value.run in db.batches
                      && db.batches[r.value.run].keyVersion in db.keyring.keys && receipt == Receipt(db, r.value)
  {
  }

  lemma BegunState(db: Db, x: CallKey, catalogueId: Id, catalogueVersion: Id, now: real)
    requires x in db.calls && x.run in db.batches
    ensures var r := BeginKnown(db, x, catalogueId, catalogueVersion, now);
            r.result.Ok? ==> x in r.db.calls && r.db.calls[x].exec.Executing? && x.run in r.db.batches
                             && r.db.batches[x.run].claimGeneration == db.batches[x.run].claimGeneration
                             && r.db.contexts == db.contexts
  {
    hide CompleteIfDone, CatalogueVerdict, Lapsed, ExpireClaim, Open;
  }

  /** What a successful begin presented and left behind. */
  lemma BegunBy(db: Db, op: Op, c: CallKey)
    requires BeganBy(db, op, c)
    ensures c in db.calls && c.run in db.batches && db.batches[c.run].keyVersion in db.keyring.keys
    ensures op.token == Receipt(db, c)
    ensures var after := Step(db, op);
            c in after.calls && after.calls[c].exec.Executing? && c.run in after.batches
            && after.batches[c.run].claimGeneration == db.batches[c.run].claimGeneration
            && after.contexts == db.contexts
  {
    hide CallByReceipt, BeginKnown, Receipt;
    JudgedValid(db, op.token, op.scope);
    ReceiptNames(db, op.token, op.scope);
    BegunState(db, c, op.catalogueId, op.catalogueVersion, op.now);
  }

  /** All begins of a batch's calls, over a whole run, present receipts of one claim generation. */
  lemma OneClaimGeneration(states: seq<Db>, ops: seq<Op>, i: nat, j: nat, c: CallKey, d: CallKey)
    requires IsRun(states, ops) && i <= j < |ops| && c.run == d.run
    requires BeganBy(states[i], ops[i], c) && BeganBy(states[j], ops[j], d)
    ensures ops[i].token.Token? && ops[i].token.mac.Hmac? && ops[j].token.Token? && ops[j].token.mac.Hmac?
    ensures ops[i].token.mac.generation == ops[j].token.mac.generation
  {
    hide Inv, Evolves, BeganBy, Step, Init;
    BegunBy(states[i], ops[i], c);
    BegunBy(states[j], ops[j], d);
    if i < j {
      assert states[i + 1] == Step(states[i], ops[i]);
      assert !Untouched(Executing);
      Reachable(states, ops, j);
      BatchContext(states[j], d.run);
      GenerationFrozen(states, ops, i + 1, j, c);
    }
  }

  lemma BatchContext(db: Db, k: RunKey)
    requires Inv(db) && k in db.batches
    ensures k.context in db.contexts && db.batches[k].keyVersion in db.keyring.keys
  {
  }

  // ---- what a claim hands out ----

  /** The step claims the batch for the claim id, answering its credentials. */
  ghost predicate ClaimedBy(db: Db, op: Op, claim: Claim) {
    op.ClaimOp? && ClaimBatch(db, op.token, op.claimId, op.lease, op.scope, op.now).result == Ok(claim)
  }

  lemma SeenClaim(seen: Db, k: RunKey, claimId: Id, lease: real, now: real)
    requires k in seen.batches && seen.batches[k].keyVersion in seen.keyring.keys
    ensures var r := ClaimSeen(seen, k, claimId, lease, now);
            r.result.Ok? ==>
              && k in r.db.batches && r.db.batches[k].keyVersion in r.db.keyring.keys
              && Live(r.db.batches[k]) && r.db.batches[k].claimId == claimId
              && r.db.batches[k].handle == seen.batches[k].handle && r.result.value == ClaimOf(r.db, k)
              && r.result.value.run == k
  {
    hide OwnerToken, Receipts;
  }

  lemma Claimed(db: Db, op: Op, claim: Claim)
    requires ClaimedBy(db, op, claim)
    ensures var after := Step(db, op); var k := claim.run;
            && k in after.batches && after.batches[k].keyVersion in after.keyring.keys
            && Live(after.batches[k]) && after.batches[k].claimId == op.claimId && claim == ClaimOf(after, k)
            && op.token.Token? && after.batches[k].handle == op.token.handle
  {
    hide BatchToken, ClaimSeen, ClaimOf, ExpireClaim, Live;
    var k := BatchOf(db, op.token);
    ExpiredClaimKeeps(db, k);
    SeenClaim(db, k, op.claimId, op.lease, op.now);
    SeenClaim(ExpireClaim(db, k), k, op.claimId, op.lease, op.now);
  }

  /** A token's handle names at most one batch. */
  lemma TokenNames(db: Db, token: Token, k: RunKey)
    requires Named(db.batches, db.calls, db.runTokens, db.expired, db.supply)
    requires k in db.batches && token.Token? && db.batches[k].handle == token.handle
    ensures KnownBatch(db, token) && BatchOf(db, token) == k
  {
    assert IsBatchOf(db, token, k);
  }

  lemma SameSecret(a: Db, b: Db, v: nat)
    requires Keyed(a.keyring, a.batches, a.runTokens) && KeysAge(a.keyring, b.keyring)
    requires v in a.keyring.keys && v in b.keyring.keys
    ensures a.keyring.keys[v] == b.keyring.keys[v]
  {
  }

  /** The emitted calls of a batch, and their handles, do not change before it is consumed. */
  lemma SameEmitted(a: Db, b: Db, k: RunKey)
    requires InContext(a) && Earned(a.batches, a.admissions) && k in a.batches && k.context in b.contexts
    requires CallsAdvance(a.calls, b.calls, a.batches, b.batches, a.admissions, b.contexts)
    requires k in b.batches && !b.batches[k].state.BatchConsumed?
    ensures forall c: CallKey | c.run == k ::
              (c in a.calls && a.calls[c].state.Emitted?) <==> (c in b.calls && b.calls[c].state.Emitted?)
  {
  }

  lemma SameHandles(a: Db, b: Db, k: RunKey)
    requires InContext(a) && k.context in b.contexts && k in a.batches && Unconsumed(a.batches[k])
    requires Named(a.batches, a.calls, a.runTokens, a.expired, a.supply)
    requires CallsAdvance(a.calls, b.calls, a.batches, b.batches, a.admissions, b.contexts)
    ensures forall c | c in a.calls && c.run == k && a.calls[c].state.Emitted? ::
              c in b.calls && b.calls[c].handle == a.calls[c].handle
  {
  }

  /** Two states in which the batch has one claim generation derive the same credentials. */
  lemma SameCredentials(a: Db, b: Db, k: RunKey)
    requires Inv(a) && Inv(b) && Evolves(a, b) && k in a.batches && k in b.batches
    requires Unconsumed(a.batches[k]) && Unconsumed(b.batches[k])
    requires a.batches[k].claimGeneration == b.batches[k].claimGeneration
    ensures a.batches[k].keyVersion in a.keyring.keys && b.batches[k].keyVersion in b.keyring.keys
    ensures OwnerToken(a, k) == OwnerToken(b, k) && Receipts(a, k) == Receipts(b, k)
  {
    BatchContext(a, k);
    BatchContext(b, k);
    hide CurrentOnly, Rooted, Fenced, Exited, Journaled, Ledgered, Earned, OneBatch, Progressed, LiveClaims, Named,
      Minted, Keyed, Parented, Published;
    hide ThreadsGrow, ContextsAge, TurnsAdvance, FencesGrow, FencesFresh, RunsGrow, RowsKept, CallsAdvance,
      BatchesAdvance, KeysAge, HandlesKept, InContext;
    Placed(a);
    BatchLater(a, b, k);
    SameSecret(a, b, a.batches[k].keyVersion);
    SameEmitted(a, b, k);
    SameHandles(a, b, k);
    hide BatchAdvances;
    SameReceipts(a, b, k);
  }

  lemma SameReceipts(a: Db, b: Db, k: RunKey)
    requires k in a.batches && k in b.batches
    requires a.batches[k].keyVersion in a.keyring.keys && b.batches[k].keyVersion in b.keyring.keys
    requires a.batches[k].keyVersion == b.batches[k].keyVersion
    requires a.keyring.keys[a.batches[k].keyVersion] == b.keyring.keys[b.batches[k].keyVersion]
    requires a.batches[k].claimGeneration == b.batches[k].claimGeneration
    requires forall c: CallKey | c.run == k ::
               (c in a.calls && a.calls[c].state.Emitted?) <==> (c in b.calls && b.calls[c].state.Emitted?)
    requires forall c | c in a.calls && c.run == k && a.calls[c].state.Emitted? ::
               c in b.calls && b.calls[c].handle == a.calls[c].handle
    ensures Receipts(a, k) == Receipts(b, k)
  {
    var r, s := Receipts(a, k), Receipts(b, k);
    forall c: CallKey ensures c in r <==> c in s {
    }
    forall c | c in r ensures r[c] == s[c] {
    }
  }

  /** Claiming again under a live claim id: either the same claim, or none. */
  lemma ReclaimKnown(b: Db, k: RunKey, was: Batch, claimId: Id, lease: real, now: real)
    requires k in b.batches && b.batches[k].keyVersion in b.keyring.keys && LiveClaims(b.batches, b.expired)
    requires Live(was) && was.claimId == claimId && BatchAdvances(was, b.batches[k], b.expired)
    requires ClaimKnown(b, k, claimId, lease, now).result.Ok?
    ensures Live(b.batches[k]) && b.batches[k].claimGeneration == was.claimGeneration
    ensures ClaimKnown(b, k, claimId, lease, now) == Tx(b, Ok(ClaimOf(b, k)))
  {
    hide ClaimOf;
  }

  /** A batch of an earlier state seen again: same row, same name. */
  lemma BatchAgain(a: Db, b: Db, k: RunKey, token: Token)
    requires Inv(a) && Inv(b) && Evolves(a, b) && k in a.batches && k.context in b.contexts
    requires token.Token? && a.batches[k].handle == token.handle
    ensures k in b.batches && BatchAdvances(a.batches[k], b.batches[k], b.expired) && LiveClaims(b.batches, b.expired)
    ensures b.batches[k].keyVersion in b.keyring.keys && KnownBatch(b, token) && BatchOf(b, token) == k
  {
    hide CurrentOnly, Rooted, Fenced, Exited, Journaled, Ledgered, Earned, OneBatch, Progressed, LiveClaims, Named,
      Minted, Keyed, Parented, Published;
    hide ThreadsGrow, ContextsAge, TurnsAdvance, FencesGrow, FencesFresh, RunsGrow, RowsKept, CallsAdvance,
      BatchesAdvance, KeysAge, HandlesKept, InContext, BatchAdvances;
    Placed(a);
    BatchLater(a, b, k);
    assert b.batches[k].handle == token.handle by { SameHandle(a.batches[k], b.batches[k], b.expired); }
    BatchContext(b, k);
    TokenNames(b, token, k);
  }

  lemma SameHandle(b: Batch, d: Batch, expired: set<ExpiredClaim>)
    requires BatchAdvances(b, d, expired)
    ensures b.handle == d.handle && b.keyVersion == d.keyVersion && b.claimGeneration <= d.claimGeneration
  {
  }

  lemma ClaimUnfolds(db: Db, op: Op, claim: Claim, k: RunKey)
    requires ClaimedBy(db, op, claim) && KnownBatch(db, op.token) && BatchOf(db, op.token) == k
    ensures k in db.batches && db.batches[k].keyVersion in db.keyring.keys
    ensures ClaimKnown(db, k, op.claimId, op.lease, op.now).result == Ok(claim)
    ensures Step(db, op) == ClaimKnown(db, k, op.claimId, op.lease, op.now).db
  {
    hide ClaimKnown, BatchToken;
  }

  /** Repeating a claim id answers byte-identical credentials and changes nothing. */
  lemma ClaimRepeats(states: seq<Db>, ops: seq<Op>, i: nat, j: nat, first: Claim, again: Claim)
    requires IsRun(states, ops) && i < j < |ops|
    requires ClaimedBy(states[i], ops[i], first) && ClaimedBy(states[j], ops[j], again)
    requires ops[i].token == ops[j].token && ops[i].claimId == ops[j].claimId && first.run.context in states[j].contexts
    ensures again.run == first.run && again.generation == first.generation
    ensures again.owner == first.owner && again.receipts == first.receipts
    ensures states[j + 1] == states[j]
  {
    assert ops[j].ClaimOp?;
    hide Inv, Evolves, ClaimedBy, Step, Init, LiveClaims, BatchAdvances, ClaimKnown, OwnerToken, Receipts, Live;
    var a, b, k := states[i + 1], states[j], first.run;
    Claimed(states[i], ops[i], first);
    Forward(states, ops, i + 1, j);
    BatchAgain(a, b, k, ops[j].token);
    ClaimUnfolds(b, ops[j], again, k);
    ReclaimKnown(b, k, a.batches[k], ops[j].claimId, ops[j].lease, ops[j].now);
    LiveUnconsumed(a.batches[k]);
    LiveUnconsumed(b.batches[k]);
    SameCredentials(a, b, k);
  }

  /** What the claiming transaction verified. */
  lemma ClaimVerified(db: Db, op: Op, claim: Claim)
    requires ClaimedBy(db, op, claim)
    ensures op.claimId != NONE && op.token.Token? && claim.run in db.batches
    ensures db.batches[claim.run].keyVersion in db.keyring.keys && op.token == BatchToken(db, claim.run)
  {
    hide ClaimSeen, ClaimOf, ExpireClaim, BatchToken, Live;
    var k := BatchOf(db, op.token);
    ExpiredClaimKeeps(db, k);
    SeenClaim(db, k, op.claimId, op.lease, op.now);
    SeenClaim(ExpireClaim(db, k), k, op.claimId, op.lease, op.now);
  }

  /** The claimable token of a batch stays the same for good. */
  lemma SameBatchToken(a: Db, b: Db, k: RunKey)
    requires Keyed(a.keyring, a.batches, a.runTokens) && KeysAge(a.keyring, b.keyring)
    requires k in a.batches && k in b.batches && BatchAdvances(a.batches[k], b.batches[k], b.expired)
    requires a.batches[k].keyVersion in a.keyring.keys && b.batches[k].keyVersion in b.keyring.keys
    ensures BatchToken(a, k) == BatchToken(b, k)
  {
    SameHandle(a.batches[k], b.batches[k], b.expired);
    hide Keyed, KeysAge, BatchAdvances;
    SameSecret(a, b, a.batches[k].keyVersion);
  }

  /** Claiming a known batch again under its claim id succeeds exactly on the live claim. */
  lemma ReclaimIff(b: Db, k: RunKey, was: Batch, claimId: Id, lease: real, now: real)
    requires k in b.batches && b.batches[k].keyVersion in b.keyring.keys && LiveClaims(b.batches, b.expired)
    requires Live(was) && was.claimId == claimId && BatchAdvances(was, b.batches[k], b.expired)
    ensures ClaimKnown(b, k, claimId, lease, now).result.Ok?
            <==> Live(b.batches[k]) && b.batches[k].claimId == claimId && !Lapsed(b.batches[k], now)
                 && b.batches[k].absoluteDeadline > now
  {
    hide ClaimOf;
  }

  lemma VerifiedClaim(db: Db, k: RunKey, token: Token, claimId: Id, lease: real, scope: Option<Scope>, now: real)
    requires KnownBatch(db, token) && BatchOf(db, token) == k && db.batches[k].keyVersion in db.keyring.keys
    requires claimId != NONE && token == BatchToken(db, k) && InScope(db, k.context, scope)
    ensures ClaimBatch(db, token, claimId, lease, scope, now) == ClaimKnown(db, k, claimId, lease, now)
  {
    hide ClaimKnown, BatchToken;
  }

  lemma KeysOf(a: Db, b: Db)
    requires Inv(a) && Evolves(a, b)
    ensures Keyed(a.keyring, a.batches, a.runTokens) && KeysAge(a.keyring, b.keyring)
  {
  }

  /** Repeating a claim id succeeds exactly while its claim is live on the batch, its lease has not
      lapsed before an effect, and the absolute deadline has not passed. */
  lemma ClaimAnswersIff(states: seq<Db>, ops: seq<Op>, i: nat, j: nat, first: Claim, lease: real, scope: Option<Scope>,
                        now: real)
    requires IsRun(states, ops) && i < j < |states| && ClaimedBy(states[i], ops[i], first)
    requires first.run.context in states[j].contexts && InScope(states[j], first.run.context, scope)
    ensures ops[i].ClaimOp? && first.run in states[j].batches
    ensures var b := states[j].batches[first.run];
            ClaimBatch(states[j], ops[i].token, ops[i].claimId, lease, scope, now).result.Ok?
            <==> Live(b) && b.claimId == ops[i].claimId && !Lapsed(b, now) && b.absoluteDeadline > now
  {
    assert ops[i].ClaimOp?;
    hide Inv, Evolves, ClaimedBy, Step, Init, LiveClaims, BatchAdvances, ClaimKnown, ClaimBatch, BatchToken, Live, Keyed,
      KeysAge, InScope, Lapsed;
    var a, b, k := states[i + 1], states[j], first.run;
    ClaimVerified(states[i], ops[i], first);
    Claimed(states[i], ops[i], first);
    Forward(states, ops, i, j);
    Forward(states, ops, i + 1, j);
    BatchAgain(a, b, k, ops[i].token);
    assert states[i].batches[k].handle == ops[i].token.handle by { TokenHandle(states[i], k); }
    BatchAgain(states[i], b, k, ops[i].token);
    KeysOf(states[i], b);
    SameBatchToken(states[i], b, k);
    VerifiedClaim(b, k, ops[i].token, ops[i].claimId, lease, scope, now);
    ReclaimIff(b, k, a.batches[k], ops[i].claimId, lease, now);
  }

  lemma TokenHandle(db: Db, k: RunKey)
    requires k in db.batches && db.batches[k].keyVersion in db.keyring.keys
    ensures BatchToken(db, k).Token? && BatchToken(db, k).handle == db.batches[k].handle
  {
  }

  lemma LiveUnconsumed(b: Batch)
    requires Live(b)
    ensures Unconsumed(b)
  {
  }

  lemma ExpiredRefused(db: Db, k: RunKey, claimId: Id, lease: real, now: real)
    requires k in db.batches && db.batches[k].keyVersion in db.keyring.keys
    requires ExpiredClaim(db.batches[k].handle, claimId) in db.expired
    ensures ClaimKnown(db, k, claimId, lease, now).result == Fail(ClaimExpired)
  {
    hide ClaimOf;
  }

  /** A claim id whose lease was seen to expire never obtains credentials again. */
  lemma ExpiredForGood(states: seq<Db>, ops: seq<Op>, i: nat, j: nat, token: Token, claimId: Id, lease: real,
                       scope: Option<Scope>, now: real)
    requires IsRun(states, ops) && i <= j < |states| && token.Token?
    requires ExpiredClaim(token.handle, claimId) in states[i].expired
    ensures ClaimBatch(states[j], token, claimId, lease, scope, now).result.Fail?
    ensures ClaimBatch(states[j], token, claimId, lease, scope, now).result.error
            in {InvalidArgument, TokenInvalid, KeyMissing, ClaimExpired}
  {
    hide IsRun, Inv, BatchToken, ClaimKnown, KnownBatch;
    Forward(states, ops, i, j);
    ExpiredKept(states[i], states[j]);
    if KnownBatch(states[j], token) && states[j].batches[BatchOf(states[j], token)].keyVersion in states[j].keyring.keys {
      ExpiredRefused(states[j], BatchOf(states[j], token), claimId, lease, now);
    }
  }

  lemma ExpiredKept(a: Db, b: Db)
    requires Evolves(a, b)
    ensures a.expired <= b.expired
  {
  }

  // ---- credentials of a passed generation ----

  lemma PassedOwner(a: Db, b: Db, k: RunKey)
    requires k in a.batches && k in b.batches && b.batches[k].keyVersion in b.keyring.keys
    requires a.batches[k].keyVersion in a.keyring.keys
    requires a.keyring.keys[a.batches[k].keyVersion] == b.keyring.keys[b.batches[k].keyVersion]
    requires a.batches[k].handle == b.batches[k].handle && a.batches[k].keyVersion == b.batches[k].keyVersion
    requires a.batches[k].claimGeneration < b.batches[k].claimGeneration
    ensures var d := b.batches[k];
            Judge(b.keyring.keys, d.keyVersion, d.handle, OwnerUse, OfRun(k), d.claimGeneration, OwnerToken(a, k)) == Stale
  {
    assert OwnerToken(a, k)
        == Derive(b.keyring.keys, b.batches[k].keyVersion, b.batches[k].handle, OwnerUse, OfRun(k), a.batches[k].claimGeneration);
  }

  lemma PassedReceipt(a: Db, b: Db, c: CallKey)
    requires c in a.calls && c in b.calls && c.run in a.batches && c.run in b.batches
    requires b.batches[c.run].keyVersion in b.keyring.keys && a.batches[c.run].keyVersion in a.keyring.keys
    requires a.keyring.keys[a.batches[c.run].keyVersion] == b.keyring.keys[b.batches[c.run].keyVersion]
    requires a.calls[c].handle == b.calls[c].handle && a.batches[c.run].keyVersion == b.batches[c.run].keyVersion
    requires a.batches[c.run].claimGeneration < b.batches[c.run].claimGeneration
    ensures var d := b.batches[c.run];
            Judge(b.keyring.keys, d.keyVersion, b.calls[c].handle, ReceiptUse, OfCall(c), d.claimGeneration, Receipt(a, c))
            == Stale
  {
    assert Receipt(a, c)
        == Derive(b.keyring.keys, b.batches[c.run].keyVersion, b.calls[c].handle, ReceiptUse, OfCall(c),
                  a.batches[c.run].claimGeneration);
  }

  /** A receipt's handle names at most one call. */
  lemma ReceiptNamesCall(db: Db, receipt: Token, c: CallKey)
    requires Named(db.batches, db.calls, db.runTokens, db.expired, db.supply)
    requires c in db.calls && receipt.Token? && receipt.handle == db.calls[c].handle && receipt.handle != NoHandle
    ensures KnownCall(db, receipt) && CallOf(db, receipt) == c
  {
    assert IsCallOf(db, receipt, c);
    var x := CallOf(db, receipt);
    assert x.run == c.run && x.call == c.call;
  }

  /** The two generations of one batch, seen from its calls. */
  lemma CallAgain(a: Db, b: Db, c: CallKey)
    requires Inv(a) && Inv(b) && Evolves(a, b) && c in a.calls && c.run in a.batches && c.run.context in b.contexts
    requires a.calls[c].state.Emitted? && Unconsumed(a.batches[c.run])
    ensures c in b.calls && c.run in b.batches && b.calls[c].handle == a.calls[c].handle != NoHandle
    ensures a.batches[c.run].keyVersion in a.keyring.keys && b.batches[c.run].keyVersion in b.keyring.keys
    ensures a.batches[c.run].keyVersion == b.batches[c.run].keyVersion
    ensures a.batches[c.run].handle == b.batches[c.run].handle
    ensures a.keyring.keys[a.batches[c.run].keyVersion] == b.keyring.keys[b.batches[c.run].keyVersion]
    ensures Named(b.batches, b.calls, b.runTokens, b.expired, b.supply)
  {
    hide CurrentOnly, Rooted, Fenced, Exited, Journaled, Ledgered, Earned, OneBatch, Progressed, LiveClaims, Named,
      Minted, Keyed, Parented, Published;
    hide ThreadsGrow, ContextsAge, TurnsAdvance, FencesGrow, FencesFresh, RunsGrow, RowsKept, CallsAdvance,
      BatchesAdvance, KeysAge, HandlesKept, InContext, BatchAdvances;
    Placed(a);
    BatchLater(a, b, c.run);
    SameHandle(a.batches[c.run], b.batches[c.run], b.expired);
    CallLater(a, b, c);
    EmittedHandle(a, c);
    BatchContext(a, c.run);
    BatchContext(b, c.run);
    SameSecret(a, b, a.batches[c.run].keyVersion);
  }

  lemma EmittedHandle(db: Db, c: CallKey)
    requires Named(db.batches, db.calls, db.runTokens, db.expired, db.supply)
    requires c in db.calls && c.run in db.batches && db.calls[c].state.Emitted? && Unconsumed(db.batches[c.run])
    ensures db.calls[c].handle != NoHandle
  {
  }

  /** A begin or deposit under a receipt of a passed generation is refused and changes nothing. */
  ghost predicate ReceiptDead(db: Db, receipt: Token) {
    && (forall id, version, scope, now ::
          BeginCall(db, receipt, id, version, scope, now).db == db
          && BeginCall(db, receipt, id, version, scope, now).result in {Fail(ClaimExpired), Fail(TokenInvalid)})
    && (forall kind, payload, scope, now ::
          DepositCall(db, receipt, kind, payload, scope, now).db == db
          && DepositCall(db, receipt, kind, payload, scope, now).result in {Fail(ClaimExpired), Fail(TokenInvalid)})
  }

  lemma StaleReceiptDead(db: Db, receipt: Token, c: CallKey)
    requires KnownCall(db, receipt) && CallOf(db, receipt) == c && c.run in db.batches
    requires db.batches[c.run].keyVersion in db.keyring.keys
    requires Judge(db.keyring.keys, db.batches[c.run].keyVersion, receipt.handle, ReceiptUse, OfCall(c),
                   db.batches[c.run].claimGeneration, receipt) == Stale
    ensures ReceiptDead(db, receipt)
  {
    hide Judge, InScope, BeginKnown, DepositKnown;
  }

  /** Once its claim generation has passed, nothing a claim handed out does anything any more. */
  lemma PassedCredentials(states: seq<Db>, ops: seq<Op>, i: nat, j: nat, claim: Claim, c: CallKey)
    requires IsRun(states, ops) && i < j < |states| && ClaimedBy(states[i], ops[i], claim)
    requires claim.run in states[j].batches && states[j].batches[claim.run].claimGeneration > claim.generation
    requires c in claim.receipts
    ensures ReceiptDead(states[j], claim.receipts[c])
    ensures forall lease, scope, now ::
              var r := RenewBatch(states[j], claim.owner, lease, scope, now);
              r.db == states[j] && r.result in {Fail(ClaimExpired), Fail(TokenInvalid)}
  {
    hide Inv, Evolves, ClaimedBy, Step, Init, Named, Judge, ReceiptDead, BatchAdvances;
    var a, b, k := states[i + 1], states[j], claim.run;
    Claimed(states[i], ops[i], claim);
    Forward(states, ops, i + 1, j);
    BatchContext(b, k);
    CallAgain(a, b, c);
    PassedReceipt(a, b, c);
    ReceiptNamesCall(b, claim.receipts[c], c);
    StaleReceiptDead(b, claim.receipts[c], c);
    PassedOwner(a, b, k);
    TokenNames(b, claim.owner, k);
  }

  /** While a batch is frozen every claim of it has passed. */
  lemma FrozenPasses(states: seq<Db>, ops: seq<Op>, i: nat, j: nat, claim: Claim)
    requires IsRun(states, ops) && i < j < |states| && ClaimedBy(states[i], ops[i], claim)
    requires claim.run in states[j].batches && states[j].batches[claim.run].state.Frozen?
    ensures states[j].batches[claim.run].claimGeneration > claim.generation
  {
    hide Inv, Evolves, ClaimedBy, Step, Init, OwnerToken, Receipts;
    var a, b, k := states[i + 1], states[j], claim.run;
    Claimed(states[i], ops[i], claim);
    Forward(states, ops, i + 1, j);
    BatchContext(b, k);
    BatchAgain(a, b, k, Token(0, a.batches[k].handle, Forged(0)));
  }
}

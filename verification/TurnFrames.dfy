/** What the batch transactions leave alone. */
module TurnFrames {
  import opened Basics
  import opened TurnTypes
  import opened TurnTokens
  import opened TurnBatches

  /** Only the call ledger, the batches and the expired claims may differ. */
  ghost predicate OnlyBatches(db: Db, after: Db) {
    && after.managed == db.managed && after.threads == db.threads && after.contexts == db.contexts
    && after.tombstones == db.tombstones && after.admissions == db.admissions && after.fences == db.fences
    && after.runs == db.runs && after.journal == db.journal && after.keyring == db.keyring
    && after.runTokens == db.runTokens && after.supply == db.supply
  }

  lemma Reshaped(db: Db, calls: map<CallKey, Call>, batches: map<RunKey, Batch>, expired: set<ExpiredClaim>)
    ensures OnlyBatches(db, db.(calls := calls, batches := batches, expired := expired))
  {
  }

  lemma SameFrame(db: Db)
    ensures OnlyBatches(db, db)
  {
  }

  lemma FrameChains(a: Db, b: Db, c: Db)
    requires OnlyBatches(a, b) && OnlyBatches(b, c)
    ensures OnlyBatches(a, c)
  {
  }

  lemma ExpireFrame(db: Db, k: RunKey)
    ensures OnlyBatches(db, CompleteIfDone(db, k)) && CompleteIfDone(db, k).calls == db.calls
    ensures k in db.batches ==> OnlyBatches(db, ExpireClaim(db, k)) && ExpireClaim(db, k).calls == db.calls
  {
    hide SomeUndecided;
  }

  lemma ClaimSeenFrame(db: Db, k: RunKey, claimId: Id, lease: real, now: real)
    requires k in db.batches && db.batches[k].keyVersion in db.keyring.keys
    ensures var after := ClaimSeen(db, k, claimId, lease, now).db; OnlyBatches(db, after) && after.calls == db.calls
  {
    hide ClaimOf, Max, OnlyBatches;
    SameFrame(db);
    Reshaped(db, db.calls, ClaimSeen(db, k, claimId, lease, now).db.batches, db.expired);
  }

  lemma ClaimKnownFrame(db: Db, k: RunKey, claimId: Id, lease: real, now: real)
    requires k in db.batches && db.batches[k].keyVersion in db.keyring.keys
    ensures var after := ClaimKnown(db, k, claimId, lease, now).db; OnlyBatches(db, after) && after.calls == db.calls
  {
    assert k in ExpireClaim(db, k).batches && ExpireClaim(db, k).batches[k].keyVersion in db.keyring.keys;
    ExpireFrame(db, k);
    SameFrame(db);
    hide ClaimSeen, ExpireClaim, OnlyBatches;
    ClaimSeenFrame(db, k, claimId, lease, now);
    ClaimSeenFrame(ExpireClaim(db, k), k, claimId, lease, now);
    FrameChains(db, ExpireClaim(db, k), ClaimSeen(ExpireClaim(db, k), k, claimId, lease, now).db);
  }

  lemma ClaimFrame(db: Db, token: Token, claimId: Id, lease: real, scope: Option<Scope>, now: real)
    ensures var after := ClaimBatch(db, token, claimId, lease, scope, now).db;
            OnlyBatches(db, after) && after.calls == db.calls
  {
    hide KnownBatch, BatchToken, ClaimKnown, OnlyBatches;
    assert OnlyBatches(db, db) by { SameFrame(db); }
    if KnownBatch(db, token) && db.batches[BatchOf(db, token)].keyVersion in db.keyring.keys {
      ClaimKnownFrame(db, BatchOf(db, token), claimId, lease, now);
    }
  }

  lemma RenewFrame(db: Db, token: Token, lease: real, scope: Option<Scope>, now: real)
    ensures var after := RenewBatch(db, token, lease, scope, now).db; OnlyBatches(db, after) && after.calls == db.calls
  {
    hide Judge, KnownBatch, ExpireClaim, Max, Min, OnlyBatches, InScope;
    SameFrame(db);
    if KnownBatch(db, token) {
      ExpireFrame(db, BatchOf(db, token));
      var after := RenewBatch(db, token, lease, scope, now).db;
      Reshaped(db, db.calls, after.batches, db.expired);
    }
  }

  lemma ReceiptNames(db: Db, receipt: Token, scope: Option<Scope>)
    ensures var r := CallByReceipt(db, receipt, scope);
            r.Ok? ==> KnownCall(db, receipt) && r.value == CallOf(db, receipt)
                      && r.value in db.calls && r.value.run in db.batches
  {
  }

  lemma DecideFrame(db: Db, c: CallKey, kind: Kind, payload: Id)
    requires c in db.calls
    ensures OnlyBatches(db, CompleteIfDone(Decide(db, c, kind, payload), c.run))
  {
    hide CompleteIfDone;
    ExpireFrame(Decide(db, c, kind, payload), c.run);
  }

  lemma BeginKnownFrame(db: Db, c: CallKey, id: Id, version: Id, now: real)
    requires c in db.calls && c.run in db.batches
    ensures OnlyBatches(db, BeginKnown(db, c, id, version, now).db)
  {
    hide CompleteIfDone, CatalogueVerdict, Lapsed, ExpireClaim, Open, OnlyBatches, Decide;
    SameFrame(db);
    ExpireFrame(db, c.run);
    var v := CatalogueVerdict(db.calls[c], id, version);
    if v.Some? { DecideFrame(db, c, v.value, NONE); }
    var after := BeginKnown(db, c, id, version, now).db;
    Reshaped(db, after.calls, after.batches, db.expired);
  }

  lemma BeginFrame(db: Db, receipt: Token, id: Id, version: Id, scope: Option<Scope>, now: real)
    ensures OnlyBatches(db, BeginCall(db, receipt, id, version, scope, now).db)
  {
    hide CallByReceipt, BeginKnown;
    ReceiptNames(db, receipt, scope);
    var r := CallByReceipt(db, receipt, scope);
    if r.Ok? { BeginKnownFrame(db, r.value, id, version, now); }
  }

  lemma DepositKnownFrame(db: Db, c: CallKey, kind: Kind, payload: Id, now: real)
    requires c in db.calls && c.run in db.batches
    ensures OnlyBatches(db, DepositKnown(db, c, kind, payload, now).db)
  {
    hide CompleteIfDone, ExpireClaim, Lapsed, Open, Effect, NoEffect, OnlyBatches, Decide;
    SameFrame(db);
    ExpireFrame(db, c.run);
    DecideFrame(db, c, kind, payload);
  }

  lemma DepositFrame(db: Db, receipt: Token, kind: Kind, payload: Id, scope: Option<Scope>, now: real)
    ensures OnlyBatches(db, DepositCall(db, receipt, kind, payload, scope, now).db)
  {
    hide CallByReceipt, DepositKnown;
    ReceiptNames(db, receipt, scope);
    var r := CallByReceipt(db, receipt, scope);
    if r.Ok? { DepositKnownFrame(db, r.value, kind, payload, now); }
  }

  lemma ExpireBatchFrame(db: Db, k: RunKey)
    ensures OnlyBatches(db, ExpireBatch(db, k))
  {
    hide CompleteIfDone, Lapse;
    ExpireFrame(db.(calls := map c | c in db.calls :: if c.run == k then Lapse(db.calls[c]) else db.calls[c]), k);
  }

  /** A freeze writes batches, calls, keyring and supply only. */
  lemma FreezeFrame(db: Db, k: RunKey, deadline: real, now: real)
    ensures var frozen := Freeze(db, k, deadline, now);
            && frozen.threads == db.threads && frozen.contexts == db.contexts && frozen.admissions == db.admissions
            && frozen.runs == db.runs && frozen.journal == db.journal
            && frozen.calls == WithHandles(db.calls, k, EnsureKey(db).supply)
  {
    hide KeyringFor, Latest, Max;
  }
}

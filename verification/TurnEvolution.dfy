/** What every transaction, and so every run, may change: monotone facts between two states. */
module TurnEvolution {
  import opened TurnTypes
  import opened TurnInvariants

  /** Generations and closing watermarks only grow. */
  ghost predicate ThreadsGrow(earlier: map<ThreadKey, Thread>, later: map<ThreadKey, Thread>) {
    forall t :: t in earlier ==>
      && t in later
      && earlier[t].generation <= later[t].generation
      && earlier[t].closedBefore <= later[t].closedBefore
  }

  /** A context keeps its conversation until its thread has moved past its generation. */
  ghost predicate ContextsAge(earlier: map<ContextId, Conversation>, later: map<ContextId, Conversation>,
                              threads: map<ThreadKey, Thread>) {
    forall c :: c in earlier ==>
      if c in later then later[c] == earlier[c]
      else c.thread in threads && threads[c.thread].generation > c.generation
  }

  function Rank(s: TurnState): nat {
    match s
    case Reserved => 0
    case Dispatching => 1
    case Accepted => 2
    case Running => 3
    case Terminal => 4
    case Orphaned => 4
  }

  /** A turn moves forward only, keeps one lease owner while running, and is frozen once it left. */
  predicate TurnAdvances(a: Admission, b: Admission) {
    && a.bodyHash == b.bodyHash && a.parent == b.parent && a.fence == b.fence
    && Rank(a.state) <= Rank(b.state)
    && (a.state.Running? && b.state.Running? ==> a.leaseOwner == b.leaseOwner)
    && (!Active(a) ==> a == b)
  }

  ghost predicate TurnsAdvance(earlier: map<RunKey, Admission>, later: map<RunKey, Admission>,
                               live: map<ContextId, Conversation>) {
    forall k :: k in earlier && k.context in live ==> k in later && TurnAdvances(earlier[k], later[k])
  }

  ghost predicate FencesGrow(earlier: map<ContextId, nat>, later: map<ContextId, nat>,
                             live: map<ContextId, Conversation>) {
    forall c :: c in earlier && c in live ==> c in later && earlier[c] <= later[c]
  }

  /** A new admission's token is above every earlier token of its context. */
  ghost predicate FencesFresh(earlier: map<ContextId, nat>, before: map<RunKey, Admission>,
                              after: map<RunKey, Admission>) {
    forall k :: k in after && k !in before && k.context in earlier ==> after[k].fence > earlier[k.context]
  }

  /** A run's journal only grows, and not at all once it ended. */
  predicate RunGrows(r: JournalRun, s: JournalRun) {
    && r.committed <= s.committed && r.watermark <= s.watermark && r.epoch <= s.epoch
    && (r.ended ==> s.ended && s.outcome == r.outcome && s.committed == r.committed
                    && s.byteCount == r.byteCount)
  }

  ghost predicate RunsGrow(earlier: map<RunKey, JournalRun>, later: map<RunKey, JournalRun>,
                           live: map<ContextId, Conversation>) {
    forall k :: k in earlier && k.context in live ==> k in later && RunGrows(earlier[k], later[k])
  }

  /** Journal rows never change. */
  ghost predicate RowsKept(earlier: map<JournalKey, Event>, later: map<JournalKey, Event>) {
    forall j :: j in earlier && j in later ==> earlier[j] == later[j]
  }

  /** A call keeps its identity; a decided outcome and a left ledger state are final. */
  predicate CallAdvances(c: Call, d: Call) {
    && c.tool == d.tool && c.catalogueId == d.catalogueId && c.catalogueVersion == d.catalogueVersion
    && (!c.state.Emitted? ==> d.state == c.state)
    && (c.handle != NoHandle ==> d.handle == c.handle)
    && (c.exec.Done? ==> d.exec == c.exec)
    && (c.exec.Executing? ==> !d.exec.Unbegun?)
  }

  /** Calls are recorded for active turns only; a batch's emitted calls leave by its consumption. */
  ghost predicate CallsAdvance(earlier: map<CallKey, Call>, later: map<CallKey, Call>,
                               before: map<RunKey, Batch>, after: map<RunKey, Batch>,
                               admissions: map<RunKey, Admission>, live: map<ContextId, Conversation>) {
    && (forall c :: c in earlier && c.run.context in live ==> c in later && CallAdvances(earlier[c], later[c]))
    && (forall c | c in earlier && c.run in before && c.run.context in live && earlier[c].state.Emitted? ::
          c in later && (later[c].state.Emitted? || (c.run in after && after[c.run].state.BatchConsumed?)))
    && (forall c :: c in later && c !in earlier && c.run in admissions ==> Active(admissions[c.run]))
  }

  predicate Live(b: Batch) { b.state.Claimed? || b.state.Committed? }

  /** The claim generation of a batch only grows, strictly whenever it falls back to frozen; the
      first begin freezes it for good; a live claim ends only in commitment, expiry or closure. */
  ghost predicate BatchAdvances(b: Batch, d: Batch, expired: set<ExpiredClaim>) {
    && b.handle == d.handle && b.keyVersion == d.keyVersion && b.absoluteDeadline == d.absoluteDeadline
    && b.claimGeneration <= d.claimGeneration
    && (!b.state.Frozen? && d.state.Frozen? ==> b.claimGeneration < d.claimGeneration)
    && (Live(b) ==>
          || (Live(d) && d.claimGeneration == b.claimGeneration && d.claimId == b.claimId)
          || ExpiredClaim(b.handle, b.claimId) in expired
          || !Open(d))
    && (b.state.Committed? ==> d.claimGeneration == b.claimGeneration && (d.state.Committed? || !Open(d)))
    && (!Open(b) ==> !Open(d) && d.claimGeneration == b.claimGeneration)
    && (b.state.BatchConsumed? ==> d == b)
  }

  ghost predicate BatchesAdvance(earlier: map<RunKey, Batch>, later: map<RunKey, Batch>,
                                 expired: set<ExpiredClaim>, live: map<ContextId, Conversation>) {
    forall k :: k in earlier && k.context in live ==> k in later && BatchAdvances(earlier[k], later[k], expired)
  }

  /** A key version is never given a second secret, not even after it was pruned. */
  ghost predicate KeysAge(earlier: Keyring, later: Keyring) {
    && earlier.highWater <= later.highWater
    && (forall v :: v in later.keys && v <= earlier.highWater ==> v in earlier.keys && earlier.keys[v] == later.keys[v])
  }

  ghost predicate HandlesKept(earlier: map<RunKey, RunToken>, later: map<RunKey, RunToken>,
                              live: map<ContextId, Conversation>) {
    forall k :: k in earlier && k.context in live ==> k in later && later[k] == earlier[k]
  }

  ghost predicate Evolves(a: Db, b: Db) {
    && ThreadsGrow(a.threads, b.threads)
    && ContextsAge(a.contexts, b.contexts, b.threads)
    && TurnsAdvance(a.admissions, b.admissions, b.contexts)
    && FencesGrow(a.fences, b.fences, b.contexts)
    && FencesFresh(a.fences, a.admissions, b.admissions)
    && RunsGrow(a.runs, b.runs, b.contexts)
    && RowsKept(a.journal, b.journal)
    && CallsAdvance(a.calls, b.calls, a.batches, b.batches, a.admissions, b.contexts)
    && BatchesAdvance(a.batches, b.batches, b.expired, b.contexts)
    && a.expired <= b.expired
    && KeysAge(a.keyring, b.keyring)
    && HandlesKept(a.runTokens, b.runTokens, b.contexts)
    && a.supply <= b.supply
  }

  lemma Unchanged(db: Db)
    ensures Evolves(db, db)
  {
  }

  // ---- evolution composes: a context present at both ends was present throughout ----

  ghost predicate Lasting(a: map<ContextId, Conversation>, m: map<ContextId, Conversation>,
                          b: map<ContextId, Conversation>) {
    forall c :: c in a && c in b ==> c in m
  }

  lemma Between(a: Db, m: Db, b: Db)
    requires ContextsAge(a.contexts, m.contexts, m.threads)
    requires ThreadsGrow(m.threads, b.threads) && CurrentOnly(b.threads, b.contexts)
    ensures Lasting(a.contexts, m.contexts, b.contexts)
  {
  }

  lemma ThreadsCompose(a: Db, m: Db, b: Db)
    requires ThreadsGrow(a.threads, m.threads) && ThreadsGrow(m.threads, b.threads)
    requires KeysAge(a.keyring, m.keyring) && KeysAge(m.keyring, b.keyring)
    ensures ThreadsGrow(a.threads, b.threads) && KeysAge(a.keyring, b.keyring)
  {
  }

  lemma ContextsCompose(a: Db, m: Db, b: Db)
    requires ContextsAge(a.contexts, m.contexts, m.threads) && ContextsAge(m.contexts, b.contexts, b.threads)
    requires ThreadsGrow(m.threads, b.threads) && Lasting(a.contexts, m.contexts, b.contexts)
    ensures ContextsAge(a.contexts, b.contexts, b.threads)
  {
  }

  lemma TurnsCompose(a: Db, m: Db, b: Db)
    requires forall k :: k in a.admissions ==> k.context in a.contexts
    requires Lasting(a.contexts, m.contexts, b.contexts)
    requires TurnsAdvance(a.admissions, m.admissions, m.contexts)
    requires TurnsAdvance(m.admissions, b.admissions, b.contexts)
    ensures TurnsAdvance(a.admissions, b.admissions, b.contexts)
  {
  }

  lemma FencesCompose(a: Db, m: Db, b: Db)
    requires forall c :: c in a.fences ==> c in a.contexts
    requires Lasting(a.contexts, m.contexts, b.contexts)
    requires FencesGrow(a.fences, m.fences, m.contexts) && FencesGrow(m.fences, b.fences, b.contexts)
    ensures FencesGrow(a.fences, b.fences, b.contexts)
  {
  }

  lemma SameTokens(m: Db, b: Db)
    requires forall k :: k in b.admissions ==> k.context in b.contexts
    requires TurnsAdvance(m.admissions, b.admissions, b.contexts)
    ensures forall k :: k in m.admissions && k in b.admissions ==> m.admissions[k].fence == b.admissions[k].fence
  {
  }

  lemma FreshCompose(a: Db, m: Db, b: Db)
    requires forall c :: c in a.fences ==> c in a.contexts
    requires forall k :: k in b.admissions ==> k.context in b.contexts
    requires Lasting(a.contexts, m.contexts, b.contexts)
    requires FencesGrow(a.fences, m.fences, m.contexts)
    requires forall k :: k in m.admissions && k in b.admissions ==> m.admissions[k].fence == b.admissions[k].fence
    requires FencesFresh(a.fences, a.admissions, m.admissions) && FencesFresh(m.fences, m.admissions, b.admissions)
    ensures FencesFresh(a.fences, a.admissions, b.admissions)
  {
    forall k | k in b.admissions && k !in a.admissions && k.context in a.fences
      ensures b.admissions[k].fence > a.fences[k.context]
    {
      assert k.context in m.contexts && k.context in m.fences;
      if k in m.admissions { assert m.admissions[k].fence > a.fences[k.context]; }
    }
  }

  lemma RunsCompose(a: Db, m: Db, b: Db)
    requires forall k :: k in a.runs ==> k.context in a.contexts
    requires Lasting(a.contexts, m.contexts, b.contexts)
    requires RunsGrow(a.runs, m.runs, m.contexts) && RunsGrow(m.runs, b.runs, b.contexts)
    ensures RunsGrow(a.runs, b.runs, b.contexts)
  {
  }

  lemma RowsCompose(a: Db, m: Db, b: Db)
    requires forall k :: k in a.runs ==> k.context in a.contexts
    requires forall k :: k in b.runs ==> k.context in b.contexts
    requires Lasting(a.contexts, m.contexts, b.contexts)
    requires RunsGrow(a.runs, m.runs, m.contexts) && RunsGrow(m.runs, b.runs, b.contexts)
    requires Journaled(a.runs, a.journal) && Journaled(m.runs, m.journal) && Journaled(b.runs, b.journal)
    requires RowsKept(a.journal, m.journal) && RowsKept(m.journal, b.journal)
    ensures RowsKept(a.journal, b.journal)
  {
    forall j | j in a.journal && j in b.journal ensures a.journal[j] == b.journal[j] {
      assert j.run in a.runs && j.run in b.runs && j.run.context in m.contexts;
      assert RunGrows(a.runs[j.run], m.runs[j.run]) && RunGrows(m.runs[j.run], b.runs[j.run]);
      assert j in m.journal;
    }
  }

  lemma CallsCompose(a: Db, m: Db, b: Db)
    requires forall c :: c in a.calls ==> c.run.context in a.contexts
    requires forall c :: c in b.calls ==> c.run.context in b.contexts
    requires forall k :: k in a.batches ==> k.context in a.contexts
    requires forall k :: k in a.admissions ==> k.context in a.contexts
    requires Lasting(a.contexts, m.contexts, b.contexts)
    requires TurnsAdvance(a.admissions, m.admissions, m.contexts)
    requires BatchesAdvance(a.batches, m.batches, m.expired, m.contexts)
    requires BatchesAdvance(m.batches, b.batches, b.expired, b.contexts)
    requires CallsAdvance(a.calls, m.calls, a.batches, m.batches, a.admissions, m.contexts)
    requires CallsAdvance(m.calls, b.calls, m.batches, b.batches, m.admissions, b.contexts)
    ensures CallsAdvance(a.calls, b.calls, a.batches, b.batches, a.admissions, b.contexts)
  {
    forall c | c in a.calls && c.run.context in b.contexts
      ensures c in b.calls && CallAdvances(a.calls[c], b.calls[c])
    {
      assert CallAdvances(a.calls[c], m.calls[c]) && CallAdvances(m.calls[c], b.calls[c]);
    }
    forall c | c in a.calls && c.run in a.batches && c.run.context in b.contexts && a.calls[c].state.Emitted?
      ensures c in b.calls
      ensures b.calls[c].state.Emitted? || (c.run in b.batches && b.batches[c.run].state.BatchConsumed?)
    {
      assert BatchAdvances(m.batches[c.run], b.batches[c.run], b.expired);
    }
    forall c | c in b.calls && c !in a.calls && c.run in a.admissions
      ensures Active(a.admissions[c.run])
    {
      assert TurnAdvances(a.admissions[c.run], m.admissions[c.run]);
    }
  }

  lemma BatchesCompose(a: Db, m: Db, b: Db)
    requires forall k :: k in a.batches ==> k.context in a.contexts
    requires Lasting(a.contexts, m.contexts, b.contexts) && m.expired <= b.expired
    requires BatchesAdvance(a.batches, m.batches, m.expired, m.contexts)
    requires BatchesAdvance(m.batches, b.batches, b.expired, b.contexts)
    ensures BatchesAdvance(a.batches, b.batches, b.expired, b.contexts)
  {
    forall k | k in a.batches && k.context in b.contexts
      ensures k in b.batches && BatchAdvances(a.batches[k], b.batches[k], b.expired)
    {
      assert BatchAdvances(a.batches[k], m.batches[k], m.expired);
      assert BatchAdvances(m.batches[k], b.batches[k], b.expired);
    }
  }

  lemma HandlesCompose(a: Db, m: Db, b: Db)
    requires forall k :: k in a.runTokens ==> k.context in a.contexts
    requires Lasting(a.contexts, m.contexts, b.contexts)
    requires HandlesKept(a.runTokens, m.runTokens, m.contexts)
    requires HandlesKept(m.runTokens, b.runTokens, b.contexts)
    ensures HandlesKept(a.runTokens, b.runTokens, b.contexts)
  {
  }

  /** Every row's context is live. */
  ghost predicate InContext(db: Db) {
    && (forall k :: k in db.admissions ==> k.context in db.contexts)
    && (forall c :: c in db.fences ==> c in db.contexts)
    && (forall k :: k in db.runs ==> k.context in db.contexts)
    && (forall c :: c in db.calls ==> c.run.context in db.contexts)
    && (forall k :: k in db.batches ==> k.context in db.contexts)
    && (forall k :: k in db.runTokens ==> k.context in db.contexts)
  }

  lemma Placed(db: Db)
    requires Inv(db)
    ensures InContext(db)
  {
  }

  /** Evolution composes along any run. */
  lemma Compose(a: Db, m: Db, b: Db)
    requires Evolves(a, m) && Evolves(m, b)
    requires InContext(a) && InContext(b) && CurrentOnly(b.threads, b.contexts)
    requires Journaled(a.runs, a.journal) && Journaled(m.runs, m.journal) && Journaled(b.runs, b.journal)
    ensures Evolves(a, b)
  {
    hide ThreadsGrow, ContextsAge, TurnsAdvance, FencesGrow, FencesFresh, RunsGrow, RowsKept, CallsAdvance,
      BatchesAdvance,
      KeysAge, HandlesKept, Journaled, CurrentOnly, Lasting;
    Between(a, m, b);
    ThreadsCompose(a, m, b);
    ContextsCompose(a, m, b);
    TurnsCompose(a, m, b);
    FencesCompose(a, m, b);
    SameTokens(m, b);
    FreshCompose(a, m, b);
    RunsCompose(a, m, b);
    RowsCompose(a, m, b);
    CallsCompose(a, m, b);
    BatchesCompose(a, m, b);
    HandlesCompose(a, m, b);
  }
}

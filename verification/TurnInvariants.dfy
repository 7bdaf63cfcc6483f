/** What holds in every reachable state of the turn machine, table by table. */
module TurnInvariants {
  import opened Basics
  import opened TurnTypes
  import opened TurnTokens
  import opened TurnBatches
  import opened TurnAdmissions

  /** Only the current generation of a thread has a context. */
  ghost predicate CurrentOnly(threads: map<ThreadKey, Thread>, contexts: map<ContextId, Conversation>) {
    forall c :: c in contexts ==> c.thread in threads && threads[c.thread].generation == c.generation
  }

  /** Every row hangs off a live context and, below it, off its run. */
  ghost predicate Rooted(contexts: map<ContextId, Conversation>, admissions: map<RunKey, Admission>,
                         fences: map<ContextId, nat>, runs: map<RunKey, JournalRun>) {
    && (forall k :: k in admissions ==> k in runs && k.context in fences)
    && (forall k :: k in runs ==> k.context in contexts)
    && (forall c :: c in fences ==> c in contexts)
  }

  /** A token is the context's current fence exactly while its admission is active, and no two
      admissions of a context share a token. */
  ghost predicate Fenced(admissions: map<RunKey, Admission>, fences: map<ContextId, nat>) {
    && (forall k :: k in admissions && k.context in fences ==>
          && 0 < admissions[k].fence <= fences[k.context]
          && (admissions[k].fence == fences[k.context] <==> Active(admissions[k])))
    && (forall j, k :: j in admissions && k in admissions && j.context == k.context && j != k
          ==> admissions[j].fence != admissions[k].fence)
  }

  /** A turn that left the active states agrees with its ended journal; a lease is held exactly
      while running. */
  ghost predicate Exited(admissions: map<RunKey, Admission>, runs: map<RunKey, JournalRun>) {
    forall k :: k in admissions ==>
      && (admissions[k].state.Running? <==> admissions[k].leaseOwner != NONE)
      && (!Active(admissions[k]) && k in runs ==> runs[k].ended && runs[k].outcome == admissions[k].outcome)
      && (Active(admissions[k]) ==> admissions[k].outcome.NoOutcome?)
  }

  /** Journal rows are exactly the sequences in (watermark, committed]. */
  ghost predicate Journaled(runs: map<RunKey, JournalRun>, journal: map<JournalKey, Event>) {
    && (forall j :: j in journal ==> j.run in runs)
    && (forall k :: k in runs ==>
          && runs[k].eventCount == runs[k].committed
          && runs[k].watermark <= runs[k].committed
          && (runs[k].ended <==> !runs[k].outcome.NoOutcome?)
          && (runs[k].watermark > 0 ==> runs[k].ended))
    && (forall j: JournalKey :: j.run in runs ==>
          (j in journal <==> runs[j.run].watermark < j.sequence <= runs[j.run].committed))
  }

  /** Calls are recorded by running turns; one still emitted belongs to a running or successful turn. */
  ghost predicate Ledgered(calls: map<CallKey, Call>, admissions: map<RunKey, Admission>) {
    forall c :: c in calls ==>
      && c.run in admissions
      && (admissions[c.run].state.Running? || !Active(admissions[c.run]))
      && (calls[c].state.Emitted? && !Active(admissions[c.run]) ==> admissions[c.run].outcome.Success?)
  }

  /** A batch belongs to a turn that succeeded. */
  ghost predicate Earned(batches: map<RunKey, Batch>, admissions: map<RunKey, Admission>) {
    forall k :: k in batches ==>
      k in admissions && !Active(admissions[k]) && admissions[k].outcome.Success?
  }

  /** At most one batch of a context waits to be consumed, and none while an admission is active. */
  ghost predicate OneBatch(batches: map<RunKey, Batch>, admissions: map<RunKey, Admission>) {
    && (forall j, k | j in batches && k in batches && j.context == k.context
                      && Unconsumed(batches[j]) && Unconsumed(batches[k]) :: j == k)
    && (forall j, k | j in batches && k in admissions && j.context == k.context
                      && Unconsumed(batches[j]) :: !Active(admissions[k]))
  }

  /** A batch is open exactly while one of its calls is undecided; before the first begin no call
      carries an effect; a consumed batch has no emitted call; other runs have untouched calls. */
  ghost predicate Progressed(batches: map<RunKey, Batch>, calls: map<CallKey, Call>) {
    && (forall k :: k in batches ==> (Open(batches[k]) <==> SomeUndecided(calls, k)))
    && (forall c :: c in calls && c.run in batches ==>
          && (batches[c.run].state.BatchConsumed? ==> !calls[c].state.Emitted?)
          && (batches[c.run].state.Frozen? || batches[c.run].state.Claimed? ==> Untouched(calls[c].exec)))
    && (forall c :: c in calls && c.run !in batches ==> calls[c].exec.Unbegun?)
  }

  /** No effect can have happened yet. */
  predicate Untouched(e: Exec) { e.Unbegun? || (e.Done? && NoEffect(e.kind)) }

  /** Claim ids: a live claim has one, and it is not an expired one. */
  ghost predicate LiveClaims(batches: map<RunKey, Batch>, expired: set<ExpiredClaim>) {
    forall k :: k in batches && (batches[k].state.Claimed? || batches[k].state.Committed?)
      ==> ExpiredClaim(batches[k].handle, batches[k].claimId) !in expired
  }

  /** Batches, calls and run handles are named by distinct fresh handles. */
  ghost predicate Named(batches: map<RunKey, Batch>, calls: map<CallKey, Call>,
                        runTokens: map<RunKey, RunToken>, expired: set<ExpiredClaim>, supply: nat) {
    && (forall k :: k in batches ==> batches[k].handle.BatchHandle? && batches[k].handle.n < supply)
    && (forall j, k :: j in batches && k in batches && batches[j].handle == batches[k].handle ==> j == k)
    && (forall c :: c in calls && calls[c].handle != NoHandle ==>
          c.run in batches && calls[c].handle == CallHandle(batches[c.run].handle.n, c.call))
    && (forall c :: c in calls && c.run in batches && Unconsumed(batches[c.run]) ==>
          (calls[c].state.Emitted? <==> calls[c].handle != NoHandle))
    && (forall k :: k in runTokens ==> runTokens[k].handle.RunHandle? && runTokens[k].handle.n < supply)
    && (forall j, k :: j in runTokens && k in runTokens && runTokens[j].handle == runTokens[k].handle ==> j == k)
    && (forall x :: x in expired ==> x.handle.BatchHandle? && x.handle.n < supply)
  }

  /** Every admission has a run handle, and handles only exist for journaled runs. */
  ghost predicate Minted(runTokens: map<RunKey, RunToken>, admissions: map<RunKey, Admission>,
                         runs: map<RunKey, JournalRun>) {
    && (forall k :: k in admissions ==> k in runTokens)
    && (forall k :: k in runTokens ==> k in runs)
  }

  /** No pinned key version is missing, and the high-water mark covers every version. */
  ghost predicate Keyed(keyring: Keyring, batches: map<RunKey, Batch>, runTokens: map<RunKey, RunToken>) {
    && (forall v :: v in keyring.keys ==> v <= keyring.highWater)
    && (forall k :: k in batches ==> batches[k].keyVersion in keyring.keys)
    && (forall k :: k in runTokens ==> runTokens[k].keyVersion in keyring.keys)
  }

  /** A named parent is an admission that has left; a batch run named as parent is consumed, by
      one admission only; and a consumed batch has such a child. */
  ghost predicate Parented(admissions: map<RunKey, Admission>, batches: map<RunKey, Batch>) {
    && (forall k :: k in admissions && admissions[k].parent != NONE ==>
          var p := RunKey(k.context, admissions[k].parent);
          && p in admissions && !Active(admissions[p])
          && (p in batches ==> batches[p].state.BatchConsumed?))
    && (forall j, k | j in admissions && k in admissions && j.context == k.context
                      && admissions[j].parent == admissions[k].parent
                      && RunKey(j.context, admissions[j].parent) in batches :: j == k)
    && (forall p :: p in batches && batches[p].state.BatchConsumed? ==> HasChild(admissions, p))
    && (forall k :: k in admissions ==> k.run != NONE)
  }

  ghost predicate HasChild(admissions: map<RunKey, Admission>, p: RunKey) {
    exists k :: k in admissions && k.context == p.context && admissions[k].parent == p.run
  }

  /** The journaled terminal of a batch's run carries the batch's own claimable token. */
  ghost predicate Published(batches: map<RunKey, Batch>, runs: map<RunKey, JournalRun>,
                            journal: map<JournalKey, Event>, keyring: Keyring) {
    forall k :: k in batches && k in runs && batches[k].keyVersion in keyring.keys ==>
      && runs[k].committed > 0
      && (var j := JournalKey(k, runs[k].committed);
          j in journal ==>
            && journal[j].kind.Finished?
            && journal[j].batchToken == Some(
                 Derive(keyring.keys, batches[k].keyVersion, batches[k].handle, BatchUse, OfRun(k), 0)))
  }

  ghost predicate Inv(db: Db) {
    && CurrentOnly(db.threads, db.contexts)
    && Rooted(db.contexts, db.admissions, db.fences, db.runs)
    && Fenced(db.admissions, db.fences)
    && Exited(db.admissions, db.runs)
    && Journaled(db.runs, db.journal)
    && Ledgered(db.calls, db.admissions)
    && Earned(db.batches, db.admissions)
    && OneBatch(db.batches, db.admissions)
    && Progressed(db.batches, db.calls)
    && LiveClaims(db.batches, db.expired)
    && Named(db.batches, db.calls, db.runTokens, db.expired, db.supply)
    && Minted(db.runTokens, db.admissions, db.runs)
    && Keyed(db.keyring, db.batches, db.runTokens)
    && Parented(db.admissions, db.batches)
    && Published(db.batches, db.runs, db.journal, db.keyring)
  }

  /** A database before any turn: threads and a keyring may exist, nothing hangs off them. */
  ghost predicate Init(db: Db) {
    && db.contexts == map[] && db.admissions == map[] && db.fences == map[] && db.runs == map[]
    && db.journal == map[] && db.calls == map[] && db.batches == map[] && db.runTokens == map[]
    && db.expired == {}
    && (forall v :: v in db.keyring.keys ==> v <= db.keyring.highWater)
  }

  lemma InitHolds(db: Db)
    requires Init(db)
    ensures Inv(db)
  {
  }
}

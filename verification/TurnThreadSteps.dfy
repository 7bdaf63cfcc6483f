/** Thread, rotation, admission and finish transactions keep the invariants. */
module TurnThreadSteps {
  import opened Basics
  import opened TurnTypes
  import opened TurnTokens
  import opened TurnThreads
  import opened TurnBatches
  import opened TurnAdmissions
  import opened TurnInvariants
  import opened TurnEvolution
  import opened TurnStepTables
  import opened TurnSteps

  /** Tables left alone evolve, whatever contexts survive. */
  lemma StillEvolves(db: Db, live: Contexts)
    ensures TurnsAdvance(db.admissions, db.admissions, live) && FencesGrow(db.fences, db.fences, live)
    ensures FencesFresh(db.fences, db.admissions, db.admissions) && RunsGrow(db.runs, db.runs, live)
    ensures RowsKept(db.journal, db.journal)
    ensures CallsAdvance(db.calls, db.calls, db.batches, db.batches, db.admissions, live)
    ensures BatchesAdvance(db.batches, db.batches, db.expired, live)
    ensures HandlesKept(db.runTokens, db.runTokens, live) && KeysAge(db.keyring, db.keyring)
  {
  }

  lemma SetManagedKeeps(db: Db, managed: set<Id>)
    requires Inv(db)
    ensures Keeps(db, db.(managed := managed))
  {
    hide CurrentOnly, Rooted, Fenced, Exited, Journaled, Ledgered, Earned, OneBatch, Progressed, LiveClaims, Named,
      Minted, Keyed, Parented, Published;
    hide ThreadsGrow, ContextsAge, TurnsAdvance, FencesGrow, FencesFresh, RunsGrow, RowsKept, CallsAdvance,
      BatchesAdvance, KeysAge, HandlesKept;
    Unchanged(db);
  }

  // ---- threads ----

  lemma ThreadMoves(threads: map<ThreadKey, Thread>, contexts: Contexts, t: ThreadKey, thread: Thread)
    requires CurrentOnly(threads, contexts)
    requires t in threads ==> thread == threads[t].(pending := thread.pending)
    ensures CurrentOnly(threads[t := thread], contexts) && ThreadsGrow(threads, threads[t := thread])
    ensures ContextsAge(contexts, contexts, threads[t := thread])
  {
  }

  lemma ThreadKeeps(db: Db, t: ThreadKey, thread: Thread)
    requires Inv(db) && (t in db.threads ==> thread == db.threads[t].(pending := thread.pending))
    ensures Keeps(db, db.(threads := db.threads[t := thread]))
  {
    hide CurrentOnly, Rooted, Fenced, Exited, Journaled, Ledgered, Earned, OneBatch, Progressed, LiveClaims, Named,
      Minted, Keyed, Parented, Published;
    hide ThreadsGrow, ContextsAge, TurnsAdvance, FencesGrow, FencesFresh, RunsGrow, RowsKept, CallsAdvance,
      BatchesAdvance, KeysAge, HandlesKept;
    Unchanged(db);
    ThreadMoves(db.threads, db.contexts, t, thread);
  }

  lemma EnsureThreadKeeps(db: Db, t: ThreadKey)
    requires Inv(db)
    ensures Keeps(db, EnsureThread(db, t).db)
  {
    hide Inv, Evolves;
    Unchanged(db);
    if t !in db.threads { ThreadKeeps(db, t, Thread(0, 0, None)); }
  }

  lemma ClearPendingKeeps(db: Db, t: ThreadKey, marker: Conversation, generation: Option<nat>)
    requires Inv(db)
    ensures Keeps(db, ClearPending(db, t, marker, generation))
  {
    hide Inv, Evolves;
    Unchanged(db);
    if t in db.threads { ThreadKeeps(db, t, db.threads[t].(pending := None)); }
  }

  lemma ContextAdded(db: Db, c: ContextId, conversation: Conversation)
    requires CurrentOnly(db.threads, db.contexts) && Rooted(db.contexts, db.admissions, db.fences, db.runs)
    requires c !in db.contexts && c.thread in db.threads && db.threads[c.thread].generation == c.generation
    ensures var later := db.contexts[c := conversation];
            CurrentOnly(db.threads, later) && Rooted(later, db.admissions, db.fences, db.runs)
            && ContextsAge(db.contexts, later, db.threads)
  {
  }

  lemma ContextAddedKeeps(db: Db, c: ContextId, conversation: Conversation)
    requires Inv(db) && c !in db.contexts && c.thread in db.threads
    requires db.threads[c.thread].generation == c.generation
    ensures Keeps(db, db.(contexts := db.contexts[c := conversation]))
  {
    hide CurrentOnly, Rooted, Fenced, Exited, Journaled, Ledgered, Earned, OneBatch, Progressed, LiveClaims, Named,
      Minted, Keyed, Parented, Published;
    hide ThreadsGrow, ContextsAge, TurnsAdvance, FencesGrow, FencesFresh, RunsGrow, RowsKept, CallsAdvance,
      BatchesAdvance, KeysAge, HandlesKept;
    Unchanged(db);
    StillEvolves(db, db.contexts[c := conversation]);
    ContextAdded(db, c, conversation);
  }

  lemma ResolveFinishKeeps(db: Db, p: Publication, t: ThreadKey, generation: int)
    requires Inv(db)
    ensures Keeps(db, ResolveFinish(db, p, t, generation).db)
  {
    hide Inv, Evolves;
    Unchanged(db);
    if Holds(db, t, generation) && ContextId(t, generation) !in db.contexts {
      ContextAddedKeeps(db, ContextId(t, generation), Internal(p, ContextId(t, generation)));
    }
  }

  // ---- rotation ----

  lemma DroppedRoots(db: Db, c: ContextId)
    requires Rooted(db.contexts, db.admissions, db.fences, db.runs)
    ensures var d := DropContext(db, c); Rooted(d.contexts, d.admissions, d.fences, d.runs)
  {
  }

  lemma DroppedFences(db: Db, c: ContextId)
    requires Fenced(db.admissions, db.fences)
    ensures var d := DropContext(db, c); Fenced(d.admissions, d.fences)
  {
    hide Fenced;
    var d := DropContext(db, c);
    FencedPart(db.admissions, db.fences, d.admissions, d.fences);
  }

  lemma FencedPart(admissions: Admissions, fences: Fences, part: Admissions, kept: Fences)
    requires Fenced(admissions, fences)
    requires forall k :: k in part ==> k in admissions && part[k] == admissions[k]
    requires forall c :: c in kept ==> c in fences && kept[c] == fences[c]
    ensures Fenced(part, kept)
  {
  }

  lemma DroppedExits(db: Db, c: ContextId)
    requires Exited(db.admissions, db.runs) && Minted(db.runTokens, db.admissions, db.runs)
    ensures var d := DropContext(db, c);
            Exited(d.admissions, d.runs) && Minted(d.runTokens, d.admissions, d.runs)
  {
  }

  lemma DroppedJournal(db: Db, c: ContextId)
    requires Journaled(db.runs, db.journal) && Published(db.batches, db.runs, db.journal, db.keyring)
    ensures var d := DropContext(db, c);
            Journaled(d.runs, d.journal) && Published(d.batches, d.runs, d.journal, d.keyring)
            && RowsKept(db.journal, d.journal)
  {
  }

  lemma DroppedLedger(db: Db, c: ContextId)
    requires Ledgered(db.calls, db.admissions) && Earned(db.batches, db.admissions)
    requires OneBatch(db.batches, db.admissions) && LiveClaims(db.batches, db.expired)
    requires Keyed(db.keyring, db.batches, db.runTokens)
    ensures var d := DropContext(db, c);
            Ledgered(d.calls, d.admissions) && Earned(d.batches, d.admissions) && OneBatch(d.batches, d.admissions)
            && LiveClaims(d.batches, d.expired) && Keyed(d.keyring, d.batches, d.runTokens)
  {
  }

  lemma DroppedNames(db: Db, c: ContextId)
    requires Named(db.batches, db.calls, db.runTokens, db.expired, db.supply)
    ensures var d := DropContext(db, c); Named(d.batches, d.calls, d.runTokens, d.expired, d.supply)
  {
  }

  lemma DroppedProgress(db: Db, c: ContextId)
    requires Progressed(db.batches, db.calls)
    ensures var d := DropContext(db, c); Progressed(d.batches, d.calls)
  {
    var d := DropContext(db, c);
    forall p | p in d.batches ensures SomeUndecided(db.calls, p) <==> SomeUndecided(d.calls, p) {
      if SomeUndecided(db.calls, p) {
        var x :| x in db.calls && x.run == p && Undecided(db.calls[x]);
        assert x in d.calls && Undecided(d.calls[x]);
      }
      if SomeUndecided(d.calls, p) {
        var x :| x in d.calls && x.run == p && Undecided(d.calls[x]);
        assert x in db.calls && Undecided(db.calls[x]);
      }
    }
    forall x | x in d.calls && x.run !in d.batches ensures d.calls[x].exec.Unbegun? {
      assert x.run !in db.batches;
    }
  }

  lemma DroppedParents(db: Db, c: ContextId)
    requires Parented(db.admissions, db.batches)
    ensures var d := DropContext(db, c); Parented(d.admissions, d.batches)
  {
    var d := DropContext(db, c);
    forall p | p in d.batches && d.batches[p].state.BatchConsumed? ensures HasChild(d.admissions, p) {
      var k :| k in db.admissions && k.context == p.context && db.admissions[k].parent == p.run;
      assert k in d.admissions;
    }
  }

  lemma DroppedEvolves(db: Db, t: ThreadKey, thread: Thread)
    requires CurrentOnly(db.threads, db.contexts) && t in db.threads
    requires thread.generation == db.threads[t].generation + 1 && thread.closedBefore >= db.threads[t].closedBefore
    ensures var c := ContextId(t, db.threads[t].generation);
            var d := DropContext(db, c).(threads := db.threads[t := thread]);
            CurrentOnly(d.threads, d.contexts) && ThreadsGrow(db.threads, d.threads)
            && ContextsAge(db.contexts, d.contexts, d.threads)
  {
  }

  lemma DroppedTables(db: Db, c: ContextId)
    ensures var d := DropContext(db, c);
            TurnsAdvance(db.admissions, d.admissions, d.contexts) && FencesGrow(db.fences, d.fences, d.contexts)
            && FencesFresh(db.fences, db.admissions, d.admissions) && RunsGrow(db.runs, d.runs, d.contexts)
            && CallsAdvance(db.calls, d.calls, db.batches, d.batches, db.admissions, d.contexts)
            && BatchesAdvance(db.batches, d.batches, d.expired, d.contexts)
            && HandlesKept(db.runTokens, d.runTokens, d.contexts)
  {
  }

  lemma RotatedKeeps(db: Db, t: ThreadKey, thread: Thread, tombstones: set<RunKey>)
    requires Inv(db) && t in db.threads
    requires thread.generation == db.threads[t].generation + 1 && thread.closedBefore >= db.threads[t].closedBefore
    ensures Keeps(db, DropContext(db, ContextId(t, db.threads[t].generation)).(
                        threads := db.threads[t := thread], tombstones := tombstones))
  {
    hide CurrentOnly, Rooted, Fenced, Exited, Journaled, Ledgered, Earned, OneBatch, Progressed, LiveClaims, Named,
      Minted, Keyed, Parented, Published;
    hide ThreadsGrow, ContextsAge, TurnsAdvance, FencesGrow, FencesFresh, RunsGrow, RowsKept, CallsAdvance,
      BatchesAdvance, KeysAge, HandlesKept;
    Unchanged(db);
    var c := ContextId(t, db.threads[t].generation);
    DroppedRoots(db, c);
    DroppedFences(db, c);
    DroppedExits(db, c);
    DroppedJournal(db, c);
    DroppedLedger(db, c);
    DroppedNames(db, c);
    DroppedProgress(db, c);
    DroppedParents(db, c);
    DroppedEvolves(db, t, thread);
    DroppedTables(db, c);
  }

  lemma RotateKeeps(db: Db, t: ThreadKey, isolated: bool, expected: int, close: bool)
    requires Inv(db)
    ensures Keeps(db, Rotate(db, t, isolated, expected, close).db)
  {
    hide Inv, Evolves;
    Unchanged(db);
    var after := Rotate(db, t, isolated, expected, close).db;
    if after != db { RotatedKeeps(db, t, after.threads[t], after.tombstones); }
  }

  // ---- keyring ----

  lemma EnsuredKey(db: Db)
    requires Keyed(db.keyring, db.batches, db.runTokens) && Published(db.batches, db.runs, db.journal, db.keyring)
    ensures var r := EnsureKey(db);
            Keyed(r.keyring, db.batches, db.runTokens) && Published(db.batches, db.runs, db.journal, r.keyring)
            && KeysAge(db.keyring, r.keyring) && db.supply <= r.supply
  {
  }

  lemma PrunedKeys(db: Db)
    requires Keyed(db.keyring, db.batches, db.runTokens) && Published(db.batches, db.runs, db.journal, db.keyring)
    ensures var r := PruneKeys(db).db;
            Keyed(r.keyring, db.batches, db.runTokens) && Published(db.batches, db.runs, db.journal, r.keyring)
            && KeysAge(db.keyring, r.keyring)
  {
  }

  lemma PruneKeysKeeps(db: Db)
    requires Inv(db)
    ensures Keeps(db, PruneKeys(db).db)
  {
    hide CurrentOnly, Rooted, Fenced, Exited, Journaled, Ledgered, Earned, OneBatch, Progressed, LiveClaims, Named,
      Minted, Keyed, Parented, Published;
    hide ThreadsGrow, ContextsAge, TurnsAdvance, FencesGrow, FencesFresh, RunsGrow, RowsKept, CallsAdvance,
      BatchesAdvance, KeysAge, HandlesKept;
    Unchanged(db);
    PrunedKeys(db);
  }

  // ---- admission ----

  /** Everything but the parent links, which consumption and admission change together. */
  ghost predicate InvButParents(db: Db) {
    && CurrentOnly(db.threads, db.contexts)
    && Rooted(db.contexts, db.admissions, db.fences, db.runs)
    && Fenced(db.admissions, db.fences)
    && Exited(db.admissions, db.runs)
    && Journaled(db.runs, db.journal)
    && Ledgered(db.calls, db.admissions)
    && Earned(db.batches, db.admissions)
    && OneBatch(db.batches, db.admissions)
    && Progressed(db.batches, db.calls)
    && LiveClaims(db.batches, db.expired)
    && Named(db.batches, db.calls, db.runTokens, db.expired, db.supply)
    && Minted(db.runTokens, db.admissions, db.runs)
    && Keyed(db.keyring, db.batches, db.runTokens)
    && Published(db.batches, db.runs, db.journal, db.keyring)
  }

  /** The parent links before a new admission of `c` naming `parent` joins them. */
  ghost predicate ParentedBut(admissions: Admissions, batches: Batches, c: ContextId, parent: Id) {
    && (forall k :: k in admissions && admissions[k].parent != NONE ==>
          var p := RunKey(k.context, admissions[k].parent);
          && p in admissions && !Active(admissions[p])
          && (p in batches ==> batches[p].state.BatchConsumed?))
    && (forall j, k | j in admissions && k in admissions && j.context == k.context
                      && admissions[j].parent == admissions[k].parent
                      && RunKey(j.context, admissions[j].parent) in batches :: j == k)
    && (forall p :: p in batches && batches[p].state.BatchConsumed? && p != RunKey(c, parent) ==> HasChild(admissions, p))
    && (forall k :: k in admissions ==> k.run != NONE)
    && (parent != NONE ==>
          var p := RunKey(c, parent);
          && p in admissions && !Active(admissions[p])
          && (p in batches ==> batches[p].state.BatchConsumed? && !HasChild(admissions, p)))
  }

  lemma ParentedNone(admissions: Admissions, batches: Batches, c: ContextId)
    requires Parented(admissions, batches) && RunKey(c, NONE) !in admissions
    ensures ParentedBut(admissions, batches, c, NONE)
  {
  }

  lemma ConsumedParents(admissions: Admissions, batches: Batches, k: RunKey)
    requires Parented(admissions, batches) && k in batches && batches[k].state.Complete?
    requires k in admissions && !Active(admissions[k])
    ensures ParentedBut(admissions, batches[k := batches[k].(state := BatchConsumed)], k.context, k.run)
  {
    var later := batches[k := batches[k].(state := BatchConsumed)];
    assert !HasChild(admissions, k);
  }

  lemma ClassicParent(admissions: Admissions, batches: Batches, calls: Calls, c: ContextId, parent: Id)
    requires Parented(admissions, batches) && Ledgered(calls, admissions) && Progressed(batches, calls)
    requires HasEmitted(calls, RunKey(c, parent))
    requires forall k :: k in batches && k.context == c ==> batches[k].state.BatchConsumed?
    requires forall k :: k in admissions && k.context == c ==> !Active(admissions[k])
    ensures ParentedBut(admissions, batches, c, parent)
  {
    var x :| x in calls && x.run == RunKey(c, parent) && calls[x].state.Emitted?;
    assert RunKey(c, parent) in admissions && RunKey(c, parent) !in batches;
  }

  lemma ConsumedTables(db: Db, k: RunKey, d: Batch)
    requires Earned(db.batches, db.admissions) && OneBatch(db.batches, db.admissions)
    requires LiveClaims(db.batches, db.expired)
    requires k in db.batches && db.batches[k].state.Complete? && d == db.batches[k].(state := BatchConsumed)
    ensures var later := db.batches[k := d];
            Earned(later, db.admissions) && OneBatch(later, db.admissions) && LiveClaims(later, db.expired)
            && BatchesAdvance(db.batches, later, db.expired, db.contexts)
            && CallsAdvance(db.calls, ConsumeEmitted(db.calls, k), db.batches, later, db.admissions, db.contexts)
  {
  }

  lemma ConsumedLedger(db: Db, k: RunKey, d: Batch)
    requires Ledgered(db.calls, db.admissions) && Named(db.batches, db.calls, db.runTokens, db.expired, db.supply)
    requires k in db.batches && db.batches[k].state.Complete? && d == db.batches[k].(state := BatchConsumed)
    ensures var later := db.batches[k := d]; var calls := ConsumeEmitted(db.calls, k);
            Ledgered(calls, db.admissions) && Named(later, calls, db.runTokens, db.expired, db.supply)
  {
  }

  lemma ConsumedProgress(db: Db, k: RunKey, d: Batch)
    requires Progressed(db.batches, db.calls)
    requires k in db.batches && db.batches[k].state.Complete? && d == db.batches[k].(state := BatchConsumed)
    ensures Progressed(db.batches[k := d], ConsumeEmitted(db.calls, k))
  {
    var calls := ConsumeEmitted(db.calls, k);
    forall p | p in db.batches && p != k ensures SomeUndecided(db.calls, p) <==> SomeUndecided(calls, p) {
      if SomeUndecided(db.calls, p) {
        var c :| c in db.calls && c.run == p && Undecided(db.calls[c]);
        assert c in calls && Undecided(calls[c]);
      }
      if SomeUndecided(calls, p) {
        var c :| c in calls && c.run == p && Undecided(calls[c]);
        assert c in db.calls && Undecided(db.calls[c]);
      }
    }
  }

  /** Feeding a complete batch to its follow-up run. */
  lemma ConsumeBatchKeeps(db: Db, k: RunKey)
    requires Inv(db) && k in db.batches && db.batches[k].state.Complete?
    ensures InvButParents(ConsumeBatch(db, k)) && Evolves(db, ConsumeBatch(db, k))
    ensures ParentedBut(db.admissions, ConsumeBatch(db, k).batches, k.context, k.run)
  {
    hide CurrentOnly, Rooted, Fenced, Exited, Journaled, Ledgered, Earned, OneBatch, Progressed, LiveClaims, Named,
      Minted, Keyed, Parented, Published;
    hide ThreadsGrow, ContextsAge, TurnsAdvance, FencesGrow, FencesFresh, RunsGrow, RowsKept, CallsAdvance,
      BatchesAdvance, KeysAge, HandlesKept;
    hide ParentedBut;
    Unchanged(db);
    var d := db.batches[k].(state := BatchConsumed);
    ConsumedTables(db, k, d);
    ConsumedLedger(db, k, d);
    ConsumedProgress(db, k, d);
    BatchKeyed(db.batches, db.runTokens, db.keyring, db.runs, db.journal, k, d);
    EarnedBy(db, k);
    ConsumedParents(db.admissions, db.batches, k);
  }

  lemma EarnedBy(db: Db, k: RunKey)
    requires Earned(db.batches, db.admissions) && k in db.batches
    ensures k in db.admissions && !Active(db.admissions[k])
  {
  }

  /** A context ready for its next writer. */
  ghost predicate Idle(db: Db, c: ContextId) {
    && c in db.contexts
    && (forall k :: k in db.admissions && k.context == c ==> !Active(db.admissions[k]))
    && (forall k :: k in db.batches && k.context == c ==> !Unconsumed(db.batches[k]))
  }

  lemma AdmittedRoots(db: Db, k: RunKey, a: Admission, runs: Runs)
    requires Rooted(db.contexts, db.admissions, db.fences, db.runs) && k.context in db.contexts
    requires (forall j :: j in db.runs ==> j in runs) && k in runs
    requires forall j :: j in runs ==> j in db.runs || j == k
    ensures Rooted(db.contexts, db.admissions[k := a], db.fences[k.context := a.fence], runs)
  {
  }

  lemma AdmittedFenced(admissions: Admissions, fences: Fences, k: RunKey, a: Admission)
    requires Fenced(admissions, fences) && k !in admissions && Active(a)
    requires forall j :: j in admissions && j.context == k.context ==> j.context in fences && !Active(admissions[j])
    requires a.fence == (if k.context in fences then fences[k.context] else 0) + 1
    ensures Fenced(admissions[k := a], fences[k.context := a.fence])
  {
  }

  lemma AdmittedExit(db: Db, k: RunKey, a: Admission, runs: Runs)
    requires Exited(db.admissions, db.runs) && Active(a) && a.outcome.NoOutcome?
    requires !a.state.Running? && a.leaseOwner == NONE
    requires forall j :: j in db.runs ==> j in runs && runs[j] == db.runs[j]
    requires forall j :: j in db.admissions ==> j in db.runs
    ensures Exited(db.admissions[k := a], runs)
  {
  }

  lemma AdmittedLedger(db: Db, k: RunKey, a: Admission)
    requires Ledgered(db.calls, db.admissions) && Earned(db.batches, db.admissions)
    requires OneBatch(db.batches, db.admissions) && Idle(db, k.context) && k !in db.admissions
    ensures var admissions := db.admissions[k := a];
            Ledgered(db.calls, admissions) && Earned(db.batches, admissions) && OneBatch(db.batches, admissions)
            && TurnsAdvance(db.admissions, admissions, db.contexts)
  {
  }

  lemma AdmittedFence(db: Db, k: RunKey, a: Admission)
    requires k !in db.admissions
    requires a.fence == (if k.context in db.fences then db.fences[k.context] else 0) + 1
    ensures FencesFresh(db.fences, db.admissions, db.admissions[k := a])
    ensures FencesGrow(db.fences, db.fences[k.context := a.fence], db.contexts)
  {
  }

  lemma AdmittedJournal(db: Db, k: RunKey, runs: Runs, keyring: Keyring, now: real)
    requires Journaled(db.runs, db.journal) && Published(db.batches, db.runs, db.journal, keyring)
    requires Earned(db.batches, db.admissions) && k !in db.admissions
    requires runs == if k in db.runs then db.runs else db.runs[k := NEW_RUN_COUNTERS.(updatedAt := now)]
    ensures Journaled(runs, db.journal) && Published(db.batches, runs, db.journal, keyring)
    ensures RunsGrow(db.runs, runs, db.contexts)
  {
  }

  lemma AdmittedParents(admissions: Admissions, batches: Batches, k: RunKey, a: Admission)
    requires ParentedBut(admissions, batches, k.context, a.parent)
    requires k !in admissions && k.run != NONE
    requires RunKey(k.context, NONE) !in batches
    ensures Parented(admissions[k := a], batches)
  {
    var after := admissions[k := a];
    forall p | p in batches && batches[p].state.BatchConsumed? ensures HasChild(after, p) {
      if p == RunKey(k.context, a.parent) {
        assert k in after && after[k].parent == p.run;
      } else {
        var c :| c in admissions && c.context == p.context && admissions[c].parent == p.run;
        assert c in after && after[c].parent == p.run;
      }
    }
    AdmittedOnlyChild(admissions, batches, k, a);
  }

  lemma AdmittedOnlyChild(admissions: Admissions, batches: Batches, k: RunKey, a: Admission)
    requires ParentedBut(admissions, batches, k.context, a.parent) && k !in admissions
    requires RunKey(k.context, NONE) !in batches
    ensures var after := admissions[k := a];
            forall i, j | i in after && j in after && i.context == j.context && after[i].parent == after[j].parent
                          && RunKey(i.context, after[i].parent) in batches :: i == j
  {
    forall j | j in admissions && j.context == k.context && admissions[j].parent == a.parent
               && RunKey(k.context, a.parent) in batches
      ensures false
    {
    }
  }

  lemma MintedName(batches: Batches, calls: Calls, runTokens: RunTokens, expired: set<ExpiredClaim>, supply: nat,
                   n: nat, k: RunKey, version: nat)
    requires Named(batches, calls, runTokens, expired, supply) && supply <= n
    ensures Named(batches, calls, runTokens[k := RunToken(RunHandle(n), version)], expired, n + 1)
  {
  }

  lemma MintedKey(db: Db, keyring: Keyring, k: RunKey, token: RunToken)
    requires Keyed(keyring, db.batches, db.runTokens) && token.keyVersion in keyring.keys && k !in db.runTokens
    ensures Keyed(keyring, db.batches, db.runTokens[k := token])
    ensures HandlesKept(db.runTokens, db.runTokens[k := token], db.contexts)
  {
  }

  lemma MintedHandle(db: Db, k: RunKey)
    requires Named(db.batches, db.calls, db.runTokens, db.expired, db.supply)
    requires Keyed(db.keyring, db.batches, db.runTokens) && Published(db.batches, db.runs, db.journal, db.keyring)
    ensures var r := MintRunHandle(db, k);
            Named(db.batches, db.calls, r.runTokens, db.expired, r.supply)
            && Keyed(r.keyring, db.batches, r.runTokens) && Published(db.batches, db.runs, db.journal, r.keyring)
            && KeysAge(db.keyring, r.keyring) && db.supply <= r.supply
            && HandlesKept(db.runTokens, r.runTokens, db.contexts)
  {
    hide Named, Published, KeysAge, Keyed, HandlesKept;
    EnsuredKey(db);
    StillEvolves(db, db.contexts);
    if k !in db.runTokens {
      var keyed := EnsureKey(db);
      var version := Latest(keyed.keyring.keys);
      MintedName(db.batches, db.calls, db.runTokens, db.expired, db.supply, keyed.supply, k, version);
      MintedKey(db, keyed.keyring, k, RunToken(RunHandle(keyed.supply), version));
    }
  }

  lemma AdmittedMint(db: Db, k: RunKey, a: Admission, runs: Runs, runTokens: RunTokens)
    requires Minted(db.runTokens, db.admissions, db.runs)
    requires k in runTokens && k in runs && (forall j :: j in db.runTokens ==> j in runTokens)
    requires forall j :: j in runTokens ==> j in db.runTokens || j == k
    requires forall j :: j in db.runs ==> j in runs
    ensures Minted(runTokens, db.admissions[k := a], runs)
  {
  }

  /** Admission, table by table. */
  lemma AdmitShape(db: Db, k: RunKey, bodyHash: Id, payload: Id, parent: Id, now: real)
    ensures var r := Admit(db, k, bodyHash, payload, parent, now); var m := MintRunHandle(db, k);
            var a := Admission(bodyHash, parent, Reserved, NoOutcome,
                               (if k.context in db.fences then db.fences[k.context] else 0) + 1,
                               payload, NONE, 0.0, NONE, 0.0, now);
            r == db.(admissions := db.admissions[k := a], fences := db.fences[k.context := a.fence],
                     runs := if k in db.runs then db.runs else db.runs[k := NEW_RUN_COUNTERS.(updatedAt := now)],
                     keyring := m.keyring, runTokens := m.runTokens, supply := m.supply)
  {
    hide KeyringFor, Latest;
  }

  lemma MintShape(db: Db, k: RunKey)
    ensures var m := MintRunHandle(db, k); k in m.runTokens && m.runTokens == db.runTokens[k := m.runTokens[k]]
  {
    hide KeyringFor, Latest;
    var m := MintRunHandle(db, k);
    if k in db.runTokens {
      assert m.runTokens == db.runTokens[k := db.runTokens[k]];
    } else {
      assert m.runTokens == db.runTokens[k := m.runTokens[k]];
    }
  }

  lemma AdmitKeeps(db: Db, k: RunKey, bodyHash: Id, payload: Id, parent: Id, now: real)
    requires InvButParents(db) && ParentedBut(db.admissions, db.batches, k.context, parent)
    requires Idle(db, k.context) && k !in db.admissions && k.run != NONE
    ensures Keeps(db, Admit(db, k, bodyHash, payload, parent, now))
  {
    hide CurrentOnly, Rooted, Fenced, Exited, Journaled, Ledgered, Earned, OneBatch, Progressed, LiveClaims, Named,
      Minted, Keyed, Parented, Published;
    hide ThreadsGrow, ContextsAge, TurnsAdvance, FencesGrow, FencesFresh, RunsGrow, RowsKept, CallsAdvance,
      BatchesAdvance, KeysAge, HandlesKept;
    hide ParentedBut, Idle, Admit, MintRunHandle, EnsureKey;
    Unchanged(db);
    AdmitShape(db, k, bodyHash, payload, parent, now);
    MintShape(db, k);
    var r := Admit(db, k, bodyHash, payload, parent, now);
    var a := r.admissions[k];
    IdleFacts(db, k, parent);
    AdmittedRoots(db, k, a, r.runs);
    AdmittedFenced(db.admissions, db.fences, k, a);
    AdmittedExit(db, k, a, r.runs);
    AdmittedLedger(db, k, a);
    AdmittedFence(db, k, a);
    MintedHandle(db, k);
    AdmittedJournal(db, k, r.runs, r.keyring, now);
    AdmittedParents(db.admissions, db.batches, k, a);
    AdmittedMint(db, k, a, r.runs, r.runTokens);
  }

  lemma IdleFacts(db: Db, k: RunKey, parent: Id)
    requires Idle(db, k.context) && Earned(db.batches, db.admissions)
    requires Rooted(db.contexts, db.admissions, db.fences, db.runs)
    requires ParentedBut(db.admissions, db.batches, k.context, parent)
    ensures k.context in db.contexts && RunKey(k.context, NONE) !in db.batches
    ensures forall j :: j in db.admissions && j.context == k.context ==>
              j.context in db.fences && !Active(db.admissions[j])
    ensures forall j :: j in db.admissions ==> j in db.runs
  {
  }

  /** A bound parent leaves the context ready for the admission that names it. */
  ghost predicate Ready(db: Db, c: ContextId, parent: Id) {
    InvButParents(db) && ParentedBut(db.admissions, db.batches, c, parent) && Idle(db, c)
  }

  lemma ConsumedIdle(db: Db, k: RunKey)
    requires OneBatch(db.batches, db.admissions) && k in db.batches && db.batches[k].state.Complete?
    requires k.context in db.contexts && !HasActive(db, k.context)
    ensures Idle(ConsumeBatch(db, k), k.context)
  {
  }

  lemma BoundConsumed(db: Db, k: RunKey)
    requires Inv(db) && k in db.batches && db.batches[k].state.Complete?
    requires k.context in db.contexts && !HasActive(db, k.context)
    ensures Ready(ConsumeBatch(db, k), k.context, k.run) && Evolves(db, ConsumeBatch(db, k))
  {
    ConsumedIdleOf(db, k);
    hide InvButParents, ParentedBut, Idle, Evolves, Inv;
    ConsumeBatchKeeps(db, k);
  }

  lemma ConsumedIdleOf(db: Db, k: RunKey)
    requires Inv(db) && k in db.batches && db.batches[k].state.Complete?
    requires k.context in db.contexts && !HasActive(db, k.context)
    ensures Idle(ConsumeBatch(db, k), k.context)
  {
    hide CurrentOnly, Rooted, Fenced, Exited, Journaled, Ledgered, Earned, OneBatch, Progressed, LiveClaims, Named,
      Minted, Keyed, Parented, Published;
    hide Idle;
    ConsumedIdle(db, k);
  }

  lemma BoundUnbatched(db: Db, c: ContextId, parent: Id)
    requires Inv(db) && c in db.contexts && !HasActive(db, c) && !HasUnconsumed(db, c)
    requires HasEmitted(db.calls, RunKey(c, parent)) || parent == NONE
    ensures Ready(db, c, parent)
  {
    hide CurrentOnly, Rooted, Fenced, Exited, Journaled, Ledgered, Earned, OneBatch, Progressed, LiveClaims, Named,
      Minted, Keyed, Parented, Published;
    hide ParentedBut;
    if HasEmitted(db.calls, RunKey(c, parent)) {
      ClassicParent(db.admissions, db.batches, db.calls, c, parent);
    } else {
      NoNameless(db, c);
      ParentedNone(db.admissions, db.batches, c);
    }
  }

  lemma NoNameless(db: Db, c: ContextId)
    requires Parented(db.admissions, db.batches)
    ensures RunKey(c, NONE) !in db.admissions
  {
  }

  lemma BindParentKeeps(db: Db, c: ContextId, parent: Id)
    requires Inv(db) && c in db.contexts && !HasActive(db, c)
    ensures var bound := BindParent(db, c, parent);
            bound.result.Ok? ==> Ready(bound.db, c, parent) && Evolves(db, bound.db)
                                 && bound.db.admissions == db.admissions
    ensures BindParent(db, c, parent).result.Fail? ==> BindParent(db, c, parent).db == db
  {
    hide Inv, Evolves, Ready;
    Unchanged(db);
    if HasUnconsumed(db, c) {
      var k := UnconsumedBatch(db, c);
      if db.batches[k].state.Complete? { BoundConsumed(db, k); }
    } else if PendingIn(db, c) {
      if HasEmitted(db.calls, RunKey(c, parent)) { BoundUnbatched(db, c, parent); }
    } else if parent == NONE {
      BoundUnbatched(db, c, parent);
    }
  }

  lemma AdmitReadyKeeps(db: Db, m: Db, k: RunKey, bodyHash: Id, payload: Id, parent: Id, now: real)
    requires Inv(db) && Evolves(db, m) && Ready(m, k.context, parent) && k !in m.admissions && k.run != NONE
    ensures Keeps(db, Admit(m, k, bodyHash, payload, parent, now))
  {
    hide CurrentOnly, Rooted, Fenced, Exited, Journaled, Ledgered, Earned, OneBatch, Progressed, LiveClaims, Named,
      Minted, Keyed, Parented, Published;
    hide Evolves, ParentedBut, Idle, Admit;
    AdmitKeeps(m, k, bodyHash, payload, parent, now);
    var after := Admit(m, k, bodyHash, payload, parent, now);
    Placed(db);
    Placed(after);
    Compose(db, m, after);
  }

  lemma AcquireTurnKeeps(db: Db, t: ThreadKey, generation: int, run: Id, bodyHash: Id, payload: Id, parent: Id,
                         now: real)
    requires Inv(db)
    ensures Keeps(db, AcquireTurn(db, t, generation, run, bodyHash, payload, parent, now).db)
  {
    hide Inv, Evolves, Ready, Admit, BindParent;
    Unchanged(db);
    if run != NONE && Holds(db, t, generation) {
      var c := ContextId(t, generation);
      var k := RunKey(c, run);
      if c in db.contexts && k !in db.admissions && !HasActive(db, c) {
        BindParentKeeps(db, c, parent);
        var bound := BindParent(db, c, parent);
        if bound.result.Ok? { AdmitReadyKeeps(db, bound.db, k, bodyHash, payload, parent, now); }
      }
    }
  }

  // ---- sweeping orphans ----

  /** Rows selected by a sweep are distinct running turns. */
  ghost predicate Sweepable(db: Db, rows: seq<RunKey>) {
    && (forall i, j :: 0 <= i < j < |rows| ==> rows[i] != rows[j])
    && (forall i :: 0 <= i < |rows| ==> rows[i] in db.admissions && db.admissions[rows[i]].state.Running?)
  }

  lemma {:induction false} OrphanAllKeeps(db: Db, rows: seq<RunKey>, now: real)
    requires Inv(db) && Sweepable(db, rows)
    ensures Keeps(db, OrphanAll(db, rows, now))
    decreases |rows|
  {
    hide Inv, Evolves, OrphanOne;
    Unchanged(db);
    if rows != [] {
      TurnFacts(db, rows[0]);
      OrphanOneKeeps(db, rows[0], now);
      var next := OrphanOne(db, rows[0], now);
      OrphanedRow(db, rows[0], now);
      assert Sweepable(next, rows[1..]);
      OrphanAllKeeps(next, rows[1..], now);
      ComposeKept(db, next, OrphanAll(db, rows, now));
    }
  }

  lemma OrphanedRow(db: Db, k: RunKey, now: real)
    requires k in db.runs && k in db.admissions
    ensures var next := OrphanOne(db, k, now);
            next.admissions.Keys == db.admissions.Keys
            && forall j :: j in db.admissions && j != k ==> next.admissions[j] == db.admissions[j]
  {
  }
}

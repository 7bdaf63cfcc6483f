/** Threads, journals and keys: what their transactions answer and write, told from the arguments and the rows alone. */
module TurnTableLaws {
  import opened Basics
  import opened TurnTypes
  import opened TurnTokens
  import opened TurnJournal
  import opened TurnThreads

  // ---- the journal ----

  lemma OpenLaw(db: Db, k: RunKey, now: real)
    ensures var r := OpenRun(db, k, now);
            if k.run == NONE then r == Tx(db, Fail(InvalidArgument))
            else if k in db.runs then r == Tx(db, Ok(db.runs[k]))
            else if k.context in db.contexts then
              var blank := JournalRun(false, NoOutcome, 0, 0, 0, 0, 0, now);
              r == Tx(db.(runs := db.runs[k := blank]), Ok(blank))
            else r == Tx(db, Fail(RunUnknown))
  {
  }

  /** A cursor within the journal takes the subscription over, under the next epoch. */
  lemma SubscribeLaw(db: Db, k: RunKey, after: int, now: real)
    ensures var r := AcquireSubscriber(db, k, after, now);
            if k in db.runs && 0 <= after <= db.runs[k].committed then
              r == Tx(db.(runs := db.runs[k := db.runs[k].(epoch := db.runs[k].epoch + 1, updatedAt := now)]),
                      Ok(db.runs[k].epoch + 1))
            else r == Tx(db, Fail(if after >= 0 && k !in db.runs then RunUnknown else InvalidArgument))
  {
  }

  /** One more row behind the others, counted, with the run ended by it or not. */
  ghost predicate Journals(db: Db, after: Db, k: RunKey, e: Event, outcome: Option<Outcome>, now: real)
    requires k in db.runs
  {
    var run := db.runs[k];
    after == db.(journal := db.journal[JournalKey(k, run.committed + 1) := e],
                 runs := db.runs[k := JournalRun(outcome.Some?, if outcome.Some? then outcome.value else NoOutcome,
                                                 run.eventCount + 1, run.byteCount + e.bytes, run.committed + 1,
                                                 run.watermark, run.epoch, now)])
  }

  /** A managed run whose emitted calls are in no batch. */
  ghost predicate Unbatched(db: Db, k: RunKey) {
    && k.context in db.contexts && k.context.thread.publication in db.managed && k !in db.batches
    && exists c :: c in db.calls && c.run == k && db.calls[c].state.Emitted?
  }

  /** A live journal takes the event; over its quota it ends with the quota's own row instead, terminal events exempt. */
  lemma AppendLaw(db: Db, k: RunKey, e: Event, terminal: bool, outcome: Outcome, maxEvents: int, maxBytes: int, now: real)
    ensures var r := Append(db, k, e, terminal, outcome, maxEvents, maxBytes, now);
            if terminal && outcome == NoOutcome then r == Tx(db, Fail(InvalidArgument))
            else if k !in db.runs then r == Tx(db, Fail(RunUnknown))
            else if terminal && outcome == Success && Unbatched(db, k) then r == Tx(db, Fail(ManagedSuccessWithoutBatch))
            else if db.runs[k].ended then r == Tx(db, Fail(RunTerminal(db.runs[k].outcome)))
            else if terminal || (db.runs[k].eventCount < maxEvents && db.runs[k].byteCount + e.bytes <= maxBytes) then
              && r.result == Ok(db.runs[k].committed + 1)
              && Journals(db, r.db, k, e, if terminal then Some(outcome) else None, now)
            else
              && r.result == Fail(RunQuotaExceeded)
              && Journals(db, r.db, k, Event(Errored, QuotaExceeded, NONE, 84, true, None), Some(QuotaExceeded), now)
  {
  }

  /** A page: the rows right behind the cursor, as many as asked for or as there are. */
  lemma PageLaw(db: Db, k: RunKey, after: int, limit: int, epoch: Option<nat>)
    requires k in db.runs ==> Gapless(db, k)
    ensures var r := ReadEvents(db, k, after, limit, epoch);
            if limit < 1 || after < 0 then r == Fail(InvalidArgument)
            else if k !in db.runs then r == Fail(RunUnknown)
            else if epoch.Some? && epoch.value != db.runs[k].epoch then r == Fail(SubscriberTakenOver)
            else if after > db.runs[k].committed then r == Fail(InvalidArgument)
            else if after < db.runs[k].watermark then r == Fail(ReplayExpired)
            else
              && r.Ok? && |r.value| == (if db.runs[k].committed - after < limit then db.runs[k].committed - after else limit)
              && forall i :: 0 <= i < |r.value| ==>
                   JournalKey(k, after + 1 + i) in db.journal
                   && r.value[i] == Row(after + 1 + i, db.journal[JournalKey(k, after + 1 + i)])
  {
    if limit >= 1 && after >= 0 && k in db.runs && db.runs[k].watermark <= after <= db.runs[k].committed {
      var last := if after + limit < db.runs[k].committed then after + limit else db.runs[k].committed;
      forall i: nat | after < i <= last ensures JournalKey(k, i) in db.journal { }
      var rows := RowsBetween(db.journal, k, after, last);
    }
  }

  /** Ended long enough ago, with rows left. */
  predicate Old(run: JournalRun, retention: real, now: real) {
    run.ended && now - run.updatedAt >= (if retention < 0.0 then 0.0 else retention) && run.committed > run.watermark
  }

  /** Old runs lose their rows and remember how far; every other run keeps all of its own. */
  lemma PruneLaw(db: Db, retention: real, now: real)
    ensures var after := Prune(db, retention, now);
            && after == db.(runs := after.runs, journal := after.journal) && after.runs.Keys == db.runs.Keys
            && (forall k :: k in db.runs ==>
                  after.runs[k] == if Old(db.runs[k], retention, now)
                                   then db.runs[k].(watermark := db.runs[k].committed, updatedAt := now) else db.runs[k])
            && (forall j :: j in after.journal <==>
                  j in db.journal && !(j.run in db.runs && Old(db.runs[j.run], retention, now)))
            && (forall j :: j in after.journal ==> j in db.journal && after.journal[j] == db.journal[j])
  {
  }

  // ---- threads ----

  lemma EnsureLaw(db: Db, t: ThreadKey)
    ensures var r := EnsureThread(db, t);
            if t.thread == NONE then r == Tx(db, Fail(InvalidArgument))
            else if t in db.threads then r == Tx(db, Ok(db.threads[t].generation))
            else r == Tx(db.(threads := db.threads[t := Thread(0, 0, None)]), Ok(0))
  {
  }

  /** The thread stands at this generation and is not closed to it. */
  predicate At(db: Db, t: ThreadKey, generation: int) {
    t in db.threads && db.threads[t].generation == generation && db.threads[t].closedBefore <= generation
  }

  function GenerationOf(db: Db, t: ThreadKey): nat { if t in db.threads then db.threads[t].generation else 0 }

  /** At its generation a thread hands out one context, made once: a child of the conversation for an isolated
      publication, the conversation itself for a shared one. */
  lemma ResolveLaw(db: Db, p: Publication, t: ThreadKey, generation: int)
    ensures ResolveCheck(db, t, generation)
            == if At(db, t, generation) then Ok(db.threads[t].pending) else Fail(ThreadRotated(GenerationOf(db, t)))
    ensures var r := ResolveFinish(db, p, t, generation);
            if !At(db, t, generation) then r == Tx(db, Fail(ThreadRotated(GenerationOf(db, t))))
            else
              var c := ContextId(t, db.threads[t].generation);
              if c in db.contexts then r == Tx(db, Ok(db.contexts[c]))
              else
                var made := if p.isolated then Child(p.conversation, c) else Parent(p.conversation);
                r == Tx(db.(contexts := db.contexts[c := made]), Ok(made))
  {
  }

  /** The marker is cleared only if it is still this one, and for a rotation only at the generation it made. */
  lemma ClearLaw(db: Db, t: ThreadKey, marker: Conversation, generation: Option<nat>)
    ensures ClearPending(db, t, marker, generation)
            == if t in db.threads && db.threads[t].pending == Some(marker)
                  && (generation == None || generation == Some(db.threads[t].generation))
               then db.(threads := db.threads[t := db.threads[t].(pending := None)]) else db
  {
  }

  /** The rows kept are these, as they were. */
  ghost predicate Kept<K(!new), V>(before: map<K, V>, after: map<K, V>, keeps: K -> bool) {
    && (forall k :: k in after <==> k in before && keeps(k))
    && (forall k :: k in after ==> k in before && after[k] == before[k])
  }

  /** Every row of the context is gone, every other row is as it was. */
  ghost predicate Dropped(db: Db, after: Db, c: ContextId) {
    && Kept(db.contexts, after.contexts, x => x != c) && Kept(db.fences, after.fences, x => x != c)
    && Kept(db.admissions, after.admissions, (k: RunKey) => k.context != c)
    && Kept(db.runs, after.runs, (k: RunKey) => k.context != c)
    && Kept(db.batches, after.batches, (k: RunKey) => k.context != c)
    && Kept(db.runTokens, after.runTokens, (k: RunKey) => k.context != c)
    && Kept(db.journal, after.journal, (j: JournalKey) => j.run.context != c)
    && Kept(db.calls, after.calls, (x: CallKey) => x.run.context != c)
    && after.managed == db.managed && after.expired == db.expired && after.keyring == db.keyring && after.supply == db.supply
  }

  lemma DroppedIs(db: Db, c: ContextId)
    ensures Dropped(db, DropContext(db, c), c) && DropContext(db, c).threads == db.threads
  {
    KeptBesides(db.contexts, c);
    KeptBesides(db.fences, c);
    KeptOutside(db.admissions, c);
    KeptOutside(db.runs, c);
    KeptOutside(db.batches, c);
    KeptOutside(db.runTokens, c);
    KeptRows(db, c);
    hide Kept, Besides, Outside, RowsOutside, CallsOutside;
  }

  lemma KeptBesides<V>(m: map<ContextId, V>, c: ContextId)
    ensures Kept(m, Besides(m, c), x => x != c)
  {
  }

  lemma KeptOutside<V>(m: map<RunKey, V>, c: ContextId)
    ensures Kept(m, Outside(m, c), (k: RunKey) => k.context != c)
  {
  }

  lemma KeptRows(db: Db, c: ContextId)
    ensures Kept(db.journal, RowsOutside(db.journal, c), (j: JournalKey) => j.run.context != c)
    ensures Kept(db.calls, CallsOutside(db.calls, c), (x: CallKey) => x.run.context != c)
  {
  }

  ghost predicate Turning(db: Db, k: RunKey, c: ContextId) {
    k in db.admissions && k.context == c && !db.admissions[k].state.Terminal? && !db.admissions[k].state.Orphaned?
  }

  ghost predicate Executing(db: Db, k: RunKey, c: ContextId) {
    k in db.batches && k.context == c && !db.batches[k].state.Complete? && !db.batches[k].state.BatchConsumed?
  }

  /** A rotation waits for nobody: a cleanup, a turn or a batch under way refuses it. Otherwise the thread is one generation
      further, closed to the old one if asked, and an isolated context's conversation is left to be deleted. */
  ghost predicate RotatesAs(db: Db, t: ThreadKey, isolated: bool, close: bool, r: Tx<nat>)
    requires t in db.threads
  {
    var thread := db.threads[t];
    var c := ContextId(t, thread.generation);
    if thread.pending.Some? then r == Tx(db, Fail(CleanupPending))
    else if exists k :: Turning(db, k, c) then exists k :: Turning(db, k, c) && r == Tx(db, Fail(TurnBusy(k.run)))
    else if exists k :: Executing(db, k, c) then exists k :: Executing(db, k, c) && r == Tx(db, Fail(TurnBusy(k.run)))
    else
      && r.result == Ok(thread.generation + 1) && Dropped(db, r.db, c)
      && r.db.threads == db.threads[t := Thread(
           thread.generation + 1,
           if close && thread.closedBefore <= thread.generation then thread.generation + 1 else thread.closedBefore,
           if isolated && c in db.contexts then Some(db.contexts[c]) else None)]
      && forall k :: k in r.db.tombstones <==>
           k in db.tombstones && (k.context.thread != t || k.context.generation > thread.generation)
  }

  lemma TurningIs(db: Db, c: ContextId)
    ensures HasActive(db, c) <==> exists k :: Turning(db, k, c)
    ensures HasActive(db, c) ==> Turning(db, ActiveRun(db, c), c)
    ensures HasOpenBatch(db, c) <==> exists k :: Executing(db, k, c)
    ensures HasOpenBatch(db, c) ==> Executing(db, OpenBatch(db, c), c)
  {
    forall k ensures Turning(db, k, c) <==> k in db.admissions && k.context == c && Active(db.admissions[k]) {
    }
    forall k ensures Executing(db, k, c) <==> k in db.batches && k.context == c && Open(db.batches[k]) {
    }
    hide Turning, Executing, Active, Open;
  }

  lemma RotateLaw(db: Db, t: ThreadKey, isolated: bool, expected: int, close: bool)
    ensures var r := Rotate(db, t, isolated, expected, close);
            if t !in db.threads then r == Tx(db, Fail(UnknownThread))
            else if db.threads[t].generation != expected then r == Tx(db, Fail(ThreadRotated(db.threads[t].generation)))
            else RotatesAs(db, t, isolated, close, r)
  {
    hide HasActive, HasOpenBatch, Turning, Executing, Dropped, DropContext;
    if t in db.threads {
      var c := ContextId(t, db.threads[t].generation);
      TurningIs(db, c);
      DroppedIs(db, c);
      DroppedAlso(db, c, Rotate(db, t, isolated, expected, close).db);
    }
  }

  lemma DroppedAlso(db: Db, c: ContextId, after: Db)
    ensures Dropped(db, DropContext(db, c), c)
            && after == DropContext(db, c).(threads := after.threads, tombstones := after.tombstones)
            ==> Dropped(db, after, c)
  {
    hide Kept, DropContext;
  }

  // ---- keys ----

  /** Keys in use stay: the newest, and those a batch or a run handle was made under. */
  lemma PruneKeysLaw(db: Db)
    ensures var r := PruneKeys(db);
            && r.db == db.(keyring := r.db.keyring) && r.db.keyring.highWater == db.keyring.highWater
            && (forall v :: v in r.db.keyring.keys <==>
                  v in db.keyring.keys
                  && ((forall w :: w in db.keyring.keys ==> w <= v)
                      || (exists k :: k in db.batches && db.batches[k].keyVersion == v)
                      || (exists k :: k in db.runTokens && db.runTokens[k].keyVersion == v)))
            && (forall v :: v in r.db.keyring.keys ==> v in db.keyring.keys && r.db.keyring.keys[v] == db.keyring.keys[v])
            && r.result == Ok(|db.keyring.keys| - |r.db.keyring.keys|)
  {
    var r := PruneKeys(db);
    var kept, all := r.db.keyring.keys, db.keyring.keys;
    assert kept.Keys <= all.Keys;
    assert |all.Keys - kept.Keys| == |all.Keys| - |kept.Keys|;
    assert |all| == |all.Keys| && |kept| == |kept.Keys|;
    forall v | v in all ensures v in kept <==>
      ((forall w :: w in all ==> w <= v) || (exists k :: k in db.batches && db.batches[k].keyVersion == v)
       || (exists k :: k in db.runTokens && db.runTokens[k].keyVersion == v))
    {
      Newest(all, v);
    }
  }

  lemma Newest(keys: map<nat, Id>, v: nat)
    requires v in keys
    ensures v == Latest(keys) <==> forall w :: w in keys ==> w <= v
  {
  }
}

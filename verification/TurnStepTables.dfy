/** How single-table updates keep the table invariants: the pieces every transaction is proved from. */
module TurnStepTables {
  import opened Basics
  import opened TurnTypes
  import opened TurnJournal
  import opened TurnBatches
  import opened TurnAdmissions
  import opened TurnInvariants
  import opened TurnEvolution

  type Contexts = map<ContextId, Conversation>
  type Admissions = map<RunKey, Admission>
  type Fences = map<ContextId, nat>
  type Runs = map<RunKey, JournalRun>
  type Journal = map<JournalKey, Event>
  type Calls = map<CallKey, Call>
  type Batches = map<RunKey, Batch>
  type RunTokens = map<RunKey, RunToken>

  // ---- journal runs ----

  /** Runs may appear and grow. */
  lemma RunsMove(contexts: Contexts, admissions: Admissions, fences: Fences, runs: Runs, after: Runs,
                 runTokens: RunTokens)
    requires Rooted(contexts, admissions, fences, runs) && Exited(admissions, runs)
    requires Minted(runTokens, admissions, runs)
    requires RunsGrow(runs, after, contexts) && forall k :: k in after ==> k.context in contexts
    ensures Rooted(contexts, admissions, fences, after) && Exited(admissions, after)
    ensures Minted(runTokens, admissions, after)
  {
    forall k | k in admissions && !Active(admissions[k])
      ensures k in after && after[k].ended && after[k].outcome == admissions[k].outcome
    {
      assert RunGrows(runs[k], after[k]);
    }
  }

  /** Only runs of no batch may be written; a batch's run keeps its committed sequence. */
  lemma RunsPublish(batches: Batches, runs: Runs, after: Runs, journal: Journal, rows: Journal, keyring: Keyring)
    requires Published(batches, runs, journal, keyring)
    requires forall k :: k in batches ==> k in runs && k in after && after[k].committed == runs[k].committed
    requires forall j :: j in rows && j.run in batches ==> j in journal && rows[j] == journal[j]
    ensures Published(batches, after, rows, keyring)
  {
  }

  lemma EventWritten(db: Db, k: RunKey, e: Event, ended: bool, outcome: Outcome, now: real)
    requires k in db.runs && Journaled(db.runs, db.journal) && !db.runs[k].ended
    requires ended ==> !outcome.NoOutcome?
    ensures var after := WriteEvent(db, k, e, ended, outcome, now);
            Journaled(after.runs, after.journal) && RowsKept(db.journal, after.journal)
  {
    var after := WriteEvent(db, k, e, ended, outcome, now);
    assert JournalKey(k, db.runs[k].committed + 1) !in db.journal;
    forall j: JournalKey | j.run in after.runs
      ensures j in after.journal <==> after.runs[j.run].watermark < j.sequence <= after.runs[j.run].committed
    {
      if j.run == k && j.sequence == db.runs[k].committed + 1 {
        assert j == JournalKey(k, db.runs[k].committed + 1);
      }
    }
  }

  // ---- admissions that stay active ----

  lemma ActiveTurn(contexts: Contexts, admissions: Admissions, fences: Fences, runs: Runs,
                   k: RunKey, a: Admission)
    requires Rooted(contexts, admissions, fences, runs) && Fenced(admissions, fences) && Exited(admissions, runs)
    requires k in admissions && Active(admissions[k]) && Active(a) && a.outcome.NoOutcome?
    requires TurnAdvances(admissions[k], a) && (a.state.Running? <==> a.leaseOwner != NONE)
    ensures var after := admissions[k := a];
            Rooted(contexts, after, fences, runs) && Fenced(after, fences) && Exited(after, runs)
  {
  }

  lemma ActiveLedger(admissions: Admissions, batches: Batches, calls: Calls, runTokens: RunTokens, runs: Runs,
                     k: RunKey, a: Admission)
    requires Ledgered(calls, admissions) && Earned(batches, admissions) && OneBatch(batches, admissions)
    requires Minted(runTokens, admissions, runs)
    requires k in admissions && Active(admissions[k]) && Active(a) && TurnAdvances(admissions[k], a)
    ensures var after := admissions[k := a];
            Ledgered(calls, after) && Earned(batches, after) && OneBatch(batches, after)
            && Minted(runTokens, after, runs)
  {
  }

  lemma ActiveParents(admissions: Admissions, batches: Batches, k: RunKey, a: Admission)
    requires Parented(admissions, batches)
    requires k in admissions && Active(admissions[k]) && TurnAdvances(admissions[k], a)
    ensures Parented(admissions[k := a], batches)
  {
    var after := admissions[k := a];
    forall p | p in batches && batches[p].state.BatchConsumed? ensures HasChild(after, p) {
      var c :| c in admissions && c.context == p.context && admissions[c].parent == p.run;
      assert c in after && after[c].parent == p.run;
    }
  }

  lemma AdvanceOne(admissions: Admissions, contexts: Contexts, fences: Fences, k: RunKey, a: Admission)
    requires k in admissions && TurnAdvances(admissions[k], a)
    ensures TurnsAdvance(admissions, admissions[k := a], contexts)
    ensures FencesFresh(fences, admissions, admissions[k := a])
  {
  }

  // ---- leaving the active states ----

  lemma LeftFenced(admissions: Admissions, fences: Fences, k: RunKey, a: Admission)
    requires Fenced(admissions, fences) && k in admissions && k.context in fences && Active(admissions[k])
    requires !Active(a) && a.fence == admissions[k].fence
    ensures Fenced(admissions[k := a], fences[k.context := fences[k.context] + 1])
  {
    forall j | j in admissions && j.context == k.context && j != k ensures !Active(admissions[j]) {
      assert admissions[j].fence != admissions[k].fence;
    }
  }

  lemma LeftRooted(contexts: Contexts, admissions: Admissions, fences: Fences, runs: Runs, k: RunKey, a: Admission,
                   n: nat)
    requires Rooted(contexts, admissions, fences, runs) && k in admissions
    ensures Rooted(contexts, admissions[k := a], fences[k.context := n], runs)
  {
  }

  lemma LeftExited(admissions: Admissions, runs: Runs, k: RunKey, a: Admission)
    requires Exited(admissions, runs) && k in admissions && k in runs
    requires !Active(a) && a.leaseOwner == NONE && runs[k].ended && runs[k].outcome == a.outcome
    ensures Exited(admissions[k := a], runs)
  {
  }

  lemma LeftLedger(admissions: Admissions, calls: Calls, after: Calls, k: RunKey, a: Admission)
    requires Ledgered(calls, admissions) && k in admissions && !Active(a)
    requires after == if a.outcome.Success? then calls else AbandonEmitted(calls, k)
    ensures Ledgered(after, admissions[k := a])
  {
  }

  lemma LeftBatches(admissions: Admissions, batches: Batches, runTokens: RunTokens, runs: Runs, k: RunKey, a: Admission)
    requires Earned(batches, admissions) && OneBatch(batches, admissions) && Minted(runTokens, admissions, runs)
    requires k in admissions && Active(admissions[k]) && !Active(a)
    ensures Earned(batches, admissions[k := a]) && OneBatch(batches, admissions[k := a])
    ensures Minted(runTokens, admissions[k := a], runs) && k !in batches
  {
  }

  lemma AbandonedCalls(batches: Batches, calls: Calls, runTokens: RunTokens, expired: set<ExpiredClaim>, supply: nat,
                       k: RunKey)
    requires Progressed(batches, calls) && Named(batches, calls, runTokens, expired, supply) && k !in batches
    ensures var after := AbandonEmitted(calls, k);
            Progressed(batches, after) && Named(batches, after, runTokens, expired, supply)
  {
    var after := AbandonEmitted(calls, k);
    forall p | p in batches ensures SomeUndecided(calls, p) <==> SomeUndecided(after, p) {
      if SomeUndecided(calls, p) {
        var c :| c in calls && c.run == p && Undecided(calls[c]);
        assert c in after && Undecided(after[c]);
      }
      if SomeUndecided(after, p) {
        var c :| c in after && c.run == p && Undecided(after[c]);
        assert c in calls && Undecided(calls[c]);
      }
    }
  }

  lemma AbandonedAdvance(batches: Batches, calls: Calls, admissions: Admissions, contexts: Contexts, k: RunKey)
    requires k !in batches
    ensures CallsAdvance(calls, AbandonEmitted(calls, k), batches, batches, admissions, contexts)
  {
  }

  // ---- batches changed in place ----

  /** A batch updated in place keeps what names it. */
  predicate SameBatch(b: Batch, d: Batch) {
    b.handle == d.handle && b.keyVersion == d.keyVersion && b.absoluteDeadline == d.absoluteDeadline
  }

  lemma BatchKept(admissions: Admissions, batches: Batches, k: RunKey, d: Batch)
    requires Earned(batches, admissions) && OneBatch(batches, admissions) && Parented(admissions, batches)
    requires k in batches && Unconsumed(batches[k]) && Unconsumed(d)
    ensures var after := batches[k := d];
            Earned(after, admissions) && OneBatch(after, admissions) && Parented(admissions, after)
  {
  }

  lemma BatchNamed(batches: Batches, calls: Calls, runTokens: RunTokens, expired: set<ExpiredClaim>,
                   later: set<ExpiredClaim>, supply: nat, k: RunKey, d: Batch)
    requires Named(batches, calls, runTokens, expired, supply)
    requires k in batches && SameBatch(batches[k], d) && Unconsumed(batches[k])
    requires later == expired || later == expired + {ExpiredClaim(batches[k].handle, batches[k].claimId)}
    ensures Named(batches[k := d], calls, runTokens, later, supply)
  {
  }

  lemma BatchKeyed(batches: Batches, runTokens: RunTokens, keyring: Keyring, runs: Runs, journal: Journal,
                   k: RunKey, d: Batch)
    requires Keyed(keyring, batches, runTokens) && Published(batches, runs, journal, keyring)
    requires k in batches && SameBatch(batches[k], d)
    ensures Keyed(keyring, batches[k := d], runTokens) && Published(batches[k := d], runs, journal, keyring)
  {
  }

  lemma BatchProgress(batches: Batches, calls: Calls, k: RunKey, d: Batch)
    requires Progressed(batches, calls) && k in batches && Open(batches[k]) && Open(d)
    requires d.state.Frozen? || d.state.Claimed? ==> batches[k].state.Frozen? || batches[k].state.Claimed?
    ensures Progressed(batches[k := d], calls)
  {
  }

  lemma BatchAdvanceOne(batches: Batches, expired: set<ExpiredClaim>, contexts: Contexts, calls: Calls,
                        admissions: Admissions, k: RunKey, d: Batch)
    requires k in batches && BatchAdvances(batches[k], d, expired)
    ensures BatchesAdvance(batches, batches[k := d], expired, contexts)
    ensures CallsAdvance(calls, calls, batches, batches[k := d], admissions, contexts)
  {
  }

  // ---- one call of a batch decided or begun ----

  lemma CallDecided(batches: Batches, calls: Calls, admissions: Admissions, runTokens: RunTokens,
                    expired: set<ExpiredClaim>, supply: nat, c: CallKey, e: Exec)
    requires Ledgered(calls, admissions) && Named(batches, calls, runTokens, expired, supply)
    requires c in calls
    ensures var after := calls[c := calls[c].(exec := e)];
            Ledgered(after, admissions) && Named(batches, after, runTokens, expired, supply)
  {
  }

  lemma CallAdvanceOne(batches: Batches, later: Batches, calls: Calls, admissions: Admissions, contexts: Contexts,
                       c: CallKey, e: Exec)
    requires c in calls && (calls[c].exec.Done? ==> e == calls[c].exec)
    requires calls[c].exec.Executing? ==> !e.Unbegun?
    ensures CallsAdvance(calls, calls[c := calls[c].(exec := e)], batches, later, admissions, contexts)
  {
  }

  /** Which batches are still undecided after one call moved. */
  lemma OtherRunsUndecided(calls: Calls, c: CallKey, e: Exec, k: RunKey)
    requires c in calls && c.run != k
    ensures SomeUndecided(calls, k) <==> SomeUndecided(calls[c := calls[c].(exec := e)], k)
  {
    var after := calls[c := calls[c].(exec := e)];
    if SomeUndecided(calls, k) {
      var x :| x in calls && x.run == k && Undecided(calls[x]);
      assert x in after && Undecided(after[x]);
    }
    if SomeUndecided(after, k) {
      var x :| x in after && x.run == k && Undecided(after[x]);
      assert x in calls && Undecided(calls[x]);
    }
  }

  /** One call of an open batch moves, and the batch follows: committed if the call begins, complete
      if it was the last to be decided, else as before. */
  lemma ProgressCall(batches: Batches, calls: Calls, c: CallKey, e: Exec, d: Batch)
    requires Progressed(batches, calls) && c in calls && c.run in batches && Open(batches[c.run])
    requires var after := calls[c := calls[c].(exec := e)];
             Open(d) <==> SomeUndecided(after, c.run)
    requires !d.state.BatchConsumed?
    requires d.state.Frozen? || d.state.Claimed? ==>
               Untouched(e) && (batches[c.run].state.Frozen? || batches[c.run].state.Claimed?)
    ensures Progressed(batches[c.run := d], calls[c := calls[c].(exec := e)])
  {
    var after := calls[c := calls[c].(exec := e)];
    forall k | k in batches && k != c.run ensures SomeUndecided(calls, k) <==> SomeUndecided(after, k) {
      OtherRunsUndecided(calls, c, e, k);
    }
  }

  // ---- all calls of a batch at once ----

  function LapseAll(calls: Calls, k: RunKey): Calls {
    map c | c in calls :: if c.run == k then Lapse(calls[c]) else calls[c]
  }

  lemma LapsedProgress(batches: Batches, calls: Calls, k: RunKey, d: Batch)
    requires Progressed(batches, calls) && k in batches && d.state.Complete?
    ensures Progressed(batches[k := d], LapseAll(calls, k)) && !SomeUndecided(LapseAll(calls, k), k)
  {
    var after := LapseAll(calls, k);
    forall p | p in batches && p != k ensures SomeUndecided(calls, p) <==> SomeUndecided(after, p) {
      if SomeUndecided(calls, p) {
        var c :| c in calls && c.run == p && Undecided(calls[c]);
        assert c in after && Undecided(after[c]);
      }
      if SomeUndecided(after, p) {
        var c :| c in after && c.run == p && Undecided(after[c]);
        assert c in calls && Undecided(calls[c]);
      }
    }
  }

  lemma LapsedCalls(batches: Batches, later: Batches, calls: Calls, admissions: Admissions, runTokens: RunTokens,
                    expired: set<ExpiredClaim>, supply: nat, contexts: Contexts, k: RunKey)
    requires Ledgered(calls, admissions) && Named(batches, calls, runTokens, expired, supply)
    ensures var after := LapseAll(calls, k);
            Ledgered(after, admissions) && Named(batches, after, runTokens, expired, supply)
            && CallsAdvance(calls, after, batches, later, admissions, contexts)
  {
  }

  lemma RecordedCall(batches: Batches, calls: Calls, admissions: Admissions, runTokens: RunTokens,
                     expired: set<ExpiredClaim>, supply: nat, contexts: Contexts, c: CallKey, call: Call)
    requires Ledgered(calls, admissions) && Named(batches, calls, runTokens, expired, supply)
    requires c !in calls && c.run in admissions && admissions[c.run].state.Running? && c.run !in batches
    requires call.state.Emitted? && call.exec.Unbegun? && call.handle == NoHandle
    ensures var after := calls[c := call];
            Ledgered(after, admissions) && Named(batches, after, runTokens, expired, supply)
            && CallsAdvance(calls, after, batches, batches, admissions, contexts)
  {
  }

  lemma OtherBatchesUndecided(batches: Batches, calls: Calls, after: Calls, k: RunKey)
    requires Progressed(batches, calls) && k !in batches
    requires forall c: CallKey :: c.run != k ==> (c in calls <==> c in after) && (c in calls ==> calls[c] == after[c])
    requires forall c :: c in after && c.run == k ==> after[c].exec.Unbegun?
    ensures Progressed(batches, after)
  {
    forall p | p in batches ensures SomeUndecided(calls, p) <==> SomeUndecided(after, p) {
      if SomeUndecided(calls, p) {
        var c :| c in calls && c.run == p && Undecided(calls[c]);
        assert c in after && Undecided(after[c]);
      }
      if SomeUndecided(after, p) {
        var c :| c in after && c.run == p && Undecided(after[c]);
        assert c in calls && Undecided(calls[c]);
      }
    }
  }

  /** Classic consumption: the run has no batch. */
  lemma ConsumedCalls(batches: Batches, calls: Calls, admissions: Admissions, runTokens: RunTokens,
                      expired: set<ExpiredClaim>, supply: nat, contexts: Contexts, k: RunKey)
    requires Ledgered(calls, admissions) && Named(batches, calls, runTokens, expired, supply)
    requires k !in batches
    ensures var after := ConsumeEmitted(calls, k);
            Ledgered(after, admissions) && Named(batches, after, runTokens, expired, supply)
            && CallsAdvance(calls, after, batches, batches, admissions, contexts)
  {
  }
}

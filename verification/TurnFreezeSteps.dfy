/** Finishing a turn, with the frontend batch frozen in the same transaction. */
module TurnFreezeSteps {
  import opened Basics
  import opened TurnTypes
  import opened TurnTokens
  import opened TurnBatches
  import opened TurnAdmissions
  import opened TurnInvariants
  import opened TurnEvolution
  import opened TurnStepTables
  import opened TurnSteps
  import opened TurnThreadSteps

  /** A turn that just succeeded with emitted calls, in a context nobody writes or waits on. */
  ghost predicate Freezable(db: Db, k: RunKey) {
    && k in db.admissions && !Active(db.admissions[k]) && db.admissions[k].outcome.Success?
    && k !in db.batches && HasEmitted(db.calls, k) && !HasChild(db.admissions, k)
    && (forall j :: j in db.admissions && j.context == k.context ==> !Active(db.admissions[j]))
    && (forall j :: j in db.batches && j.context == k.context ==> !Unconsumed(db.batches[j]))
  }

  lemma FrozenOwner(db: Db, k: RunKey, b: Batch)
    requires Earned(db.batches, db.admissions) && OneBatch(db.batches, db.admissions)
    requires LiveClaims(db.batches, db.expired) && Freezable(db, k) && b.state.Frozen?
    ensures var later := db.batches[k := b];
            Earned(later, db.admissions) && OneBatch(later, db.admissions) && LiveClaims(later, db.expired)
            && BatchesAdvance(db.batches, later, db.expired, db.contexts)
  {
  }

  lemma Childless(admissions: Admissions, k: RunKey)
    ensures !HasChild(admissions, k) <==>
            forall j :: j in admissions ==> RunKey(j.context, admissions[j].parent) != k
  {
    if j :| j in admissions && RunKey(j.context, admissions[j].parent) == k {
      assert j.context == k.context && admissions[j].parent == k.run;
    }
  }

  lemma FrozenParents(db: Db, k: RunKey, b: Batch)
    requires Parented(db.admissions, db.batches) && Freezable(db, k) && b.state.Frozen?
    ensures Parented(db.admissions, db.batches[k := b])
  {
    Childless(db.admissions, k);
  }

  lemma FrozenNames(db: Db, k: RunKey, b: Batch, n: nat)
    requires Named(db.batches, db.calls, db.runTokens, db.expired, db.supply)
    requires k !in db.batches && b.handle == BatchHandle(n) && db.supply <= n
    ensures Named(db.batches[k := b], WithHandles(db.calls, k, n), db.runTokens, db.expired, n + 1)
  {
  }

  lemma FrozenCalls(db: Db, k: RunKey, b: Batch, n: nat)
    requires Named(db.batches, db.calls, db.runTokens, db.expired, db.supply)
    requires Ledgered(db.calls, db.admissions) && k !in db.batches
    ensures Ledgered(WithHandles(db.calls, k, n), db.admissions)
    ensures CallsAdvance(db.calls, WithHandles(db.calls, k, n), db.batches, db.batches[k := b], db.admissions,
                         db.contexts)
  {
  }

  lemma HandledUndecided(calls: Calls, k: RunKey, n: nat, p: RunKey)
    ensures SomeUndecided(calls, p) <==> SomeUndecided(WithHandles(calls, k, n), p)
  {
    var after := WithHandles(calls, k, n);
    if SomeUndecided(calls, p) {
      var c :| c in calls && c.run == p && Undecided(calls[c]);
      assert c in after && Undecided(after[c]);
    }
    if SomeUndecided(after, p) {
      var c :| c in after && c.run == p && Undecided(after[c]);
      assert c in calls && Undecided(calls[c]);
    }
  }

  lemma FrozenProgress(db: Db, k: RunKey, b: Batch, n: nat)
    requires Progressed(db.batches, db.calls) && Freezable(db, k) && b.state.Frozen?
    ensures Progressed(db.batches[k := b], WithHandles(db.calls, k, n))
  {
    var after := WithHandles(db.calls, k, n);
    forall p ensures SomeUndecided(db.calls, p) <==> SomeUndecided(after, p) {
      HandledUndecided(db.calls, k, n, p);
    }
    var c :| c in db.calls && c.run == k && db.calls[c].state.Emitted?;
    assert Undecided(db.calls[c]);
  }

  lemma FrozenKeys(db: Db, k: RunKey, b: Batch, keyring: Keyring)
    requires Keyed(keyring, db.batches, db.runTokens) && b.keyVersion in keyring.keys
    requires Published(db.batches, db.runs, db.journal, keyring)
    requires k in db.runs && db.runs[k].committed > 0
    requires var j := JournalKey(k, db.runs[k].committed);
             j in db.journal && db.journal[j].kind.Finished?
             && db.journal[j].batchToken == Some(Derive(keyring.keys, b.keyVersion, b.handle, BatchUse, OfRun(k), 0))
    ensures Keyed(keyring, db.batches[k := b], db.runTokens)
    ensures Published(db.batches[k := b], db.runs, db.journal, keyring)
  {
  }

  /** The rows a freeze adds, once its run has left. */
  lemma FrozenKeeps(db: Db, k: RunKey, b: Batch, n: nat)
    requires Inv(db) && Freezable(db, k) && b.state.Frozen? && b.handle == BatchHandle(n)
    requires n == EnsureKey(db).supply && b.keyVersion in EnsureKey(db).keyring.keys
    requires k in db.runs && db.runs[k].committed > 0
    requires var j := JournalKey(k, db.runs[k].committed);
             j in db.journal && db.journal[j].kind.Finished?
             && db.journal[j].batchToken
                == Some(Derive(EnsureKey(db).keyring.keys, b.keyVersion, b.handle, BatchUse, OfRun(k), 0))
    ensures Keeps(db, db.(batches := db.batches[k := b], calls := WithHandles(db.calls, k, n),
                          keyring := EnsureKey(db).keyring, supply := n + 1))
  {
    hide CurrentOnly, Rooted, Fenced, Exited, Journaled, Ledgered, Earned, OneBatch, Progressed, LiveClaims, Named,
      Minted, Keyed, Parented, Published;
    hide ThreadsGrow, ContextsAge, TurnsAdvance, FencesGrow, FencesFresh, RunsGrow, RowsKept, CallsAdvance,
      BatchesAdvance, KeysAge, HandlesKept;
    Unchanged(db);
    EnsuredKey(db);
    FrozenOwner(db, k, b);
    FrozenParents(db, k, b);
    FrozenNames(db, k, b, n);
    FrozenCalls(db, k, b, n);
    FrozenProgress(db, k, b, n);
    FrozenKeys(db, k, b, EnsureKey(db).keyring);
  }

  /** What the still active turn guarantees about its context. */
  lemma SoleWriter(db: Db, k: RunKey)
    requires Inv(db) && k in db.admissions && Active(db.admissions[k])
    ensures k !in db.batches && !HasChild(db.admissions, k)
    ensures forall j :: j in db.admissions && j.context == k.context && j != k ==> !Active(db.admissions[j])
    ensures forall j :: j in db.batches && j.context == k.context ==> !Unconsumed(db.batches[j])
  {
  }

  /** Freezing and then leaving writes the same tables as leaving and then adding the batch. */
  lemma FreezeCommutes(db: Db, k: RunKey, exit: Admission, e: Event, deadline: real, now: real)
    requires k in db.admissions && k in db.runs && !db.runs[k].ended
    ensures Freeze(db, k, deadline, now).admissions == db.admissions && Freeze(db, k, deadline, now).runs == db.runs
    ensures var frozen := Freeze(db, k, deadline, now); var m := LeaveActive(db, k, exit, Success, e, now);
            LeaveActive(frozen, k, exit, Success, e, now)
            == m.(batches := m.batches[k := frozen.batches[k]],
                  calls := WithHandles(m.calls, k, EnsureKey(m).supply),
                  keyring := EnsureKey(m).keyring, supply := EnsureKey(m).supply + 1)
    ensures EnsureKey(LeaveActive(db, k, exit, Success, e, now)).keyring == Freeze(db, k, deadline, now).keyring
    ensures EnsureKey(LeaveActive(db, k, exit, Success, e, now)).supply == EnsureKey(db).supply
    ensures Freeze(db, k, deadline, now).batches[k].handle == BatchHandle(EnsureKey(db).supply)
  {
    hide KeyringFor, Latest;
  }

  /** The tables right after a success left a live journal. */
  lemma LeftShape(db: Db, k: RunKey, exit: Admission, e: Event, now: real)
    requires k in db.admissions && k in db.runs && !db.runs[k].ended && !Active(exit) && exit.parent == db.admissions[k].parent
    ensures var m := LeaveActive(db, k, exit, Success, e, now);
            && m.batches == db.batches && m.calls == db.calls
            && k in m.admissions && !Active(m.admissions[k]) && m.admissions[k].outcome.Success?
            && m.admissions[k].parent == db.admissions[k].parent
            && m.admissions == db.admissions[k := m.admissions[k]]
            && k in m.runs && m.runs[k].committed > 0
            && m.journal == db.journal[JournalKey(k, m.runs[k].committed) := e]
  {
  }

  lemma LeftFreezable(db: Db, m: Db, k: RunKey)
    requires Inv(db) && k in db.admissions && Active(db.admissions[k]) && HasEmitted(db.calls, k)
    requires m.batches == db.batches && m.calls == db.calls
    requires k in m.admissions && !Active(m.admissions[k]) && m.admissions[k].outcome.Success?
    requires m.admissions[k].parent == db.admissions[k].parent && m.admissions == db.admissions[k := m.admissions[k]]
    ensures Freezable(m, k)
  {
    hide Inv;
    SoleWriter(db, k);
    Childless(db.admissions, k);
    Childless(m.admissions, k);
  }

  lemma FreezeLeaveKeeps(db: Db, k: RunKey, exit: Admission, e: Event, deadline: real, now: real)
    requires Inv(db) && k in db.admissions && k in db.runs && Active(db.admissions[k]) && !db.runs[k].ended
    requires ExitOf(db.admissions[k], exit) && HasEmitted(db.calls, k) && e.kind.Finished?
    requires e.batchToken == Some(BatchToken(Freeze(db, k, deadline, now), k))
    ensures Keeps(db, LeaveActive(Freeze(db, k, deadline, now), k, exit, Success, e, now))
  {
    hide Inv, Evolves, Freezable, Latest, KeyringFor, EnsureKey, LeaveActive;
    var frozen := Freeze(db, k, deadline, now);
    var m := LeaveActive(db, k, exit, Success, e, now);
    LeftShape(db, k, exit, e, now);
    LeftFreezable(db, m, k);
    LeaveActiveKeeps(db, k, exit, Success, e, now);
    FreezeCommutes(db, k, exit, e, deadline, now);
    FrozenKeeps(m, k, frozen.batches[k], EnsureKey(m).supply);
    ComposeKept(db, m, LeaveActive(frozen, k, exit, Success, e, now));
  }

  lemma FinishTurnKeeps(db: Db, k: RunKey, worker: Id, outcome: Outcome, provided: Option<Event>, deadline: real,
                        tokenBytes: nat, now: real)
    requires Inv(db)
    ensures Keeps(db, FinishTurn(db, k, worker, outcome, provided, deadline, tokenBytes, now).db)
  {
    hide Inv, Evolves, Freeze, LeaveActive, BatchToken;
    Unchanged(db);
    if HoldsLease(db, k, worker) && !outcome.NoOutcome? {
      TurnFacts(db, k);
      var exit := db.admissions[k].(state := Terminal);
      LeaveActiveKeeps(db, k, exit, outcome, TerminalEvent(outcome, provided), now);
      if MustFreeze(db, k, outcome) && (provided.Some? ==> provided.value.kind.Finished?) {
        var e := TerminalEvent(outcome, provided).(
          batchToken := Some(BatchToken(Freeze(db, k, deadline, now), k)), bytes := tokenBytes);
        FreezeLeaveKeeps(db, k, exit, e, deadline, now);
      }
    }
  }
}

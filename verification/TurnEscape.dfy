/** A run of a managed publication whose success has pending calls and no batch: the success is journaled directly,
    and only then is a call recorded. */
module TurnEscape {
  import opened Basics
  import opened TurnTypes
  import opened TurnTokens
  import opened TurnJournal
  import opened TurnThreads
  import opened TurnBatches
  import opened TurnAdmissions
  import opened TurnInvariants
  import opened TurnMachine
  import opened TurnManaged

  const THREAD := ThreadKey(1, 1, 1)
  const CONTEXT := ContextId(THREAD, 0)
  const RUN := RunKey(CONTEXT, 7)

  function Escape(): seq<Op> {
    [SetManaged({1}),
     EnsureOp(THREAD),
     ResolveOp(Publication(1, 1, true), THREAD, 0),
     AcquireOp(THREAD, 0, 7, 1, 1, NONE, 0.0),
     AdoptOp(RUN, 5, 0.0),
     AppendOp(RUN, RUN_FINISHED_EVENT, true, Success, 10, 1000, 0.0),
     RecordOp(CallKey(RUN, 9), 1, 1, 1),
     FinishOp(RUN, 5, Success, None, 60.0, 0, 0.0)]
  }

  /** The states the operations pass through from `db`. */
  ghost function Trace(db: Db, ops: seq<Op>): (states: seq<Db>)
    ensures |states| == |ops| + 1 && states[0] == db
    ensures forall i :: 0 <= i < |ops| ==> states[i + 1] == Step(states[i], ops[i])
    decreases |ops|
  {
    if ops == [] then [db]
    else
      var n := |ops| - 1;
      var before := Trace(db, ops[..n]);
      before + [Step(before[n], ops[n])]
  }

  /** The run is there and open, nothing was called and nothing frozen. */
  ghost predicate Opened(db: Db) {
    && db.managed == {1} && CONTEXT in db.contexts && db.calls == map[] && db.batches == map[]
    && RUN in db.admissions && RUN in db.runs && !db.runs[RUN].ended
  }

  lemma Prepared(db: Db)
    requires Init(db) && db.threads == map[] && db.tombstones == {}
    ensures var ready := Step(Step(Step(db, Escape()[0]), Escape()[1]), Escape()[2]);
            && ready == db.(managed := {1}, threads := map[THREAD := Thread(0, 0, None)],
                            contexts := map[CONTEXT := Child(1, CONTEXT)])
  {
    assert THREAD !in db.threads && CONTEXT !in db.contexts;
  }

  lemma AdmittedRun(db: Db, after: Db)
    requires db.managed == {1} && db.threads == map[THREAD := Thread(0, 0, None)] && db.contexts == map[CONTEXT := Child(1, CONTEXT)]
    requires db.admissions == map[] && db.runs == map[] && db.calls == map[] && db.batches == map[] && db.tombstones == {}
    requires after == Step(db, Escape()[3])
    ensures Opened(after) && after.admissions[RUN].state.Reserved?
  {
    hide KeyringFor, Latest;
    assert !HasActive(db, CONTEXT) && !HasUnconsumed(db, CONTEXT) && !PendingIn(db, CONTEXT);
    assert BindParent(db, CONTEXT, NONE) == Tx(db, Ok(false));
  }

  lemma AdoptedRun(db: Db, after: Db)
    requires Opened(db) && db.admissions[RUN].state.Reserved? && after == Step(db, Escape()[4])
    ensures Opened(after) && HoldsLease(after, RUN, 5)
  {
  }

  lemma EndedRun(db: Db, after: Db)
    requires Opened(db) && HoldsLease(db, RUN, 5) && after == Step(db, Escape()[5])
    ensures Succeeded(after, RUN) && HoldsLease(after, RUN, 5)
    ensures after.managed == {1} && CONTEXT in after.contexts && after.calls == map[] && after.batches == map[]
  {
    assert !UnfrozenManagedSuccess(db, RUN);
  }

  lemma CalledRun(db: Db, after: Db)
    requires Succeeded(db, RUN) && HoldsLease(db, RUN, 5) && db.managed == {1} && CONTEXT in db.contexts
    requires db.calls == map[] && db.batches == map[] && after == Step(db, Escape()[6])
    ensures Succeeded(after, RUN) && HoldsLease(after, RUN, 5) && after.batches == map[] && after.managed == {1}
    ensures HasEmitted(after.calls, RUN)
  {
    assert CallKey(RUN, 9) in after.calls;
  }

  lemma FinishedRun(db: Db, after: Db)
    requires Succeeded(db, RUN) && HoldsLease(db, RUN, 5) && db.batches == map[] && HasEmitted(db.calls, RUN)
    requires after == Step(db, Escape()[7])
    ensures Succeeded(after, RUN) && HasEmitted(after.calls, RUN) && RUN !in after.batches && after.managed == db.managed
    ensures RUN in after.admissions && after.admissions[RUN].state.Terminal? && after.admissions[RUN].outcome.Success?
  {
    hide TerminalEvent, Freeze, BatchToken;
  }

  /** Every operation is a public transaction, and all of them succeed. */
  lemma SuccessEscapes(db: Db)
    requires Init(db) && db.threads == map[] && db.tombstones == {}
    ensures var states := Trace(db, Escape());
            && IsRun(states, Escape())
            && RUN.context.thread.publication in states[8].managed
            && Succeeded(states[8], RUN) && HasEmitted(states[8].calls, RUN) && RUN !in states[8].batches
            && RUN in states[8].admissions && states[8].admissions[RUN].outcome.Success?
  {
    hide Step, Escape, Init, Succeeded, HasEmitted, HoldsLease;
    var states, ops := Trace(db, Escape()), Escape();
    EscapeLength();
    BareStart(db);
    Prepared(db);
    AdmittedRun(states[3], states[4]);
    AdoptedRun(states[4], states[5]);
    EndedRun(states[5], states[6]);
    CalledRun(states[6], states[7]);
    FinishedRun(states[7], states[8]);
  }

  lemma EscapeLength()
    ensures |Escape()| == 8
  {
  }

  lemma BareStart(db: Db)
    requires Init(db)
    ensures db.admissions == map[] && db.runs == map[] && db.calls == map[] && db.batches == map[]
  {
  }
}

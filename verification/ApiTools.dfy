/** Client-tool batches: one awaited batch per session, uniform states, and exact undo of a settle. */
module ApiTools {
  import opened Basics
  import opened ApiTypes
  import opened ApiSessions
  import opened ApiInvariants
  import opened ApiSteps
  import opened ApiRuns

  /** At most one pending batch; a waiting session has one, at its current head; a batch and its
      calls are in one state. */
  ghost predicate ToolLaw(db: Db, s: Id)
    requires s in db.sessions
  {
    && (forall a, b | a in db.batches && b in db.batches && db.batches[a].session == s && db.batches[b].session == s
                      && db.batches[a].state.Pending? && db.batches[b].state.Pending? :: a == b)
    && (db.sessions[s].state.WaitingTool? ==> PendingAt(db.batches, s, db.sessions[s].head, db.sessions[s].count))
    && (forall b :: b in db.batches && db.batches[b].session == s && db.batches[b].state.Pending?
                    && db.sessions[s].state.WaitingTool? ==>
          db.batches[b].head == db.sessions[s].head && db.batches[b].count == db.sessions[s].count)
    && (forall c :: c in db.calls ==> c.batch in db.batches && db.calls[c].state == db.batches[c.batch].state)
  }

  lemma ToolLawOf(db: Db, s: Id)
    requires Batched(db.sessions, db.runs, db.batches) && Uniform(db.batches, db.calls) && s in db.sessions
    requires Numbered(db.sessions, db.batches, db.calls, db.supply)
    ensures ToolLaw(db, s)
  {
    if db.sessions[s].state.WaitingTool? {
      var p :| p in db.batches && db.batches[p].session == s && db.batches[p].head == db.sessions[s].head
               && db.batches[p].count == db.sessions[s].count && db.batches[p].state.Pending?;
      assert Awaited(db.runs, db.batches[p]);
    }
  }

  lemma ToolLawAlways(states: seq<Db>, ops: seq<Op>, i: nat, s: Id)
    requires IsRun(states, ops) && i < |states| && s in states[i].sessions
    ensures ToolLaw(states[i], s)
  {
    hide IsRun, Leased, Numbered, Rooted, Reserving, Batched, Uniform, ToolLaw;
    Reachable(states, ops, i);
    ToolLawOf(states[i], s);
  }

  // ---- settling and giving back ----

  /** The batch and its calls are the same rows in both states. */
  ghost predicate Intact(a: Db, b: Db, batch: Id) {
    && batch in a.batches && batch in b.batches && b.batches[batch] == a.batches[batch]
    && (forall c: CallKey | c.batch == batch :: c in a.calls <==> c in b.calls)
    && (forall c | c in a.calls && c.batch == batch :: c in b.calls && b.calls[c] == a.calls[c])
  }

  lemma IntactTwice(a: Db, m: Db, b: Db, batch: Id)
    requires Intact(a, m, batch) && Intact(m, b, batch)
    ensures Intact(a, b, batch)
  {
  }

  function Reopened(batch: ToolBatch): ToolBatch { batch.(state := Pending, settledBy := NONE, settledAt := 0.0) }

  function ReopenedCall(call: ToolCall): ToolCall { call.(state := Pending, result := NONE, settledAt := 0.0) }

  /** The batch was given back: pending again, every result forgotten. */
  ghost predicate GivenUp(a: Db, b: Db, batch: Id) {
    && batch in a.batches && batch in b.batches && b.batches[batch] == Reopened(a.batches[batch])
    && (forall c: CallKey | c.batch == batch :: c in a.calls <==> c in b.calls)
    && (forall c | c in a.calls && c.batch == batch :: c in b.calls && b.calls[c] == ReopenedCall(a.calls[c]))
  }

  lemma IntactGivenUp(a: Db, m: Db, b: Db, batch: Id)
    requires (Intact(a, m, batch) && GivenUp(m, b, batch)) || (GivenUp(a, m, batch) && Intact(m, b, batch))
    ensures GivenUp(a, b, batch)
  {
  }

  lemma UnsettledBy(db: Db, after: Db, ks: set<Id>, batch: Id)
    requires batch in db.batches && Uniform(db.batches, db.calls)
    requires after.batches == UnsettleBatches(db.batches, ks) && after.calls == UnsettleCalls(db.calls, db.batches, ks)
    ensures if SettledBy(db.batches[batch], ks) then GivenUp(db, after, batch) else Intact(db, after, batch)
  {
  }

  lemma AbandonGivesBack(db: Db, s: Id, batch: Id)
    requires Inv(db) && s in db.sessions && batch in db.batches
    ensures var after := AbandonOne(db, s);
            if SettledBy(db.batches[batch], ActiveRuns(db.runs, s)) then GivenUp(db, after, batch) else Intact(db, after, batch)
  {
    hide Leased, Numbered, Rooted, Reserving, Batched, Uniform, GivenUp, Intact;
    UnsettledBy(db, AbandonOne(db, s), ActiveRuns(db.runs, s), batch);
  }

  lemma OtherSession(db: Db, s: Id, k: Id)
    requires s in db.sessions && k in db.runs && db.runs[k].session != s
    ensures k !in ActiveRuns(db.runs, s)
    ensures var after := AbandonOne(db, s); k in after.runs && after.runs[k] == db.runs[k]
  {
  }

  lemma SameInBoth(db: Db, batch: Id)
    requires batch in db.batches
    ensures Intact(db, db, batch)
  {
  }

  lemma PendingNotSettled(b: ToolBatch, ks: set<Id>)
    requires b.state.Pending?
    ensures !SettledBy(b, ks)
  {
  }

  /** Sweeping leases leaves a pending batch alone. */
  lemma {:induction false} SweepLeavesPending(db: Db, rows: seq<Id>, batch: Id)
    requires Inv(db) && RunningRows(db, rows) && batch in db.batches && db.batches[batch].state.Pending?
    ensures Intact(db, AbandonAll(db, rows), batch)
    decreases |rows|
  {
    hide Inv, Evolves, AbandonOne, Intact;
    SameInBoth(db, batch);
    if rows != [] {
      var next := AbandonOne(db, rows[0]);
      PendingNotSettled(db.batches[batch], ActiveRuns(db.runs, rows[0]));
      AbandonGivesBack(db, rows[0], batch);
      AbandonOneKeeps(db, rows[0]);
      AbandonedRow(db, rows[0]);
      IntactState(db, next, batch);
      SweepLeavesPending(next, rows[1..], batch);
      IntactTwice(db, next, AbandonAll(db, rows), batch);
    }
  }

  lemma IntactState(a: Db, b: Db, batch: Id)
    requires Intact(a, b, batch)
    ensures batch in a.batches && batch in b.batches && b.batches[batch] == a.batches[batch]
  {
  }

  lemma GivenUpState(a: Db, b: Db, batch: Id)
    requires GivenUp(a, b, batch)
    ensures batch in b.batches && b.batches[batch].state.Pending?
  {
  }

  /** Sweeping a lease gives back what its run had settled. */
  lemma {:induction false} SweepGivesBack(db: Db, rows: seq<Id>, batch: Id, k: Id)
    requires Inv(db) && RunningRows(db, rows) && batch in db.batches && db.batches[batch].state.Settled?
    requires db.batches[batch].settledBy == k && k in db.runs && db.runs[k].status.Active? && db.runs[k].session in rows
    ensures GivenUp(db, AbandonAll(db, rows), batch)
    decreases |rows|
  {
    hide Inv, Evolves, AbandonOne, Intact, GivenUp;
    var next := AbandonOne(db, rows[0]);
    AbandonGivesBack(db, rows[0], batch);
    AbandonOneKeeps(db, rows[0]);
    AbandonedRow(db, rows[0]);
    if db.runs[k].session == rows[0] {
      assert k in ActiveRuns(db.runs, rows[0]);
      GivenUpState(db, next, batch);
      SweepLeavesPending(next, rows[1..], batch);
    } else {
      OtherSession(db, rows[0], k);
      IntactState(db, next, batch);
      SweepGivesBack(next, rows[1..], batch, k);
    }
    IntactGivenUp(db, next, AbandonAll(db, rows), batch);
  }

  /** The step ends the run without a head, giving its settled batches back. */
  ghost predicate Releases(db: Db, op: Op, k: Id) {
    && k in db.runs && db.runs[k].status.Active?
    && ((op.FailOp? && op.run == k && FailRun(db, k, op.lease, op.coded, op.canceled, op.now).result == Ok(true))
        || (op.AbandonOp? && LapsedRows(db, op.rows, op.now) && db.runs[k].session in op.rows))
  }

  lemma FailGivesBack(db: Db, k: Id, lease: Id, coded: bool, canceled: bool, now: real, batch: Id)
    requires Uniform(db.batches, db.calls) && FailRun(db, k, lease, coded, canceled, now).result == Ok(true)
    requires batch in db.batches && db.batches[batch].state.Settled? && db.batches[batch].settledBy == k
    ensures GivenUp(db, FailRun(db, k, lease, coded, canceled, now).db, batch)
  {
    hide Uniform, GivenUp, Intact, UnsettleCalls, UnsettleBatches;
    UnsettledBy(db, FailRun(db, k, lease, coded, canceled, now).db, {k}, batch);
  }

  lemma LapsedRun(db: Db, rows: seq<Id>, now: real)
    requires LapsedRows(db, rows, now)
    ensures RunningRows(db, rows)
  {
  }

  lemma UniformOf(db: Db)
    requires Inv(db)
    ensures Uniform(db.batches, db.calls)
  {
  }

  lemma ReleaseGivesBack(db: Db, op: Op, k: Id, batch: Id)
    requires Inv(db) && Releases(db, op, k)
    requires batch in db.batches && db.batches[batch].state.Settled? && db.batches[batch].settledBy == k
    ensures GivenUp(db, Step(db, op), batch)
  {
    hide Inv, GivenUp, FailRun, AbandonAll, LapsedRows, Uniform;
    UniformOf(db);
    if op.FailOp? {
      FailGivesBack(db, k, op.lease, op.coded, op.canceled, op.now, batch);
    } else {
      LapsedRun(db, op.rows, op.now);
      SweepGivesBack(db, op.rows, batch, k);
    }
  }

  /** Settled by this step. */
  ghost predicate Settles(db: Db, op: Op) {
    op.SettleOp? && Newest(db, op.run, op.batch)
    && Settle(db, op.run, op.lease, op.batch, op.results, op.schemas, op.now).result == Ok(false)
  }

  lemma SettleIsUndone(db: Db, op: Op, after: Db)
    requires Inv(db) && Settles(db, op) && after == Step(db, op)
    ensures op.batch in db.batches && op.batch in after.batches
    ensures after.batches[op.batch].state.Settled? && after.batches[op.batch].settledBy == op.run
    ensures Reopened(after.batches[op.batch]) == db.batches[op.batch]
    ensures forall c: CallKey | c.batch == op.batch :: c in after.calls <==> c in db.calls
    ensures forall c | c in after.calls && c.batch == op.batch :: c in db.calls && ReopenedCall(after.calls[c]) == db.calls[c]
  {
    hide Leased, Numbered, Rooted, Reserving, SchemasHold, SameResults, AnyAtParent;
  }

  lemma SettledStays(a: Db, b: Db, batch: Id)
    requires Inv(a) && Inv(b) && Evolves(a, b) && batch in a.batches && batch in b.batches
    requires a.batches[batch].state.Settled?
    requires var k := a.batches[batch].settledBy;
             (k in b.runs && b.runs[k].status.Active?) || (k in a.runs && !a.runs[k].status.Active?)
    ensures Intact(a, b, batch)
  {
    SameRowsOf(a, b, batch);
    hide Inv, Evolves;
  }

  lemma SameRowsOf(a: Db, b: Db, batch: Id)
    requires Rooted(b.sessions, b.runs, b.batches) && Numbered(b.sessions, b.batches, b.calls, b.supply)
    requires BatchesFresh(a.batches, b.batches, a.supply) && CallsAge(a.calls, b.calls, a.batches, b.batches)
    requires BatchesAge(a.batches, b.batches, a.runs, b.runs, b.sessions)
    requires batch in a.batches && batch in b.batches && a.batches[batch].state.Settled?
    requires var k := a.batches[batch].settledBy;
             (k in b.runs && b.runs[k].status.Active?) || (k in a.runs && !a.runs[k].status.Active?)
    ensures Intact(a, b, batch)
  {
    assert a.batches[batch].session in b.sessions;
    assert BatchAges(a.batches[batch], b.batches[batch], a.runs, b.runs);
  }

  /** Settling and then failing, or lapsing into the sweep, restores the batch and its calls exactly. */
  lemma SettleUndone(states: seq<Db>, ops: seq<Op>, i: nat, j: nat)
    requires IsRun(states, ops) && i < j < |ops| && Settles(states[i], ops[i])
    requires ops[i].batch in states[j].batches && Releases(states[j], ops[j], ops[i].run)
    ensures Intact(states[i], states[j + 1], ops[i].batch)
  {
    var b := ops[i].batch;
    assert states[i + 1] == Step(states[i], ops[i]) && states[j + 1] == Step(states[j], ops[j]);
    assert ops[j].FailOp? || ops[j].AbandonOp?;
    assert ops[i].run in states[j].runs && states[j].runs[ops[i].run].status.Active?;
    hide Inv, Evolves, Settles, Step, Init, Intact, GivenUp, Releases;
    Reachable(states, ops, i);
    SettleIsUndone(states[i], ops[i], states[i + 1]);
    Forward(states, ops, i + 1, j);
    SettledStays(states[i + 1], states[j], b);
    IntactState(states[i + 1], states[j], b);
    ReleaseGivesBack(states[j], ops[j], ops[i].run, b);
    IntactGivenUp(states[i + 1], states[j], states[j + 1], b);
    Undone(states[i], states[i + 1], states[j + 1], b);
  }

  lemma Undone(a: Db, m: Db, q: Db, batch: Id)
    requires batch in a.batches && batch in m.batches && Reopened(m.batches[batch]) == a.batches[batch]
    requires forall c: CallKey | c.batch == batch :: c in m.calls <==> c in a.calls
    requires forall c | c in m.calls && c.batch == batch :: c in a.calls && ReopenedCall(m.calls[c]) == a.calls[c]
    requires GivenUp(m, q, batch)
    ensures Intact(a, q, batch)
  {
  }

  /** A batch settled by a run that ended any other way stays settled for good. */
  lemma SettledForGood(states: seq<Db>, ops: seq<Op>, i: nat, j: nat, batch: Id)
    requires IsRun(states, ops) && i <= j < |states| && batch in states[i].batches && batch in states[j].batches
    requires states[i].batches[batch].state.Settled? && states[i].batches[batch].settledBy in states[i].runs
    requires !states[i].runs[states[i].batches[batch].settledBy].status.Active?
    ensures Intact(states[i], states[j], batch)
  {
    hide IsRun, Inv, Evolves, Intact;
    Forward(states, ops, i, j);
    SettledStays(states[i], states[j], batch);
  }

  lemma LapsedAcquire(db: Db, op: Op, batch: Id)
    requires Inv(db) && op.AcquireOp? && op.session in db.sessions && LeaseLapsed(db.sessions[op.session], op.now)
    requires Acquire(db, op.session, op.head, op.count, op.run, op.request, op.fingerprint, op.seconds, op.window, op.now)
             .result == Ok(Unavailable)
    requires batch in db.batches && db.batches[batch].session == op.session && db.batches[batch].state.Settled?
    ensures var after := Step(db, op);
            && batch in after.batches && after.batches[batch] == db.batches[batch]
            && after.batches[batch].settledBy in after.runs
            && !after.runs[after.batches[batch].settledBy].status.Active?
  {
    hide Leased, Numbered, Reserving, Uniform;
  }

  /** An acquire that finds the lease lapsed does not give results back: what the lost run had
      settled stays settled for good. */
  lemma LapsedAcquireKeepsSettled(states: seq<Db>, ops: seq<Op>, i: nat, j: nat, batch: Id)
    requires IsRun(states, ops) && i < j < |states| && ops[i].AcquireOp?
    requires var o := ops[i]; var db := states[i];
             o.session in db.sessions && LeaseLapsed(db.sessions[o.session], o.now)
             && Acquire(db, o.session, o.head, o.count, o.run, o.request, o.fingerprint, o.seconds, o.window, o.now).result
                == Ok(Unavailable)
    requires batch in states[i].batches && states[i].batches[batch].session == ops[i].session
    requires states[i].batches[batch].state.Settled? && batch in states[j].batches
    ensures states[j].batches[batch] == states[i].batches[batch]
  {
    assert states[i + 1] == Step(states[i], ops[i]);
    hide Inv, Evolves, Step, Init, Intact, Acquire, LeaseLapsed;
    Reachable(states, ops, i);
    LapsedAcquire(states[i], ops[i], batch);
    SettledForGood(states, ops, i + 1, j, batch);
    IntactState(states[i + 1], states[j], batch);
  }
}

/** Which steps give the results of a lost run back, and a run of the store in which they are not given back. */
module ApiLapse {
  import opened Basics
  import opened ApiTypes
  import opened ApiSessions
  import opened ApiInvariants
  import opened ApiSteps
  import opened ApiRuns
  import opened ApiTools

  // ---- which steps give results back ----

  /** Settled batches are as they were, and so are runs other than `ks`. */
  ghost predicate Spares(db: Db, after: Db, ks: set<Id>) {
    && (forall b :: b in db.batches && b in after.batches && db.batches[b].state.Settled? ==>
          after.batches[b] == db.batches[b])
    && (forall j :: j in db.runs && j in after.runs && j !in ks ==> after.runs[j] == db.runs[j])
  }

  lemma SparedHead(db: Db, s: Id, run: Id, fingerprint: Id, seconds: real, window: real, now: real)
    requires s in db.sessions && db.sessions[s].namespace.publication in db.publications
    ensures var after := AcquireHead(db, s, run, fingerprint, seconds, window, now).db;
            after.batches == db.batches && forall j :: j in db.runs ==> j in after.runs && after.runs[j] == db.runs[j]
  {
    hide LiveReservation, LiveRuns, Reserved, Purge;
  }

  lemma SparedLease(db: Db, s: Id, k: Id)
    requires s in db.sessions && k in db.runs && db.runs[k].session != s
    ensures var after := ExpireLease(db, s); after.batches == db.batches && k in after.runs && after.runs[k] == db.runs[k]
  {
  }

  lemma SparedAcquire(db: Db, op: Op, k: Id)
    requires op.AcquireOp? && k in db.runs && db.runs[k].session != op.session
    ensures var after := Step(db, op); after.batches == db.batches && k in after.runs && after.runs[k] == db.runs[k]
  {
    hide ExpireLease, AcquireHead, HasRetry, PendingAt;
    if op.session in db.sessions {
      SparedLease(db, op.session, k);
      if Admissible(db, db.sessions[op.session].namespace) {
        hide Admissible;
        SparedHead(db, op.session, op.run, op.fingerprint, op.seconds, op.window, op.now);
      }
    }
  }

  lemma AcquireBatches(db: Db, op: Op)
    requires op.AcquireOp?
    ensures Step(db, op).batches == db.batches
  {
    hide AcquireHead, HasRetry, PendingAt;
    if op.session in db.sessions && Admissible(db, db.sessions[op.session].namespace) {
      hide Admissible;
      SparedHead(db, op.session, op.run, op.fingerprint, op.seconds, op.window, op.now);
    }
  }

  lemma PublishedBatch(db: Db, k: Id, f: Final, rows: seq<ToolRow>, now: real)
    requires k in db.runs && db.runs[k].session in db.sessions && f.count >= 0
    ensures var after := Publish(db, k, f, rows, now).batches;
            after == db.batches || (db.supply in after && after == db.batches[db.supply := after[db.supply]])
  {
    hide WithRows, WithoutRun, StoreResponse, ExpiryOf;
  }

  lemma SparedFinalize(db: Db, op: Op)
    requires op.FinalizeOp? && Inv(db)
    ensures Spares(db, Step(db, op), {op.run})
  {
    hide Inv, HasPending, GoodRequests, GoodRecord, GoodPrefixes, Storable, Taken, Repeats, Rows, Publish, Spares, Owns;
    AllSpared(db, {op.run});
    if Finalize(db, op.run, op.lease, op.final, op.now).result == Ok(false) {
      LeaseFacts(db, op.run, op.lease);
      SparedPublish(db, op.run, op.final, Rows(op.final.requests, op.final.schemas), op.now);
    }
  }

  lemma AllSpared(db: Db, ks: set<Id>)
    ensures Spares(db, db, ks)
  {
  }

  lemma SparedPublish(db: Db, k: Id, f: Final, rows: seq<ToolRow>, now: real)
    requires Inv(db) && k in db.runs && db.runs[k].session in db.sessions && f.count >= 0
    ensures Spares(db, Publish(db, k, f, rows, now), {k})
  {
    BelowSupply(db);
    hide Inv, Publish;
    PublishedRows(db, k, f, rows, now);
    PublishedBatch(db, k, f, rows, now);
  }

  lemma BelowSupply(db: Db)
    requires Inv(db)
    ensures db.supply !in db.batches
  {
  }

  lemma SparedSettle(db: Db, op: Op)
    requires op.SettleOp?
    ensures Spares(db, Step(db, op), {}) && Step(db, op).runs == db.runs
  {
    hide SchemasHold, SameResults, AnyAtParent, SettleCalls, CallsOf, Newest;
  }

  lemma SparedDrop(db: Db, s: Id, removed: bool, now: real)
    ensures Spares(db, Drop(db, s), {}) && Drop(db, s).runs == RunsOutside(db.runs, s)
    ensures Spares(db, SweepDone(db, s, removed, now), {}) && Spares(db, DiscardEmpty(db, s), {})
  {
    hide CallsOutside, ResponsesOutside, Without, HasRun;
  }

  lemma SparedReset(db: Db, publication: Id, now: real)
    ensures Spares(db, Reset(db, publication, now).db, {})
  {
    hide WithdrawCalls, ExpireSessions, OldBatch;
  }

  /** A step that ends the run `k` without giving anything back is its own finalize or a lapsed acquire. */
  lemma OnlySparing(db: Db, op: Op, k: Id, batch: Id)
    requires Inv(db) && !op.FailOp? && !op.AbandonOp? && k in db.runs && db.runs[k].status.Active?
    requires var after := Step(db, op); k in after.runs && !after.runs[k].status.Active? && batch in after.batches
    requires batch in db.batches && db.batches[batch].state.Settled?
    ensures Step(db, op).batches[batch] == db.batches[batch]
    ensures (op.FinalizeOp? && op.run == k) || (op.AcquireOp? && op.session == db.runs[k].session)
  {
    hide Inv, Create, DiscardEmpty, QuarantineUnstarted, Acquire, Finalize, Settle, Heartbeat, SweepClaim, SweepDone, Reset,
      FindActive, Newest, SweepRows;
    match op
    case AcquireOp(_, _, _, _, _, _, _, _, _) =>
      AcquireBatches(db, op);
      if db.runs[k].session != op.session { SparedAcquire(db, op, k); }
    case FinalizeOp(_, _, _, _) => SparedFinalize(db, op);
    case SettleOp(_, _, _, _, _, _) => SparedSettle(db, op);
    case DiscardOp(s) => SparedDrop(db, s, false, 0.0);
    case SweptOp(s, removed, now) => SparedDrop(db, s, removed, now);
    case ResetOp(publication, now) => SparedReset(db, publication, now);
    case _ => Untouched(db, op);
  }

  lemma Untouched(db: Db, op: Op)
    requires op.ConfigureOp? || op.CreateOp? || op.QuarantineOp? || op.HeartbeatOp? || op.SweepOp? || op.ProbeOp?
    ensures Step(db, op).runs == db.runs && Step(db, op).batches == db.batches
  {
    hide Admissible, Retained, ConversationUsed, HasRun, Extend, SweepRows, Claimed, Purge, LiveReservation;
  }

  lemma {:induction false} NotSwept(db: Db, rows: seq<Id>, k: Id)
    requires k in db.runs && db.runs[k].session !in rows
    ensures k in AbandonAll(db, rows).runs && AbandonAll(db, rows).runs[k] == db.runs[k]
    decreases |rows|
  {
    hide AbandonOne;
    if rows != [] {
      assert rows[0] in rows && forall s :: s in rows[1..] ==> s in rows;
      if rows[0] in db.sessions {
        OtherSession(db, rows[0], k);
        NotSwept(AbandonOne(db, rows[0]), rows[1..], k);
      } else {
        NotSwept(db, rows[1..], k);
      }
    }
  }

  /** Ending a run by a failure or a sweep is releasing it. */
  lemma EndsByRelease(db: Db, op: Op, k: Id)
    requires (op.FailOp? || op.AbandonOp?) && k in db.runs && db.runs[k].status.Active?
    requires var after := Step(db, op); k in after.runs && !after.runs[k].status.Active?
    ensures Releases(db, op, k)
  {
    hide LapsedRows, AbandonAll, UnsettleCalls, UnsettleBatches, WithoutRun, Owns;
    if op.AbandonOp? && db.runs[k].session !in op.rows { NotSwept(db, op.rows, k); }
  }

  lemma SameBatchIntact(db: Db, after: Db, batch: Id)
    requires CallsAge(db.calls, after.calls, db.batches, after.batches)
    requires batch in db.batches && batch in after.batches && after.batches[batch] == db.batches[batch]
    ensures Intact(db, after, batch)
  {
  }

  lemma CallsAged(db: Db, after: Db)
    requires Evolves(db, after)
    ensures CallsAge(db.calls, after.calls, db.batches, after.batches)
  {
  }

  /** A step after which the run is no longer active. */
  ghost predicate EndsRun(db: Db, op: Op, k: Id) {
    && k in db.runs && db.runs[k].status.Active?
    && k in Step(db, op).runs && !Step(db, op).runs[k].status.Active?
  }

  /** When a run ends, the batch it had settled is given back exactly if the run failed or was swept. Otherwise the
      run finalized, or an acquire of its session found the lease lapsed, and the batch stays as it is. */
  lemma GivenBackIff(db: Db, op: Op, batch: Id, k: Id)
    requires Inv(db) && batch in db.batches && db.batches[batch].state.Settled? && db.batches[batch].settledBy == k
    requires EndsRun(db, op, k) && batch in Step(db, op).batches
    ensures GivenUp(db, Step(db, op), batch) <==> op.FailOp? || op.AbandonOp?
    ensures !GivenUp(db, Step(db, op), batch) ==>
              && Intact(db, Step(db, op), batch)
              && ((op.FinalizeOp? && op.run == k) || (op.AcquireOp? && op.session == db.runs[k].session))
  {
    hide Inv, Evolves, Step, GivenUp, Intact, Releases, CallsAge;
    var after := Step(db, op);
    if op.FailOp? || op.AbandonOp? {
      EndsByRelease(db, op, k);
      ReleaseGivesBack(db, op, k, batch);
    } else {
      OnlySparing(db, op, k, batch);
      StepKeeps(db, op);
      CallsAged(db, after);
      SameBatchIntact(db, after, batch);
      if GivenUp(db, after, batch) { GivenUpState(db, after, batch); }
    }
  }

  // ---- a run that loses its results ----

  const EMPTY := Db(map[], map[], map[], map[], map[], map[], map[], map[], 1)
  const NAMESPACE := Namespace(1, 1, 1, Profile(Chat, 1))
  const SESSION := Session(NAMESPACE, 1, 3, 0, Idle, NONE, 0.0, 100.0, 100.0)
  const PUBLISHED := Final(4, 1, [], NONE, NONE, None, [ToolRequest(1, 1, 1, true)], map[1 := 7])
  const BATCH := ToolBatch(1, 1, 4, 1, Pending, NONE, 1.0, 0.0)
  const CALL := ToolCall(0, 1, 1, 7, Pending, NONE, 0.0)

  /** Session 1 publishes a call with run 1; run 2 settles it and loses its lease. */
  function Lapse(): seq<Op> {
    [ConfigureOp(map[1 := Publication(true, 1, {Profile(Chat, 1)}, 1, 1, 100.0)], map[1 := 1]),
     CreateOp(NAMESPACE, 1, 3, 0, 0.0),
     AcquireOp(1, 3, 0, 1, 1, 1, 10.0, 10.0, 0.0),
     FinalizeOp(1, 2, PUBLISHED, 1.0),
     AcquireOp(1, 4, 1, 2, 1, 1, 10.0, 10.0, 2.0),
     SettleOp(2, 4, 3, Some(map[1 := 9]), map[1 := 7], 3.0),
     AcquireOp(1, 4, 1, 3, 1, 1, 10.0, 10.0, 20.0)]
  }

  /** The states the operations pass through from `db`. */
  ghost function StatesOf(db: Db, ops: seq<Op>): (states: seq<Db>)
    ensures |states| == |ops| + 1 && states[0] == db
    ensures forall i :: 0 <= i < |ops| ==> states[i + 1] == Step(states[i], ops[i])
    decreases |ops|
  {
    if ops == [] then [db]
    else
      var n := |ops| - 1;
      var before := StatesOf(db, ops[..n]);
      before + [Step(before[n], ops[n])]
  }

  /** The publication is open and the session's key has room for one run. */
  predicate Ready(db: Db) {
    db.publications == map[1 := Publication(true, 1, {Profile(Chat, 1)}, 1, 1, 100.0)] && db.keys == map[1 := 1]
  }

  lemma Prepared(db: Db)
    requires db == EMPTY
    ensures var ready := Step(Step(db, Lapse()[0]), Lapse()[1]);
            && Ready(ready) && ready.sessions == map[1 := SESSION] && ready.supply == 2
            && ready.runs == map[] && ready.admissions == map[] && ready.batches == map[] && ready.calls == map[]
  {
    assert Retained(map[], NAMESPACE, 0.0) == {};
  }

  lemma NoLiveRuns(sessions: Sessions, now: real)
    requires forall s :: s in sessions ==> !sessions[s].state.Running?
    ensures LiveRuns(sessions, NAMESPACE, now) == {}
  {
  }

  lemma FirstRun(db: Db, after: Db)
    requires Ready(db) && db.sessions == map[1 := SESSION] && db.supply == 2
    requires db.runs == map[] && db.admissions == map[] && db.batches == map[] && db.calls == map[]
    requires after == Step(db, Lapse()[2])
    ensures Ready(after) && after.supply == 3 && after.batches == map[] && after.calls == map[]
    ensures after.sessions == map[1 := SESSION.(state := SessionState.Running, lease := 2, deadline := 10.0)]
    ensures after.runs == map[1 := Run(1, 2, 3, 0, 1, Active, NONE, 10.0)]
    ensures WithoutRun(after.admissions, 1) == map[]
  {
    NoLiveRuns(db.sessions, 0.0);
    assert Purge(db.admissions, 0.0) == map[];
  }

  lemma FirstHead(db: Db, after: Db)
    requires Ready(db) && db.supply == 3 && db.batches == map[] && db.calls == map[]
    requires db.sessions == map[1 := SESSION.(state := SessionState.Running, lease := 2, deadline := 10.0)]
    requires db.runs == map[1 := Run(1, 2, 3, 0, 1, Active, NONE, 10.0)]
    requires after == Step(db, Lapse()[3])
    ensures Ready(after) && after.supply == 4 && after.runs.Keys == {1}
    ensures after.batches == map[3 := BATCH] && after.calls == map[CallKey(3, 1) := CALL]
    ensures after.sessions == map[1 := SESSION.(state := WaitingTool, head := 4, count := 1, expiresAt := 101.0)]
    ensures after.admissions == WithoutRun(db.admissions, 1)
  {
    var rows := Rows(PUBLISHED.requests, PUBLISHED.schemas);
    assert rows == [ToolRow(1, 1, 1, 7)];
    assert rows[..0] == [];
    assert WithRows(db.calls, 3, rows) == map[CallKey(3, 1) := CALL];
  }

  lemma SecondRun(db: Db, after: Db)
    requires Ready(db) && db.supply == 4 && db.runs.Keys == {1} && db.admissions == map[]
    requires db.batches == map[3 := BATCH] && db.calls == map[CallKey(3, 1) := CALL]
    requires db.sessions == map[1 := SESSION.(state := WaitingTool, head := 4, count := 1, expiresAt := 101.0)]
    requires after == Step(db, Lapse()[4])
    ensures after.batches == db.batches && after.calls == db.calls
    ensures 1 in after.sessions && after.sessions[1].state.Running? && after.sessions[1].lease == 4
    ensures after.sessions[1].deadline == 12.0
    ensures 2 in after.runs && after.runs[2] == Run(1, 4, 4, 1, 1, Active, NONE, 12.0)
  {
    assert 3 in db.batches && db.batches[3] == BATCH;
    NoLiveRuns(db.sessions, 2.0);
    assert Purge(db.admissions, 2.0) == map[];
  }

  lemma SettlementAccepted(db: Db)
    requires db.batches == map[3 := BATCH] && db.calls == map[CallKey(3, 1) := CALL]
    requires 1 in db.sessions && db.sessions[1].state.Running? && db.sessions[1].lease == 4
    requires 2 in db.runs && db.runs[2] == Run(1, 4, 4, 1, 1, Active, NONE, 12.0)
    ensures Newest(db, 2, 3) && AnyAtParent(db, 2) && Owns(db, 2, 4)
    ensures CallsOf(db.calls, 3) == map[1 := 9].Keys && SchemasHold(db.calls, 3, map[1 := 7])
  {
    assert 3 in db.batches && AtParent(db.batches[3], db.runs[2]);
    assert CallKey(3, 1) in db.calls;
    assert CallsOf(db.calls, 3) == {1};
  }

  lemma Settlement(db: Db, after: Db)
    requires db.batches == map[3 := BATCH] && db.calls == map[CallKey(3, 1) := CALL]
    requires 1 in db.sessions && db.sessions[1].state.Running? && db.sessions[1].lease == 4
    requires 2 in db.runs && db.runs[2] == Run(1, 4, 4, 1, 1, Active, NONE, 12.0)
    requires after == Step(db, Lapse()[5])
    ensures after.sessions == db.sessions && after.runs == db.runs && Results(after)
  {
    SettlementAccepted(db);
    SettledCall(db.calls);
    hide Newest, AnyAtParent, Owns, CallsOf, SchemasHold, SettleCalls, SameResults;
  }

  lemma SettledCall(calls: Calls)
    requires CallKey(3, 1) in calls && calls[CallKey(3, 1)] == CALL
    ensures var after := SettleCalls(calls, 3, map[1 := 9], 3.0);
            CallKey(3, 1) in after && after[CallKey(3, 1)].result == 9
  {
  }

  /** The batch is settled in the name of run 2, with its result. */
  ghost predicate Results(db: Db) {
    && 3 in db.batches && db.batches[3].state.Settled? && db.batches[3].settledBy == 2
    && CallKey(3, 1) in db.calls && db.calls[CallKey(3, 1)].result == 9
  }

  lemma LostLease(db: Db, after: Db)
    requires 1 in db.sessions && db.sessions[1].state.Running? && db.sessions[1].deadline == 12.0
    requires 2 in db.runs && db.runs[2].session == 1 && db.runs[2].status.Active?
    requires after == Step(db, Lapse()[6])
    ensures after.batches == db.batches && after.calls == db.calls
    ensures 1 in after.sessions && after.sessions[1].state.Quarantined?
    ensures 2 in after.runs && after.runs[2].status.Abandoned?
  {
  }

  /** Run 2 is active and has settled the batch. */
  ghost predicate Holding(db: Db) { Results(db) && 2 in db.runs && db.runs[2].status.Active? }

  /** Run 2 is abandoned and the batch is still settled in its name. */
  ghost predicate Lost(db: Db) { Results(db) && 2 in db.runs && db.runs[2].status.Abandoned? }

  /** Every operation succeeds; the last one ends run 2 and leaves the batch settled in its name. */
  lemma ResultsAreLost(states: seq<Db>)
    requires states == StatesOf(EMPTY, Lapse())
    ensures IsRun(states, Lapse()) && |states| == 8 && Holding(states[6]) && Lost(states[7])
  {
    hide Step, Lapse, WithoutRun;
    LapseLength();
    Prepared(states[0]);
    FirstRun(states[2], states[3]);
    FirstHead(states[3], states[4]);
    SecondRun(states[4], states[5]);
    Settlement(states[5], states[6]);
    LostLease(states[6], states[7]);
  }

  lemma LapseLength()
    ensures |Lapse()| == 7
  {
  }
}

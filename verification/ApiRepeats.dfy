/** A finalize repeated later: while the session stands at the head the call published, it is recognised. */
module ApiRepeats {
  import opened Basics
  import opened ApiTypes
  import opened ApiSessions
  import opened ApiInvariants
  import opened ApiSteps
  import opened ApiRuns

  // ---- stored responses stay ----

  /** Stored responses of surviving sessions are as they were. */
  ghost predicate Keeping(db: Db, after: Db) {
    forall k :: k in db.responses && db.responses[k].session in after.sessions ==>
      k in after.responses && after.responses[k] == db.responses[k]
  }

  lemma SameKept(db: Db, after: Db)
    requires after.responses == db.responses
    ensures Keeping(db, after)
  {
  }

  lemma DropKeeping(db: Db, s: Id)
    ensures Keeping(db, Drop(db, s))
  {
    hide RunsOutside, BatchesOutside, CallsOutside, Without;
  }

  lemma {:induction false} SweepStores(db: Db, rows: seq<Id>)
    ensures AbandonAll(db, rows).responses == db.responses
    decreases |rows|
  {
    if rows == [] {
    } else if rows[0] in db.sessions {
      SweepStores(AbandonOne(db, rows[0]), rows[1..]);
    } else {
      SweepStores(db, rows[1..]);
    }
  }

  lemma AcquireStores(db: Db, op: Op)
    requires op.AcquireOp?
    ensures Step(db, op).responses == db.responses
  {
    hide AcquireHead, HasRetry, PendingAt;
    if op.session in db.sessions && Admissible(db, db.sessions[op.session].namespace) {
      hide Admissible;
      HeadStores(db, op.session, op.run, op.fingerprint, op.seconds, op.window, op.now);
    }
  }

  lemma HeadStores(db: Db, s: Id, run: Id, fingerprint: Id, seconds: real, window: real, now: real)
    requires s in db.sessions && db.sessions[s].namespace.publication in db.publications
    ensures AcquireHead(db, s, run, fingerprint, seconds, window, now).db.responses == db.responses
  {
    hide LiveReservation, LiveRuns, Reserved, Purge;
  }

  lemma PublishedResponse(db: Db, k: Id, f: Final, rows: seq<ToolRow>, now: real)
    requires k in db.runs && db.runs[k].session in db.sessions && f.count >= 0
    ensures exists expiresAt :: Publish(db, k, f, rows, now).responses
                                == StoreResponse(db.responses, k, db.runs[k].session, f, expiresAt)
  {
    hide WithRows, WithoutRun, ExpiryOf;
    var expiresAt := ExpiryOf(db.publications, db.sessions[db.runs[k].session], now);
    assert Publish(db, k, f, rows, now).responses == StoreResponse(db.responses, k, db.runs[k].session, f, expiresAt);
  }

  lemma FinalizeKeeping(db: Db, op: Op)
    requires op.FinalizeOp?
    ensures Keeping(db, Step(db, op))
  {
    hide HasPending, GoodRequests, GoodRecord, GoodPrefixes, Storable, Repeats, Rows, Publish, Owns;
    if Finalize(db, op.run, op.lease, op.final, op.now).result == Ok(false) {
      LeaseFacts(db, op.run, op.lease);
      PublishedResponse(db, op.run, op.final, Rows(op.final.requests, op.final.schemas), op.now);
    }
  }

  lemma OtherStores(db: Db, op: Op)
    requires !op.AcquireOp? && !op.FinalizeOp? && !op.AbandonOp? && !op.DiscardOp? && !op.SweptOp?
    ensures Step(db, op).responses == db.responses
  {
    hide Admissible, Retained, ConversationUsed, HasRun, Extend, SweepRows, Claimed, Purge, LiveReservation, SchemasHold,
      SameResults, AnyAtParent, SettleCalls, CallsOf, Newest, UnsettleCalls, UnsettleBatches, WithoutRun, Owns,
      WithdrawCalls, WithdrawBatches, ExpireSessions;
  }

  lemma StepKeeping(db: Db, op: Op)
    ensures Keeping(db, Step(db, op))
  {
    hide Keeping, Drop, HasRun, LapsedRows, AbandonAll;
    match op
    case AcquireOp(_, _, _, _, _, _, _, _, _) => AcquireStores(db, op); SameKept(db, Step(db, op));
    case FinalizeOp(_, _, _, _) => FinalizeKeeping(db, op);
    case AbandonOp(rows, _) => SweepStores(db, rows); SameKept(db, Step(db, op));
    case DiscardOp(s) => DropKeeping(db, s); SameKept(db, db);
    case SweptOp(s, _, _) =>
      DropKeeping(db, s);
      if Step(db, op) != Drop(db, s) { SameKept(db, Step(db, op)); }
    case _ => OtherStores(db, op); SameKept(db, Step(db, op));
  }

  lemma Survives(a: Db, m: Db, b: Db, s: Id)
    requires Inv(a) && Inv(m) && Evolves(a, m) && Evolves(m, b) && s in a.sessions && s in b.sessions
    ensures s in m.sessions
  {
    hide Leased, Rooted, Reserving, Batched, Uniform, RunsAge, BatchesAge, BatchesFresh, CallsAge;
    Between(a, m, b);
  }

  lemma {:induction false} ResponseStays(states: seq<Db>, ops: seq<Op>, i: nat, j: nat, k: Id)
    requires IsRun(states, ops) && i <= j < |states| && k in states[i].responses
    requires states[i].responses[k].session in states[i].sessions && states[i].responses[k].session in states[j].sessions
    ensures k in states[j].responses && states[j].responses[k] == states[i].responses[k]
    decreases j - i
  {
    hide Inv, Step, Init, Evolves, Keeping;
    if i < j {
      Forward(states, ops, i, j - 1);
      Forward(states, ops, j - 1, j);
      Survives(states[i], states[j - 1], states[j], states[i].responses[k].session);
      ResponseStays(states, ops, i, j - 1, k);
      StepKeeping(states[j - 1], ops[j - 1]);
      KeptOne(states[j - 1], states[j], k);
    }
  }

  lemma KeptOne(db: Db, after: Db, k: Id)
    requires Keeping(db, after) && k in db.responses && db.responses[k].session in after.sessions
    ensures k in after.responses && after.responses[k] == db.responses[k]
  {
  }

  // ---- what a finalize leaves behind ----

  lemma {:induction false} RowsInserted(calls: Calls, b: Id, rows: seq<ToolRow>)
    requires forall c :: c in calls ==> c.batch != b
    requires forall i, j :: 0 <= i < j < |rows| ==> rows[i].call != rows[j].call
    ensures SameRows(WithRows(calls, b, rows), b, rows)
    decreases |rows|
  {
    if rows != [] {
      var n := |rows| - 1;
      RowsInserted(calls, b, rows[..n]);
      var before, after := WithRows(calls, b, rows[..n]), WithRows(calls, b, rows);
      forall c | c in after && c.batch == b ensures exists i :: 0 <= i < |rows| && rows[i].call == c.call {
        if c == CallKey(b, rows[n].call) {
          assert rows[n].call == c.call;
        } else {
          assert c in before;
          var i :| 0 <= i < n && rows[..n][i].call == c.call;
          assert rows[i].call == c.call;
        }
      }
      forall i | 0 <= i < |rows| ensures CallKey(b, rows[i].call) in after
        && after[CallKey(b, rows[i].call)]
           == (if i < n then before[CallKey(b, rows[i].call)] else after[CallKey(b, rows[n].call)])
      {
        if i < n { assert rows[..n][i] == rows[i]; }
      }
      forall i | 0 <= i < n ensures rows[..n][i] == rows[i] { }
    }
  }

  /** The published rows are in the tables: what a repeated call is compared with. */
  ghost predicate Published(db: Db, k: Id, f: Final, rows: seq<ToolRow>, s: Id, b: Id) {
    && k in db.runs && db.runs[k].session == s && db.runs[k].status.Completed? && db.runs[k].response == f.response
    && s in db.sessions && f.count >= 0
    && (rows != [] ==>
          b in db.batches && db.batches[b].run == k && db.batches[b].session == s && SameRows(db.calls, b, rows))
    && (f.record.Some? ==>
          k in db.responses && db.responses[k].session == s && SameResponse(db.responses[k], f, f.record.value))
  }

  lemma RowsDistinct(requests: seq<ToolRequest>, schemas: map<Id, Id>)
    requires GoodRequests(requests, schemas)
    ensures var rows := Rows(requests, schemas);
            forall i, j :: 0 <= i < j < |rows| ==> rows[i].call != rows[j].call
  {
  }

  lemma NoCallsYet(db: Db)
    requires Inv(db)
    ensures forall c :: c in db.calls ==> c.batch != db.supply
  {
  }

  lemma PublishedCalls(db: Db, k: Id, f: Final, rows: seq<ToolRow>, now: real)
    requires k in db.runs && db.runs[k].session in db.sessions && f.count >= 0 && rows != []
    ensures var after := Publish(db, k, f, rows, now);
            && db.supply in after.batches && after.batches[db.supply].run == k
            && after.batches[db.supply].session == db.runs[k].session && after.calls == WithRows(db.calls, db.supply, rows)
  {
    hide WithRows, WithoutRun, StoreResponse, ExpiryOf;
  }

  lemma PublishPublishes(db: Db, k: Id, f: Final, now: real)
    requires Inv(db) && k in db.runs && db.runs[k].session in db.sessions && f.count >= 0
    requires GoodRequests(f.requests, f.schemas)
    ensures var rows := Rows(f.requests, f.schemas);
            Published(Publish(db, k, f, rows, now), k, f, rows, db.runs[k].session, db.supply)
  {
    var rows := Rows(f.requests, f.schemas);
    RowsDistinct(f.requests, f.schemas);
    NoCallsYet(db);
    hide Inv, GoodRequests, Rows, WithRows, SameRows, Publish;
    PublishedRows(db, k, f, rows, now);
    PublishedResponse(db, k, f, rows, now);
    if rows != [] {
      PublishedCalls(db, k, f, rows, now);
      RowsInserted(db.calls, db.supply, rows);
    }
  }

  // ---- and what of it is still there ----

  lemma RowsStay(a: Db, b: Db, batch: Id, rows: seq<ToolRow>)
    requires CallsAge(a.calls, b.calls, a.batches, b.batches) && batch in a.batches && batch in b.batches
    requires SameRows(a.calls, batch, rows)
    ensures SameRows(b.calls, batch, rows)
  {
    forall i | 0 <= i < |rows| ensures CallKey(batch, rows[i].call) in b.calls {
      assert CallKey(batch, rows[i].call) in a.calls;
    }
  }

  lemma TablesStay(a: Db, b: Db, k: Id, f: Final, rows: seq<ToolRow>, s: Id, batch: Id)
    requires Evolves(a, b) && Published(a, k, f, rows, s, batch) && s in b.sessions
    requires f.record.Some? ==> k in b.responses && b.responses[k] == a.responses[k]
    ensures Published(b, k, f, rows, s, batch) && b.sessions[s].namespace == a.sessions[s].namespace
  {
    hide SameRows, SameResponse;
    if rows != [] {
      assert BatchAges(a.batches[batch], b.batches[batch], a.runs, b.runs);
      RowsStay(a, b, batch, rows);
    }
  }

  lemma OnlyBatch(db: Db, k: Id, b: Id)
    requires Inv(db) && b in db.batches && db.batches[b].run == k
    ensures HasBatch(db.batches, k) && BatchOf(db.batches, k) == b
  {
    assert HasBatch(db.batches, k);
    var c := BatchOf(db.batches, k);
    assert c in db.batches && db.batches[c].run == db.batches[b].run;
  }

  lemma Recognised(db: Db, k: Id, f: Final, rows: seq<ToolRow>, s: Id, b: Id)
    requires Inv(db) && Published(db, k, f, rows, s, b)
    ensures Repeats(db, k, f, rows) <==> db.sessions[s].head == f.head && db.sessions[s].count == f.count
  {
    hide Inv, SameRows, SameResponse;
    if rows != [] { OnlyBatch(db, k, b); }
  }

  /** The step is a successful first finalize. */
  ghost predicate Finished(db: Db, op: Op) {
    op.FinalizeOp? && Finalize(db, op.run, op.lease, op.final, op.now).result == Ok(false)
  }

  /** What the success of a finalize says about its arguments. */
  lemma FinishedFacts(db: Db, op: Op)
    requires Finished(db, op)
    ensures var k, f := op.run, op.final;
            && k != NONE && f.head != NONE && f.count >= 0 && GoodRequests(f.requests, f.schemas) && GoodRecord(f)
            && k in db.runs && db.runs[k].session in db.sessions
            && (f.record.Some? ==> Storable(db.sessions, db.runs[k].session))
            && Step(db, op) == Publish(db, k, f, Rows(f.requests, f.schemas), op.now)
  {
    hide HasPending, GoodRequests, GoodRecord, GoodPrefixes, Storable, Repeats, Rows, Publish, Taken;
  }

  lemma FinishedPublishes(db: Db, op: Op, after: Db)
    requires Inv(db) && Finished(db, op) && after == Step(db, op)
    ensures op.run in db.runs && GoodRequests(op.final.requests, op.final.schemas) && op.run != NONE
    ensures op.final.head != NONE && GoodRecord(op.final)
    ensures var s := db.runs[op.run].session; var rows := Rows(op.final.requests, op.final.schemas);
            && Published(after, op.run, op.final, rows, s, db.supply)
            && (op.final.record.Some? ==> Storable(after.sessions, s))
  {
    assert op.FinalizeOp?;
    hide Inv, Finished, GoodRequests, GoodRecord, Rows, Publish, Published, Step;
    FinishedFacts(db, op);
    PublishedRows(db, op.run, op.final, Rows(op.final.requests, op.final.schemas), op.now);
    PublishPublishes(db, op.run, op.final, op.now);
  }

  lemma RepeatAnswer(db: Db, k: Id, lease: Id, f: Final, now: real, s: Id, b: Id)
    requires Inv(db) && k != NONE && lease != NONE && f.head != NONE && GoodRequests(f.requests, f.schemas) && GoodRecord(f)
    requires Published(db, k, f, Rows(f.requests, f.schemas), s, b)
    requires f.record.Some? ==> Storable(db.sessions, s)
    ensures Finalize(db, k, lease, f, now)
            == Tx(db, if db.sessions[s].head == f.head && db.sessions[s].count == f.count then Ok(true) else Fail(LeaseLost))
  {
    hide Inv, GoodRequests, GoodRecord, Rows, Storable, Repeats, HasPending, GoodPrefixes, Taken, Publish, Owns;
    Recognised(db, k, f, Rows(f.requests, f.schemas), s, b);
  }

  /** Long after a finalize succeeded, and whoever settled or withdrew its tool calls since, the same call under any lease
      answers that it is a repeat exactly while its session still stands at the head it published. It is refused once the
      head moved on, and commits nothing either way. */
  lemma FinalizeRepeated(states: seq<Db>, ops: seq<Op>, i: nat, j: nat, lease: Id, now: real)
    requires IsRun(states, ops) && i < j < |states| && Finished(states[i], ops[i]) && ops[i].run in states[i].runs
    requires states[i].runs[ops[i].run].session in states[j].sessions && lease != NONE
    ensures var db, f := states[j], ops[i].final; var session := db.sessions[states[i].runs[ops[i].run].session];
            Finalize(db, ops[i].run, lease, f, now)
            == Tx(db, if session.head == f.head && session.count == f.count then Ok(true) else Fail(LeaseLost))
  {
    var k, f, s := ops[i].run, ops[i].final, states[i].runs[ops[i].run].session;
    var rows := Rows(f.requests, f.schemas);
    assert states[i + 1] == Step(states[i], ops[i]);
    hide Inv, Evolves, Step, Init, Finished, Finalize, GoodRequests, GoodRecord, Rows;
    Reachable(states, ops, i);
    FinishedPublishes(states[i], ops[i], states[i + 1]);
    Forward(states, ops, i + 1, j);
    if f.record.Some? { ResponseStays(states, ops, i + 1, j, k); }
    TablesStay(states[i + 1], states[j], k, f, rows, s, states[i].supply);
    hide Published;
    RepeatAnswer(states[j], k, lease, f, now, s, states[i].supply);
  }
}

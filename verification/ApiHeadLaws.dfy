/** Publishing a head and settling tool calls: what is answered and written, told from the arguments and the rows alone. */
module ApiHeadLaws {
  import opened Basics
  import opened ApiTypes
  import opened ApiSessions
  import opened ApiInvariants
  import opened ApiSessionLaws

  // ---- what a publication must look like ----

  /** Every tool request is named, of a tool the caller defined, with finite arguments, and requested once; at most 128. */
  ghost predicate Requestable(f: Final) {
    && |f.requests| <= 128
    && (forall i :: 0 <= i < |f.requests| ==>
          var q := f.requests[i]; q.call != NONE && q.tool != NONE && q.tool in f.schemas && q.finite)
    && (forall i, j :: 0 <= i < |f.requests| && 0 <= j < |f.requests| && f.requests[i].call == f.requests[j].call ==> i == j)
  }

  /** A response is stored under the id it carries, with one visible item for each item counted. */
  predicate Storeable(f: Final) {
    f.record.None?
    || (f.record.value.formed && f.response != NONE && f.record.value.id == f.response
        && |f.record.value.items| == f.count)
  }

  /** Prefixes are named, bounded by the head, and say what bounds them. */
  predicate Prefixed(f: Final) {
    forall i :: 0 <= i < |f.prefixes| ==>
      var p := f.prefixes[i]; p.hash != NONE && p.boundary != NONE && p.count > 0 && p.count <= f.count
  }

  /** The rows of the batch are the requests, in order, each under the schema its tool has. */
  ghost predicate CallsAre(calls: Calls, b: Id, f: Final) {
    && (forall i :: 0 <= i < |f.requests| ==>
          && CallKey(b, f.requests[i].call) in calls && f.requests[i].tool in f.schemas
          && var c := calls[CallKey(b, f.requests[i].call)];
             c.position == i && c.tool == f.requests[i].tool && c.arguments == f.requests[i].arguments
             && c.schema == f.schemas[f.requests[i].tool])
    && (forall c :: c in calls && c.batch == b ==> exists i :: 0 <= i < |f.requests| && f.requests[i].call == c.call)
  }

  /** What is stored of the response. */
  predicate Stores(stored: Stored, f: Final) {
    && f.record.Some? && f.count >= 0
    && stored.response == f.response && stored.previous == f.record.value.previous && stored.checkpoint == f.checkpoint
    && stored.head == f.head && stored.count == f.count && stored.items == f.record.value.items
    && stored.output == f.record.value.output && stored.envelope == f.record.value.envelope
  }

  // ---- finalize ----

  /** A completed run repeats its publication: the session still stands at its head, and calls, response id and stored
      response are the ones given. */
  ghost predicate Repeated(db: Db, k: Id, f: Final)
    requires k in db.runs
  {
    var run := db.runs[k];
    && run.session in db.sessions && db.sessions[run.session].head == f.head && db.sessions[run.session].count == f.count
    && (f.requests != [] ==> exists b :: b in db.batches && db.batches[b].run == k && CallsAre(db.calls, b, f))
    && (f.response != NONE ==> run.response == f.response)
    && (f.record.Some? ==> k in db.responses && Stores(db.responses[k], f))
  }

  /** When the session would end: its time to live from now if its generation is the publication's, at once if not. */
  ghost predicate EndsAt(db: Db, session: Session, now: real, expiresAt: real) {
    var ns := session.namespace;
    expiresAt == if ns.publication in db.publications && db.publications[ns.publication].generation == ns.generation
                 then now + session.ttl else now
  }

  /** The head is published, the lease released, the request freed; the response is stored and the calls wait, if any. */
  ghost predicate Publishes(db: Db, after: Db, k: Id, f: Final, now: real)
    requires k in db.runs && db.runs[k].session in db.sessions && f.count >= 0
  {
    var s := db.runs[k].session; var was := db.sessions[s]; var waits := f.requests != [];
    && s in after.sessions && EndsAt(db, was, now, after.sessions[s].expiresAt)
    && after == db.(sessions := after.sessions, runs := db.runs[k := db.runs[k].(status := Completed, response := f.response)],
                    admissions := after.admissions, batches := after.batches, calls := after.calls,
                    responses := after.responses, supply := after.supply)
    && after.sessions == db.sessions[s := was.(head := f.head, count := f.count, state := if waits then WaitingTool else Idle,
                                               lease := NONE, deadline := 0.0, expiresAt := after.sessions[s].expiresAt)]
    && Kept(db.admissions, after.admissions, a => a in db.admissions && db.admissions[a].run != k)
    && (if f.record.None? then after.responses == db.responses
        else
          && k in after.responses && after.responses == db.responses[k := after.responses[k]]
          && Stores(after.responses[k], f) && after.responses[k].session == s
          && after.responses[k].expiresAt == after.sessions[s].expiresAt)
    && (if !waits then after.batches == db.batches && after.calls == db.calls && after.supply == db.supply
        else
          && after.supply == db.supply + 1
          && after.batches == db.batches[db.supply := ToolBatch(k, s, f.head, f.count, ToolState.Pending, NONE, now, 0.0)]
          && Waits(db.calls, after.calls, db.supply, f))
  }

  /** One pending call for each request, at its place. */
  ghost predicate Waits(before: Calls, after: Calls, b: Id, f: Final) {
    && (forall c :: c in before && c.batch != b ==> c in after && after[c] == before[c])
    && (forall c :: c in after && c.batch != b ==> c in before)
    && CallsAre(after, b, f)
    && (forall c :: c in after && c.batch == b ==>
          after[c].state == ToolState.Pending && after[c].result == NONE && after[c].settledAt == 0.0)
  }

  ghost predicate FinalizesAs(db: Db, k: Id, lease: Id, f: Final, now: real, r: Tx<bool>)
    requires k in db.runs
  {
    var run := db.runs[k];
    if f.record.Some? && !(run.session in db.sessions && db.sessions[run.session].namespace.profile.dialect == Responses) then
      r == Tx(db, Fail(Invalid))
    else if run.status == Completed then r == Tx(db, if Repeated(db, k, f) then Ok(true) else Fail(LeaseLost))
    else if !LeaseIsOwn(db, k, lease) then r == Tx(db, Fail(LeaseLost))
    else if f.count < run.parentCount || !Prefixed(f)
            || (f.requests != []
                && exists b :: b in db.batches && db.batches[b].session == run.session
                               && db.batches[b].state == ToolState.Pending)
    then r == Tx(db, Fail(Invalid))
    else if f.record.Some? && (k in db.responses || exists j :: j in db.responses && db.responses[j].response == f.response)
    then r == Tx(db, Fail(Conflict))
    else r.result == Ok(false) && Publishes(db, r.db, k, f, now)
  }

  lemma RowsAre(f: Final)
    requires GoodRequests(f.requests, f.schemas)
    ensures var rows := Rows(f.requests, f.schemas);
            && |rows| == |f.requests| && (rows == [] <==> f.requests == [])
            && (forall i :: 0 <= i < |rows| ==>
                  f.requests[i].tool in f.schemas
                  && rows[i] == ToolRow(f.requests[i].call, f.requests[i].tool, f.requests[i].arguments,
                                        f.schemas[f.requests[i].tool]))
            && (forall i, j :: 0 <= i < j < |rows| ==> rows[i].call != rows[j].call)
  {
  }

  lemma CallsAreSame(calls: Calls, b: Id, f: Final)
    requires GoodRequests(f.requests, f.schemas)
    ensures SameRows(calls, b, Rows(f.requests, f.schemas)) <==> CallsAre(calls, b, f)
  {
    RowsAre(f);
    var rows := Rows(f.requests, f.schemas);
    forall c | c in calls && c.batch == b
      ensures (exists i :: 0 <= i < |rows| && rows[i].call == c.call)
              <==> exists i :: 0 <= i < |f.requests| && f.requests[i].call == c.call
    {
      if i :| 0 <= i < |f.requests| && f.requests[i].call == c.call { assert rows[i].call == c.call; }
      if i :| 0 <= i < |rows| && rows[i].call == c.call { assert f.requests[i].call == c.call; }
    }
    hide Rows;
  }

  lemma OneBatchOf(db: Db, a: Id, b: Id)
    requires Inv(db) && a in db.batches && b in db.batches && db.batches[a].run == db.batches[b].run
    ensures a == b
  {
  }

  lemma RepeatedIs(db: Db, k: Id, f: Final)
    requires Inv(db) && k in db.runs && GoodRequests(f.requests, f.schemas)
    ensures Repeats(db, k, f, Rows(f.requests, f.schemas)) <==> Repeated(db, k, f)
  {
    RowsAre(f);
    var rows := Rows(f.requests, f.schemas);
    forall b | b in db.batches && db.batches[b].run == k
      ensures HasBatch(db.batches, k) && BatchOf(db.batches, k) == b
    {
      assert HasBatch(db.batches, k);
      OneBatchOf(db, b, BatchOf(db.batches, k));
    }
    if HasBatch(db.batches, k) { CallsAreSame(db.calls, BatchOf(db.batches, k), f); }
    hide Inv, Rows, SameRows, CallsAre, GoodRequests;
  }

  lemma {:induction false} WaitsIs(calls: Calls, b: Id, rows: seq<ToolRow>)
    requires forall i, j :: 0 <= i < j < |rows| ==> rows[i].call != rows[j].call
    requires forall c :: c in calls ==> c.batch != b
    ensures var after := WithRows(calls, b, rows);
            && (forall c :: c in calls ==> c in after && after[c] == calls[c])
            && (forall c :: c in after && c.batch != b ==> c in calls)
            && (forall i :: 0 <= i < |rows| ==>
                  CallKey(b, rows[i].call) in after
                  && after[CallKey(b, rows[i].call)]
                     == ToolCall(i, rows[i].tool, rows[i].arguments, rows[i].schema, ToolState.Pending, NONE, 0.0))
            && (forall c :: c in after && c.batch == b ==> exists i :: 0 <= i < |rows| && rows[i].call == c.call)
    decreases |rows|
  {
    if rows != [] {
      var n := |rows| - 1;
      var front := rows[..n];
      WaitsIs(calls, b, front);
      var before, after := WithRows(calls, b, front), WithRows(calls, b, rows);
      forall i | 0 <= i < |rows| ensures CallKey(b, rows[i].call) in after
        && after[CallKey(b, rows[i].call)]
           == ToolCall(i, rows[i].tool, rows[i].arguments, rows[i].schema, ToolState.Pending, NONE, 0.0)
      {
        if i < n { assert front[i] == rows[i]; }
      }
      forall c | c in after && c.batch == b ensures exists i :: 0 <= i < |rows| && rows[i].call == c.call {
        if c != CallKey(b, rows[n].call) {
          var i :| 0 <= i < n && front[i].call == c.call;
          assert rows[i].call == c.call;
        } else {
          assert rows[n].call == c.call;
        }
      }
    }
  }

  lemma WaitsAre(after: Calls, b: Id, f: Final, rows: seq<ToolRow>)
    requires |rows| == |f.requests|
    requires forall i :: 0 <= i < |rows| ==>
               f.requests[i].tool in f.schemas
               && rows[i] == ToolRow(f.requests[i].call, f.requests[i].tool, f.requests[i].arguments,
                                     f.schemas[f.requests[i].tool])
    requires forall i :: 0 <= i < |rows| ==>
               CallKey(b, rows[i].call) in after
               && after[CallKey(b, rows[i].call)]
                  == ToolCall(i, rows[i].tool, rows[i].arguments, rows[i].schema, ToolState.Pending, NONE, 0.0)
    requires forall c :: c in after && c.batch == b ==> exists i :: 0 <= i < |rows| && rows[i].call == c.call
    ensures CallsAre(after, b, f)
    ensures forall c :: c in after && c.batch == b ==>
              after[c].state == ToolState.Pending && after[c].result == NONE && after[c].settledAt == 0.0
  {
    forall c | c in after && c.batch == b
      ensures exists i :: 0 <= i < |f.requests| && f.requests[i].call == c.call
      ensures after[c].state == ToolState.Pending && after[c].result == NONE && after[c].settledAt == 0.0
    {
      var i :| 0 <= i < |rows| && rows[i].call == c.call;
      assert c == CallKey(b, rows[i].call) && f.requests[i].call == c.call;
    }
  }

  lemma WaitsFor(db: Db, f: Final)
    requires Inv(db) && GoodRequests(f.requests, f.schemas)
    ensures Waits(db.calls, WithRows(db.calls, db.supply, Rows(f.requests, f.schemas)), db.supply, f)
  {
    hide Inv, Rows, GoodRequests, WithRows, CallsAre;
    RowsAre(f);
    NoneYet(db);
    var rows := Rows(f.requests, f.schemas);
    WaitsIs(db.calls, db.supply, rows);
    WaitsAre(WithRows(db.calls, db.supply, rows), db.supply, f, rows);
  }

  lemma NoneYet(db: Db)
    requires Inv(db)
    ensures forall c :: c in db.calls ==> c.batch != db.supply
  {
  }

  lemma ResponseIs(db: Db, k: Id, s: Id, f: Final, expiresAt: real)
    requires f.count >= 0
    ensures var after := StoreResponse(db.responses, k, s, f, expiresAt);
            if f.record.None? then after == db.responses
            else k in after && after == db.responses[k := after[k]] && Stores(after[k], f)
                 && after[k].session == s && after[k].expiresAt == expiresAt
  {
  }

  lemma ExpiryIs(db: Db, session: Session, now: real)
    ensures EndsAt(db, session, now, ExpiryOf(db.publications, session, now))
  {
  }

  lemma PublishesIs(db: Db, k: Id, f: Final, now: real)
    requires Inv(db) && k in db.runs && db.runs[k].session in db.sessions && f.count >= 0
    requires GoodRequests(f.requests, f.schemas)
    ensures Publishes(db, Publish(db, k, f, Rows(f.requests, f.schemas), now), k, f, now)
  {
    RowsAre(f);
    WaitsFor(db, f);
    KeptOthers(db, k);
    var s := db.runs[k].session;
    var expiresAt := ExpiryOf(db.publications, db.sessions[s], now);
    ExpiryIs(db, db.sessions[s], now);
    ResponseIs(db, k, s, f, expiresAt);
    hide Inv, Rows, WithRows, Waits, Kept, WithoutRun, GoodRequests, StoreResponse, Stores, EndsAt, ExpiryOf;
  }

  lemma RequestableIs(f: Final)
    ensures GoodRequests(f.requests, f.schemas) <==> Requestable(f)
  {
  }

  lemma OwnsIs(db: Db, k: Id, lease: Id)
    ensures k in db.runs && Owns(db, k, lease) <==> LeaseIsOwn(db, k, lease)
  {
  }

  lemma PrefixedIs(f: Final)
    ensures GoodPrefixes(f.prefixes, f.count) <==> Prefixed(f)
  {
  }

  lemma PendingIs(db: Db, s: Id)
    ensures HasPending(db.batches, s)
            <==> exists b :: b in db.batches && db.batches[b].session == s && db.batches[b].state == ToolState.Pending
  {
  }

  lemma FinalizesKnown(db: Db, k: Id, lease: Id, f: Final, now: real)
    requires Inv(db) && k in db.runs && k != NONE && lease != NONE && f.head != NONE
    requires GoodRequests(f.requests, f.schemas) && GoodRecord(f)
    ensures FinalizesAs(db, k, lease, f, now, Finalize(db, k, lease, f, now))
  {
    RowsAre(f);
    var rows := Rows(f.requests, f.schemas);
    RepeatedIs(db, k, f);
    OwnsIs(db, k, lease);
    PrefixedIs(f);
    PendingIs(db, db.runs[k].session);
    if Owns(db, k, lease) && f.count >= db.runs[k].parentCount {
      OwnedHasSession(db, k, lease);
      PublishesIs(db, k, f, now);
    }
    hide Inv, Rows, Repeats, Repeated, Publish, Publishes, GoodRequests, GoodRecord, Owns, LeaseIsOwn, GoodPrefixes, Prefixed;
    hide HasPending;
  }

  lemma OwnedHasSession(db: Db, k: Id, lease: Id)
    requires k in db.runs && Owns(db, k, lease)
    ensures db.runs[k].session in db.sessions
  {
  }

  lemma FinalizeLaw(db: Db, k: Id, lease: Id, f: Final, now: real)
    requires Inv(db)
    ensures var r := Finalize(db, k, lease, f, now);
            if k == NONE || lease == NONE || f.head == NONE || !Requestable(f) || !Storeable(f) || k !in db.runs then
              r == Tx(db, Fail(Invalid))
            else FinalizesAs(db, k, lease, f, now, r)
  {
    RequestableIs(f);
    hide Inv, Requestable, GoodRequests, FinalizesAs;
    if k in db.runs && k != NONE && lease != NONE && f.head != NONE && Requestable(f) && Storeable(f) {
      FinalizesKnown(db, k, lease, f, now);
    }
  }

  // ---- settle ----

  /** The batch at the head the run builds on, none of the others there made later. */
  ghost predicate AtHead(db: Db, b: Id, k: Id) {
    && k in db.runs && b in db.batches && db.batches[b].session == db.runs[k].session
    && db.batches[b].head == db.runs[k].parentHead && db.batches[b].count == db.runs[k].parentCount
  }

  lemma NewestLaw(db: Db, k: Id, b: Id)
    ensures Newest(db, k, b) <==>
              AtHead(db, b, k) && forall x :: AtHead(db, x, k) ==> db.batches[x].createdAt <= db.batches[b].createdAt
  {
  }

  /** There is one result for each call of the batch and no other. */
  ghost predicate Answers(db: Db, b: Id, results: map<Id, Id>) {
    forall c :: c in results <==> CallKey(b, c) in db.calls
  }

  /** Every tool of the batch is still defined as it was when it was called. */
  ghost predicate Unchanged(db: Db, b: Id, schemas: map<Id, Id>) {
    forall c :: CallKey(b, c) in db.calls ==>
      var call := db.calls[CallKey(b, c)]; call.tool in schemas && schemas[call.tool] == call.schema
  }

  /** Settling the batch at the head under the lease: results for exactly its calls settle it in the run's name; the same
      results again are a repeat, and anything else is refused. */
  ghost predicate SettlesAs(db: Db, k: Id, lease: Id, b: Id, results: map<Id, Id>, schemas: map<Id, Id>, now: real,
                            r: Tx<bool>)
    requires b in db.batches
  {
    var batch := db.batches[b];
    if !LeaseIsOwn(db, k, lease) then r == Tx(db, Fail(LeaseLost))
    else if !Answers(db, b, results) || !Unchanged(db, b, schemas) then r == Tx(db, Fail(Invalid))
    else if batch.state == ToolState.Pending then
      && r.result == Ok(false)
      && r.db == db.(calls := r.db.calls,
                     batches := db.batches[b := batch.(state := ToolState.Settled, settledBy := k, settledAt := now)])
      && r.db.calls.Keys == db.calls.Keys
      && (forall c :: c in db.calls ==>
            r.db.calls[c] == if c.batch == b && c.call in results
                             then db.calls[c].(state := ToolState.Settled, result := results[c.call], settledAt := now)
                             else db.calls[c])
    else
      && r.db == db
      && r.result == if batch.state == ToolState.Settled && batch.settledBy == k
                        && (forall c :: CallKey(b, c) in db.calls && c in results ==>
                              db.calls[CallKey(b, c)].result == results[c])
                     then Ok(true) else Fail(Invalid)
  }

  lemma AnswersIs(db: Db, b: Id, results: map<Id, Id>)
    ensures results.Keys == CallsOf(db.calls, b) <==> Answers(db, b, results)
  {
    forall c ensures c in CallsOf(db.calls, b) <==> CallKey(b, c) in db.calls {
      if CallKey(b, c) in db.calls { assert CallKey(b, c).call == c; }
      if c in CallsOf(db.calls, b) {
        var x :| x in db.calls && x.batch == b && x.call == c;
        assert x == CallKey(b, c);
      }
    }
    hide CallsOf;
  }

  lemma UnchangedIs(db: Db, b: Id, schemas: map<Id, Id>, results: map<Id, Id>)
    ensures SchemasHold(db.calls, b, schemas) <==> Unchanged(db, b, schemas)
    ensures SameResults(db.calls, b, results) <==>
              forall c :: CallKey(b, c) in db.calls && c in results ==> db.calls[CallKey(b, c)].result == results[c]
  {
    forall x | x in db.calls && x.batch == b ensures x == CallKey(b, x.call) {
    }
  }

  lemma SettledCalls(db: Db, b: Id, results: map<Id, Id>, now: real)
    requires Inv(db) && b in db.batches && db.batches[b].state == ToolState.Pending
    ensures var after := SettleCalls(db.calls, b, results, now);
            && after.Keys == db.calls.Keys
            && (forall c :: c in db.calls ==>
                  after[c] == if c.batch == b && c.call in results
                              then db.calls[c].(state := ToolState.Settled, result := results[c.call], settledAt := now)
                              else db.calls[c])
  {
    hide Inv;
    SameState(db);
  }

  lemma NewestIsAtParent(db: Db, k: Id, b: Id)
    requires Newest(db, k, b)
    ensures AnyAtParent(db, k) && k in db.runs && b in db.batches
  {
  }

  lemma SettleLaw(db: Db, k: Id, lease: Id, b: Id, results: Option<map<Id, Id>>, schemas: map<Id, Id>, now: real)
    requires Inv(db) && Newest(db, k, b)
    ensures var r := Settle(db, k, lease, b, results, schemas, now);
            if k == NONE || lease == NONE || results == None then r == Tx(db, Fail(Invalid))
            else b in db.batches && SettlesAs(db, k, lease, b, results.value, schemas, now, r)
  {
    hide Inv, CallsOf, SchemasHold, SameResults, Answers, Unchanged, SettleCalls, Owns, LeaseIsOwn, Newest, AnyAtParent;
    NewestIsAtParent(db, k, b);
    OwnsIs(db, k, lease);
    if results.Some? {
      AnswersIs(db, b, results.value);
      UnchangedIs(db, b, schemas, results.value);
      if db.batches[b].state.Pending? { SettledCalls(db, b, results.value, now); }
    }
  }

  lemma SameState(db: Db)
    requires Inv(db)
    ensures forall c :: c in db.calls && c.batch in db.batches ==> db.calls[c].state == db.batches[c.batch].state
  {
  }

  /** Without a batch at the head nothing is settled. */
  lemma SettleNothing(db: Db, k: Id, lease: Id, b: Id, results: Option<map<Id, Id>>, schemas: map<Id, Id>, now: real)
    requires forall x :: !AtHead(db, x, k)
    ensures var r := Settle(db, k, lease, b, results, schemas, now);
            r == Tx(db, Fail(if k == NONE || lease == NONE || results == None || k !in db.runs || LeaseIsOwn(db, k, lease)
                             then Invalid else LeaseLost))
  {
    assert !AnyAtParent(db, k) by {
      forall x | k in db.runs && x in db.batches ensures !AtParent(db.batches[x], db.runs[k]) {
        assert !AtHead(db, x, k);
      }
    }
  }
}

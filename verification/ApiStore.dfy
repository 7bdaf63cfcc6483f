/** The session store itself: one field per table, one method per transaction, updated in place. Each
    method is proved to commit exactly what the transaction function of the same name says. */
module ApiStore {
  import opened Basics
  import opened ApiTypes
  import opened ApiInvariants
  import opened ApiSteps
  import S = ApiSessions

  class Store {
    var publications: map<Id, Publication>
    var keys: map<Id, Id>
    var sessions: map<Id, Session>
    var runs: map<Id, Run>
    var admissions: map<AdmissionKey, Reservation>
    var batches: map<Id, ToolBatch>
    var calls: map<CallKey, ToolCall>
    var responses: map<Id, Stored>
    var supply: nat

    function Snapshot(): Db
      reads this
    {
      Db(publications, keys, sessions, runs, admissions, batches, calls, responses, supply)
    }

    ghost predicate Valid()
      reads this
    {
      Inv(Snapshot())
    }

    /** The transaction committed and was answered as specified. */
    ghost predicate Did<X>(tx: Tx<X>, r: Result<X>)
      reads this
    {
      Snapshot() == tx.db && r == tx.result
    }

    constructor (publications: map<Id, Publication>, keys: map<Id, Id>)
      ensures Valid() && Init(Snapshot()) && this.publications == publications && this.keys == keys
    {
      this.publications, this.keys := publications, keys;
      sessions, runs, admissions, batches, calls := map[], map[], map[], map[], map[];
      responses, supply := map[], 1;
      new;
      InitHolds(Snapshot());
    }

    // ---- sessions ----

    method CreateSession(ns: Namespace, conversation: Id, head: Id, count: int, now: real) returns (r: Result<Id>)
      requires Valid()
      modifies `sessions, `supply
      ensures Valid() && Did(S.Create(old(Snapshot()), ns, conversation, head, count, now), r)
    {
      hide Inv, Evolves, S.ConversationUsed, S.Retained;
      CreateKeeps(Snapshot(), ns, conversation, head, count, now);
      if conversation == NONE || count < 0 || !S.Admissible(Snapshot(), ns) { return Fail(Invalid); }
      var p := publications[ns.publication];
      if p.maxSessions < 1 || |S.Retained(sessions, ns, now)| >= p.maxSessions { return Fail(SessionQuota); }
      if S.ConversationUsed(sessions, conversation) { return Fail(Conflict); }
      r := Ok(supply);
      sessions := sessions[supply := Session(ns, conversation, head, count, Idle, NONE, 0.0, p.ttl, now + p.ttl)];
      supply := supply + 1;
    }

    /** Delete the session row; its dependent rows cascade. */
    method DropSession(s: Id)
      modifies `sessions, `runs, `admissions, `batches, `calls, `responses
      ensures Snapshot() == S.Drop(old(Snapshot()), s)
    {
      hide S.CallsOutside, S.BatchesOutside, S.RunsOutside, S.Without, S.ResponsesOutside;
      calls := S.CallsOutside(calls, batches, s);
      batches := S.BatchesOutside(batches, s);
      responses := S.ResponsesOutside(responses, s);
      runs := S.RunsOutside(runs, s);
      admissions := S.Without(admissions, s);
      sessions := sessions - {s};
    }

    method DiscardEmpty(s: Id) returns (discarded: bool)
      requires Valid()
      modifies `sessions, `runs, `admissions, `batches, `calls, `responses
      ensures Valid() && Snapshot() == S.DiscardEmpty(old(Snapshot()), s)
      ensures discarded <==> s in old(sessions) && s !in sessions
    {
      hide Inv, Evolves, S.HasRun;
      DiscardEmptyKeeps(Snapshot(), s);
      Gone(Snapshot(), s);
      if s in sessions && sessions[s].state.Idle? && !S.HasRun(runs, s) {
        hide S.Drop;
        DropSession(s);
        return true;
      }
      discarded := false;
    }

    method QuarantineUnstarted(s: Id, now: real) returns (moved: bool)
      requires Valid()
      modifies `sessions
      ensures Valid() && Snapshot() == S.QuarantineUnstarted(old(Snapshot()), s, now)
      ensures moved <==> s in old(sessions) && old(sessions)[s].state.Idle? && !S.HasRun(old(runs), s)
    {
      hide Inv, Evolves, S.HasRun;
      QuarantineUnstartedKeeps(Snapshot(), s, now);
      if s in sessions && sessions[s].state.Idle? && !S.HasRun(runs, s) {
        sessions := sessions[s := sessions[s].(state := Quarantined, expiresAt := Min(sessions[s].expiresAt, now))];
        return true;
      }
      moved := false;
    }

    // ---- acquire ----

    /** SELECT of the session's active run that this request retries. */
    method FindRetry(s: Id, head: Id, count: int, fingerprint: Id, now: real) returns (found: Option<Id>)
      requires Valid()
      ensures found.Some? <==> S.HasRetry(runs, s, head, count, fingerprint, now)
      ensures found.Some? ==> found.value in runs && found.value == S.RetryOf(runs, s, head, count, fingerprint, now)
    {
      hide Inv;
      if k :| k in runs && S.Retries(runs[k], s, head, count, fingerprint, now) {
        OneActive(Snapshot(), k, S.RetryOf(runs, s, head, count, fingerprint, now));
        return Some(k);
      }
      return None;
    }

    method Acquire(s: Id, head: Id, count: int, run: Id, request: Id, fingerprint: Id, seconds: real, window: real,
                   now: real) returns (r: Result<S.Answer>)
      requires Valid()
      modifies `sessions, `runs, `admissions, `supply
      ensures Valid()
      ensures Did(S.Acquire(old(Snapshot()), s, head, count, run, request, fingerprint, seconds, window, now), r)
    {
      hide Inv, Evolves, S.AcquireHead, S.PendingAt, S.HasRetry, S.Abandon, S.Without;
      AcquireKeeps(Snapshot(), s, head, count, run, request, fingerprint, seconds, window, now);
      if s == NONE || run == NONE || request == NONE || fingerprint == NONE || seconds <= 0.0 || window < 0.0 {
        return Fail(Invalid);
      }
      if s !in sessions { return Ok(S.NotFound); }
      var session := sessions[s];
      if session.state.Running? {
        if session.deadline <= now {
          runs := S.Abandon(runs, s);
          sessions := sessions[s := session.(state := Quarantined, lease := NONE, deadline := 0.0)];
          admissions := S.Without(admissions, s);
          return Ok(S.Unavailable);
        }
        var retry := FindRetry(s, head, count, fingerprint, now);
        return Ok(if retry.Some? then S.Attached(s, retry.value, runs[retry.value].lease) else S.Busy);
      }
      if !session.state.Idle? && !session.state.WaitingTool? { return Ok(S.Unavailable); }
      if session.state.Idle? && session.expiresAt <= now {
        sessions := sessions[s := session.(state := Expired)];
        return Ok(S.SessionExpired);
      }
      if session.head != head || session.count != count { return Ok(S.Stale); }
      if session.state.WaitingTool? && !S.PendingAt(batches, s, head, count) { return Ok(S.Unavailable); }
      if !S.Admissible(Snapshot(), session.namespace) { return Fail(Invalid); }
      r := AcquireHead(s, run, fingerprint, seconds, window, now);
    }

    /** Deduplicate across sessions, check the quota, then reserve the key and start the run. */
    method AcquireHead(s: Id, run: Id, fingerprint: Id, seconds: real, window: real, now: real)
      returns (r: Result<S.Answer>)
      requires s in sessions && sessions[s].namespace.publication in publications
      modifies `sessions, `runs, `admissions, `supply
      ensures Did(S.AcquireHead(old(Snapshot()), s, run, fingerprint, seconds, window, now), r)
    {
      hide S.LiveReservation, S.LiveRuns, S.Reserved, S.Purge;
      var session := sessions[s];
      var key := AdmissionKey(session.namespace, session.head, session.count, fingerprint);
      var live := S.LiveReservation(Snapshot().(admissions := S.Purge(admissions, now)), key, now);
      LiveFacts(Snapshot().(admissions := S.Purge(admissions, now)), key, now);
      var kept := admissions;
      admissions := S.Purge(admissions, now);
      if live { return Ok(S.Attached(admissions[key].session, admissions[key].run, runs[admissions[key].run].lease)); }
      if run in runs {
        if runs[run].session == s && runs[run].fingerprint == fingerprint && runs[run].status.Active? {
          return Ok(S.Attached(s, run, runs[run].lease));
        }
        admissions := kept; // rolled back
        return Fail(Invalid);
      }
      var quota := publications[session.namespace.publication].maxRuns;
      if quota < 1 || |S.LiveRuns(sessions, session.namespace, now)| >= quota {
        admissions := kept; // rolled back
        return Fail(RunQuota);
      }
      if key in admissions || S.Reserved(admissions, run) {
        if key in admissions && admissions[key].run in runs && runs[admissions[key].run].status.Active? {
          return Ok(S.Attached(admissions[key].session, admissions[key].run, runs[admissions[key].run].lease));
        }
        admissions := kept; // rolled back
        return Fail(Conflict);
      }
      var lease := supply;
      supply := supply + 1;
      admissions := admissions[key := Reservation(s, run, now + window)];
      sessions := sessions[s := session.(state := Running, lease := lease, deadline := now + seconds)];
      runs := runs[run := Run(s, lease, session.head, session.count, fingerprint, Active, NONE, now + window)];
      r := Ok(S.Acquired(run, lease));
    }

    // ---- finalize ----

    /** SELECT of the run's tool batch. */
    method FindBatch(k: Id) returns (found: Option<Id>)
      requires Valid()
      ensures found.Some? <==> S.HasBatch(batches, k)
      ensures found.Some? ==> found.value == S.BatchOf(batches, k)
    {
      hide Inv;
      if b :| b in batches && batches[b].run == k {
        OneBatch(Snapshot(), b, S.BatchOf(batches, k));
        return Some(b);
      }
      return None;
    }

    method FinalizeRun(k: Id, lease: Id, f: S.Final, now: real) returns (r: Result<bool>)
      requires Valid()
      modifies `sessions, `runs, `admissions, `batches, `calls, `responses, `supply
      ensures Valid()
      ensures Did(S.Finalize(old(Snapshot()), k, lease, f, now), r)
    {
      hide Inv, Evolves, S.GoodRequests, S.GoodPrefixes, S.Rows, S.SameRows, S.HasPending, S.Publish, S.Owns, S.Storable,
        S.Taken, S.GoodRecord, S.Repeats;
      FinalizeKeeps(Snapshot(), k, lease, f, now);
      if k == NONE || lease == NONE || f.head == NONE { return Fail(Invalid); }
      if !S.GoodRequests(f.requests, f.schemas) || !S.GoodRecord(f) || k !in runs { return Fail(Invalid); }
      var run := runs[k];
      if f.record.Some? && !S.Storable(sessions, run.session) { return Fail(Invalid); }
      var rows := S.Rows(f.requests, f.schemas);
      if run.status.Completed? {
        var repeated := RepeatedFinalize(k, f, rows);
        return if repeated then Ok(true) else Fail(LeaseLost);
      }
      if !S.Owns(Snapshot(), k, lease) { return Fail(LeaseLost); }
      if f.count < run.parentCount { return Fail(Invalid); }
      if rows != [] && S.HasPending(batches, run.session) { return Fail(Invalid); }
      if !S.GoodPrefixes(f.prefixes, f.count) { return Fail(Invalid); }
      if f.record.Some? && S.Taken(responses, k, f.response) { return Fail(Conflict); }
      LeaseFacts(Snapshot(), k, lease);
      Publish(k, f, rows, now);
      r := Ok(false);
    }

    /** Compares a repeated call with what the completed run published. */
    method RepeatedFinalize(k: Id, f: S.Final, rows: seq<S.ToolRow>) returns (same: bool)
      requires Valid() && k in runs
      ensures same <==> S.Repeats(Snapshot(), k, f, rows)
    {
      hide Inv, S.SameRows;
      var run := runs[k];
      if run.session !in sessions || sessions[run.session].head != f.head || sessions[run.session].count != f.count {
        return false;
      }
      if rows != [] {
        var batch := FindBatch(k);
        if batch.None? || !S.SameRows(calls, batch.value, rows) { return false; }
      }
      if f.response != NONE && run.response != f.response { return false; }
      if f.record.Some? && (k !in responses || !S.SameResponse(responses[k], f, f.record.value)) { return false; }
      same := true;
    }

    method Publish(k: Id, f: S.Final, rows: seq<S.ToolRow>, now: real)
      requires k in runs && runs[k].session in sessions && f.count >= 0
      modifies `sessions, `runs, `admissions, `batches, `calls, `responses, `supply
      ensures Snapshot() == S.Publish(old(Snapshot()), k, f, rows, now)
    {
      hide S.WithRows, S.WithoutRun, S.StoredOf;
      var s := runs[k].session;
      var session := sessions[s];
      var expiresAt := S.ExpiryOf(publications, session, now);
      hide S.ExpiryOf;
      if rows != [] {
        batches := batches[supply := ToolBatch(k, s, f.head, f.count, Pending, NONE, now, 0.0)];
        InsertRows(supply, rows);
        supply := supply + 1;
      }
      if f.record.Some? { responses := responses[k := S.StoredOf(s, f, f.record.value, expiresAt)]; }
      sessions := sessions[s := session.(head := f.head, count := f.count,
                                         state := if rows != [] then WaitingTool else Idle,
                                         lease := NONE, deadline := 0.0, expiresAt := expiresAt)];
      runs := runs[k := runs[k].(status := Completed, response := f.response)];
      admissions := S.WithoutRun(admissions, k);
    }

    /** One row per pending call, in position order. */
    method InsertRows(b: Id, rows: seq<S.ToolRow>)
      modifies `calls
      ensures calls == S.WithRows(old(calls), b, rows)
    {
      var i := 0;
      assert rows[..0] == [];
      while i < |rows|
        invariant 0 <= i <= |rows| && calls == S.WithRows(old(calls), b, rows[..i])
      {
        assert rows[..i + 1][..i] == rows[..i];
        calls := calls[CallKey(b, rows[i].call) :=
          ToolCall(i, rows[i].tool, rows[i].arguments, rows[i].schema, Pending, NONE, 0.0)];
        i := i + 1;
      }
      assert rows[..|rows|] == rows;
    }

    // ---- settle ----

    /** SELECT of the newest batch at the run's parent head. */
    method NewestBatch(k: Id) returns (newest: Option<Id>)
      requires k in runs
      ensures newest.None? <==> !S.AnyAtParent(Snapshot(), k)
      ensures newest.Some? ==> S.Newest(Snapshot(), k, newest.value)
    {
      newest := None;
      var rest := batches.Keys;
      while rest != {}
        invariant rest <= batches.Keys
        invariant newest.None? ==> forall b :: b in batches && b !in rest ==> !S.AtParent(batches[b], runs[k])
        invariant newest.Some? ==>
                    && newest.value in batches && S.AtParent(batches[newest.value], runs[k])
                    && forall b :: b in batches && b !in rest && S.AtParent(batches[b], runs[k])
                                   ==> batches[b].createdAt <= batches[newest.value].createdAt
        decreases rest
      {
        var b :| b in rest;
        rest := rest - {b};
        if S.AtParent(batches[b], runs[k])
           && (newest.None? || batches[newest.value].createdAt < batches[b].createdAt) {
          newest := Some(b);
        }
      }
    }

    /** Settles the newest batch at the parent head; without one, `b` is arbitrary and refused. */
    method SettleBatch(k: Id, lease: Id, results: Option<map<Id, Id>>, schemas: map<Id, Id>, now: real)
      returns (r: Result<bool>, b: Id)
      requires Valid()
      modifies `batches, `calls
      ensures Valid() && Did(S.Settle(old(Snapshot()), k, lease, b, results, schemas, now), r)
      ensures r.Ok? ==> S.Newest(old(Snapshot()), k, b)
    {
      hide Inv, Evolves, S.SchemasHold, S.SameResults, S.SettleCalls, S.CallsOf, S.Owns, S.Newest, S.AnyAtParent;
      b := NONE;
      if k == NONE || lease == NONE || results.None? || k !in runs { return Fail(Invalid), b; }
      if !S.Owns(Snapshot(), k, lease) { return Fail(LeaseLost), b; }
      var newest := NewestBatch(k);
      if newest.None? { return Fail(Invalid), b; }
      b := newest.value;
      SettleKeeps(Snapshot(), k, lease, b, results, schemas, now);
      NewestIn(Snapshot(), k, b);
      if results.value.Keys != S.CallsOf(calls, b) || !S.SchemasHold(calls, b, schemas) { return Fail(Invalid), b; }
      var batch := batches[b];
      if batch.state.Settled? {
        if batch.settledBy != k || !S.SameResults(calls, b, results.value) { return Fail(Invalid), b; }
        return Ok(true), b;
      }
      if !batch.state.Pending? { return Fail(Invalid), b; }
      calls := S.SettleCalls(calls, b, results.value, now);
      batches := batches[b := batch.(state := Settled, settledBy := k, settledAt := now)];
      r := Ok(false);
    }

    // ---- leaving ----

    method FailRun(k: Id, lease: Id, coded: bool, canceled: bool, now: real) returns (r: Result<bool>)
      requires Valid()
      modifies `sessions, `runs, `admissions, `batches, `calls
      ensures Valid() && Did(S.FailRun(old(Snapshot()), k, lease, coded, canceled, now), r)
    {
      hide Inv, Evolves, S.UnsettleCalls, S.UnsettleBatches, S.WithoutRun, S.Owns;
      FailRunKeeps(Snapshot(), k, lease, coded, canceled, now);
      if k == NONE || lease == NONE || !coded || k !in runs { return Fail(Invalid); }
      var status := if canceled then Canceled else Failed;
      if runs[k].status == status { return Ok(false); }
      if !S.Owns(Snapshot(), k, lease) { return Fail(LeaseLost); }
      LeaseFacts(Snapshot(), k, lease);
      var s := runs[k].session;
      calls := S.UnsettleCalls(calls, batches, {k});
      batches := S.UnsettleBatches(batches, {k});
      runs := runs[k := runs[k].(status := status)];
      sessions := sessions[s := sessions[s].(state := Quarantined, lease := NONE, deadline := 0.0,
                                             expiresAt := Min(sessions[s].expiresAt, now))];
      admissions := S.WithoutRun(admissions, k);
      r := Ok(true);
    }

    method Heartbeat(k: Id, lease: Id, seconds: real, now: real) returns (r: Result<bool>)
      requires Valid()
      modifies `sessions
      ensures Valid() && Did(S.Heartbeat(old(Snapshot()), k, lease, seconds, now), r)
    {
      hide Inv, Evolves, S.Extend, S.Leases;
      HeartbeatKeeps(Snapshot(), k, lease, seconds, now);
      r := Ok(k in runs && runs[k].lease == lease && runs[k].status.Active? && S.Leases(sessions, lease));
      sessions := S.Extend(sessions, lease, now + seconds);
    }

    /** The running sessions whose lease lapsed, in some order. */
    method LapsedSessions(now: real) returns (rows: seq<Id>)
      ensures S.LapsedRows(Snapshot(), rows, now)
    {
      rows := [];
      var rest := sessions.Keys;
      while rest != {}
        invariant rest <= sessions.Keys
        invariant forall i, j :: 0 <= i < j < |rows| ==> rows[i] != rows[j]
        invariant forall s :: s in rows <==> s in sessions && s !in rest && S.LeaseLapsed(sessions[s], now)
        decreases rest
      {
        var s :| s in rest;
        rest := rest - {s};
        if S.LeaseLapsed(sessions[s], now) { rows := rows + [s]; }
      }
    }

    method AbandonExpired(now: real) returns (rows: seq<Id>)
      requires Valid()
      modifies `sessions, `runs, `admissions, `batches, `calls
      ensures Valid() && S.LapsedRows(old(Snapshot()), rows, now)
      ensures Snapshot() == S.AbandonAll(old(Snapshot()), rows)
    {
      hide Inv, Evolves, S.AbandonOne, RunningRows;
      rows := LapsedSessions(now);
      LapsedRunning(Snapshot(), rows, now);
      ghost var before := Snapshot();
      var i := 0;
      assert rows[0..] == rows;
      while i < |rows|
        invariant 0 <= i <= |rows| && Valid() && RunningRows(Snapshot(), rows[i..])
        invariant S.AbandonAll(Snapshot(), rows[i..]) == S.AbandonAll(before, rows)
      {
        AbandonNext(Snapshot(), rows[i..]);
        assert rows[i..][0] == rows[i] && rows[i..][1..] == rows[i + 1..];
        AbandonSession(rows[i]);
        i := i + 1;
      }
    }

    method AbandonSession(s: Id)
      requires s in sessions
      modifies `sessions, `runs, `admissions, `batches, `calls
      ensures Snapshot() == S.AbandonOne(old(Snapshot()), s)
    {
      hide S.UnsettleCalls, S.UnsettleBatches, S.Abandon, S.Without, S.ActiveRuns;
      var ks := S.ActiveRuns(runs, s);
      calls := S.UnsettleCalls(calls, batches, ks);
      batches := S.UnsettleBatches(batches, ks);
      runs := S.Abandon(runs, s);
      sessions := sessions[s := sessions[s].(state := Quarantined, lease := NONE, deadline := 0.0)];
      admissions := S.Without(admissions, s);
    }

    // ---- expiry ----

    /** Of these sessions, one that expired first. */
    method FirstExpired(rest: set<Id>) returns (first: Id)
      requires rest != {} && rest <= sessions.Keys
      ensures first in rest && forall s :: s in rest ==> sessions[first].expiresAt <= sessions[s].expiresAt
    {
      first :| first in rest;
      var unseen := rest - {first};
      while unseen != {}
        invariant unseen <= rest && first in rest
        invariant forall s :: s in rest && s !in unseen ==> sessions[first].expiresAt <= sessions[s].expiresAt
        decreases unseen
      {
        var s :| s in unseen;
        unseen := unseen - {s};
        if sessions[s].expiresAt < sessions[first].expiresAt { first := s; }
      }
    }

    /** SELECT of the sweepable sessions in the order they expired, at most `limit` of them. */
    method SelectExpired(limit: nat, now: real) returns (rows: set<Id>)
      ensures S.SweepRows(Snapshot(), rows, limit, now)
    {
      rows := {};
      var rest := set s | s in sessions && S.Sweepable(sessions[s], now);
      while |rows| < limit && rest != {}
        invariant rows !! rest && |rows| <= limit
        invariant rest <= sessions.Keys && rows <= sessions.Keys
        invariant forall s :: s in sessions && S.Sweepable(sessions[s], now) <==> s in rows || s in rest
        invariant forall r, s :: r in rows && s in rest ==> sessions[r].expiresAt <= sessions[s].expiresAt
        decreases rest
      {
        var first := FirstExpired(rest);
        rows, rest := rows + {first}, rest - {first};
      }
    }

    /** The claim of a sweep: select the rows, then update them one by one. */
    method SweepClaim(limit: int, now: real) returns (r: Result<set<Id>>)
      requires Valid()
      modifies `sessions
      ensures Valid()
      ensures limit < 1 ==> r == Fail(Invalid) && Snapshot() == old(Snapshot())
      ensures limit >= 1 ==>
                && r.Ok? && S.SweepRows(old(Snapshot()), r.value, limit, now)
                && Snapshot() == S.SweepClaim(old(Snapshot()), r.value)
    {
      hide Inv, Evolves, S.SweepRows, S.Claimed;
      if limit < 1 { return Fail(Invalid); }
      var rows := SelectExpired(limit, now);
      SweepClaimKeeps(Snapshot(), rows);
      ClaimRows(rows);
      r := Ok(rows);
    }

    method ClaimRows(rows: set<Id>)
      modifies `sessions
      ensures sessions == S.Claimed(old(sessions), rows)
    {
      ghost var before := sessions;
      ClaimNone(before);
      hide S.Claimed;
      var rest := rows;
      assert rows - rest == {};
      while rest != {}
        invariant rest <= rows && sessions == S.Claimed(before, rows - rest)
        decreases rest
      {
        var s :| s in rest;
        ClaimNext(before, rows - rest, s);
        assert rows - (rest - {s}) == (rows - rest) + {s};
        rest := rest - {s};
        if s in sessions && (sessions[s].state.Idle? || sessions[s].state.Quarantined?) {
          sessions := sessions[s := sessions[s].(state := Expired)];
        }
      }
      assert rows - {} == rows;
    }

    method SweepDone(s: Id, removed: bool, now: real)
      requires Valid()
      modifies `sessions, `runs, `admissions, `batches, `calls, `responses
      ensures Valid() && Snapshot() == S.SweepDone(old(Snapshot()), s, removed, now)
    {
      hide Inv, Evolves, S.Drop;
      SweepDoneKeeps(Snapshot(), s, removed, now);
      if s !in sessions || !sessions[s].state.Expired? { return; }
      if removed {
        DropSession(s);
      } else {
        sessions := sessions[s := sessions[s].(state := Quarantined, expiresAt := now + 60.0)];
      }
    }

    method ResetSessions(publication: Id, now: real) returns (r: Result<nat>)
      requires Valid()
      modifies `publications, `sessions, `batches, `calls
      ensures Valid() && Did(S.Reset(old(Snapshot()), publication, now), r)
    {
      hide Inv, Evolves, S.ExpireGenerations;
      ResetKeeps(Snapshot(), publication, now);
      if publication !in publications || publications[publication].generation < 1 { return Fail(Invalid); }
      var next := publications[publication].generation + 1;
      publications := publications[publication := publications[publication].(generation := next)];
      ExpireGenerations(publication, next, now);
      r := Ok(next);
    }

    /** Four updates in the source's order: calls, batches, waiting sessions, then the ones at rest. */
    method ExpireGenerations(publication: Id, generation: nat, now: real)
      modifies `sessions, `batches, `calls
      ensures Snapshot() == S.ExpireGenerations(old(Snapshot()), publication, generation, now)
    {
      hide S.WithdrawCalls, S.WithdrawBatches, S.ExpireSessions;
      ExpiredInTurn(sessions, publication, generation, now);
      calls := S.WithdrawCalls(calls, batches, sessions, publication, generation);
      batches := S.WithdrawBatches(batches, sessions, publication, generation, now);
      sessions := RetireWaiting(sessions, publication, generation, now);
      sessions := ScheduleResting(sessions, publication, generation, now);
    }

    method FindActive(key: AdmissionKey, now: real) returns (r: Result<Option<S.Answer>>)
      requires Valid()
      modifies `admissions
      ensures Valid() && Did(S.FindActive(old(Snapshot()), key, now), r)
    {
      hide Inv, Evolves, S.LiveReservation, S.Purge;
      FindActiveKeeps(Snapshot(), key, now);
      admissions := S.Purge(admissions, now);
      LiveFacts(Snapshot(), key, now);
      r := Ok(if S.LiveReservation(Snapshot(), key, now) then Some(S.AttachTo(Snapshot(), key)) else None);
    }
  }

  lemma OneBatch(db: Db, a: Id, b: Id)
    requires Inv(db) && a in db.batches && b in db.batches && db.batches[a].run == db.batches[b].run
    ensures a == b
  {
  }

  lemma NewestIn(db: Db, k: Id, b: Id)
    requires S.Newest(db, k, b)
    ensures b in db.batches && S.AnyAtParent(db, k)
  {
  }

  lemma LapsedRunning(db: Db, rows: seq<Id>, now: real)
    requires S.LapsedRows(db, rows, now)
    ensures RunningRows(db, rows)
  {
  }

  /** One row of the sweep leaves the rest to be swept. */
  lemma AbandonNext(db: Db, rows: seq<Id>)
    requires Inv(db) && RunningRows(db, rows) && rows != []
    ensures rows[0] in db.sessions
    ensures var next := S.AbandonOne(db, rows[0]);
            Inv(next) && RunningRows(next, rows[1..]) && S.AbandonAll(db, rows) == S.AbandonAll(next, rows[1..])
  {
    hide Inv, Evolves, S.AbandonOne;
    AbandonOneKeeps(db, rows[0]);
    AbandonedRow(db, rows[0]);
  }

  lemma ClaimNone(sessions: Sessions)
    ensures S.Claimed(sessions, {}) == sessions
  {
  }

  /** Claiming one more row updates that row only. */
  lemma ClaimNext(sessions: Sessions, done: set<Id>, s: Id)
    requires s !in done
    ensures var m := S.Claimed(sessions, done);
            S.Claimed(sessions, done + {s})
            == if s in m && (m[s].state.Idle? || m[s].state.Quarantined?) then m[s := m[s].(state := Expired)] else m
  {
  }

  function RetireWaiting(sessions: Sessions, publication: Id, generation: nat, now: real): Sessions {
    map s | s in sessions ::
      if S.OldGeneration(sessions[s], publication, generation) && sessions[s].state.WaitingTool?
      then sessions[s].(state := Quarantined, expiresAt := Min(sessions[s].expiresAt, now)) else sessions[s]
  }

  function ScheduleResting(sessions: Sessions, publication: Id, generation: nat, now: real): Sessions {
    map s | s in sessions ::
      if S.OldGeneration(sessions[s], publication, generation) && (sessions[s].state.Idle? || sessions[s].state.Quarantined?)
      then sessions[s].(expiresAt := Min(sessions[s].expiresAt, now)) else sessions[s]
  }

  /** A waiting session is quarantined by the first update and met again by the second, which changes nothing more. */
  lemma ExpiredInTurn(sessions: Sessions, publication: Id, generation: nat, now: real)
    ensures ScheduleResting(RetireWaiting(sessions, publication, generation, now), publication, generation, now)
            == S.ExpireSessions(sessions, publication, generation, now)
  {
  }

  lemma LiveFacts(db: Db, key: AdmissionKey, now: real)
    ensures S.LiveReservation(db, key, now) ==> key in db.admissions && db.admissions[key].run in db.runs
  {
  }

  lemma OneActive(db: Db, j: Id, k: Id)
    requires Inv(db) && j in db.runs && k in db.runs && db.runs[j].session == db.runs[k].session
    requires db.runs[j].status.Active? && db.runs[k].status.Active?
    ensures j == k
  {
  }

  lemma Gone(db: Db, s: Id)
    ensures s !in S.Drop(db, s).sessions
  {
  }
}

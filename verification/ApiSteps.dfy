/** Every transaction of the session store keeps the invariants and evolves the tables. */
module ApiSteps {
  import opened Basics
  import opened ApiTypes
  import opened ApiSessions
  import opened ApiInvariants

  ghost predicate Keeps(db: Db, after: Db) { Inv(after) && Evolves(db, after) }

  lemma ComposeKept(a: Db, m: Db, b: Db)
    requires Inv(a) && Keeps(a, m) && Keeps(m, b)
    ensures Keeps(a, b)
  {
    hide Inv, Evolves;
    Compose(a, m, b);
  }

  // ---- sessions that are not running ----

  predicate Resting(s: Session) { !s.state.Running? && s.lease == NONE }

  /** Resting sessions moved in place, none of them to waiting. */
  ghost predicate Moved(sessions: Sessions, later: Sessions) {
    && sessions.Keys == later.Keys
    && (forall s :: s in sessions && later[s] != sessions[s] ==>
          && Resting(sessions[s]) && Resting(later[s]) && !later[s].state.WaitingTool?
          && later[s].head == sessions[s].head && later[s].count == sessions[s].count
          && SessionAges(sessions[s], later[s]))
  }

  lemma MovedLeases(db: Db, later: Sessions)
    requires Leased(db.sessions, db.runs) && Numbered(db.sessions, db.batches, db.calls, db.supply)
    requires Moved(db.sessions, later)
    ensures Leased(later, db.runs) && Numbered(later, db.batches, db.calls, db.supply)
  {
  }

  lemma MovedRoots(db: Db, later: Sessions)
    requires Rooted(db.sessions, db.runs, db.batches) && Moved(db.sessions, later)
    ensures Rooted(later, db.runs, db.batches) && SessionsAge(db.sessions, later, db.supply)
    ensures RunsAge(db.runs, db.runs, later)
  {
  }

  lemma MovedReservations(db: Db, later: Sessions)
    requires Reserving(db.sessions, db.runs, db.admissions) && Moved(db.sessions, later)
    requires Rooted(db.sessions, db.runs, db.batches)
    ensures Reserving(later, db.runs, db.admissions)
  {
  }

  lemma MovedBatches(db: Db, later: Sessions)
    requires Batched(db.sessions, db.runs, db.batches) && Moved(db.sessions, later)
    ensures Batched(later, db.runs, db.batches) && BatchesAge(db.batches, db.batches, db.runs, db.runs, later)
  {
  }

  lemma MovedKeeps(db: Db, later: Sessions)
    requires Inv(db) && Moved(db.sessions, later)
    ensures Keeps(db, db.(sessions := later))
  {
    hide Leased, Numbered, Rooted, Reserving, Batched, Uniform, SessionsAge, RunsAge, BatchesAge, BatchesFresh, CallsAge, Moved;
    Unchanged(db);
    MovedLeases(db, later);
    MovedRoots(db, later);
    MovedReservations(db, later);
    MovedBatches(db, later);
  }

  lemma RestingFacts(db: Db, s: Id)
    requires Inv(db) && s in db.sessions && !db.sessions[s].state.Running?
    ensures Resting(db.sessions[s])
  {
  }

  lemma QuarantineUnstartedKeeps(db: Db, s: Id, now: real)
    requires Inv(db)
    ensures Keeps(db, QuarantineUnstarted(db, s, now))
  {
    hide Inv, Evolves;
    Unchanged(db);
    var after := QuarantineUnstarted(db, s, now);
    if after != db {
      RestingFacts(db, s);
      MovedKeeps(db, after.sessions);
    }
  }

  lemma SweepClaimKeeps(db: Db, rows: set<Id>)
    requires Inv(db)
    ensures Keeps(db, SweepClaim(db, rows))
  {
    hide Inv, Evolves;
    forall s | s in db.sessions && !db.sessions[s].state.Running? ensures Resting(db.sessions[s]) { RestingFacts(db, s); }
    MovedKeeps(db, SweepClaim(db, rows).sessions);
  }

  // ---- creation and deletion ----

  lemma CreatedLeases(db: Db, session: Session)
    requires Leased(db.sessions, db.runs) && Numbered(db.sessions, db.batches, db.calls, db.supply)
    requires Rooted(db.sessions, db.runs, db.batches) && session.state.Idle? && session.lease == NONE
    ensures var later := db.sessions[db.supply := session];
            Leased(later, db.runs) && Numbered(later, db.batches, db.calls, db.supply + 1)
  {
    assert db.supply !in db.sessions;
  }

  lemma CreatedTables(db: Db, session: Session)
    requires Numbered(db.sessions, db.batches, db.calls, db.supply)
    requires Rooted(db.sessions, db.runs, db.batches) && Reserving(db.sessions, db.runs, db.admissions)
    ensures var later := db.sessions[db.supply := session];
            && Rooted(later, db.runs, db.batches) && Reserving(later, db.runs, db.admissions)
            && SessionsAge(db.sessions, later, db.supply) && RunsAge(db.runs, db.runs, later)
  {
    assert db.supply !in db.sessions;
  }

  lemma CreatedBatches(db: Db, session: Session)
    requires Batched(db.sessions, db.runs, db.batches) && Numbered(db.sessions, db.batches, db.calls, db.supply)
    requires session.state.Idle?
    ensures var later := db.sessions[db.supply := session];
            Batched(later, db.runs, db.batches) && BatchesAge(db.batches, db.batches, db.runs, db.runs, later)
  {
  }

  lemma CreateKeeps(db: Db, ns: Namespace, conversation: Id, head: Id, count: int, now: real)
    requires Inv(db)
    ensures Keeps(db, Create(db, ns, conversation, head, count, now).db)
  {
    hide Leased, Numbered, Rooted, Reserving, Batched, Uniform, SessionsAge, RunsAge, BatchesAge, BatchesFresh, CallsAge,
      Admissible, Retained, ConversationUsed;
    Unchanged(db);
    var r := Create(db, ns, conversation, head, count, now);
    if r.result.Ok? {
      CreatedLeases(db, r.db.sessions[db.supply]);
      CreatedTables(db, r.db.sessions[db.supply]);
      CreatedBatches(db, r.db.sessions[db.supply]);
    }
  }

  lemma HeldElsewhere(db: Db, s: Id, t: Id)
    requires Held(db.runs, t) && t != s
    ensures Held(Drop(db, s).runs, t)
  {
    var k :| k in db.runs && db.runs[k].session == t && db.runs[k].status.Active?;
    assert k in Drop(db, s).runs;
  }

  lemma DroppedNumbers(db: Db, s: Id)
    requires Numbered(db.sessions, db.batches, db.calls, db.supply)
    ensures var d := Drop(db, s); Numbered(d.sessions, d.batches, d.calls, d.supply)
  {
  }

  lemma DroppedLeases(db: Db, s: Id)
    requires Leased(db.sessions, db.runs) && Numbered(db.sessions, db.batches, db.calls, db.supply)
    ensures var d := Drop(db, s); Leased(d.sessions, d.runs) && Numbered(d.sessions, d.batches, d.calls, d.supply)
  {
    DroppedNumbers(db, s);
    hide Held, Numbered;
    var d := Drop(db, s);
    forall t | t in d.sessions && d.sessions[t].state.Running? ensures Held(d.runs, t) {
      HeldElsewhere(db, s, t);
    }
  }

  lemma DroppedRoots(db: Db, s: Id)
    requires Rooted(db.sessions, db.runs, db.batches) && Reserving(db.sessions, db.runs, db.admissions)
    ensures var d := Drop(db, s);
            && Rooted(d.sessions, d.runs, d.batches) && Reserving(d.sessions, d.runs, d.admissions)
            && RunsAge(db.runs, d.runs, d.sessions) && SessionsAge(db.sessions, d.sessions, db.supply)
  {
  }

  lemma PendingElsewhere(db: Db, s: Id, t: Id, head: Id, count: int)
    requires PendingAt(db.batches, t, head, count) && t != s
    ensures PendingAt(Drop(db, s).batches, t, head, count)
  {
    var b :| b in db.batches && db.batches[b].session == t && db.batches[b].head == head && db.batches[b].count == count
             && db.batches[b].state.Pending?;
    assert b in Drop(db, s).batches;
  }

  lemma DroppedAges(db: Db, s: Id)
    requires Uniform(db.batches, db.calls) && Rooted(db.sessions, db.runs, db.batches)
    ensures var d := Drop(db, s);
            && Uniform(d.batches, d.calls) && BatchesAge(db.batches, d.batches, db.runs, d.runs, d.sessions)
            && BatchesFresh(db.batches, d.batches, db.supply) && CallsAge(db.calls, d.calls, db.batches, d.batches)
  {
  }

  lemma DroppedBatches(db: Db, s: Id)
    requires Batched(db.sessions, db.runs, db.batches) && Uniform(db.batches, db.calls)
    requires Rooted(db.sessions, db.runs, db.batches)
    ensures var d := Drop(db, s);
            && Batched(d.sessions, d.runs, d.batches) && Uniform(d.batches, d.calls)
            && BatchesAge(db.batches, d.batches, db.runs, d.runs, d.sessions)
            && BatchesFresh(db.batches, d.batches, db.supply) && CallsAge(db.calls, d.calls, db.batches, d.batches)
  {
    DroppedAges(db, s);
    hide PendingAt, Uniform, BatchesAge, BatchesFresh, CallsAge;
    var d := Drop(db, s);
    forall t | t in d.sessions && d.sessions[t].state.WaitingTool?
      ensures PendingAt(d.batches, t, d.sessions[t].head, d.sessions[t].count)
    {
      PendingElsewhere(db, s, t, d.sessions[t].head, d.sessions[t].count);
    }
  }

  lemma DropKeeps(db: Db, s: Id)
    requires Inv(db)
    ensures Keeps(db, Drop(db, s))
  {
    hide Leased, Numbered, Rooted, Reserving, Batched, Uniform, SessionsAge, RunsAge, BatchesAge, BatchesFresh, CallsAge;
    DroppedLeases(db, s);
    DroppedRoots(db, s);
    DroppedBatches(db, s);
  }

  lemma DiscardEmptyKeeps(db: Db, s: Id)
    requires Inv(db)
    ensures Keeps(db, DiscardEmpty(db, s))
  {
    hide Inv, Evolves, Drop;
    Unchanged(db);
    DropKeeps(db, s);
  }

  lemma SweepDoneKeeps(db: Db, s: Id, removed: bool, now: real)
    requires Inv(db)
    ensures Keeps(db, SweepDone(db, s, removed, now))
  {
    hide Inv, Evolves, Drop;
    Unchanged(db);
    DropKeeps(db, s);
    if s in db.sessions && db.sessions[s].state.Expired? && !removed {
      RestingFacts(db, s);
      MovedKeeps(db, SweepDone(db, s, removed, now).sessions);
    }
  }

  // ---- reservations ----

  lemma PurgedKeeps(db: Db, admissions: Admissions)
    requires Inv(db) && forall a :: a in admissions ==> a in db.admissions && admissions[a] == db.admissions[a]
    ensures Keeps(db, db.(admissions := admissions))
  {
    hide Leased, Numbered, Rooted, Batched, Uniform, SessionsAge, RunsAge, BatchesAge, BatchesFresh, CallsAge;
    Unchanged(db);
  }

  lemma FindActiveKeeps(db: Db, key: AdmissionKey, now: real)
    requires Inv(db)
    ensures Keeps(db, FindActive(db, key, now).db)
  {
    hide Inv, Evolves, LiveReservation;
    PurgedKeeps(db, Purge(db.admissions, now));
  }

  // ---- leaving a lease ----

  /** The runs of one session end; nothing else about runs moves. */
  ghost predicate EndsRuns(runs: Runs, later: Runs, s: Id) {
    && runs.Keys == later.Keys
    && (forall k :: k in runs ==> later[k] == runs[k] || (runs[k].session == s && runs[k].status.Active?
                                                          && RunAges(runs[k], later[k])))
    && (forall k :: k in later && later[k].session == s ==> !later[k].status.Active?)
  }

  lemma HeldStill(runs: Runs, later: Runs, s: Id, t: Id)
    requires EndsRuns(runs, later, s) && Held(runs, t) && t != s
    ensures Held(later, t)
  {
    var k :| k in runs && runs[k].session == t && runs[k].status.Active?;
    assert k in later && later[k].status.Active?;
  }

  lemma LeftNumbers(db: Db, s: Id, session: Session)
    requires Numbered(db.sessions, db.batches, db.calls, db.supply) && s in db.sessions && Resting(session)
    ensures Numbered(db.sessions[s := session], db.batches, db.calls, db.supply)
  {
  }

  lemma LeftLeases(db: Db, s: Id, session: Session, later: Runs)
    requires Leased(db.sessions, db.runs) && Numbered(db.sessions, db.batches, db.calls, db.supply)
    requires s in db.sessions && EndsRuns(db.runs, later, s) && Resting(session)
    ensures Leased(db.sessions[s := session], later)
    ensures Numbered(db.sessions[s := session], db.batches, db.calls, db.supply)
  {
    LeftNumbers(db, s, session);
    LeftHeld(db, s, later);
    hide Held, Numbered;
  }

  lemma LeftHeld(db: Db, s: Id, later: Runs)
    requires Leased(db.sessions, db.runs) && EndsRuns(db.runs, later, s)
    ensures forall t :: t in db.sessions && t != s && db.sessions[t].state.Running? ==> Held(later, t)
  {
    hide Held, EndsRuns;
    forall t | t in db.sessions && t != s && db.sessions[t].state.Running? ensures Held(later, t) {
      HeldStill(db.runs, later, s, t);
    }
  }

  lemma LeftRoots(db: Db, s: Id, session: Session, later: Runs)
    requires Rooted(db.sessions, db.runs, db.batches) && s in db.sessions && EndsRuns(db.runs, later, s)
    requires SessionAges(db.sessions[s], session)
    ensures Rooted(db.sessions[s := session], later, db.batches)
    ensures SessionsAge(db.sessions, db.sessions[s := session], db.supply)
    ensures RunsAge(db.runs, later, db.sessions[s := session])
  {
  }

  lemma LeftReservations(db: Db, s: Id, session: Session, later: Runs, admissions: Admissions)
    requires Reserving(db.sessions, db.runs, db.admissions) && s in db.sessions && EndsRuns(db.runs, later, s)
    requires Rooted(db.sessions, db.runs, db.batches)
    requires forall a :: a in admissions ==> a in db.admissions && admissions[a] == db.admissions[a] && admissions[a].session != s
    ensures Reserving(db.sessions[s := session], later, admissions)
  {
  }

  lemma EndsActive(db: Db, s: Id, k: Id, run: Run)
    requires Leased(db.sessions, db.runs) && k in db.runs && db.runs[k].session == s && db.runs[k].status.Active?
    requires !run.status.Active? && RunAges(db.runs[k], run)
    ensures EndsRuns(db.runs, db.runs[k := run], s)
  {
  }

  lemma AbandonEnds(runs: Runs, s: Id)
    ensures EndsRuns(runs, Abandon(runs, s), s)
  {
  }

  /** The batches and calls when a session's runs end without a head: settled ones are awaited again
      if they are given back, and stay settled if not. */
  lemma LeftBatches(db: Db, s: Id, session: Session, later: Runs)
    requires Batched(db.sessions, db.runs, db.batches) && s in db.sessions && EndsRuns(db.runs, later, s)
    requires !session.state.WaitingTool?
    ensures Batched(db.sessions[s := session], later, db.batches)
    ensures BatchesAge(db.batches, db.batches, db.runs, later, db.sessions[s := session])
  {
  }

  lemma ExpireLeaseKeeps(db: Db, s: Id)
    requires Inv(db) && s in db.sessions && db.sessions[s].state.Running?
    ensures Keeps(db, ExpireLease(db, s))
  {
    hide Leased, Numbered, Rooted, Reserving, Batched, Uniform, SessionsAge, RunsAge, BatchesAge, BatchesFresh, CallsAge,
      EndsRuns;
    Unchanged(db);
    var session := db.sessions[s].(state := Quarantined, lease := NONE, deadline := 0.0);
    var later := Abandon(db.runs, s);
    AbandonEnds(db.runs, s);
    LeftLeases(db, s, session, later);
    LeftRoots(db, s, session, later);
    LeftReservations(db, s, session, later, Without(db.admissions, s));
    LeftBatches(db, s, session, later);
  }

  // ---- giving settled batches back ----

  lemma StillPending(batches: Batches, ks: set<Id>, s: Id, head: Id, count: int)
    requires PendingAt(batches, s, head, count)
    ensures PendingAt(UnsettleBatches(batches, ks), s, head, count)
  {
    var b :| b in batches && batches[b].session == s && batches[b].head == head && batches[b].count == count
             && batches[b].state.Pending?;
    assert UnsettleBatches(batches, ks)[b] == batches[b];
  }

  lemma GivenBackAges(db: Db, s: Id, session: Session, later: Runs, ks: set<Id>)
    requires Batched(db.sessions, db.runs, db.batches) && Rooted(db.sessions, db.runs, db.batches)
    requires s in db.sessions && EndsRuns(db.runs, later, s) && ks == ActiveRuns(db.runs, s)
    ensures var batches := UnsettleBatches(db.batches, ks);
            && BatchesAge(db.batches, batches, db.runs, later, db.sessions[s := session])
            && BatchesFresh(db.batches, batches, db.supply)
  {
    hide PendingAt;
  }

  lemma GivenBack(db: Db, s: Id, session: Session, later: Runs, ks: set<Id>)
    requires Batched(db.sessions, db.runs, db.batches) && Rooted(db.sessions, db.runs, db.batches)
    requires s in db.sessions && EndsRuns(db.runs, later, s) && !session.state.WaitingTool?
    requires ks == ActiveRuns(db.runs, s)
    ensures var batches := UnsettleBatches(db.batches, ks);
            && Batched(db.sessions[s := session], later, batches)
            && BatchesAge(db.batches, batches, db.runs, later, db.sessions[s := session])
            && BatchesFresh(db.batches, batches, db.supply)
  {
    hide PendingAt, BatchesAge, BatchesFresh;
    GivenBackAges(db, s, session, later, ks);
    var batches := UnsettleBatches(db.batches, ks);
    forall b | b in batches && Awaited(later, batches[b]) ensures Awaited(db.runs, db.batches[b]) {
    }
    forall t | t in db.sessions && t != s && db.sessions[t].state.WaitingTool?
      ensures PendingAt(batches, t, db.sessions[t].head, db.sessions[t].count)
    {
      StillPending(db.batches, ks, t, db.sessions[t].head, db.sessions[t].count);
    }
  }

  lemma GivenBackCalls(db: Db, ks: set<Id>)
    requires Uniform(db.batches, db.calls)
    ensures var calls := UnsettleCalls(db.calls, db.batches, ks); var batches := UnsettleBatches(db.batches, ks);
            Uniform(batches, calls) && CallsAge(db.calls, calls, db.batches, batches)
  {
  }

  lemma GivenBackNames(db: Db, s: Id, session: Session, ks: set<Id>)
    requires Numbered(db.sessions[s := session], db.batches, db.calls, db.supply)
    ensures Numbered(db.sessions[s := session], UnsettleBatches(db.batches, ks),
                     UnsettleCalls(db.calls, db.batches, ks), db.supply)
  {
  }

  lemma GivenBackRoots(db: Db, sessions: Sessions, later: Runs, ks: set<Id>)
    requires Rooted(sessions, later, db.batches)
    ensures Rooted(sessions, later, UnsettleBatches(db.batches, ks))
  {
  }

  lemma AbandonOneKeeps(db: Db, s: Id)
    requires Inv(db) && s in db.sessions && db.sessions[s].state.Running?
    ensures Keeps(db, AbandonOne(db, s))
  {
    hide Leased, Numbered, Rooted, Reserving, Batched, Uniform, SessionsAge, RunsAge, BatchesAge, BatchesFresh, CallsAge,
      EndsRuns;
    var session := db.sessions[s].(state := Quarantined, lease := NONE, deadline := 0.0);
    var later := Abandon(db.runs, s);
    var ks := ActiveRuns(db.runs, s);
    AbandonEnds(db.runs, s);
    LeftLeases(db, s, session, later);
    LeftRoots(db, s, session, later);
    LeftReservations(db, s, session, later, Without(db.admissions, s));
    GivenBack(db, s, session, later, ks);
    GivenBackCalls(db, ks);
    GivenBackNames(db, s, session, ks);
    GivenBackRoots(db, db.sessions[s := session], later, ks);
  }

  lemma {:induction false} AbandonAllKeeps(db: Db, rows: seq<Id>)
    requires Inv(db) && RunningRows(db, rows)
    ensures Keeps(db, AbandonAll(db, rows))
    decreases |rows|
  {
    hide Inv, Evolves, AbandonOne;
    Unchanged(db);
    if rows != [] {
      var next := AbandonOne(db, rows[0]);
      AbandonOneKeeps(db, rows[0]);
      AbandonedRow(db, rows[0]);
      AbandonAllKeeps(next, rows[1..]);
      ComposeKept(db, next, AbandonAll(db, rows));
    }
  }

  /** Rows selected by a sweep are distinct running sessions. */
  ghost predicate RunningRows(db: Db, rows: seq<Id>) {
    && (forall i, j :: 0 <= i < j < |rows| ==> rows[i] != rows[j])
    && (forall i :: 0 <= i < |rows| ==> rows[i] in db.sessions && db.sessions[rows[i]].state.Running?)
  }

  lemma AbandonedRow(db: Db, s: Id)
    requires s in db.sessions
    ensures var next := AbandonOne(db, s).sessions;
            next.Keys == db.sessions.Keys && !next[s].state.Running?
            && forall t :: t in db.sessions && t != s ==> next[t] == db.sessions[t]
  {
  }

  lemma OwnedRun(db: Db, k: Id, lease: Id)
    requires Leased(db.sessions, db.runs) && Owns(db, k, lease)
    ensures ActiveRuns(db.runs, db.runs[k].session) == {k}
  {
  }

  lemma OwnedReservations(db: Db, k: Id)
    requires Leased(db.sessions, db.runs) && Reserving(db.sessions, db.runs, db.admissions)
    requires k in db.runs && db.runs[k].status.Active?
    ensures var left := WithoutRun(db.admissions, k);
            forall a :: a in left ==> a in db.admissions && left[a] == db.admissions[a] && left[a].session != db.runs[k].session
  {
  }

  lemma FailRunKeeps(db: Db, k: Id, lease: Id, coded: bool, canceled: bool, now: real)
    requires Inv(db)
    ensures Keeps(db, FailRun(db, k, lease, coded, canceled, now).db)
  {
    hide Leased, Numbered, Rooted, Reserving, Batched, Uniform, SessionsAge, RunsAge, BatchesAge, BatchesFresh, CallsAge,
      EndsRuns, Owns;
    Unchanged(db);
    var after := FailRun(db, k, lease, coded, canceled, now).db;
    if after != db {
      LeaseFacts(db, k, lease);
      var s := db.runs[k].session;
      var session := after.sessions[s];
      OwnedRun(db, k, lease);
      OwnedReservations(db, k);
      EndsActive(db, s, k, after.runs[k]);
      LeftLeases(db, s, session, after.runs);
      LeftRoots(db, s, session, after.runs);
      LeftReservations(db, s, session, after.runs, after.admissions);
      GivenBack(db, s, session, after.runs, {k});
      GivenBackCalls(db, {k});
      GivenBackNames(db, s, session, {k});
      GivenBackRoots(db, after.sessions, after.runs, {k});
    }
  }

  lemma LeaseFacts(db: Db, k: Id, lease: Id)
    requires Owns(db, k, lease)
    ensures k in db.runs && db.runs[k].status.Active? && db.runs[k].session in db.sessions
    ensures db.sessions[db.runs[k].session].state.Running?
  {
  }

  // ---- taking a lease ----

  /** What an acquired session and its run look like. */
  predicate Takes(db: Db, s: Id, session: Session, run: Run) {
    && s in db.sessions && !db.sessions[s].state.Running?
    && session == db.sessions[s].(state := SessionState.Running, lease := db.supply, deadline := session.deadline)
    && run.session == s && run.lease == db.supply && run.status.Active?
    && run.parentHead == session.head && run.parentCount == session.count
  }

  lemma TakenLeases(db: Db, s: Id, session: Session, k: Id, run: Run)
    requires Leased(db.sessions, db.runs) && Numbered(db.sessions, db.batches, db.calls, db.supply)
    requires Takes(db, s, session, run) && k !in db.runs
    ensures Leased(db.sessions[s := session], db.runs[k := run])
  {
    var later := db.runs[k := run];
    forall t | t in db.sessions && t != s && db.sessions[t].state.Running? ensures Held(later, t) {
      var j :| j in db.runs && db.runs[j].session == t && db.runs[j].status.Active?;
      assert j in later && later[j].session == t && later[j].status.Active?;
    }
    assert k in later && later[k].session == s && later[k].status.Active?;
  }

  lemma TakenNumbers(db: Db, s: Id, session: Session, run: Run)
    requires Numbered(db.sessions, db.batches, db.calls, db.supply) && Takes(db, s, session, run)
    ensures Numbered(db.sessions[s := session], db.batches, db.calls, db.supply + 1)
  {
  }

  lemma TakenRoots(db: Db, s: Id, session: Session, k: Id, run: Run)
    requires Rooted(db.sessions, db.runs, db.batches) && Takes(db, s, session, run) && k !in db.runs
    requires !Retired(db.sessions[s].state)
    ensures Rooted(db.sessions[s := session], db.runs[k := run], db.batches)
    ensures SessionsAge(db.sessions, db.sessions[s := session], db.supply)
    ensures RunsAge(db.runs, db.runs[k := run], db.sessions[s := session])
  {
  }

  lemma TakenReservations(db: Db, s: Id, session: Session, k: Id, run: Run, purged: Admissions)
    requires Reserving(db.sessions, db.runs, purged) && Takes(db, s, session, run) && k !in db.runs
    requires Rooted(db.sessions, db.runs, db.batches)
    ensures var key := KeyOf(db.sessions, run);
            Reserving(db.sessions[s := session], db.runs[k := run], purged[key := Reservation(s, k, run.replayUntil)])
  {
  }

  lemma TakenBatches(db: Db, s: Id, session: Session, k: Id, run: Run)
    requires Batched(db.sessions, db.runs, db.batches) && Takes(db, s, session, run) && k !in db.runs
    ensures Batched(db.sessions[s := session], db.runs[k := run], db.batches)
    ensures BatchesAge(db.batches, db.batches, db.runs, db.runs[k := run], db.sessions[s := session])
  {
  }

  lemma TakeKeeps(db: Db, s: Id, session: Session, k: Id, run: Run)
    requires Inv(db) && Takes(db, s, session, run) && k !in db.runs && !Retired(db.sessions[s].state)
    ensures Keeps(db, db.(admissions := db.admissions[KeyOf(db.sessions, run) := Reservation(s, k, run.replayUntil)],
                          sessions := db.sessions[s := session], runs := db.runs[k := run], supply := db.supply + 1))
  {
    hide Leased, Numbered, Rooted, Reserving, Batched, Uniform, SessionsAge, RunsAge, BatchesAge, BatchesFresh, CallsAge;
    Unchanged(db);
    TakenLeases(db, s, session, k, run);
    TakenNumbers(db, s, session, run);
    TakenRoots(db, s, session, k, run);
    TakenReservations(db, s, session, k, run, db.admissions);
    TakenBatches(db, s, session, k, run);
  }

  lemma AcquireHeadKeeps(db: Db, s: Id, k: Id, fingerprint: Id, lease: real, window: real, now: real)
    requires Inv(db) && s in db.sessions && db.sessions[s].namespace.publication in db.publications
    requires db.sessions[s].state.Idle? || db.sessions[s].state.WaitingTool?
    ensures Keeps(db, AcquireHead(db, s, k, fingerprint, lease, window, now).db)
  {
    hide Inv, Evolves, LiveReservation, LiveRuns, Reserved, AttachTo, Purge;
    Unchanged(db);
    var purged := db.(admissions := Purge(db.admissions, now));
    PurgedFrom(db.admissions, now);
    PurgedKeeps(db, purged.admissions);
    var r := AcquireHead(db, s, k, fingerprint, lease, window, now);
    if r.db != db && r.db != purged {
      TakeKeeps(purged, s, r.db.sessions[s], k, r.db.runs[k]);
      ComposeKept(db, purged, r.db);
    }
  }

  lemma PurgedFrom(admissions: Admissions, now: real)
    ensures var left := Purge(admissions, now); forall a :: a in left ==> a in admissions && left[a] == admissions[a]
  {
  }

  lemma AcquireKeeps(db: Db, s: Id, head: Id, count: int, run: Id, request: Id, fingerprint: Id, lease: real,
                     window: real, now: real)
    requires Inv(db)
    ensures Keeps(db, Acquire(db, s, head, count, run, request, fingerprint, lease, window, now).db)
  {
    hide Inv, Evolves, ExpireLease, AcquireHead, HasRetry, PendingAt;
    Unchanged(db);
    if s in db.sessions {
      if db.sessions[s].state.Running? {
        ExpireLeaseKeeps(db, s);
      } else {
        RestingFacts(db, s);
        if db.sessions[s].state.Idle? { MovedKeeps(db, db.sessions[s := db.sessions[s].(state := Expired)]); }
        if Admissible(db, db.sessions[s].namespace) && (db.sessions[s].state.Idle? || db.sessions[s].state.WaitingTool?) {
          AcquireHeadKeeps(db, s, run, fingerprint, lease, window, now);
        }
      }
    }
  }

  // ---- publishing a head ----

  lemma PublishedLeases(db: Db, k: Id, session: Session, run: Run)
    requires Leased(db.sessions, db.runs) && Numbered(db.sessions, db.batches, db.calls, db.supply)
    requires k in db.runs && db.runs[k].status.Active? && db.runs[k].session in db.sessions
    requires Resting(session) && !run.status.Active? && RunAges(db.runs[k], run)
    ensures Leased(db.sessions[run.session := session], db.runs[k := run])
    ensures Numbered(db.sessions[run.session := session], db.batches, db.calls, db.supply)
  {
    EndsActive(db, run.session, k, run);
    LeftLeases(db, run.session, session, db.runs[k := run]);
  }

  lemma PublishedTables(db: Db, k: Id, session: Session, run: Run)
    requires Leased(db.sessions, db.runs) && Rooted(db.sessions, db.runs, db.batches)
    requires Reserving(db.sessions, db.runs, db.admissions)
    requires k in db.runs && db.runs[k].status.Active? && db.runs[k].session in db.sessions
    requires !run.status.Active? && RunAges(db.runs[k], run) && SessionAges(db.sessions[run.session], session)
    ensures Rooted(db.sessions[run.session := session], db.runs[k := run], db.batches)
    ensures SessionsAge(db.sessions, db.sessions[run.session := session], db.supply)
    ensures RunsAge(db.runs, db.runs[k := run], db.sessions[run.session := session])
    ensures Reserving(db.sessions[run.session := session], db.runs[k := run], WithoutRun(db.admissions, k))
  {
    EndsActive(db, run.session, k, run);
    LeftRoots(db, run.session, session, db.runs[k := run]);
    OwnedReservations(db, k);
    LeftReservations(db, run.session, session, db.runs[k := run], WithoutRun(db.admissions, k));
  }

  lemma PublishedBatches(db: Db, k: Id, session: Session, run: Run)
    requires Leased(db.sessions, db.runs) && Batched(db.sessions, db.runs, db.batches)
    requires k in db.runs && db.runs[k].status.Active? && db.runs[k].session in db.sessions
    requires !run.status.Active? && RunAges(db.runs[k], run) && !session.state.WaitingTool?
    ensures Batched(db.sessions[run.session := session], db.runs[k := run], db.batches)
    ensures BatchesAge(db.batches, db.batches, db.runs, db.runs[k := run], db.sessions[run.session := session])
  {
    EndsActive(db, run.session, k, run);
    LeftBatches(db, run.session, session, db.runs[k := run]);
  }

  /** The session at its new head, before any batch is published with it. */
  function Headed(db: Db, k: Id, f: Final, now: real): Db
    requires k in db.runs && db.runs[k].session in db.sessions && f.count >= 0
  {
    Publish(db, k, f, [], now)
  }

  lemma HeadedKeeps(db: Db, k: Id, lease: Id, f: Final, now: real)
    requires Inv(db) && Owns(db, k, lease) && f.count >= db.runs[k].parentCount
    ensures Keeps(db, Headed(db, k, f, now))
  {
    hide Leased, Numbered, Rooted, Reserving, Batched, Uniform, SessionsAge, RunsAge, BatchesAge, BatchesFresh, CallsAge;
    Unchanged(db);
    ParentFacts(db, k);
    var after := Headed(db, k, f, now);
    var session, run := after.sessions[db.runs[k].session], after.runs[k];
    PublishedLeases(db, k, session, run);
    PublishedTables(db, k, session, run);
    PublishedBatches(db, k, session, run);
  }

  lemma ParentFacts(db: Db, k: Id)
    requires Leased(db.sessions, db.runs) && k in db.runs && db.runs[k].status.Active?
    ensures Holds(db.sessions, db.runs[k])
  {
  }

  /** A session at its head starts to wait for a new pending batch. */
  lemma WaitedLeases(db: Db, s: Id)
    requires Leased(db.sessions, db.runs) && s in db.sessions && db.sessions[s].state.Idle?
    ensures Leased(db.sessions[s := db.sessions[s].(state := WaitingTool)], db.runs)
  {
  }

  lemma WaitedTables(db: Db, s: Id, batch: ToolBatch, rows: seq<ToolRow>)
    requires Numbered(db.sessions, db.batches, db.calls, db.supply) && Rooted(db.sessions, db.runs, db.batches)
    requires Reserving(db.sessions, db.runs, db.admissions) && s in db.sessions && db.sessions[s].state.Idle?
    requires batch.session == s && batch.run in db.runs && db.runs[batch.run].session == s
    requires db.runs[batch.run].status.Completed? && (forall b :: b in db.batches ==> db.batches[b].run != batch.run)
    ensures var sessions := db.sessions[s := db.sessions[s].(state := WaitingTool)];
            && Rooted(sessions, db.runs, db.batches[db.supply := batch]) && Reserving(sessions, db.runs, db.admissions)
            && SessionsAge(db.sessions, sessions, db.supply) && RunsAge(db.runs, db.runs, sessions)
  {
    assert db.supply !in db.batches;
  }

  lemma {:induction false} RowsAre(calls: Calls, b: Id, rows: seq<ToolRow>)
    requires forall c :: c in calls ==> c.batch != b
    ensures var after := WithRows(calls, b, rows);
            && (forall c :: c in after && c.batch != b ==> c in calls && after[c] == calls[c])
            && (forall c :: c in calls ==> c in after && after[c] == calls[c])
            && (forall c :: c in after && c.batch == b ==>
                  after[c].state.Pending? && after[c].result == NONE && after[c].settledAt == 0.0)
    decreases |rows|
  {
    if rows != [] { RowsAre(calls, b, rows[..|rows| - 1]); }
  }

  lemma WaitedNumbers(db: Db, s: Id, batch: ToolBatch, rows: seq<ToolRow>)
    requires Numbered(db.sessions, db.batches, db.calls, db.supply) && s in db.sessions
    ensures Numbered(db.sessions[s := db.sessions[s].(state := WaitingTool)], db.batches[db.supply := batch],
                     WithRows(db.calls, db.supply, rows), db.supply + 1)
  {
    RowsAre(db.calls, db.supply, rows);
  }

  lemma WaitedBatches(db: Db, s: Id, batch: ToolBatch)
    requires Batched(db.sessions, db.runs, db.batches) && Numbered(db.sessions, db.batches, db.calls, db.supply)
    requires s in db.sessions && db.sessions[s].state.Idle? && batch.session == s && batch.state.Pending?
    requires batch.settledBy == NONE && batch.settledAt == 0.0
    requires batch.head == db.sessions[s].head && batch.count == db.sessions[s].count
    requires !HasPending(db.batches, s) && (forall k :: k in db.runs && db.runs[k].session == s ==> !db.runs[k].status.Active?)
    ensures var sessions := db.sessions[s := db.sessions[s].(state := WaitingTool)];
            var batches := db.batches[db.supply := batch];
            && Batched(sessions, db.runs, batches)
            && BatchesAge(db.batches, batches, db.runs, db.runs, sessions)
            && BatchesFresh(db.batches, batches, db.supply)
  {
    var batches := db.batches[db.supply := batch];
    assert db.supply !in db.batches;
    forall b | b in db.batches && db.batches[b].session == s ensures !Awaited(db.runs, db.batches[b]) {
      assert !db.batches[b].state.Pending?;
    }
    forall t | t in db.sessions && t != s && db.sessions[t].state.WaitingTool?
      ensures PendingAt(batches, t, db.sessions[t].head, db.sessions[t].count)
    {
      var b :| b in db.batches && db.batches[b].session == t && db.batches[b].head == db.sessions[t].head
               && db.batches[b].count == db.sessions[t].count && db.batches[b].state.Pending?;
      assert batches[b] == db.batches[b];
    }
    assert batches[db.supply] == batch;
  }

  lemma WaitedCalls(db: Db, batch: ToolBatch, rows: seq<ToolRow>)
    requires Uniform(db.batches, db.calls) && Numbered(db.sessions, db.batches, db.calls, db.supply)
    requires batch.state.Pending?
    ensures var batches := db.batches[db.supply := batch]; var calls := WithRows(db.calls, db.supply, rows);
            Uniform(batches, calls) && CallsAge(db.calls, calls, db.batches, batches)
  {
    RowsAre(db.calls, db.supply, rows);
  }

  lemma WaitKeeps(db: Db, s: Id, batch: ToolBatch, rows: seq<ToolRow>)
    requires Inv(db) && s in db.sessions && db.sessions[s].state.Idle?
    requires batch.session == s && batch.run in db.runs && db.runs[batch.run].session == s
    requires db.runs[batch.run].status.Completed? && (forall b :: b in db.batches ==> db.batches[b].run != batch.run)
    requires batch.state.Pending? && batch.settledBy == NONE && batch.settledAt == 0.0
    requires batch.head == db.sessions[s].head && batch.count == db.sessions[s].count && !HasPending(db.batches, s)
    ensures Keeps(db, db.(sessions := db.sessions[s := db.sessions[s].(state := WaitingTool)],
                          batches := db.batches[db.supply := batch], calls := WithRows(db.calls, db.supply, rows),
                          supply := db.supply + 1))
  {
    hide Leased, Numbered, Rooted, Reserving, Batched, Uniform, SessionsAge, RunsAge, BatchesAge, BatchesFresh, CallsAge,
      WithRows;
    NoActive(db, s);
    WaitedLeases(db, s);
    WaitedTables(db, s, batch, rows);
    WaitedNumbers(db, s, batch, rows);
    WaitedBatches(db, s, batch);
    WaitedCalls(db, batch, rows);
  }

  lemma NoActive(db: Db, s: Id)
    requires Leased(db.sessions, db.runs) && s in db.sessions && !db.sessions[s].state.Running?
    ensures forall k :: k in db.runs && db.runs[k].session == s ==> !db.runs[k].status.Active?
  {
  }

  lemma PublishKeeps(db: Db, k: Id, lease: Id, f: Final, rows: seq<ToolRow>, now: real)
    requires Inv(db) && Owns(db, k, lease) && f.count >= db.runs[k].parentCount
    requires rows != [] ==> !HasPending(db.batches, db.runs[k].session)
    ensures Keeps(db, Publish(db, k, f, rows, now))
  {
    hide Inv, Evolves, WithRows, HasPending, WithoutRun;
    HeadedKeeps(db, k, lease, f, now);
    if rows != [] {
      var m := Headed(db, k, f, now);
      var s := db.runs[k].session;
      var after := Publish(db, k, f, rows, now);
      Unbatched(db, k);
      PublishShape(db, k, f, rows, now);
      WaitKeeps(m, s, after.batches[db.supply], rows);
      ComposeKept(db, m, after);
    }
  }

  lemma PublishShape(db: Db, k: Id, f: Final, rows: seq<ToolRow>, now: real)
    requires k in db.runs && db.runs[k].session in db.sessions && f.count >= 0 && rows != []
    ensures var m := Headed(db, k, f, now); var s := db.runs[k].session;
            var after := Publish(db, k, f, rows, now);
            && s in m.sessions && m.batches == db.batches && db.supply in after.batches
            && after == m.(sessions := m.sessions[s := m.sessions[s].(state := WaitingTool)],
                           batches := m.batches[m.supply := after.batches[m.supply]],
                           calls := WithRows(m.calls, m.supply, rows), supply := m.supply + 1)
  {
    hide WithRows;
  }

  /** What a publication does to sessions, runs and reservations. */
  lemma PublishedRows(db: Db, k: Id, f: Final, rows: seq<ToolRow>, now: real)
    requires k in db.runs && db.runs[k].session in db.sessions && f.count >= 0
    ensures var after := Publish(db, k, f, rows, now); var s := db.runs[k].session;
            && s in after.sessions && after.sessions == db.sessions[s := after.sessions[s]]
            && after.sessions[s].namespace == db.sessions[s].namespace
            && after.sessions[s].head == f.head && after.sessions[s].count == f.count
            && after.runs == db.runs[k := db.runs[k].(status := Completed, response := f.response)]
            && after.admissions == WithoutRun(db.admissions, k)
  {
    PublishedSession(db, k, f, rows, now);
    PublishedRun(db, k, f, rows, now);
    hide Publish, WithoutRun;
  }

  lemma PublishedSession(db: Db, k: Id, f: Final, rows: seq<ToolRow>, now: real)
    requires k in db.runs && db.runs[k].session in db.sessions && f.count >= 0
    ensures var after := Publish(db, k, f, rows, now).sessions; var s := db.runs[k].session;
            && s in after && after == db.sessions[s := after[s]] && after[s].namespace == db.sessions[s].namespace
            && after[s].head == f.head && after[s].count == f.count
  {
    hide WithRows, WithoutRun, StoreResponse, ExpiryOf;
  }

  lemma PublishedRun(db: Db, k: Id, f: Final, rows: seq<ToolRow>, now: real)
    requires k in db.runs && db.runs[k].session in db.sessions && f.count >= 0
    ensures var after := Publish(db, k, f, rows, now);
            && after.runs == db.runs[k := db.runs[k].(status := Completed, response := f.response)]
            && after.admissions == WithoutRun(db.admissions, k)
  {
    hide WithRows, WithoutRun, StoreResponse, ExpiryOf;
  }

  lemma Unbatched(db: Db, k: Id)
    requires Inv(db) && k in db.runs && db.runs[k].status.Active?
    ensures forall b :: b in db.batches ==> db.batches[b].run != k
  {
  }

  lemma FinalizeKeeps(db: Db, k: Id, lease: Id, f: Final, now: real)
    requires Inv(db)
    ensures Keeps(db, Finalize(db, k, lease, f, now).db)
  {
    hide Inv, Evolves, Publish, HasPending, GoodRequests, GoodRecord, GoodPrefixes, Storable, Taken, Repeats, Owns, Rows;
    Unchanged(db);
    var r := Finalize(db, k, lease, f, now);
    if r.db != db {
      LeaseFacts(db, k, lease);
      PublishKeeps(db, k, lease, f, Rows(f.requests, f.schemas), now);
    }
  }

  // ---- settling ----

  lemma SettledBatches(db: Db, k: Id, b: Id, now: real)
    requires Batched(db.sessions, db.runs, db.batches) && Leased(db.sessions, db.runs)
    requires b in db.batches && db.batches[b].state.Pending? && k in db.runs && db.runs[k].status.Active?
    requires db.batches[b].session == db.runs[k].session
    ensures var batches := db.batches[b := db.batches[b].(state := Settled, settledBy := k, settledAt := now)];
            Batched(db.sessions, db.runs, batches) && BatchesAge(db.batches, batches, db.runs, db.runs, db.sessions)
            && BatchesFresh(db.batches, batches, db.supply)
  {
    var batches := db.batches[b := db.batches[b].(state := Settled, settledBy := k, settledAt := now)];
    assert Holds(db.sessions, db.runs[k]);
    forall t | t in db.sessions && db.sessions[t].state.WaitingTool?
      ensures PendingAt(batches, t, db.sessions[t].head, db.sessions[t].count)
    {
      var x :| x in db.batches && db.batches[x].session == t && db.batches[x].head == db.sessions[t].head
               && db.batches[x].count == db.sessions[t].count && db.batches[x].state.Pending?;
      assert batches[x] == db.batches[x];
    }
  }

  lemma SettledNames(db: Db, k: Id, b: Id, results: map<Id, Id>, now: real)
    requires Numbered(db.sessions, db.batches, db.calls, db.supply) && Rooted(db.sessions, db.runs, db.batches)
    requires b in db.batches
    ensures var batches := db.batches[b := db.batches[b].(state := Settled, settledBy := k, settledAt := now)];
            Numbered(db.sessions, batches, SettleCalls(db.calls, b, results, now), db.supply)
            && Rooted(db.sessions, db.runs, batches)
  {
  }

  lemma SettledCalls(db: Db, k: Id, b: Id, results: map<Id, Id>, now: real)
    requires Uniform(db.batches, db.calls)
    requires b in db.batches && db.batches[b].state.Pending? && results.Keys == CallsOf(db.calls, b)
    ensures var batches := db.batches[b := db.batches[b].(state := Settled, settledBy := k, settledAt := now)];
            var calls := SettleCalls(db.calls, b, results, now);
            Uniform(batches, calls) && CallsAge(db.calls, calls, db.batches, batches)
  {
    forall c | c in db.calls && c.batch == b ensures c.call in results {
      assert c.call in CallsOf(db.calls, b);
    }
  }

  lemma SettleKeeps(db: Db, k: Id, lease: Id, b: Id, results: Option<map<Id, Id>>, schemas: map<Id, Id>, now: real)
    requires Inv(db) && Newest(db, k, b)
    ensures Keeps(db, Settle(db, k, lease, b, results, schemas, now).db)
  {
    hide Leased, Numbered, Rooted, Reserving, Batched, Uniform, SessionsAge, RunsAge, BatchesAge, BatchesFresh, CallsAge,
      SchemasHold, SameResults, AnyAtParent, SettleCalls, CallsOf;
    Unchanged(db);
    var r := Settle(db, k, lease, b, results, schemas, now);
    if r.db != db {
      LeaseFacts(db, k, lease);
      SettledBatches(db, k, b, now);
      SettledNames(db, k, b, results.value, now);
      SettledCalls(db, k, b, results.value, now);
    }
  }

  // ---- heartbeat, generations, configuration ----

  /** Only the deadlines of running sessions move. */
  ghost predicate Extended(sessions: Sessions, later: Sessions) {
    && sessions.Keys == later.Keys
    && forall s :: s in sessions ==> later[s] == sessions[s].(deadline := later[s].deadline)
  }

  lemma ExtendedLeases(db: Db, later: Sessions)
    requires Leased(db.sessions, db.runs) && Numbered(db.sessions, db.batches, db.calls, db.supply)
    requires Extended(db.sessions, later)
    ensures Leased(later, db.runs) && Numbered(later, db.batches, db.calls, db.supply)
  {
  }

  lemma ExtendedTables(db: Db, later: Sessions)
    requires Rooted(db.sessions, db.runs, db.batches) && Reserving(db.sessions, db.runs, db.admissions)
    requires Extended(db.sessions, later)
    ensures Rooted(later, db.runs, db.batches) && Reserving(later, db.runs, db.admissions)
    ensures SessionsAge(db.sessions, later, db.supply) && RunsAge(db.runs, db.runs, later)
  {
  }

  lemma ExtendedBatches(db: Db, later: Sessions)
    requires Batched(db.sessions, db.runs, db.batches) && Extended(db.sessions, later)
    ensures Batched(later, db.runs, db.batches) && BatchesAge(db.batches, db.batches, db.runs, db.runs, later)
  {
  }

  lemma HeartbeatKeeps(db: Db, k: Id, lease: Id, seconds: real, now: real)
    requires Inv(db)
    ensures Keeps(db, Heartbeat(db, k, lease, seconds, now).db)
  {
    hide Leased, Numbered, Rooted, Reserving, Batched, Uniform, SessionsAge, RunsAge, BatchesAge, BatchesFresh, CallsAge;
    Unchanged(db);
    var later := Extend(db.sessions, lease, now + seconds);
    ExtendedLeases(db, later);
    ExtendedTables(db, later);
    ExtendedBatches(db, later);
  }

  lemma ConfigureKeeps(db: Db, publications: map<Id, Publication>, keys: map<Id, Id>)
    requires Inv(db)
    ensures Keeps(db, db.(publications := publications, keys := keys))
  {
    hide Leased, Numbered, Rooted, Reserving, Batched, Uniform, SessionsAge, RunsAge, BatchesAge, BatchesFresh, CallsAge;
    Unchanged(db);
  }

  lemma ExpiredMoves(db: Db, publication: Id, generation: nat, now: real)
    requires Leased(db.sessions, db.runs)
    ensures Moved(db.sessions, ExpireGenerations(db, publication, generation, now).sessions)
  {
  }

  /** Which batches a generation expiry withdraws. */
  lemma ExpiredOne(db: Db, publication: Id, generation: nat, now: real, b: Id)
    requires b in db.batches
    ensures var after := ExpireGenerations(db, publication, generation, now);
            && b in after.batches
            && after.batches[b] == (if db.batches[b].state.Pending? && OldBatch(db.batches, db.sessions, b, publication, generation)
                                    then db.batches[b].(state := Withdrawn, settledAt := now) else db.batches[b])
  {
  }

  lemma ExpiredWaits(db: Db, publication: Id, generation: nat, now: real, s: Id)
    requires Batched(db.sessions, db.runs, db.batches)
    requires var after := ExpireGenerations(db, publication, generation, now).sessions;
             s in after && after[s].state.WaitingTool?
    ensures var after := ExpireGenerations(db, publication, generation, now);
            PendingAt(after.batches, s, after.sessions[s].head, after.sessions[s].count)
  {
    var b :| b in db.batches && db.batches[b].session == s && db.batches[b].head == db.sessions[s].head
             && db.batches[b].count == db.sessions[s].count && db.batches[b].state.Pending?;
    ExpiredOne(db, publication, generation, now, b);
  }

  /** Every batch stays as it is, or a pending one is withdrawn. */
  ghost predicate SomeWithdrawn(batches: Batches, later: Batches, now: real) {
    && later.Keys == batches.Keys
    && forall b :: b in batches ==>
         later[b] == batches[b]
         || (batches[b].state.Pending? && later[b] == batches[b].(state := Withdrawn, settledAt := now))
  }

  lemma WithdrawnAges(sessions: Sessions, later: Sessions, runs: Runs, batches: Batches, after: Batches, supply: nat,
                      now: real)
    requires Batched(sessions, runs, batches) && SomeWithdrawn(batches, after, now)
    requires forall s :: s in later && later[s].state.WaitingTool? ==>
               PendingAt(after, s, later[s].head, later[s].count)
    ensures Batched(later, runs, after) && BatchesAge(batches, after, runs, runs, later)
    ensures BatchesFresh(batches, after, supply)
  {
    hide PendingAt;
  }

  lemma ExpiredBatches(db: Db, publication: Id, generation: nat, now: real)
    requires Batched(db.sessions, db.runs, db.batches)
    ensures var after := ExpireGenerations(db, publication, generation, now);
            && Batched(after.sessions, db.runs, after.batches)
            && BatchesAge(db.batches, after.batches, db.runs, db.runs, after.sessions)
            && BatchesFresh(db.batches, after.batches, db.supply)
  {
    var after := ExpireGenerations(db, publication, generation, now);
    assert after.batches.Keys == db.batches.Keys;
    hide Batched, BatchesAge, BatchesFresh, PendingAt, ExpireGenerations;
    forall b | b in db.batches ensures b in after.batches
      && (after.batches[b] == db.batches[b]
          || (db.batches[b].state.Pending? && after.batches[b] == db.batches[b].(state := Withdrawn, settledAt := now)))
    {
      ExpiredOne(db, publication, generation, now, b);
    }
    forall s | s in after.sessions && after.sessions[s].state.WaitingTool?
      ensures PendingAt(after.batches, s, after.sessions[s].head, after.sessions[s].count)
    {
      ExpiredWaits(db, publication, generation, now, s);
    }
    WithdrawnAges(db.sessions, after.sessions, db.runs, db.batches, after.batches, db.supply, now);
  }

  lemma ExpiredCalls(db: Db, publication: Id, generation: nat, now: real)
    requires Uniform(db.batches, db.calls)
    ensures var after := ExpireGenerations(db, publication, generation, now);
            Uniform(after.batches, after.calls) && CallsAge(db.calls, after.calls, db.batches, after.batches)
  {
  }

  lemma ExpiredNames(db: Db, sessions: Sessions, publication: Id, generation: nat, now: real)
    requires Numbered(sessions, db.batches, db.calls, db.supply) && Rooted(sessions, db.runs, db.batches)
    ensures var after := ExpireGenerations(db, publication, generation, now);
            Numbered(sessions, after.batches, after.calls, db.supply) && Rooted(sessions, db.runs, after.batches)
  {
  }

  lemma ExpireGenerationsKeeps(db: Db, publication: Id, generation: nat, now: real)
    requires Inv(db)
    ensures Keeps(db, ExpireGenerations(db, publication, generation, now))
  {
    hide Leased, Numbered, Rooted, Reserving, Batched, Uniform, SessionsAge, RunsAge, BatchesAge, BatchesFresh, CallsAge, Moved;
    Unchanged(db);
    var after := ExpireGenerations(db, publication, generation, now);
    ExpiredMoves(db, publication, generation, now);
    MovedLeases(db, after.sessions);
    MovedRoots(db, after.sessions);
    MovedReservations(db, after.sessions);
    ExpiredBatches(db, publication, generation, now);
    ExpiredCalls(db, publication, generation, now);
    ExpiredNames(db, after.sessions, publication, generation, now);
  }

  lemma ResetKeeps(db: Db, publication: Id, now: real)
    requires Inv(db)
    ensures Keeps(db, Reset(db, publication, now).db)
  {
    hide Inv, Evolves, ExpireGenerations;
    Unchanged(db);
    var r := Reset(db, publication, now);
    if r.result.Ok? {
      var next := db.publications[publication].(generation := db.publications[publication].generation + 1);
      var moved := db.(publications := db.publications[publication := next]);
      ConfigureKeeps(db, moved.publications, db.keys);
      ExpireGenerationsKeeps(moved, publication, next.generation, now);
      ComposeKept(db, moved, r.db);
    }
  }
}

/** Runs and tool calls: what acquiring, publishing and settling answer and write, told from the arguments and the rows
    alone. */
module ApiRunLaws {
  import opened Basics
  import opened ApiTypes
  import opened ApiSessions
  import opened ApiInvariants
  import opened ApiSessionLaws

  // ---- acquire ----

  /** The run under way on the session for this very request, still inside its replay window. */
  ghost predicate Same(db: Db, k: Id, s: Id, head: Id, count: int, fingerprint: Id, now: real) {
    && k in db.runs && db.runs[k].session == s && db.runs[k].status == RunStatus.Active
    && db.runs[k].parentHead == head && db.runs[k].parentCount == count && db.runs[k].fingerprint == fingerprint
    && db.runs[k].replayUntil >= now
  }

  /** A batch that waits for results at this head. */
  ghost predicate Awaits(db: Db, s: Id, head: Id, count: int) {
    exists b :: b in db.batches && db.batches[b].session == s && db.batches[b].state == ToolState.Pending
                && db.batches[b].head == head && db.batches[b].count == count
  }

  /** The reservations whose time is not up. */
  ghost predicate Purged(db: Db, after: Db, now: real) {
    && after == db.(admissions := after.admissions)
    && Kept(db.admissions, after.admissions, a => a in db.admissions && db.admissions[a].replayUntil >= now)
  }

  /** A reservation in its time, whose run and session are both under way and the session not lapsed. */
  ghost predicate Reserves(db: Db, key: AdmissionKey, now: real) {
    && key in db.admissions && db.admissions[key].replayUntil >= now
    && var held := db.admissions[key];
       && held.run in db.runs && db.runs[held.run].status == RunStatus.Active && held.session in db.sessions
       && db.sessions[held.session].state == SessionState.Running && now < db.sessions[held.session].deadline
  }

  /** The key's sessions with a run that has time left. */
  ghost function Occupied(db: Db, ns: Namespace, now: real): set<Id> {
    set s | s in db.sessions && SameKey(db.sessions[s].namespace, ns)
            && db.sessions[s].state == SessionState.Running && now < db.sessions[s].deadline
  }

  /** The answer that joins the caller to the reservation's run. */
  ghost predicate Joins(db: Db, key: AdmissionKey, answer: Answer) {
    && key in db.admissions && db.admissions[key].run in db.runs
    && answer == Attached(db.admissions[key].session, db.admissions[key].run, db.runs[db.admissions[key].run].lease)
  }

  /** The session's head is free to be built on. An equal request that is reserved anywhere is joined. Otherwise, within
      the key's quota, the run starts under a lease of its own and reserves the request for the replay window. */
  ghost predicate TakesHead(db: Db, s: Id, run: Id, fingerprint: Id, lease: real, window: real, now: real, r: Tx<Answer>)
    requires s in db.sessions && db.sessions[s].namespace.publication in db.publications
  {
    var session := db.sessions[s]; var quota := db.publications[session.namespace.publication].maxRuns;
    var key := AdmissionKey(session.namespace, session.head, session.count, fingerprint);
    if Reserves(db, key, now) then Purged(db, r.db, now) && r.result.Ok? && Joins(db, key, r.result.value)
    else if run in db.runs then
      if db.runs[run].session == s && db.runs[run].fingerprint == fingerprint && db.runs[run].status == RunStatus.Active
      then Purged(db, r.db, now) && r.result == Ok(Attached(s, run, db.runs[run].lease))
      else r == Tx(db, Fail(Invalid))
    else if quota <= 0 || quota <= |Occupied(db, session.namespace, now)| then r == Tx(db, Fail(RunQuota))
    else if key in db.admissions && db.admissions[key].replayUntil >= now then
      if db.admissions[key].run in db.runs && db.runs[db.admissions[key].run].status == RunStatus.Active
      then Purged(db, r.db, now) && r.result.Ok? && Joins(db, key, r.result.value)
      else r == Tx(db, Fail(Conflict))
    else if exists a :: a in db.admissions && db.admissions[a].replayUntil >= now && db.admissions[a].run == run then
      r == Tx(db, Fail(Conflict))
    else
      && r.result == Ok(Acquired(run, db.supply))
      && (exists purged :: Purged(db, purged, now) && Starts(purged, r.db, s, key, run, lease, window, now))
  }

  /** The run starts on the session's head, and its request is reserved. */
  ghost predicate Starts(db: Db, after: Db, s: Id, key: AdmissionKey, run: Id, lease: real, window: real, now: real)
    requires s in db.sessions
  {
    var session := db.sessions[s];
    after == db.(
      admissions := db.admissions[key := Reservation(s, run, now + window)],
      sessions := db.sessions[s := session.(state := SessionState.Running, lease := db.supply, deadline := now + lease)],
      runs := db.runs[run := Run(s, db.supply, session.head, session.count, key.fingerprint, RunStatus.Active, NONE,
                                 now + window)],
      supply := db.supply + 1)
  }

  lemma PurgedIs(db: Db, now: real)
    ensures Purged(db, db.(admissions := Purge(db.admissions, now)), now)
  {
  }

  lemma OccupiedIs(db: Db, ns: Namespace, now: real)
    ensures Occupied(db, ns, now) == LiveRuns(db.sessions, ns, now)
  {
  }

  lemma PurgeFacts(db: Db, key: AdmissionKey, run: Id, now: real)
    ensures var purged := db.(admissions := Purge(db.admissions, now));
            && (LiveReservation(purged, key, now) <==> Reserves(db, key, now))
            && (key in purged.admissions <==> key in db.admissions && db.admissions[key].replayUntil >= now)
            && (key in purged.admissions ==> purged.admissions[key] == db.admissions[key])
            && (Reserved(purged.admissions, run)
                <==> exists a :: a in db.admissions && db.admissions[a].replayUntil >= now && db.admissions[a].run == run)
  {
    var purged := Purge(db.admissions, now);
    if a :| a in db.admissions && db.admissions[a].replayUntil >= now && db.admissions[a].run == run {
      assert a in purged && purged[a].run == run;
    }
  }

  lemma TakesHeadIs(db: Db, s: Id, run: Id, fingerprint: Id, lease: real, window: real, now: real)
    requires s in db.sessions && db.sessions[s].namespace.publication in db.publications
    ensures TakesHead(db, s, run, fingerprint, lease, window, now, AcquireHead(db, s, run, fingerprint, lease, window, now))
  {
    var session := db.sessions[s];
    var key := AdmissionKey(session.namespace, session.head, session.count, fingerprint);
    PurgedIs(db, now);
    OccupiedIs(db, session.namespace, now);
    PurgeFacts(db, key, run, now);
    hide Purged, Purge, Reserves, LiveReservation, Reserved, Occupied, LiveRuns;
  }

  /** A lapsed lease is taken away where the session stands. */
  ghost predicate Lapses(db: Db, after: Db, s: Id)
    requires s in db.sessions
  {
    && after == db.(sessions := after.sessions, runs := after.runs, admissions := after.admissions)
    && Halted(db, after, s, db.sessions[s].expiresAt) && Abandons(db, after, s)
  }

  lemma LapsesIs(db: Db, s: Id)
    requires s in db.sessions
    ensures Lapses(db, ExpireLease(db, s), s)
  {
    AbandonsIs(db, s);
    hide Abandon, Without;
    hide Kept;
  }

  /** What an acquire answers and writes, in the order in which it looks. */
  ghost predicate AcquiresAs(db: Db, s: Id, head: Id, count: int, run: Id, fingerprint: Id, lease: real, window: real,
                             now: real, r: Tx<Answer>)
  {
    if s !in db.sessions then r == Tx(db, Ok(NotFound))
    else
      var session := db.sessions[s];
      if session.state == SessionState.Running then
        if session.deadline <= now then Lapses(db, r.db, s) && r.result == Ok(Unavailable)
        else if exists k :: Same(db, k, s, head, count, fingerprint, now) then
          exists k :: Same(db, k, s, head, count, fingerprint, now) && k in db.runs
                      && r == Tx(db, Ok(Attached(s, k, db.runs[k].lease)))
        else r == Tx(db, Ok(Busy))
      else if session.state == Quarantined || session.state == Expired then r == Tx(db, Ok(Unavailable))
      else if session.state == Idle && session.expiresAt <= now then
        r == Tx(db.(sessions := db.sessions[s := session.(state := Expired)]), Ok(SessionExpired))
      else if !(session.head == head && session.count == count) then r == Tx(db, Ok(Stale))
      else if session.state == WaitingTool && !Awaits(db, s, head, count) then r == Tx(db, Ok(Unavailable))
      else if !Serves(db, session.namespace) then r == Tx(db, Fail(Invalid))
      else TakesHead(db, s, run, fingerprint, lease, window, now, r)
  }

  lemma SameIs(db: Db, s: Id, head: Id, count: int, fingerprint: Id, now: real)
    ensures HasRetry(db.runs, s, head, count, fingerprint, now)
            <==> exists k :: Same(db, k, s, head, count, fingerprint, now)
    ensures HasRetry(db.runs, s, head, count, fingerprint, now) ==>
              Same(db, RetryOf(db.runs, s, head, count, fingerprint, now), s, head, count, fingerprint, now)
  {
    forall k ensures Same(db, k, s, head, count, fingerprint, now)
                     <==> k in db.runs && Retries(db.runs[k], s, head, count, fingerprint, now)
    {
    }
    hide Same, Retries;
  }

  lemma AwaitsIs(db: Db, s: Id, head: Id, count: int)
    ensures PendingAt(db.batches, s, head, count) <==> Awaits(db, s, head, count)
  {
  }

  lemma AcquireLaw(db: Db, s: Id, head: Id, count: int, run: Id, request: Id, fingerprint: Id, lease: real, window: real,
                   now: real)
    ensures var r := Acquire(db, s, head, count, run, request, fingerprint, lease, window, now);
            if s == NONE || run == NONE || request == NONE || fingerprint == NONE || !(lease > 0.0) || !(window >= 0.0)
            then r == Tx(db, Fail(Invalid))
            else AcquiresAs(db, s, head, count, run, fingerprint, lease, window, now, r)
  {
    hide HasRetry, Same, PendingAt, Awaits, ExpireLease, Lapses, AcquireHead, TakesHead, Admissible, Serves;
    SameIs(db, s, head, count, fingerprint, now);
    AwaitsIs(db, s, head, count);
    if s in db.sessions {
      LapsesIs(db, s);
      ServesIs(db, db.sessions[s].namespace);
      if Admissible(db, db.sessions[s].namespace) { TakesHeadIs(db, s, run, fingerprint, lease, window, now); }
    }
  }

  lemma ServesIs(db: Db, ns: Namespace)
    ensures Admissible(db, ns) <==> Serves(db, ns)
    ensures Admissible(db, ns) ==> ns.publication in db.publications
  {
  }

  /** Whoever is attached gets the run of an equal request: under way in that session, with the caller's body fingerprint,
      parent head, item count and namespace, inside its replay window, and the lease is that run's. */
  lemma AttachedIsSame(db: Db, s: Id, head: Id, count: int, run: Id, request: Id, fingerprint: Id, lease: real, window: real,
                       now: real, t: Id, k: Id, l: Id)
    requires Inv(db)
    requires Acquire(db, s, head, count, run, request, fingerprint, lease, window, now).result == Ok(Attached(t, k, l))
    ensures Same(db, k, t, head, count, fingerprint, now) && l == db.runs[k].lease
    ensures s in db.sessions && t in db.sessions && db.sessions[t].namespace == db.sessions[s].namespace
  {
    AcquireLaw(db, s, head, count, run, request, fingerprint, lease, window, now);
    var r := Acquire(db, s, head, count, run, request, fingerprint, lease, window, now);
    hide Acquire, Lapses, Purged, Awaits, Occupied, Inv;
    if s in db.sessions && db.sessions[s].state != SessionState.Running {
      hide Same;
      RestingAttach(db, s, run, fingerprint, lease, window, now, r, t, k, l);
    }
  }

  lemma RestingAttach(db: Db, s: Id, run: Id, fingerprint: Id, lease: real, window: real, now: real, r: Tx<Answer>, t: Id,
                      k: Id, l: Id)
    requires Inv(db) && s in db.sessions && db.sessions[s].state != SessionState.Running
    requires db.sessions[s].namespace.publication in db.publications
    requires TakesHead(db, s, run, fingerprint, lease, window, now, r) && r.result == Ok(Attached(t, k, l))
    ensures Same(db, k, t, db.sessions[s].head, db.sessions[s].count, fingerprint, now) && l == db.runs[k].lease
    ensures t in db.sessions && db.sessions[t].namespace == db.sessions[s].namespace
  {
    var session := db.sessions[s];
    var key := AdmissionKey(session.namespace, session.head, session.count, fingerprint);
    if run in db.runs && db.runs[run].session == s { NotUnderway(db, run); }
    if key in db.admissions { ReservedRun(db, key); }
    hide Inv, Purged, Occupied;
  }

  lemma NotUnderway(db: Db, k: Id)
    requires Inv(db) && k in db.runs && db.runs[k].session in db.sessions
    requires db.sessions[db.runs[k].session].state != SessionState.Running
    ensures db.runs[k].status != RunStatus.Active
  {
  }

  lemma ReservedRun(db: Db, key: AdmissionKey)
    requires Inv(db) && key in db.admissions
    ensures var held := db.admissions[key];
            && held.run in db.runs && db.runs[held.run].status == RunStatus.Active && db.runs[held.run].session == held.session
            && held.session in db.sessions && db.sessions[held.session].namespace == key.namespace
            && db.runs[held.run].parentHead == key.head && db.runs[held.run].parentCount == key.count
            && db.runs[held.run].fingerprint == key.fingerprint && db.runs[held.run].replayUntil == held.replayUntil
  {
  }

  /** The probe answers the live reservation, and leaves only those in their time. */
  lemma FindActiveLaw(db: Db, key: AdmissionKey, now: real)
    ensures var r := FindActive(db, key, now);
            && Purged(db, r.db, now) && r.result.Ok?
            && (r.result.value.Some? <==> Reserves(db, key, now))
            && (r.result.value.Some? ==> Joins(db, key, r.result.value.value))
  {
    PurgedIs(db, now);
    PurgeFacts(db, key, NONE, now);
    hide Purged, Purge, LiveReservation;
  }
}

/** Sessions and leases: what their transactions answer and write, told from the arguments and the rows alone. */
module ApiSessionLaws {
  import opened Basics
  import opened ApiTypes
  import opened ApiSessions

  // ---- sessions ----

  /** The publication is open at this generation for this dialect and model, and the key is its own. */
  ghost predicate Serves(db: Db, ns: Namespace) {
    && ns.key in db.keys && db.keys[ns.key] == ns.publication && ns.publication in db.publications
    && var p := db.publications[ns.publication];
       p.open && p.generation == ns.generation && ns.profile in p.profiles
  }

  predicate SameKey(a: Namespace, b: Namespace) { a.publication == b.publication && a.key == b.key }

  /** The key's sessions that are running, or neither expired nor past their time. */
  ghost function Counted(db: Db, ns: Namespace, now: real): set<Id> {
    set s | s in db.sessions && SameKey(db.sessions[s].namespace, ns)
            && (db.sessions[s].state.Running? || (db.sessions[s].state != Expired && now < db.sessions[s].expiresAt))
  }

  lemma CountedIs(db: Db, ns: Namespace, now: real)
    ensures Counted(db, ns, now) == Retained(db.sessions, ns, now)
  {
  }

  /** A new session is idle, has its conversation to itself, and lives as long as its publication says. */
  lemma CreateLaw(db: Db, ns: Namespace, conversation: Id, head: Id, count: int, now: real)
    ensures var r := Create(db, ns, conversation, head, count, now);
            if conversation == NONE || count < 0 || !Serves(db, ns) then r == Tx(db, Fail(Invalid))
            else
              var p := db.publications[ns.publication];
              if p.maxSessions <= 0 || p.maxSessions <= |Counted(db, ns, now)| then r == Tx(db, Fail(SessionQuota))
              else if exists s :: s in db.sessions && db.sessions[s].conversation == conversation then r == Tx(db, Fail(Conflict))
              else r == Tx(db.(sessions := db.sessions[db.supply := Session(ns, conversation, head, count, Idle, NONE, 0.0,
                                                                            p.ttl, now + p.ttl)],
                               supply := db.supply + 1), Ok(db.supply))
  {
    CountedIs(db, ns, now);
    hide Counted, Retained;
  }

  /** The rows kept are these, as they were. */
  ghost predicate Kept<K(!new), V>(before: map<K, V>, after: map<K, V>, keeps: K -> bool) {
    && (forall k :: k in after <==> k in before && keeps(k))
    && (forall k :: k in after ==> k in before && after[k] == before[k])
  }

  /** The session is gone with its runs, reservations, batches, their calls, and responses; every other row is there. */
  ghost predicate Gone(db: Db, after: Db, s: Id) {
    && after == db.(sessions := after.sessions, runs := after.runs, admissions := after.admissions,
                    batches := after.batches, calls := after.calls, responses := after.responses)
    && Kept(db.sessions, after.sessions, x => x != s)
    && Kept(db.runs, after.runs, k => k in db.runs && db.runs[k].session != s)
    && Kept(db.admissions, after.admissions, a => a in db.admissions && db.admissions[a].session != s)
    && Kept(db.batches, after.batches, b => b in db.batches && db.batches[b].session != s)
    && Kept(db.calls, after.calls, (c: CallKey) => !(c.batch in db.batches && db.batches[c.batch].session == s))
    && Kept(db.responses, after.responses, k => k in db.responses && db.responses[k].session != s)
  }

  lemma GoneIs(db: Db, s: Id)
    ensures Gone(db, Drop(db, s), s)
  {
    KeptRuns(db, s);
    KeptBatches(db, s);
    hide Kept, RunsOutside, Without, BatchesOutside, CallsOutside, ResponsesOutside;
  }

  lemma KeptRuns(db: Db, s: Id)
    ensures Kept(db.sessions, db.sessions - {s}, x => x != s)
    ensures Kept(db.runs, RunsOutside(db.runs, s), k => k in db.runs && db.runs[k].session != s)
    ensures Kept(db.admissions, Without(db.admissions, s), a => a in db.admissions && db.admissions[a].session != s)
  {
  }

  lemma KeptBatches(db: Db, s: Id)
    ensures Kept(db.batches, BatchesOutside(db.batches, s), b => b in db.batches && db.batches[b].session != s)
    ensures Kept(db.calls, CallsOutside(db.calls, db.batches, s),
                 (c: CallKey) => !(c.batch in db.batches && db.batches[c.batch].session == s))
    ensures Kept(db.responses, ResponsesOutside(db.responses, s), k => k in db.responses && db.responses[k].session != s)
  {
  }

  /** An idle session on which nothing was ever run. */
  ghost predicate Unstarted(db: Db, s: Id) {
    s in db.sessions && db.sessions[s].state == Idle && forall k :: k in db.runs ==> db.runs[k].session != s
  }

  /** Only an unstarted session can be discarded, or quarantined to be cleaned up at once. */
  lemma UnstartedLaw(db: Db, s: Id, now: real)
    ensures if Unstarted(db, s) then Gone(db, DiscardEmpty(db, s), s) else DiscardEmpty(db, s) == db
    ensures QuarantineUnstarted(db, s, now)
            == if !Unstarted(db, s) then db
               else db.(sessions := db.sessions[s := db.sessions[s].(
                      state := Quarantined, expiresAt := if now < db.sessions[s].expiresAt then now else db.sessions[s].expiresAt)])
  {
    GoneIs(db, s);
    hide Gone, Drop;
  }

  // ---- leaving ----

  /** The session stands still with no lease. */
  ghost predicate Halted(db: Db, after: Db, s: Id, expiresAt: real)
    requires s in db.sessions
  {
    after.sessions == db.sessions[s := db.sessions[s].(state := Quarantined, lease := NONE, deadline := 0.0,
                                                       expiresAt := expiresAt)]
  }

  /** Every batch that one of these runs settled waits again, its calls without results; nothing else moves. */
  ghost predicate Returned(db: Db, after: Db, whose: Id -> bool) {
    && after.batches.Keys == db.batches.Keys && after.calls.Keys == db.calls.Keys
    && (forall b :: b in db.batches ==>
          after.batches[b] == if db.batches[b].state == Settled && whose(db.batches[b].settledBy)
                              then db.batches[b].(state := Pending, settledBy := NONE, settledAt := 0.0) else db.batches[b])
    && (forall c :: c in db.calls ==>
          after.calls[c] == if db.calls[c].state == Settled && c.batch in db.batches
                               && db.batches[c.batch].state == Settled && whose(db.batches[c.batch].settledBy)
                            then db.calls[c].(state := Pending, result := NONE, settledAt := 0.0) else db.calls[c])
  }

  /** The run's lease is the session's own. */
  ghost predicate LeaseIsOwn(db: Db, k: Id, lease: Id) {
    && k in db.runs && db.runs[k].status == RunStatus.Active && db.runs[k].lease == lease
    && db.runs[k].session in db.sessions
    && var s := db.sessions[db.runs[k].session]; s.state == SessionState.Running && s.lease == lease
  }

  /** A failure under the lease ends the run, gives back what it settled, and quarantines the session. */
  lemma FailLaw(db: Db, k: Id, lease: Id, coded: bool, canceled: bool, now: real)
    ensures var r := FailRun(db, k, lease, coded, canceled, now);
            var status := if canceled then Canceled else Failed;
            if k == NONE || lease == NONE || !coded || k !in db.runs then r == Tx(db, Fail(Invalid))
            else if db.runs[k].status == status then r == Tx(db, Ok(false))
            else if !LeaseIsOwn(db, k, lease) then r == Tx(db, Fail(LeaseLost))
            else
              var s := db.runs[k].session; var expiresAt := db.sessions[s].expiresAt;
              && r.result == Ok(true)
              && r.db == db.(sessions := r.db.sessions, runs := db.runs[k := db.runs[k].(status := status)],
                             admissions := r.db.admissions, batches := r.db.batches, calls := r.db.calls)
              && Halted(db, r.db, s, if now < expiresAt then now else expiresAt)
              && Kept(db.admissions, r.db.admissions, a => a in db.admissions && db.admissions[a].run != k)
              && Returned(db, r.db, j => j == k)
  {
    KeptOthers(db, k);
    ReturnedIs(db, {k}, j => j == k);
    hide Kept, Returned, UnsettleCalls, UnsettleBatches, WithoutRun;
    if k != NONE && lease != NONE && coded && LeaseIsOwn(db, k, lease) {
      ReturnedAlso(db, FailRun(db, k, lease, coded, canceled, now).db, {k}, j => j == k);
    }
  }

  lemma KeptOthers(db: Db, k: Id)
    ensures Kept(db.admissions, WithoutRun(db.admissions, k), a => a in db.admissions && db.admissions[a].run != k)
  {
  }

  lemma ReturnedIs(db: Db, ks: set<Id>, whose: Id -> bool)
    requires forall k :: whose(k) <==> k in ks
    ensures Returned(db, db.(batches := UnsettleBatches(db.batches, ks),
                             calls := UnsettleCalls(db.calls, db.batches, ks)), whose)
  {
  }

  lemma ReturnedAlso(db: Db, after: Db, ks: set<Id>, whose: Id -> bool)
    requires Returned(db, db.(batches := UnsettleBatches(db.batches, ks), calls := UnsettleCalls(db.calls, db.batches, ks)), whose)
    requires after.batches == UnsettleBatches(db.batches, ks) && after.calls == UnsettleCalls(db.calls, db.batches, ks)
    ensures Returned(db, after, whose)
  {
    hide UnsettleBatches, UnsettleCalls;
  }

  /** A run under way on the session. */
  ghost predicate Underway(db: Db, k: Id, s: Id) {
    k in db.runs && db.runs[k].session == s && db.runs[k].status == RunStatus.Active
  }

  /** The session's runs under way are abandoned; its reservations go. */
  ghost predicate Abandons(db: Db, after: Db, s: Id) {
    && after.runs.Keys == db.runs.Keys
    && (forall k :: k in db.runs ==>
          after.runs[k] == if Underway(db, k, s) then db.runs[k].(status := Abandoned) else db.runs[k])
    && Kept(db.admissions, after.admissions, a => a in db.admissions && db.admissions[a].session != s)
  }

  /** One lapsed session of the sweep. */
  lemma AbandonLaw(db: Db, s: Id)
    requires s in db.sessions
    ensures var after := AbandonOne(db, s);
            && after == db.(sessions := after.sessions, runs := after.runs, admissions := after.admissions,
                            batches := after.batches, calls := after.calls)
            && Halted(db, after, s, db.sessions[s].expiresAt) && Abandons(db, after, s)
            && Returned(db, after, (k: Id) => Underway(db, k, s))
  {
    var ks := ActiveRuns(db.runs, s);
    ReturnedIs(db, ks, (k: Id) => Underway(db, k, s));
    KeptRuns(db, s);
    AbandonsIs(db, s);
    ReturnedAlso(db, AbandonOne(db, s), ks, (k: Id) => Underway(db, k, s));
    hide Returned, UnsettleCalls, UnsettleBatches, Abandon, Without, Kept;
  }

  lemma AbandonsIs(db: Db, s: Id)
    ensures Abandons(db, db.(runs := Abandon(db.runs, s), admissions := Without(db.admissions, s)), s)
  {
  }

  /** The rows of the sweep are the running sessions whose deadline has come, each once. */
  lemma LapsedLaw(db: Db, rows: seq<Id>, now: real)
    requires LapsedRows(db, rows, now)
    ensures forall s :: s in rows <==>
              s in db.sessions && db.sessions[s].state == SessionState.Running && now >= db.sessions[s].deadline
    ensures forall i, j :: 0 <= i < |rows| && 0 <= j < |rows| && rows[i] == rows[j] ==> i == j
  {
  }

  /** Session and run are matched by the lease, each for itself. */
  lemma HeartbeatLaw(db: Db, k: Id, lease: Id, seconds: real, now: real)
    ensures var r := Heartbeat(db, k, lease, seconds, now);
            && r.db == db.(sessions := r.db.sessions) && r.db.sessions.Keys == db.sessions.Keys
            && (forall s :: s in db.sessions ==>
                  r.db.sessions[s] == if db.sessions[s].state == SessionState.Running && db.sessions[s].lease == lease
                                      then db.sessions[s].(deadline := now + seconds) else db.sessions[s])
            && r.result == Ok(k in db.runs && db.runs[k].status == RunStatus.Active && db.runs[k].lease == lease
                              && exists s :: s in db.sessions && db.sessions[s].state == SessionState.Running
                                             && db.sessions[s].lease == lease)
  {
  }

  // ---- expiry ----

  predicate Over(session: Session, now: real) {
    now >= session.expiresAt && (session.state == Idle || session.state == Quarantined)
  }

  /** The rows claimed are over, none of the others was over earlier, and one is left only at the limit. */
  lemma SweepLaw(db: Db, rows: set<Id>, limit: nat, now: real)
    requires SweepRows(db, rows, limit, now)
    ensures |rows| <= limit && forall s :: s in rows ==> s in db.sessions && Over(db.sessions[s], now)
    ensures forall s :: s in db.sessions && Over(db.sessions[s], now) && s !in rows ==>
              |rows| == limit && forall r :: r in rows ==> r in db.sessions && db.sessions[r].expiresAt <= db.sessions[s].expiresAt
    ensures var after := SweepClaim(db, rows);
            && after == db.(sessions := after.sessions) && after.sessions.Keys == db.sessions.Keys
            && forall s :: s in db.sessions ==>
                 after.sessions[s] == if s in rows then db.sessions[s].(state := Expired) else db.sessions[s]
  {
    forall s | s in db.sessions ensures Over(db.sessions[s], now) <==> Sweepable(db.sessions[s], now) {
    }
  }

  /** A session whose conversation was deleted goes; one whose was not is tried again a minute later. */
  lemma SweptLaw(db: Db, s: Id, removed: bool, now: real)
    ensures var after := SweepDone(db, s, removed, now);
            if s !in db.sessions || db.sessions[s].state != Expired then after == db
            else if removed then Gone(db, after, s)
            else after == db.(sessions := db.sessions[s := db.sessions[s].(state := Quarantined, expiresAt := now + 60.0)])
  {
    GoneIs(db, s);
    hide Gone, Drop;
  }

  /** Of the publication, but of another generation. */
  predicate Outdated(session: Session, publication: Id, generation: nat) {
    session.namespace.publication == publication && session.namespace.generation != generation
  }

  ghost predicate OutdatedBatch(db: Db, b: Id, publication: Id, generation: nat) {
    b in db.batches && db.batches[b].session in db.sessions
    && Outdated(db.sessions[db.batches[b].session], publication, generation)
  }

  /** A reset raises the generation. Outdated sessions at rest expire at once, waiting ones are quarantined, and what they
      wait for is withdrawn; a running one is left to finish. */
  lemma ResetLaw(db: Db, publication: Id, now: real)
    ensures var r := Reset(db, publication, now);
            if publication !in db.publications || db.publications[publication].generation == 0 then r == Tx(db, Fail(Invalid))
            else
              var p := db.publications[publication]; var g := p.generation + 1;
              && r.result == Ok(g)
              && r.db == db.(publications := db.publications[publication := p.(generation := g)],
                             sessions := r.db.sessions, batches := r.db.batches, calls := r.db.calls)
              && r.db.sessions.Keys == db.sessions.Keys && r.db.batches.Keys == db.batches.Keys
              && r.db.calls.Keys == db.calls.Keys
              && (forall s :: s in db.sessions ==>
                    var was := db.sessions[s]; var expiresAt := if now < was.expiresAt then now else was.expiresAt;
                    r.db.sessions[s] == if !Outdated(was, publication, g) then was
                                        else if was.state == WaitingTool then was.(state := Quarantined, expiresAt := expiresAt)
                                        else if was.state == Idle || was.state == Quarantined then was.(expiresAt := expiresAt)
                                        else was)
              && (forall b :: b in db.batches ==>
                    r.db.batches[b] == if db.batches[b].state == Pending && OutdatedBatch(db, b, publication, g)
                                       then db.batches[b].(state := Withdrawn, settledAt := now) else db.batches[b])
              && (forall c :: c in db.calls ==>
                    r.db.calls[c] == if db.calls[c].state == Pending && OutdatedBatch(db, c.batch, publication, g)
                                     then db.calls[c].(state := Withdrawn) else db.calls[c])
  {
  }
}

/** What holds in every reachable state of the session store, and what every step may change. */
module ApiInvariants {
  import opened Basics
  import opened ApiTypes
  import opened ApiSessions

  type Sessions = map<Id, Session>
  type Runs = map<Id, Run>
  type Admissions = map<AdmissionKey, Reservation>
  type Batches = map<Id, ToolBatch>
  type Calls = map<CallKey, ToolCall>

  /** The run holds its session's lease and builds on its head. */
  predicate Holds(sessions: Sessions, run: Run) {
    && run.session in sessions && sessions[run.session].state.Running? && sessions[run.session].lease == run.lease
    && sessions[run.session].head == run.parentHead && sessions[run.session].count == run.parentCount
  }

  ghost predicate Held(runs: Runs, s: Id) {
    exists k :: k in runs && runs[k].session == s && runs[k].status.Active?
  }

  /** A session is running exactly when it has one active run, and the two share one lease. */
  ghost predicate Leased(sessions: Sessions, runs: Runs) {
    && (forall s :: s in sessions && sessions[s].state.Running? ==> sessions[s].lease != NONE && Held(runs, s))
    && (forall s :: s in sessions && !sessions[s].state.Running? ==> sessions[s].lease == NONE)
    && (forall k :: k in runs && runs[k].status.Active? ==> Holds(sessions, runs[k]))
    && (forall j, k | j in runs && k in runs && runs[j].session == runs[k].session
                      && runs[j].status.Active? && runs[k].status.Active? :: j == k)
  }

  /** Leases, sessions and batches carry ids below the supply; no two sessions share a lease. */
  ghost predicate Numbered(sessions: Sessions, batches: Batches, calls: Calls, supply: nat) {
    && 0 < supply
    && (forall s :: s in sessions ==> s < supply && sessions[s].lease < supply)
    && (forall s, t | s in sessions && t in sessions && sessions[s].lease == sessions[t].lease
                      && sessions[s].lease != NONE :: s == t)
    && (forall b :: b in batches ==> b < supply)
    && (forall c :: c in calls ==> c.batch in batches)
  }

  ghost predicate Rooted(sessions: Sessions, runs: Runs, batches: Batches) {
    && (forall k :: k in runs ==> runs[k].session in sessions)
    && (forall b :: b in batches ==>
          && batches[b].session in sessions
          && batches[b].run in runs && runs[batches[b].run].session == batches[b].session
          && runs[batches[b].run].status.Completed?)
    && (forall a, b | a in batches && b in batches && batches[a].run == batches[b].run :: a == b)
  }

  /** Every reservation is the one of an active run of a running session, under that run's own key. */
  ghost predicate Reserving(sessions: Sessions, runs: Runs, admissions: Admissions) {
    forall a :: a in admissions ==>
      && admissions[a].run in runs && runs[admissions[a].run].status.Active?
      && admissions[a].session in sessions && sessions[admissions[a].session].state.Running?
      && runs[admissions[a].run].session == admissions[a].session
      && admissions[a].replayUntil == runs[admissions[a].run].replayUntil
      && a == KeyOf(sessions, runs[admissions[a].run])
  }

  function KeyOf(sessions: Sessions, run: Run): AdmissionKey
    requires run.session in sessions
  {
    AdmissionKey(sessions[run.session].namespace, run.parentHead, run.parentCount, run.fingerprint)
  }

  /** A batch whose results are, or may become again, awaited. */
  predicate Awaited(runs: Runs, batch: ToolBatch) {
    batch.state.Pending?
    || (batch.state.Settled? && batch.settledBy in runs && runs[batch.settledBy].status.Active?)
  }

  /** At most one batch of a session is awaited; a session waits exactly for its pending batch at its
      current head. */
  ghost predicate Batched(sessions: Sessions, runs: Runs, batches: Batches) {
    && (forall a, b | a in batches && b in batches && batches[a].session == batches[b].session
                      && Awaited(runs, batches[a]) && Awaited(runs, batches[b]) :: a == b)
    && (forall s :: s in sessions && sessions[s].state.WaitingTool? ==>
          PendingAt(batches, s, sessions[s].head, sessions[s].count))
    && (forall b :: b in batches && batches[b].state.Pending? ==> batches[b].settledBy == NONE && batches[b].settledAt == 0.0)
    && (forall b :: b in batches && batches[b].state.Settled? ==>
          batches[b].settledBy in runs && runs[batches[b].settledBy].session == batches[b].session)
  }

  /** A batch and all its calls share one state; only settled calls carry a result. */
  ghost predicate Uniform(batches: Batches, calls: Calls) {
    forall c :: c in calls && c.batch in batches ==>
      && calls[c].state == batches[c.batch].state
      && (!calls[c].state.Settled? ==> calls[c].result == NONE && calls[c].settledAt == 0.0)
  }

  ghost predicate Inv(db: Db) {
    && Leased(db.sessions, db.runs)
    && Numbered(db.sessions, db.batches, db.calls, db.supply)
    && Rooted(db.sessions, db.runs, db.batches)
    && Reserving(db.sessions, db.runs, db.admissions)
    && Batched(db.sessions, db.runs, db.batches)
    && Uniform(db.batches, db.calls)
  }

  ghost predicate Init(db: Db) {
    && db.sessions == map[] && db.runs == map[] && db.admissions == map[] && db.batches == map[] && db.calls == map[]
    && db.responses == map[] && 0 < db.supply
  }

  lemma InitHolds(db: Db)
    requires Init(db)
    ensures Inv(db)
  {
  }

  // ---- what a step may change ----

  predicate Retired(s: SessionState) { s.Quarantined? || s.Expired? }

  /** A session keeps its namespace and conversation, its count never falls, and once retired it
      stays retired. */
  predicate SessionAges(s: Session, t: Session) {
    && s.namespace == t.namespace && s.conversation == t.conversation && s.count <= t.count
    && (Retired(s.state) ==> Retired(t.state) && s.head == t.head && s.count == t.count)
  }

  ghost predicate SessionsAge(earlier: Sessions, later: Sessions, supply: nat) {
    && (forall s :: s in earlier && s in later ==> SessionAges(earlier[s], later[s]))
    && (forall s :: s in later && s !in earlier ==> s >= supply)
  }

  /** A run keeps what it started with; an ended run never changes. */
  predicate RunAges(r: Run, q: Run) {
    && r.session == q.session && r.lease == q.lease && r.parentHead == q.parentHead && r.parentCount == q.parentCount
    && r.fingerprint == q.fingerprint && r.replayUntil == q.replayUntil
    && (!r.status.Active? ==> q == r)
  }

  ghost predicate RunsAge(earlier: Runs, later: Runs, sessions: Sessions) {
    forall k :: k in earlier && earlier[k].session in sessions ==> k in later && RunAges(earlier[k], later[k])
  }

  /** A batch keeps its place. A withdrawn batch is final; a settled one is final unless the run that
      settled it leaves without a head, and untouched while that run is active. */
  ghost predicate BatchAges(b: ToolBatch, d: ToolBatch, before: Runs, after: Runs) {
    && b.run == d.run && b.session == d.session && b.head == d.head && b.count == d.count && b.createdAt == d.createdAt
    && (b.state.Withdrawn? ==> d == b)
    && (b.state.Settled? && b.settledBy in before && !before[b.settledBy].status.Active? ==> d == b)
    && (b.state.Settled? && b.settledBy in after && after[b.settledBy].status.Active? ==> d == b)
    && (d.state.Settled? && d != b && d.settledBy in before && before[d.settledBy].session == b.session ==>
          before[d.settledBy].status.Active?)
  }

  ghost predicate BatchesAge(earlier: Batches, later: Batches, before: Runs, after: Runs, sessions: Sessions) {
    forall b :: b in earlier && earlier[b].session in sessions ==>
      b in later && BatchAges(earlier[b], later[b], before, after)
  }

  ghost predicate BatchesFresh(earlier: Batches, later: Batches, supply: nat) {
    && (forall b :: b in earlier && b in later ==> later[b].session == earlier[b].session)
    && (forall b :: b in later && b !in earlier ==> b >= supply)
  }

  /** Calls move with their batch and keep what they ask for. */
  ghost predicate CallsAge(earlier: Calls, later: Calls, before: Batches, after: Batches) {
    && (forall c :: c in earlier && c.batch in before && c.batch in after ==>
          && c in later
          && earlier[c].position == later[c].position && earlier[c].tool == later[c].tool
          && earlier[c].arguments == later[c].arguments && earlier[c].schema == later[c].schema
          && (before[c.batch] == after[c.batch] ==> earlier[c] == later[c]))
    && (forall c :: c in later && c.batch in before ==> c in earlier)
  }

  ghost predicate Evolves(a: Db, b: Db) {
    && SessionsAge(a.sessions, b.sessions, a.supply)
    && RunsAge(a.runs, b.runs, b.sessions)
    && BatchesAge(a.batches, b.batches, a.runs, b.runs, b.sessions)
    && BatchesFresh(a.batches, b.batches, a.supply)
    && CallsAge(a.calls, b.calls, a.batches, b.batches)
    && a.supply <= b.supply
  }

  lemma Unchanged(db: Db)
    ensures Evolves(db, db)
  {
  }

  // ---- evolution composes ----

  ghost predicate Lasting(a: Db, m: Db, b: Db) {
    forall s :: s in a.sessions && s in b.sessions ==> s in m.sessions
  }

  lemma Between(a: Db, m: Db, b: Db)
    requires Numbered(a.sessions, a.batches, a.calls, a.supply) && a.supply <= m.supply
    requires SessionsAge(m.sessions, b.sessions, m.supply)
    ensures Lasting(a, m, b)
  {
  }

  lemma SessionsCompose(a: Db, m: Db, b: Db)
    requires Lasting(a, m, b) && a.supply <= m.supply
    requires SessionsAge(a.sessions, m.sessions, a.supply) && SessionsAge(m.sessions, b.sessions, m.supply)
    ensures SessionsAge(a.sessions, b.sessions, a.supply)
  {
  }

  lemma RunsCompose(a: Db, m: Db, b: Db)
    requires Lasting(a, m, b) && (forall k :: k in a.runs ==> a.runs[k].session in a.sessions)
    requires RunsAge(a.runs, m.runs, m.sessions) && RunsAge(m.runs, b.runs, b.sessions)
    ensures RunsAge(a.runs, b.runs, b.sessions)
  {
  }

  lemma BatchesCompose(a: Db, m: Db, b: Db)
    requires Lasting(a, m, b) && Rooted(a.sessions, a.runs, a.batches)
    requires Batched(a.sessions, a.runs, a.batches) && Batched(m.sessions, m.runs, m.batches)
    requires Batched(b.sessions, b.runs, b.batches)
    requires RunsAge(a.runs, m.runs, m.sessions) && RunsAge(m.runs, b.runs, b.sessions)
    requires BatchesAge(a.batches, m.batches, a.runs, m.runs, m.sessions)
    requires BatchesAge(m.batches, b.batches, m.runs, b.runs, b.sessions)
    ensures BatchesAge(a.batches, b.batches, a.runs, b.runs, b.sessions)
  {
    forall x | x in a.batches && a.batches[x].session in b.sessions
      ensures x in b.batches && BatchAges(a.batches[x], b.batches[x], a.runs, b.runs)
    {
      assert BatchAges(a.batches[x], m.batches[x], a.runs, m.runs);
      assert BatchAges(m.batches[x], b.batches[x], m.runs, b.runs);
    }
  }

  lemma CallsCompose(a: Db, m: Db, b: Db)
    requires Lasting(a, m, b) && Rooted(a.sessions, a.runs, a.batches) && Rooted(b.sessions, b.runs, b.batches)
    requires Batched(a.sessions, a.runs, a.batches)
    requires Uniform(a.batches, a.calls) && Uniform(b.batches, b.calls)
    requires RunsAge(a.runs, m.runs, m.sessions)
    requires BatchesAge(a.batches, m.batches, a.runs, m.runs, m.sessions)
    requires BatchesAge(m.batches, b.batches, m.runs, b.runs, b.sessions)
    requires CallsAge(a.calls, m.calls, a.batches, m.batches) && CallsAge(m.calls, b.calls, m.batches, b.batches)
    requires forall x :: x in a.batches && x in b.batches ==> a.batches[x].session in b.sessions
    requires forall c :: c in b.calls ==> c.batch in b.batches
    ensures CallsAge(a.calls, b.calls, a.batches, b.batches)
  {
    forall x | x in a.batches && x in b.batches
      ensures x in m.batches && (a.batches[x].state.Settled? && a.batches[x] == b.batches[x] ==> m.batches[x] == a.batches[x])
    {
      assert a.batches[x].session in m.sessions;
      assert BatchAges(a.batches[x], m.batches[x], a.runs, m.runs);
      assert BatchAges(m.batches[x], b.batches[x], m.runs, b.runs);
    }
  }

  lemma FreshCompose(a: Db, m: Db, b: Db)
    requires Numbered(a.sessions, a.batches, a.calls, a.supply) && a.supply <= m.supply
    requires BatchesFresh(a.batches, m.batches, a.supply) && BatchesFresh(m.batches, b.batches, m.supply)
    ensures BatchesFresh(a.batches, b.batches, a.supply)
  {
  }

  lemma SameSessions(a: Db, b: Db)
    requires Rooted(b.sessions, b.runs, b.batches) && BatchesFresh(a.batches, b.batches, a.supply)
    ensures forall x :: x in a.batches && x in b.batches ==> a.batches[x].session in b.sessions
  {
  }

  lemma CallsRooted(db: Db)
    requires Numbered(db.sessions, db.batches, db.calls, db.supply)
    ensures forall c :: c in db.calls ==> c.batch in db.batches
  {
  }

  lemma RunsRooted(db: Db)
    requires Rooted(db.sessions, db.runs, db.batches)
    ensures forall k :: k in db.runs ==> db.runs[k].session in db.sessions
  {
  }

  /** Evolution composes along any run. */
  lemma Compose(a: Db, m: Db, b: Db)
    requires Inv(a) && Inv(m) && Inv(b) && Evolves(a, m) && Evolves(m, b)
    ensures Evolves(a, b)
  {
    hide Leased, Numbered, Rooted, Reserving, Batched, Uniform, SessionsAge, RunsAge, BatchesAge, BatchesFresh, CallsAge,
      Lasting;
    Between(a, m, b);
    SessionsCompose(a, m, b);
    RunsRooted(a);
    RunsCompose(a, m, b);
    BatchesCompose(a, m, b);
    FreshCompose(a, m, b);
    SameSessions(a, b);
    CallsRooted(b);
    CallsCompose(a, m, b);
  }
}

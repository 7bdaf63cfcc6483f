/** Retry deduplication: with a clock that does not run backwards, an exact retry is never started a
    second time while the first run is active inside its replay window. */
module ApiRetries {
  import opened Basics
  import opened ApiTypes
  import opened ApiSessions
  import opened ApiInvariants
  import opened ApiSteps
  import opened ApiRuns

  /** Every active run still inside its replay window holds the reservation of its key. */
  ghost predicate Guarded(db: Db, t: real) {
    forall k :: k in db.runs && db.runs[k].status.Active? && db.runs[k].session in db.sessions && db.runs[k].replayUntil >= t ==>
      KeyOf(db.sessions, db.runs[k]) in db.admissions && db.admissions[KeyOf(db.sessions, db.runs[k])].run == k
  }

  /** What a step may do without losing a reservation: active runs come from before, under the same
      key, and their reservations are still there. */
  ghost predicate Guards(db: Db, after: Db, now: real) {
    && (forall k :: k in after.runs && after.runs[k].status.Active? && after.runs[k].session in after.sessions
                    && after.runs[k].replayUntil >= now ==>
          && k in db.runs && after.runs[k] == db.runs[k] && db.runs[k].session in db.sessions
          && KeyOf(after.sessions, after.runs[k]) == KeyOf(db.sessions, db.runs[k]))
    && (forall a :: a in db.admissions && db.admissions[a].replayUntil >= now && db.admissions[a].run in after.runs
                    && after.runs[db.admissions[a].run].status.Active? ==>
          a in after.admissions && after.admissions[a] == db.admissions[a])
  }

  lemma GuardKept(db: Db, after: Db, t: real, now: real)
    requires Guarded(db, t) && t <= now && Guards(db, after, now) && Reserving(db.sessions, db.runs, db.admissions)
    ensures Guarded(after, now)
  {
    forall k | k in after.runs && after.runs[k].status.Active? && after.runs[k].session in after.sessions
               && after.runs[k].replayUntil >= now
      ensures KeyOf(after.sessions, after.runs[k]) in after.admissions
      ensures after.admissions[KeyOf(after.sessions, after.runs[k])].run == k
    {
      var a := KeyOf(db.sessions, db.runs[k]);
      assert a in db.admissions && db.admissions[a].run == k;
    }
  }

  lemma SameGuards(db: Db, now: real)
    ensures Guards(db, db, now)
  {
  }

  lemma PurgeGuards(db: Db, now: real)
    ensures Guards(db, db.(admissions := Purge(db.admissions, now)), now)
  {
  }

  lemma AbandonGuards(db: Db, s: Id, now: real)
    requires s in db.sessions && Reserving(db.sessions, db.runs, db.admissions)
    ensures Guards(db, AbandonOne(db, s), now) && Guards(db, ExpireLease(db, s), now)
  {
  }

  lemma SessionGuards(db: Db, sessions: Sessions, now: real)
    requires forall s :: s in sessions ==> s in db.sessions && sessions[s].namespace == db.sessions[s].namespace
    ensures Guards(db, db.(sessions := sessions), now)
  {
  }

  lemma DropGuards(db: Db, s: Id, now: real)
    requires Reserving(db.sessions, db.runs, db.admissions)
    ensures Guards(db, Drop(db, s), now)
  {
  }

  lemma {:induction false} AbandonAllGuarded(db: Db, rows: seq<Id>, t: real)
    requires Inv(db) && RunningRows(db, rows) && Guarded(db, t)
    ensures Guarded(AbandonAll(db, rows), t)
    decreases |rows|
  {
    hide Inv, Evolves, AbandonOne, Guarded, Guards, Reserving;
    if rows != [] {
      ReservingOf(db);
      AbandonGuards(db, rows[0], t);
      AbandonOneKeeps(db, rows[0]);
      AbandonedRow(db, rows[0]);
      GuardKept(db, AbandonOne(db, rows[0]), t, t);
      AbandonAllGuarded(AbandonOne(db, rows[0]), rows[1..], t);
    }
  }

  lemma ReservingOf(db: Db)
    requires Inv(db)
    ensures Reserving(db.sessions, db.runs, db.admissions) && db.supply !in db.sessions
    ensures forall k :: k in db.runs ==> db.runs[k].session in db.sessions
  {
  }

  lemma AddedGuards(db: Db, session: Session, now: real)
    requires db.supply !in db.sessions && (forall k :: k in db.runs ==> db.runs[k].session in db.sessions)
    ensures Guards(db, db.(sessions := db.sessions[db.supply := session], supply := db.supply + 1), now)
  {
  }

  lemma CreateGuards(db: Db, ns: Namespace, conversation: Id, head: Id, count: int, t: real, now: real)
    requires Inv(db)
    ensures Guards(db, Create(db, ns, conversation, head, count, now).db, t)
  {
    hide Inv, Admissible, Retained, ConversationUsed, Guards, Reserving;
    ReservingOf(db);
    SameGuards(db, t);
    var r := Create(db, ns, conversation, head, count, now);
    if r.result.Ok? { AddedGuards(db, r.db.sessions[db.supply], t); }
  }

  lemma FinalizeGuards(db: Db, k: Id, lease: Id, f: Final, now: real)
    ensures Guards(db, Finalize(db, k, lease, f, now).db, now)
  {
    hide HasPending, GoodRequests, GoodRecord, GoodPrefixes, Storable, Taken, Repeats, Rows, Publish, Guards, Owns;
    SameGuards(db, now);
    if Owns(db, k, lease) {
      LeaseFacts(db, k, lease);
      if f.count >= db.runs[k].parentCount && GoodRequests(f.requests, f.schemas) {
        PublishGuards(db, k, f, Rows(f.requests, f.schemas), now);
      }
    }
  }

  lemma PublishGuards(db: Db, k: Id, f: Final, rows: seq<ToolRow>, now: real)
    requires k in db.runs && db.runs[k].session in db.sessions && f.count >= 0
    ensures Guards(db, Publish(db, k, f, rows, now), now)
  {
    hide Publish;
    PublishedRows(db, k, f, rows, now);
  }

  lemma FailGuards(db: Db, k: Id, lease: Id, coded: bool, canceled: bool, now: real)
    ensures Guards(db, FailRun(db, k, lease, coded, canceled, now).db, now)
  {
    hide UnsettleCalls, UnsettleBatches;
  }

  lemma SettleGuards(db: Db, k: Id, lease: Id, b: Id, results: Option<map<Id, Id>>, schemas: map<Id, Id>, now: real)
    ensures Guards(db, Settle(db, k, lease, b, results, schemas, now).db, now)
  {
    hide SchemasHold, SameResults, AnyAtParent, SettleCalls, CallsOf;
  }

  lemma SweepGuards(db: Db, rows: set<Id>, s: Id, removed: bool, now: real)
    requires Reserving(db.sessions, db.runs, db.admissions)
    ensures Guards(db, SweepClaim(db, rows), now) && Guards(db, SweepDone(db, s, removed, now), now)
  {
    hide Drop, Guards;
    DropGuards(db, s, now);
    SameGuards(db, now);
    SessionGuards(db, SweepClaim(db, rows).sessions, now);
    if s in db.sessions {
      SessionGuards(db, db.sessions[s := db.sessions[s].(state := Quarantined, expiresAt := now + 60.0)], now);
    }
  }

  lemma ResetGuards(db: Db, publication: Id, now: real)
    ensures Guards(db, Reset(db, publication, now).db, now)
  {
  }

  lemma DiscardGuards(db: Db, s: Id, t: real, now: real)
    requires Reserving(db.sessions, db.runs, db.admissions)
    ensures Guards(db, DiscardEmpty(db, s), t) && Guards(db, QuarantineUnstarted(db, s, now), t)
  {
    hide Drop, Guards, HasRun;
    DropGuards(db, s, t);
    SameGuards(db, t);
    if s in db.sessions {
      SessionGuards(db, db.sessions[s := db.sessions[s].(state := Quarantined, expiresAt := Min(db.sessions[s].expiresAt, now))], t);
    }
  }

  // ---- acquiring ----

  lemma TakeGuarded(db: Db, s: Id, session: Session, k: Id, run: Run, t: real)
    requires Guarded(db, t) && Takes(db, s, session, run) && k !in db.runs
    requires KeyOf(db.sessions, run) !in db.admissions
    requires forall j :: j in db.runs ==> db.runs[j].session in db.sessions
    ensures Guarded(db.(admissions := db.admissions[KeyOf(db.sessions, run) := Reservation(s, k, run.replayUntil)],
                        sessions := db.sessions[s := session], runs := db.runs[k := run], supply := db.supply + 1), t)
  {
  }

  lemma AcquireHeadGuarded(db: Db, s: Id, k: Id, fingerprint: Id, lease: real, window: real, t: real, now: real)
    requires Inv(db) && s in db.sessions && db.sessions[s].namespace.publication in db.publications
    requires Guarded(db, t) && t <= now && !db.sessions[s].state.Running?
    ensures Guarded(AcquireHead(db, s, k, fingerprint, lease, window, now).db, now)
  {
    hide Inv, LiveReservation, LiveRuns, Reserved, AttachTo, Purge, Guarded, Guards;
    var purged := db.(admissions := Purge(db.admissions, now));
    ReservingOf(db);
    PurgeGuards(db, now);
    SameGuards(db, now);
    GuardKept(db, purged, t, now);
    GuardKept(db, db, t, now);
    var r := AcquireHead(db, s, k, fingerprint, lease, window, now);
    if r.db != db && r.db != purged {
      TakeGuarded(purged, s, r.db.sessions[s], k, r.db.runs[k], now);
    }
  }

  /** The session an acquire expires, or whose lapsed lease it takes away. */
  lemma RefusedGuarded(db: Db, s: Id, t: real, now: real)
    requires Reserving(db.sessions, db.runs, db.admissions) && Guarded(db, t) && t <= now && s in db.sessions
    ensures Guarded(ExpireLease(db, s), now)
    ensures Guarded(db.(sessions := db.sessions[s := db.sessions[s].(state := Expired)]), now)
  {
    hide ExpireLease, Guarded, Guards, Reserving;
    AbandonGuards(db, s, now);
    GuardKept(db, ExpireLease(db, s), t, now);
    SessionGuards(db, db.sessions[s := db.sessions[s].(state := Expired)], now);
    GuardKept(db, db.(sessions := db.sessions[s := db.sessions[s].(state := Expired)]), t, now);
  }

  lemma AcquireGuarded(db: Db, s: Id, head: Id, count: int, run: Id, request: Id, fingerprint: Id, lease: real,
                       window: real, t: real, now: real)
    requires Inv(db) && Guarded(db, t) && t <= now
    ensures Guarded(Acquire(db, s, head, count, run, request, fingerprint, lease, window, now).db, now)
  {
    hide Inv, ExpireLease, AcquireHead, HasRetry, PendingAt, Guarded, Guards, Reserving;
    ReservingOf(db);
    SameGuards(db, now);
    GuardKept(db, db, t, now);
    if s in db.sessions {
      RefusedGuarded(db, s, t, now);
      if Admissible(db, db.sessions[s].namespace) && !db.sessions[s].state.Running? {
        hide Admissible;
        AcquireHeadGuarded(db, s, run, fingerprint, lease, window, t, now);
      }
    }
  }

  // ---- over whole runs ----

  predicate Timed(op: Op) { !op.ConfigureOp? && !op.DiscardOp? }

  lemma StepGuarded(db: Db, op: Op, t: real)
    requires Inv(db) && Guarded(db, t) && (Timed(op) ==> t <= op.now)
    ensures Guarded(Step(db, op), if Timed(op) then op.now else t)
  {
    hide Inv, Guarded, Guards, Reserving, Create, DiscardEmpty, QuarantineUnstarted, Acquire, Finalize, Settle, FailRun,
      Heartbeat, AbandonAll, SweepClaim, SweepDone, Reset, FindActive, Newest, SweepRows, LapsedRows;
    var now := if Timed(op) then op.now else t;
    ReservingOf(db);
    SameGuards(db, now);
    GuardKept(db, db, t, now);
    match op
    case AcquireOp(s, head, count, run, request, fingerprint, seconds, window, now) =>
      AcquireGuarded(db, s, head, count, run, request, fingerprint, seconds, window, t, now);
    case AbandonOp(rows, now) =>
      if LapsedRows(db, rows, now) {
        LapsedRunning(db, rows, now);
        AbandonAllGuarded(db, rows, now);
      }
    case _ => StepGuards(db, op, now); GuardKept(db, Step(db, op), t, now);
  }

  lemma LapsedRunning(db: Db, rows: seq<Id>, now: real)
    requires LapsedRows(db, rows, now)
    ensures RunningRows(db, rows)
  {
  }

  lemma StepGuards(db: Db, op: Op, now: real)
    requires Inv(db) && !op.AcquireOp? && !op.AbandonOp? && (Timed(op) ==> now == op.now)
    ensures Guards(db, Step(db, op), now)
  {
    hide Inv, Guards, Reserving, Create, DiscardEmpty, QuarantineUnstarted, Finalize, Settle, FailRun, Heartbeat,
      SweepClaim, SweepDone, Reset, FindActive, Newest, SweepRows;
    ReservingOf(db);
    SameGuards(db, now);
    match op
    case ConfigureOp(publications, keys) => Renamed(db, publications, keys, now);
    case CreateOp(ns, conversation, head, count, _) => CreateGuards(db, ns, conversation, head, count, now, now);
    case DiscardOp(s) => DiscardGuards(db, s, now, now);
    case QuarantineOp(s, _) => DiscardGuards(db, s, now, now);
    case FinalizeOp(k, lease, f, _) => FinalizeGuards(db, k, lease, f, now);
    case SettleOp(k, lease, b, results, schemas, _) => SettleGuards(db, k, lease, b, results, schemas, now);
    case FailOp(k, lease, coded, canceled, _) => FailGuards(db, k, lease, coded, canceled, now);
    case HeartbeatOp(k, lease, seconds, _) => HeartbeatGuards(db, k, lease, seconds, now);
    case SweepOp(selected, _, _) => SweepGuards(db, selected, 0, false, now);
    case SweptOp(s, removed, _) => SweepGuards(db, {}, s, removed, now);
    case ResetOp(publication, _) => ResetGuards(db, publication, now);
    case ProbeOp(key, _) => ProbeGuards(db, key, now);
  }

  lemma Renamed(db: Db, publications: map<Id, Publication>, keys: map<Id, Id>, now: real)
    ensures Guards(db, db.(publications := publications, keys := keys), now)
  {
  }

  lemma HeartbeatGuards(db: Db, k: Id, lease: Id, seconds: real, now: real)
    ensures Guards(db, Heartbeat(db, k, lease, seconds, now).db, now)
  {
  }

  lemma ProbeGuards(db: Db, key: AdmissionKey, now: real)
    ensures Guards(db, FindActive(db, key, now).db, now)
  {
    hide LiveReservation, Purge, Guards;
    PurgeGuards(db, now);
  }

  /** The clock never runs backwards along the run, and has not passed `t` before step `n`. */
  ghost predicate Monotone(ops: seq<Op>, n: nat, t: real)
    requires n <= |ops|
  {
    && (forall i :: 0 <= i < n && Timed(ops[i]) ==> ops[i].now <= t)
    && (forall i, j :: 0 <= i < j < n && Timed(ops[i]) && Timed(ops[j]) ==> ops[i].now <= ops[j].now)
  }

  lemma GuardedLater(db: Db, t: real, u: real)
    requires Guarded(db, t) && t <= u
    ensures Guarded(db, u)
  {
  }

  lemma {:induction false} GuardedAlways(states: seq<Db>, ops: seq<Op>, n: nat, t: real)
    requires IsRun(states, ops) && n <= |ops| && Monotone(ops, n, t)
    ensures Guarded(states[n], t)
  {
    hide Inv, Step, Guarded;
    if n == 0 {
      InitGuarded(states[0], t);
    } else {
      Reachable(states, ops, n - 1);
      var op := ops[n - 1];
      var u := if Timed(op) then op.now else t;
      GuardedAlways(states, ops, n - 1, u);
      StepGuarded(states[n - 1], op, u);
      GuardedLater(states[n], u, t);
    }
  }

  lemma InitGuarded(db: Db, t: real)
    requires Init(db)
    ensures Guarded(db, t)
  {
  }

  lemma StillReserved(db: Db, now: real, k: Id)
    requires Guarded(db, now) && Reserving(db.sessions, db.runs, db.admissions)
    requires k in db.runs && db.runs[k].status.Active? && db.runs[k].session in db.sessions && db.runs[k].replayUntil >= now
    ensures KeyOf(db.sessions, db.runs[k]) in Purge(db.admissions, now)
  {
  }

  lemma StartedFresh(db: Db, s: Id, head: Id, count: int, run: Id, request: Id, fingerprint: Id, lease: real,
                     window: real, now: real, k: Id)
    requires Acquire(db, s, head, count, run, request, fingerprint, lease, window, now).result.Ok?
    requires Acquire(db, s, head, count, run, request, fingerprint, lease, window, now).result.value.Acquired?
    requires Guarded(db, now) && Reserving(db.sessions, db.runs, db.admissions)
    requires k in db.runs && db.runs[k].status.Active? && db.runs[k].session in db.sessions && db.runs[k].replayUntil >= now
    ensures s in db.sessions && count >= 0
    ensures KeyOf(db.sessions, db.runs[k]) != AdmissionKey(db.sessions[s].namespace, head, count, fingerprint)
  {
    StillReserved(db, now, k);
    hide ExpireLease, HasRetry, PendingAt, LiveRuns, Reserved, AttachTo;
  }

  /** When a run is started, no other run with the same namespace, parent head, item count and body
      fingerprint is active inside its replay window, whichever session it is in. */
  lemma RetriesAreNotStartedTwice(states: seq<Db>, ops: seq<Op>, i: nat, k: Id)
    requires IsRun(states, ops) && i < |ops| && ops[i].AcquireOp? && Monotone(ops, i + 1, ops[i].now)
    requires var o := ops[i];
             var r := Acquire(states[i], o.session, o.head, o.count, o.run, o.request, o.fingerprint, o.seconds, o.window,
                              o.now).result;
             r.Ok? && r.value.Acquired?
    requires k in states[i].runs && states[i].runs[k].status.Active? && states[i].runs[k].replayUntil >= ops[i].now
    ensures var o := ops[i]; var db := states[i];
            o.session in db.sessions && o.count >= 0 && db.runs[k].session in db.sessions
            && KeyOf(db.sessions, db.runs[k]) != AdmissionKey(db.sessions[o.session].namespace, o.head, o.count, o.fingerprint)
  {
    var o := ops[i];
    hide Inv, Step, Init, Guarded, Reserving, Acquire;
    Reachable(states, ops, i);
    GuardedAlways(states, ops, i, o.now);
    ReservingOf(states[i]);
    StartedFresh(states[i], o.session, o.head, o.count, o.run, o.request, o.fingerprint, o.seconds, o.window, o.now, k);
  }
}

/** Heads: only the lease holder's finalize moves one, and completed runs form one unforked chain. */
module ApiHeads {
  import opened Basics
  import opened ApiTypes
  import opened ApiSessions
  import opened ApiInvariants
  import opened ApiSteps
  import opened ApiRuns

  /** The step publishes a new head of the session. */
  ghost predicate Finalizes(db: Db, op: Op, s: Id) {
    && op.FinalizeOp? && op.run in db.runs && db.runs[op.run].session == s
    && Finalize(db, op.run, op.lease, op.final, op.now).result == Ok(false)
  }

  /** No head moves and no run completes. */
  ghost predicate Headless(db: Db, after: Db) {
    && (forall s :: s in db.sessions && s in after.sessions ==>
          after.sessions[s].head == db.sessions[s].head && after.sessions[s].count == db.sessions[s].count)
    && (forall k :: k in after.runs && after.runs[k].status.Completed? ==> k in db.runs && db.runs[k] == after.runs[k])
  }

  lemma SameHeadless(db: Db)
    ensures Headless(db, db)
  {
  }

  lemma HeadlessTwice(a: Db, m: Db, b: Db)
    requires Headless(a, m) && Headless(m, b) && a.sessions.Keys == m.sessions.Keys
    ensures Headless(a, b)
  {
  }

  lemma AbandonHeadless(db: Db, s: Id)
    requires s in db.sessions
    ensures Headless(db, AbandonOne(db, s)) && AbandonOne(db, s).sessions.Keys == db.sessions.Keys
    ensures Headless(db, ExpireLease(db, s))
  {
  }

  lemma {:induction false} AbandonAllHeadless(db: Db, rows: seq<Id>)
    ensures Headless(db, AbandonAll(db, rows))
    decreases |rows|
  {
    hide Headless, AbandonOne;
    if rows == [] {
      SameHeadless(db);
    } else if rows[0] in db.sessions {
      AbandonHeadless(db, rows[0]);
      AbandonAllHeadless(AbandonOne(db, rows[0]), rows[1..]);
      HeadlessTwice(db, AbandonOne(db, rows[0]), AbandonAll(db, rows));
    } else {
      AbandonAllHeadless(db, rows[1..]);
    }
  }

  lemma AcquireHeadHeadless(db: Db, s: Id, run: Id, fingerprint: Id, lease: real, window: real, now: real)
    requires s in db.sessions && db.sessions[s].namespace.publication in db.publications
    ensures Headless(db, AcquireHead(db, s, run, fingerprint, lease, window, now).db)
  {
    hide LiveReservation, LiveRuns, Reserved, Purge;
  }

  lemma AcquireHeadless(db: Db, s: Id, head: Id, count: int, run: Id, request: Id, fingerprint: Id, lease: real,
                        window: real, now: real)
    ensures Headless(db, Acquire(db, s, head, count, run, request, fingerprint, lease, window, now).db)
  {
    hide ExpireLease, AcquireHead, HasRetry, PendingAt, Headless;
    SameHeadless(db);
    if s in db.sessions {
      AbandonHeadless(db, s);
      OnlyState(db, s, Expired);
      if Admissible(db, db.sessions[s].namespace) { AcquireHeadHeadless(db, s, run, fingerprint, lease, window, now); }
    }
  }

  lemma OnlyState(db: Db, s: Id, state: SessionState)
    requires s in db.sessions
    ensures Headless(db, db.(sessions := db.sessions[s := db.sessions[s].(state := state)]))
  {
  }

  lemma OtherHeadless(db: Db, op: Op)
    requires Inv(db) && !op.FinalizeOp?
    ensures Headless(db, Step(db, op))
  {
    hide Inv, Acquire, AbandonAll, Newest, SweepRows, LapsedRows, Headless, Create, DiscardEmpty, QuarantineUnstarted,
      Settle, FailRun, Heartbeat, SweepClaim, SweepDone, Reset, FindActive;
    SameHeadless(db);
    match op
    case ConfigureOp(publications, keys) => Reconfigured(db, publications, keys);
    case CreateOp(ns, conversation, head, count, now) => CreateHeadless(db, ns, conversation, head, count, now);
    case DiscardOp(s) => DiscardHeadless(db, s, 0.0);
    case QuarantineOp(s, now) => DiscardHeadless(db, s, now);
    case AcquireOp(s, head, count, run, request, fingerprint, seconds, window, now) =>
      AcquireHeadless(db, s, head, count, run, request, fingerprint, seconds, window, now);
    case SettleOp(k, lease, b, results, schemas, now) => SettleHeadless(db, k, lease, b, results, schemas, now);
    case FailOp(k, lease, coded, canceled, now) => FailHeadless(db, k, lease, coded, canceled, now);
    case HeartbeatOp(k, lease, seconds, now) => HeartbeatHeadless(db, k, lease, seconds, now);
    case AbandonOp(rows, now) => AbandonAllHeadless(db, rows);
    case SweepOp(selected, limit, now) => SweepHeadless(db, selected, 0, false, now);
    case SweptOp(s, removed, now) => SweepHeadless(db, {}, s, removed, now);
    case ResetOp(publication, now) => ResetHeadless(db, publication, now);
    case ProbeOp(key, now) => ProbeHeadless(db, key, now);
  }

  lemma Reconfigured(db: Db, publications: map<Id, Publication>, keys: map<Id, Id>)
    ensures Headless(db, db.(publications := publications, keys := keys))
  {
  }

  lemma NewId(db: Db)
    requires Inv(db)
    ensures db.supply !in db.sessions
  {
  }

  lemma Added(db: Db, session: Session)
    requires db.supply !in db.sessions
    ensures Headless(db, db.(sessions := db.sessions[db.supply := session], supply := db.supply + 1))
  {
  }

  lemma CreateHeadless(db: Db, ns: Namespace, conversation: Id, head: Id, count: int, now: real)
    requires Inv(db)
    ensures Headless(db, Create(db, ns, conversation, head, count, now).db)
  {
    hide Inv, Admissible, Retained, ConversationUsed, Headless;
    NewId(db);
    SameHeadless(db);
    var r := Create(db, ns, conversation, head, count, now);
    if r.result.Ok? { Added(db, r.db.sessions[db.supply]); }
  }

  lemma DiscardHeadless(db: Db, s: Id, now: real)
    ensures Headless(db, DiscardEmpty(db, s)) && Headless(db, QuarantineUnstarted(db, s, now))
  {
    hide Drop, HasRun;
    DropHeadless(db, s);
  }

  lemma DropHeadless(db: Db, s: Id)
    ensures Headless(db, Drop(db, s))
  {
  }

  lemma SettleHeadless(db: Db, k: Id, lease: Id, b: Id, results: Option<map<Id, Id>>, schemas: map<Id, Id>, now: real)
    ensures Headless(db, Settle(db, k, lease, b, results, schemas, now).db)
  {
    hide SchemasHold, SameResults, AnyAtParent, SettleCalls, CallsOf;
  }

  lemma FailHeadless(db: Db, k: Id, lease: Id, coded: bool, canceled: bool, now: real)
    ensures Headless(db, FailRun(db, k, lease, coded, canceled, now).db)
  {
    hide UnsettleCalls, UnsettleBatches;
  }

  lemma HeartbeatHeadless(db: Db, k: Id, lease: Id, seconds: real, now: real)
    ensures Headless(db, Heartbeat(db, k, lease, seconds, now).db)
  {
  }

  lemma SweepHeadless(db: Db, rows: set<Id>, s: Id, removed: bool, now: real)
    ensures Headless(db, SweepClaim(db, rows)) && Headless(db, SweepDone(db, s, removed, now))
  {
    hide Drop;
    DropHeadless(db, s);
  }

  lemma ResetHeadless(db: Db, publication: Id, now: real)
    ensures Headless(db, Reset(db, publication, now).db)
  {
  }

  lemma ProbeHeadless(db: Db, key: AdmissionKey, now: real)
    ensures Headless(db, FindActive(db, key, now).db)
  {
    hide LiveReservation, Purge;
  }

  /** What a finalize does to heads and runs. */
  lemma FinalizeMoves(db: Db, op: Op)
    requires op.FinalizeOp? && Leased(db.sessions, db.runs)
    ensures var r := Finalize(db, op.run, op.lease, op.final, op.now);
            if r.result != Ok(false) then r.db == db
            else
              && op.run in db.runs && db.runs[op.run].status.Active? && db.runs[op.run].session in db.sessions
              && var s := db.runs[op.run].session;
                 && Finalizes(db, op, s) && op.lease == db.sessions[s].lease
                 && db.runs[op.run].parentHead == db.sessions[s].head && db.runs[op.run].parentCount == db.sessions[s].count
                 && r.db.sessions.Keys == db.sessions.Keys && r.db.runs.Keys == db.runs.Keys
                 && r.db.sessions[s].head == op.final.head
                 && r.db.sessions[s].count == op.final.count >= db.sessions[s].count
                 && r.db.runs[op.run].status.Completed?
                 && (forall t :: t in db.sessions && t != s ==> r.db.sessions[t] == db.sessions[t])
                 && (forall k :: k in db.runs && k != op.run ==> r.db.runs[k] == db.runs[k])
  {
    hide HasPending, GoodRequests, GoodRecord, GoodPrefixes, Storable, Taken, Repeats, Rows, Publish;
    var r := Finalize(db, op.run, op.lease, op.final, op.now);
    if r.result == Ok(false) { PublishedRows(db, op.run, op.final, Rows(op.final.requests, op.final.schemas), op.now); }
  }

  /** A session's head and the runs that made it, oldest first; the first entry is the head it was
      created with. */
  datatype Link = Link(run: Id, head: Id, count: nat)

  ghost function Line(states: seq<Db>, ops: seq<Op>, n: nat, s: Id): seq<Link>
    requires n <= |ops| && |states| == |ops| + 1
  {
    if n == 0 || s !in states[n].sessions then []
    else if s !in states[n - 1].sessions then [Link(NONE, states[n].sessions[s].head, states[n].sessions[s].count)]
    else if Finalizes(states[n - 1], ops[n - 1], s) then
      Line(states, ops, n - 1, s) + [Link(ops[n - 1].run, states[n].sessions[s].head, states[n].sessions[s].count)]
    else Line(states, ops, n - 1, s)
  }

  /** Each completed run of the session built on the head right before its own, and is in the line
      exactly once; the last head is the session's. */
  ghost predicate Linear(db: Db, s: Id, line: seq<Link>) {
    && s in db.sessions && line != []
    && line[|line| - 1].head == db.sessions[s].head && line[|line| - 1].count == db.sessions[s].count
    && (forall i :: 0 < i < |line| ==>
          && line[i].run in db.runs && db.runs[line[i].run].session == s && db.runs[line[i].run].status.Completed?
          && db.runs[line[i].run].parentHead == line[i - 1].head && db.runs[line[i].run].parentCount == line[i - 1].count
          && line[i - 1].count <= line[i].count)
    && (forall i, j :: 0 < i < j < |line| ==> line[i].run != line[j].run)
    && (forall k :: k in db.runs && db.runs[k].session == s && db.runs[k].status.Completed? ==>
          exists i :: 0 < i < |line| && line[i].run == k)
  }

  lemma LinearStarts(db: Db, after: Db, s: Id)
    requires Rooted(db.sessions, db.runs, db.batches) && Headless(db, after)
    requires s !in db.sessions && s in after.sessions
    ensures Linear(after, s, [Link(NONE, after.sessions[s].head, after.sessions[s].count)])
  {
  }

  lemma LinearKept(db: Db, after: Db, s: Id, line: seq<Link>)
    requires Linear(db, s, line) && s in after.sessions && RunsAge(db.runs, after.runs, after.sessions)
    requires after.sessions[s].head == db.sessions[s].head && after.sessions[s].count == db.sessions[s].count
    requires forall k :: k in after.runs && after.runs[k].status.Completed? && after.runs[k].session == s ==>
               k in db.runs && db.runs[k].status.Completed? && db.runs[k].session == s
    ensures Linear(after, s, line)
  {
    forall i | 0 < i < |line| ensures line[i].run in after.runs && after.runs[line[i].run] == db.runs[line[i].run] {
      assert RunAges(db.runs[line[i].run], after.runs[line[i].run]);
    }
  }

  lemma LinearGrows(db: Db, after: Db, s: Id, line: seq<Link>, k: Id)
    requires Linear(db, s, line) && s in after.sessions
    requires k in db.runs && db.runs[k].session == s && db.runs[k].status.Active?
    requires k in after.runs && after.runs[k].session == s && after.runs[k].status.Completed?
    requires after.runs[k].parentHead == db.sessions[s].head && after.runs[k].parentCount == db.sessions[s].count
    requires after.runs.Keys == db.runs.Keys && (forall j :: j in db.runs && j != k ==> after.runs[j] == db.runs[j])
    requires after.sessions[s].count >= db.sessions[s].count
    ensures Linear(after, s, line + [Link(k, after.sessions[s].head, after.sessions[s].count)])
  {
    var more := line + [Link(k, after.sessions[s].head, after.sessions[s].count)];
    forall i | 0 < i < |more|
      ensures more[i].run in after.runs && after.runs[more[i].run].session == s && after.runs[more[i].run].status.Completed?
      ensures after.runs[more[i].run].parentHead == more[i - 1].head
      ensures after.runs[more[i].run].parentCount == more[i - 1].count && more[i - 1].count <= more[i].count
    {
      if i < |line| {
        assert more[i] == line[i] && more[i - 1] == line[i - 1];
      } else {
        assert more[i - 1] == line[|line| - 1];
      }
    }
    forall j | j in after.runs && after.runs[j].session == s && after.runs[j].status.Completed?
      ensures exists i :: 0 < i < |more| && more[i].run == j
    {
      if j == k {
        assert more[|line|].run == k;
      } else {
        var i :| 0 < i < |line| && line[i].run == j;
        assert more[i].run == j;
      }
    }
  }

  lemma FinalizeStep(db: Db, op: Op)
    requires op.FinalizeOp?
    ensures Step(db, op) == Finalize(db, op.run, op.lease, op.final, op.now).db
  {
  }

  lemma LeasedOf(db: Db)
    requires Inv(db)
    ensures Leased(db.sessions, db.runs) && Rooted(db.sessions, db.runs, db.batches)
  {
  }

  lemma RunsAged(db: Db, after: Db)
    requires Evolves(db, after)
    ensures RunsAge(db.runs, after.runs, after.sessions)
  {
  }

  /** One step of a session's line. */
  lemma LineStep(db: Db, op: Op, s: Id, line: seq<Link>)
    requires Inv(db) && s in Step(db, op).sessions && (s in db.sessions ==> Linear(db, s, line))
    ensures var after := Step(db, op);
            && (s !in db.sessions ==> Linear(after, s, [Link(NONE, after.sessions[s].head, after.sessions[s].count)]))
            && (s in db.sessions && !Finalizes(db, op, s) ==> Linear(after, s, line))
            && (s in db.sessions && Finalizes(db, op, s) ==>
                  Linear(after, s, line + [Link(op.run, after.sessions[s].head, after.sessions[s].count)]))
  {
    hide Inv, Evolves, Step, Finalize, Leased, Rooted, RunsAge, Linear, Headless;
    var after := Step(db, op);
    LeasedOf(db);
    StepKeeps(db, op);
    RunsAged(db, after);
    if op.FinalizeOp? {
      FinalizeStep(db, op);
      FinalizeMoves(db, op);
      FinalizeLine(db, op, after, s, line);
    } else {
      OtherHeadless(db, op);
      HeadlessLine(db, after, s, line);
    }
  }

  lemma HeadlessLine(db: Db, after: Db, s: Id, line: seq<Link>)
    requires Headless(db, after) && s in after.sessions && (s in db.sessions ==> Linear(db, s, line))
    requires Rooted(db.sessions, db.runs, db.batches) && RunsAge(db.runs, after.runs, after.sessions)
    ensures if s in db.sessions then Linear(after, s, line)
            else Linear(after, s, [Link(NONE, after.sessions[s].head, after.sessions[s].count)])
  {
    if s in db.sessions {
      LinearKept(db, after, s, line);
    } else {
      LinearStarts(db, after, s);
    }
  }

  lemma FinalizeLine(db: Db, op: Op, after: Db, s: Id, line: seq<Link>)
    requires op.FinalizeOp? && Leased(db.sessions, db.runs) && RunsAge(db.runs, after.runs, after.sessions)
    requires Rooted(db.sessions, db.runs, db.batches)
    requires s in after.sessions && (s in db.sessions ==> Linear(db, s, line))
    requires after == Finalize(db, op.run, op.lease, op.final, op.now).db
    ensures s in db.sessions
    ensures if Finalizes(db, op, s) then Linear(after, s, line + [Link(op.run, after.sessions[s].head, after.sessions[s].count)])
            else Linear(after, s, line)
  {
    hide Finalize, Rooted, Linear;
    FinalizeMoves(db, op);
    if after == db {
    } else if db.runs[op.run].session == s {
      LinearGrows(db, after, s, line, op.run);
    } else {
      LinearKept(db, after, s, line);
    }
  }

  /** Completed runs of a session form one unforked chain from the head it was created with to its
      current head, with non-decreasing item counts. */
  lemma {:induction false} HeadsAreLinear(states: seq<Db>, ops: seq<Op>, n: nat, s: Id)
    requires IsRun(states, ops) && n <= |ops| && s in states[n].sessions
    ensures Linear(states[n], s, Line(states, ops, n, s))
  {
    hide Inv, Step, Linear, Finalizes;
    if n > 0 {
      Reachable(states, ops, n - 1);
      if s in states[n - 1].sessions { HeadsAreLinear(states, ops, n - 1, s); }
      LineStep(states[n - 1], ops[n - 1], s, Line(states, ops, n - 1, s));
    }
  }

  /** Only a finalize under the session's own lease moves its head, from the head its run built on. */
  lemma HeadMovedByOwner(states: seq<Db>, ops: seq<Op>, i: nat, s: Id)
    requires IsRun(states, ops) && i < |ops| && s in states[i].sessions && s in states[i + 1].sessions
    requires states[i].sessions[s].head != states[i + 1].sessions[s].head
             || states[i].sessions[s].count != states[i + 1].sessions[s].count
    ensures Finalizes(states[i], ops[i], s) && ops[i].lease == states[i].sessions[s].lease
    ensures ops[i].final.head == states[i + 1].sessions[s].head && ops[i].final.count == states[i + 1].sessions[s].count
    ensures states[i].sessions[s].count <= states[i + 1].sessions[s].count
    ensures states[i].runs[ops[i].run].parentHead == states[i].sessions[s].head
  {
    hide Inv, Finalize, Leased;
    Reachable(states, ops, i);
    LeasedOf(states[i]);
    if ops[i].FinalizeOp? {
      FinalizeStep(states[i], ops[i]);
      hide Step;
      FinalizeMoves(states[i], ops[i]);
    } else {
      hide Step;
      OtherHeadless(states[i], ops[i]);
    }
  }
}

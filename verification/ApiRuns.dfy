/** Runs of the session store: arbitrary sequences of its transactions, and what they guarantee. */
module ApiRuns {
  import opened Basics
  import opened ApiTypes
  import opened ApiSessions
  import opened ApiInvariants
  import opened ApiSteps

  datatype Op =
    | ConfigureOp(publications: map<Id, Publication>, keys: map<Id, Id>)
    | CreateOp(namespace: Namespace, conversation: Id, head: Id, count: int, now: real)
    | DiscardOp(session: Id)
    | QuarantineOp(session: Id, now: real)
    | AcquireOp(session: Id, head: Id, count: int, run: Id, request: Id, fingerprint: Id, seconds: real, window: real,
                now: real)
    | FinalizeOp(run: Id, lease: Id, final: Final, now: real)
    | SettleOp(run: Id, lease: Id, batch: Id, results: Option<map<Id, Id>>, schemas: map<Id, Id>, now: real)
    | FailOp(run: Id, lease: Id, coded: bool, canceled: bool, now: real)
    | HeartbeatOp(run: Id, lease: Id, seconds: real, now: real)
    | AbandonOp(rows: seq<Id>, now: real)
    | SweepOp(selected: set<Id>, limit: nat, now: real)
    | SweptOp(session: Id, removed: bool, now: real)
    | ResetOp(publication: Id, now: real)
    | ProbeOp(key: AdmissionKey, now: real)

  /** The database a transaction commits. A selection the database would not make commits nothing. */
  ghost function Step(db: Db, op: Op): Db {
    match op
    case ConfigureOp(publications, keys) => db.(publications := publications, keys := keys)
    case CreateOp(ns, conversation, head, count, now) => Create(db, ns, conversation, head, count, now).db
    case DiscardOp(s) => DiscardEmpty(db, s)
    case QuarantineOp(s, now) => QuarantineUnstarted(db, s, now)
    case AcquireOp(s, head, count, run, request, fingerprint, seconds, window, now) =>
      Acquire(db, s, head, count, run, request, fingerprint, seconds, window, now).db
    case FinalizeOp(k, lease, f, now) => Finalize(db, k, lease, f, now).db
    case SettleOp(k, lease, b, results, schemas, now) =>
      if Newest(db, k, b) then Settle(db, k, lease, b, results, schemas, now).db else db
    case FailOp(k, lease, coded, canceled, now) => FailRun(db, k, lease, coded, canceled, now).db
    case HeartbeatOp(k, lease, seconds, now) => Heartbeat(db, k, lease, seconds, now).db
    case AbandonOp(rows, now) => if LapsedRows(db, rows, now) then AbandonAll(db, rows) else db
    case SweepOp(selected, limit, now) => if SweepRows(db, selected, limit, now) then SweepClaim(db, selected) else db
    case SweptOp(s, removed, now) => SweepDone(db, s, removed, now)
    case ResetOp(publication, now) => Reset(db, publication, now).db
    case ProbeOp(key, now) => FindActive(db, key, now).db
  }

  lemma StepKeeps(db: Db, op: Op)
    requires Inv(db)
    ensures Keeps(db, Step(db, op))
  {
    hide Inv, Evolves, Create, DiscardEmpty, QuarantineUnstarted, Acquire, Finalize, Settle, FailRun, Heartbeat,
      AbandonAll, SweepClaim, SweepDone, Reset, FindActive, Newest, SweepRows;
    Unchanged(db);
    match op
    case ConfigureOp(publications, keys) => ConfigureKeeps(db, publications, keys);
    case CreateOp(ns, conversation, head, count, now) => CreateKeeps(db, ns, conversation, head, count, now);
    case DiscardOp(s) => DiscardEmptyKeeps(db, s);
    case QuarantineOp(s, now) => QuarantineUnstartedKeeps(db, s, now);
    case AcquireOp(s, head, count, run, request, fingerprint, seconds, window, now) =>
      AcquireKeeps(db, s, head, count, run, request, fingerprint, seconds, window, now);
    case FinalizeOp(k, lease, f, now) => FinalizeKeeps(db, k, lease, f, now);
    case SettleOp(k, lease, b, results, schemas, now) =>
      if Newest(db, k, b) { SettleKeeps(db, k, lease, b, results, schemas, now); }
    case FailOp(k, lease, coded, canceled, now) => FailRunKeeps(db, k, lease, coded, canceled, now);
    case HeartbeatOp(k, lease, seconds, now) => HeartbeatKeeps(db, k, lease, seconds, now);
    case AbandonOp(rows, now) => if LapsedRows(db, rows, now) { AbandonAllKeeps(db, rows); }
    case SweepOp(selected, limit, now) => if SweepRows(db, selected, limit, now) { SweepClaimKeeps(db, selected); }
    case SweptOp(s, removed, now) => SweepDoneKeeps(db, s, removed, now);
    case ResetOp(publication, now) => ResetKeeps(db, publication, now);
    case ProbeOp(key, now) => FindActiveKeeps(db, key, now);
  }

  ghost predicate IsRun(states: seq<Db>, ops: seq<Op>) {
    && |states| == |ops| + 1
    && Init(states[0])
    && forall i :: 0 <= i < |ops| ==> states[i + 1] == Step(states[i], ops[i])
  }

  lemma {:induction false} Reachable(states: seq<Db>, ops: seq<Op>, i: nat)
    requires IsRun(states, ops) && i < |states|
    ensures Inv(states[i])
  {
    hide Inv, Step, Init, Evolves;
    if i == 0 {
      InitHolds(states[0]);
    } else {
      Reachable(states, ops, i - 1);
      StepKeeps(states[i - 1], ops[i - 1]);
    }
  }

  lemma {:induction false} Forward(states: seq<Db>, ops: seq<Op>, i: nat, j: nat)
    requires IsRun(states, ops) && i <= j < |states|
    ensures Inv(states[i]) && Inv(states[j]) && Evolves(states[i], states[j])
    decreases j - i
  {
    hide Inv, Step, Init, Evolves;
    Reachable(states, ops, i);
    Unchanged(states[i]);
    if i < j {
      Forward(states, ops, i, j - 1);
      StepKeeps(states[j - 1], ops[j - 1]);
      ComposeKept(states[i], states[j - 1], states[j]);
    }
  }

  // ---- leases ----

  /** A session is running exactly when it has one active run; that run carries the session's own
      non-empty lease and builds on its current head. */
  ghost predicate LeaseLaw(db: Db, s: Id)
    requires s in db.sessions
  {
    && (db.sessions[s].state.Running? <==> Held(db.runs, s))
    && (db.sessions[s].state.Running? <==> db.sessions[s].lease != NONE)
    && (forall k :: k in db.runs && db.runs[k].session == s && db.runs[k].status.Active? ==>
          db.runs[k].lease == db.sessions[s].lease && ActiveRuns(db.runs, s) == {k}
          && db.runs[k].parentHead == db.sessions[s].head && db.runs[k].parentCount == db.sessions[s].count)
    && (forall t :: t in db.sessions && t != s && db.sessions[t].state.Running? ==> db.sessions[t].lease != db.sessions[s].lease)
  }

  lemma LeaseLawOf(db: Db, s: Id)
    requires Leased(db.sessions, db.runs) && Numbered(db.sessions, db.batches, db.calls, db.supply) && s in db.sessions
    ensures LeaseLaw(db, s)
  {
    forall k | k in db.runs && db.runs[k].session == s && db.runs[k].status.Active? ensures ActiveRuns(db.runs, s) == {k} {
    }
  }

  lemma LeaseLawAlways(states: seq<Db>, ops: seq<Op>, i: nat, s: Id)
    requires IsRun(states, ops) && i < |states| && s in states[i].sessions
    ensures LeaseLaw(states[i], s)
  {
    hide IsRun, Leased, Numbered, LeaseLaw;
    Reachable(states, ops, i);
    LeaseLawOf(states[i], s);
  }

  /** Every admission row names an active run of a running session, under that run's own key. */
  lemma ReservationsNameRuns(states: seq<Db>, ops: seq<Op>, i: nat, key: AdmissionKey)
    requires IsRun(states, ops) && i < |states| && key in states[i].admissions
    ensures var r := states[i].admissions[key];
            && r.run in states[i].runs && states[i].runs[r.run].status.Active?
            && r.session in states[i].sessions && states[i].sessions[r.session].state.Running?
            && states[i].runs[r.run].session == r.session && states[i].runs[r.run].replayUntil == r.replayUntil
            && key == AdmissionKey(states[i].sessions[r.session].namespace, states[i].runs[r.run].parentHead,
                                   states[i].runs[r.run].parentCount, states[i].runs[r.run].fingerprint)
  {
    hide IsRun, Leased, Numbered, Rooted, Batched, Uniform;
    Reachable(states, ops, i);
  }

  // ---- retirement ----

  lemma StaysRetired(a: Db, b: Db, s: Id)
    requires SessionsAge(a.sessions, b.sessions, a.supply) && s in a.sessions && s in b.sessions
    ensures SessionAges(a.sessions[s], b.sessions[s])
  {
  }

  /** A quarantined or expired session never becomes acquirable again. */
  lemma RetiredForGood(states: seq<Db>, ops: seq<Op>, i: nat, j: nat, s: Id, head: Id, count: int, run: Id, request: Id,
                       fingerprint: Id, seconds: real, window: real, now: real)
    requires IsRun(states, ops) && i <= j < |states| && s in states[i].sessions && Retired(states[i].sessions[s].state)
    ensures s in states[j].sessions ==> Retired(states[j].sessions[s].state)
    ensures var r := Acquire(states[j], s, head, count, run, request, fingerprint, seconds, window, now);
            r.db == states[j] && r.result in {Ok(NotFound), Ok(Unavailable), Fail(Invalid)}
  {
    hide IsRun, SessionsAge;
    Forward(states, ops, i, j);
    if s in states[j].sessions { StaysRetired(states[i], states[j], s); }
  }
}

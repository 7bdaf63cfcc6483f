/** The durable run journal (core/_a2a_turn_journal.py). */
module TurnJournal {
  import opened Basics
  import opened TurnTypes

  function OpenRun(db: Db, k: RunKey, now: real): Tx<JournalRun> {
    if k.run == NONE then Tx(db, Fail(InvalidArgument))
    else if k in db.runs then Tx(db, Ok(db.runs[k]))
    else if k.context !in db.contexts then Tx(db, Fail(RunUnknown))
    else
      var run := NEW_RUN_COUNTERS.(updatedAt := now);
      Tx(db.(runs := db.runs[k := run]), Ok(run))
  }

  function AcquireSubscriber(db: Db, k: RunKey, after: int, now: real): Tx<nat> {
    if after < 0 then Tx(db, Fail(InvalidArgument))
    else if k !in db.runs then Tx(db, Fail(RunUnknown))
    else if after > db.runs[k].committed then Tx(db, Fail(InvalidArgument))
    else
      var run := db.runs[k];
      var taken := run.(epoch := run.epoch + 1, updatedAt := now);
      Tx(db.(runs := db.runs[k := taken]), Ok(taken.epoch))
  }

  /** Insert one event row and advance the run's counters with it. */
  function WriteEvent(db: Db, k: RunKey, e: Event, ended: bool, outcome: Outcome, now: real): Db
    requires k in db.runs
  {
    var run := db.runs[k];
    var sequence := run.committed + 1;
    db.(journal := db.journal[JournalKey(k, sequence) := e],
        runs := db.runs[k := run.(ended := ended, outcome := if ended then outcome else NoOutcome,
                                  eventCount := run.eventCount + 1,
                                  byteCount := run.byteCount + e.bytes,
                                  committed := sequence, updatedAt := now)])
  }

  /** A managed run with emitted calls and no batch may not succeed through the journal alone. */
  ghost predicate UnfrozenManagedSuccess(db: Db, k: RunKey) {
    && k.context in db.contexts
    && k.context.thread.publication in db.managed
    && (exists c :: c in db.calls && c.run == k && db.calls[c].state.Emitted?)
    && k !in db.batches
  }

  ghost function Append(db: Db, k: RunKey, e: Event, terminal: bool, outcome: Outcome,
                        maxEvents: int, maxBytes: int, now: real): Tx<nat>
  {
    if terminal && outcome.NoOutcome? then Tx(db, Fail(InvalidArgument))
    else if k !in db.runs then Tx(db, Fail(RunUnknown))
    else if terminal && outcome.Success? && UnfrozenManagedSuccess(db, k) then
      Tx(db, Fail(ManagedSuccessWithoutBatch))
    else if db.runs[k].ended then Tx(db, Fail(RunTerminal(db.runs[k].outcome)))
    else
      var run := db.runs[k];
      if !terminal && (run.eventCount + 1 > maxEvents || run.byteCount + e.bytes > maxBytes) then
        // The quota's own terminal event is exempt from the quota.
        Tx(WriteEvent(db, k, QUOTA_TERMINAL_EVENT, true, QuotaExceeded, now), Fail(RunQuotaExceeded))
      else
        Tx(WriteEvent(db, k, e, terminal, outcome, now), Ok(run.committed + 1))
  }

  /** The journal half of leaving a turn: a journal that already ended keeps its own outcome. */
  function Terminalize(db: Db, k: RunKey, outcome: Outcome, e: Event, now: real): Db
    requires k in db.runs
  {
    if db.runs[k].ended then db else WriteEvent(db, k, e, true, outcome, now)
  }

  function Effective(db: Db, k: RunKey, outcome: Outcome): Outcome
    requires k in db.runs
  {
    if db.runs[k].ended then db.runs[k].outcome else outcome
  }

  datatype Row = Row(sequence: nat, event: Event)

  /** The rows with sequence in (low, high], in order. */
  function RowsBetween(journal: map<JournalKey, Event>, k: RunKey, low: nat, high: nat): (rows: seq<Row>)
    requires low <= high
    requires forall i: nat :: low < i <= high ==> JournalKey(k, i) in journal
    ensures |rows| == high - low
    ensures forall i :: 0 <= i < |rows| ==> rows[i] == Row(low + 1 + i, journal[JournalKey(k, low + 1 + i)])
    decreases high - low
  {
    if low == high then []
    else [Row(low + 1, journal[JournalKey(k, low + 1)])] + RowsBetween(journal, k, low + 1, high)
  }

  /** The run's journal rows are exactly those in (watermark, committed]. */
  ghost predicate Gapless(db: Db, k: RunKey)
    requires k in db.runs
  {
    && db.runs[k].watermark <= db.runs[k].committed
    && forall i: nat :: JournalKey(k, i) in db.journal
                        <==> db.runs[k].watermark < i <= db.runs[k].committed
  }

  /** One page of the committed tail after a cursor, for the current subscriber epoch only. */
  function ReadEvents(db: Db, k: RunKey, after: int, limit: int, epoch: Option<nat>): Result<seq<Row>>
    requires k in db.runs ==> Gapless(db, k)
  {
    if limit <= 0 || after < 0 then Fail(InvalidArgument)
    else if k !in db.runs then Fail(RunUnknown)
    else if epoch.Some? && db.runs[k].epoch != epoch.value then Fail(SubscriberTakenOver)
    else if after > db.runs[k].committed then Fail(InvalidArgument)
    else if after < db.runs[k].watermark then Fail(ReplayExpired)
    else
      var last := if after + limit < db.runs[k].committed then after + limit else db.runs[k].committed;
      Ok(RowsBetween(db.journal, k, after, last))
  }

  predicate Prunable(run: JournalRun, cutoff: real) {
    run.ended && run.updatedAt <= cutoff && run.watermark < run.committed
  }

  /** Only ended runs lose their rows; the watermark records how far. */
  function Prune(db: Db, retention: real, now: real): Db {
    var cutoff := now - Max(0.0, retention);
    db.(journal := map j | j in db.journal
                           && !(j.run in db.runs && Prunable(db.runs[j.run], cutoff)) :: db.journal[j],
        runs := map k | k in db.runs ::
          if Prunable(db.runs[k], cutoff)
          then db.runs[k].(watermark := db.runs[k].committed, updatedAt := now)
          else db.runs[k])
  }
}

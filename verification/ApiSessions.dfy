/** The transactions of the standard-API session store. */
module ApiSessions {
  import opened Basics
  import opened ApiTypes

  // ---- sessions ----

  predicate Admissible(db: Db, ns: Namespace) {
    && ns.publication in db.publications && ns.key in db.keys && db.keys[ns.key] == ns.publication
    && db.publications[ns.publication].open
    && db.publications[ns.publication].generation == ns.generation
    && ns.profile in db.publications[ns.publication].profiles
  }

  /** Sessions that count against the key's session quota. */
  function Retained(sessions: map<Id, Session>, ns: Namespace, now: real): set<Id> {
    set s | s in sessions && sessions[s].namespace.publication == ns.publication && sessions[s].namespace.key == ns.key
            && !sessions[s].state.Expired? && (sessions[s].state.Running? || sessions[s].expiresAt > now)
  }

  predicate ConversationUsed(sessions: map<Id, Session>, conversation: Id) {
    exists s :: s in sessions && sessions[s].conversation == conversation
  }

  function Create(db: Db, ns: Namespace, conversation: Id, head: Id, count: int, now: real): Tx<Id> {
    if conversation == NONE || count < 0 || !Admissible(db, ns) then Tx(db, Fail(Invalid))
    else
      var p := db.publications[ns.publication];
      if p.maxSessions < 1 || |Retained(db.sessions, ns, now)| >= p.maxSessions then Tx(db, Fail(SessionQuota))
      else if ConversationUsed(db.sessions, conversation) then Tx(db, Fail(Conflict))
      else
        var session := Session(ns, conversation, head, count, Idle, NONE, 0.0, p.ttl, now + p.ttl);
        Tx(db.(sessions := db.sessions[db.supply := session], supply := db.supply + 1), Ok(db.supply))
  }

  predicate HasRun(runs: map<Id, Run>, s: Id) {
    exists k :: k in runs && runs[k].session == s
  }

  /** Delete a session; runs, reservations, batches and their calls go with it. */
  function Drop(db: Db, s: Id): Db {
    db.(sessions := db.sessions - {s}, runs := RunsOutside(db.runs, s), admissions := Without(db.admissions, s),
        batches := BatchesOutside(db.batches, s), calls := CallsOutside(db.calls, db.batches, s),
        responses := ResponsesOutside(db.responses, s))
  }

  function RunsOutside(runs: map<Id, Run>, s: Id): map<Id, Run> {
    map k | k in runs && runs[k].session != s :: runs[k]
  }

  function Without(admissions: map<AdmissionKey, Reservation>, s: Id): map<AdmissionKey, Reservation> {
    map a | a in admissions && admissions[a].session != s :: admissions[a]
  }

  function BatchesOutside(batches: map<Id, ToolBatch>, s: Id): map<Id, ToolBatch> {
    map b | b in batches && batches[b].session != s :: batches[b]
  }

  function CallsOutside(calls: map<CallKey, ToolCall>, batches: map<Id, ToolBatch>, s: Id): map<CallKey, ToolCall> {
    map c | c in calls && !(c.batch in batches && batches[c.batch].session == s) :: calls[c]
  }

  function ResponsesOutside(responses: map<Id, Stored>, s: Id): map<Id, Stored> {
    map k | k in responses && responses[k].session != s :: responses[k]
  }

  function DiscardEmpty(db: Db, s: Id): Db {
    if s in db.sessions && db.sessions[s].state.Idle? && !HasRun(db.runs, s) then Drop(db, s) else db
  }

  function QuarantineUnstarted(db: Db, s: Id, now: real): Db {
    if s in db.sessions && db.sessions[s].state.Idle? && !HasRun(db.runs, s)
    then db.(sessions := db.sessions[s := db.sessions[s].(
               state := Quarantined, expiresAt := Min(db.sessions[s].expiresAt, now))])
    else db
  }

  // ---- acquire ----

  datatype Answer =
    | NotFound | Unavailable | Busy | SessionExpired | Stale
    | Attached(session: Id, run: Id, lease: Id)
    | Acquired(run: Id, lease: Id)

  predicate Retries(run: Run, s: Id, head: Id, count: int, fingerprint: Id, now: real) {
    && run.session == s && run.status.Active? && run.parentHead == head && run.parentCount == count
    && run.fingerprint == fingerprint && run.replayUntil >= now
  }

  ghost predicate HasRetry(runs: map<Id, Run>, s: Id, head: Id, count: int, fingerprint: Id, now: real) {
    exists k :: k in runs && Retries(runs[k], s, head, count, fingerprint, now)
  }

  ghost function RetryOf(runs: map<Id, Run>, s: Id, head: Id, count: int, fingerprint: Id, now: real): (k: Id)
    requires HasRetry(runs, s, head, count, fingerprint, now)
    ensures k in runs && Retries(runs[k], s, head, count, fingerprint, now)
  {
    var k :| k in runs && Retries(runs[k], s, head, count, fingerprint, now); k
  }

  function Abandon(runs: map<Id, Run>, s: Id): map<Id, Run> {
    map k | k in runs ::
      if runs[k].session == s && runs[k].status.Active? then runs[k].(status := Abandoned) else runs[k]
  }

  /** The lease an acquire finds lapsed: the session is quarantined where it stands. */
  function ExpireLease(db: Db, s: Id): Db
    requires s in db.sessions
  {
    db.(runs := Abandon(db.runs, s),
        sessions := db.sessions[s := db.sessions[s].(state := Quarantined, lease := NONE, deadline := 0.0)],
        admissions := Without(db.admissions, s))
  }

  function Purge(admissions: map<AdmissionKey, Reservation>, now: real): map<AdmissionKey, Reservation> {
    map a | a in admissions && !(admissions[a].replayUntil < now) :: admissions[a]
  }

  /** A reservation whose run and session are both alive. */
  predicate LiveReservation(db: Db, key: AdmissionKey, now: real) {
    && key in db.admissions && db.admissions[key].replayUntil >= now
    && db.admissions[key].run in db.runs && db.runs[db.admissions[key].run].status.Active?
    && db.admissions[key].session in db.sessions
    && db.sessions[db.admissions[key].session].state.Running?
    && db.sessions[db.admissions[key].session].deadline > now
  }

  function AttachTo(db: Db, key: AdmissionKey): Answer
    requires key in db.admissions && db.admissions[key].run in db.runs
  {
    Attached(db.admissions[key].session, db.admissions[key].run, db.runs[db.admissions[key].run].lease)
  }

  predicate PendingAt(batches: map<Id, ToolBatch>, s: Id, head: Id, count: int) {
    exists b :: b in batches && batches[b].session == s && batches[b].head == head && batches[b].count == count
                && batches[b].state.Pending?
  }

  /** Sessions that count against the key's run quota. */
  function LiveRuns(sessions: map<Id, Session>, ns: Namespace, now: real): set<Id> {
    set s | s in sessions && sessions[s].namespace.publication == ns.publication && sessions[s].namespace.key == ns.key
            && sessions[s].state.Running? && sessions[s].deadline > now
  }

  ghost function Acquire(db: Db, s: Id, head: Id, count: int, run: Id, request: Id, fingerprint: Id, lease: real,
                         window: real, now: real): Tx<Answer>
  {
    if s == NONE || run == NONE || request == NONE || fingerprint == NONE || lease <= 0.0 || window < 0.0 then
      Tx(db, Fail(Invalid))
    else if s !in db.sessions then Tx(db, Ok(NotFound))
    else
      var session := db.sessions[s];
      match session.state
      case Running =>
        if session.deadline <= now then Tx(ExpireLease(db, s), Ok(Unavailable))
        else if HasRetry(db.runs, s, head, count, fingerprint, now) then
          var k := RetryOf(db.runs, s, head, count, fingerprint, now);
          Tx(db, Ok(Attached(s, k, db.runs[k].lease)))
        else Tx(db, Ok(Busy))
      case Quarantined => Tx(db, Ok(Unavailable))
      case Expired => Tx(db, Ok(Unavailable))
      case _ =>
        if session.state.Idle? && session.expiresAt <= now then
          Tx(db.(sessions := db.sessions[s := session.(state := Expired)]), Ok(SessionExpired))
        else if session.head != head || session.count != count then Tx(db, Ok(Stale))
        else if session.state.WaitingTool? && !PendingAt(db.batches, s, head, count) then Tx(db, Ok(Unavailable))
        else if !Admissible(db, session.namespace) then Tx(db, Fail(Invalid))
        else AcquireHead(db, s, run, fingerprint, lease, window, now)
  }

  /** The session's head is free to be built on: deduplicate across sessions, then reserve and run. */
  function AcquireHead(db: Db, s: Id, run: Id, fingerprint: Id, lease: real, window: real, now: real): Tx<Answer>
    requires s in db.sessions && db.sessions[s].namespace.publication in db.publications
  {
    var session := db.sessions[s];
    var key := AdmissionKey(session.namespace, session.head, session.count, fingerprint);
    var purged := db.(admissions := Purge(db.admissions, now));
    if LiveReservation(purged, key, now) then Tx(purged, Ok(AttachTo(purged, key)))
    else if run in db.runs then
      if db.runs[run].session == s && db.runs[run].fingerprint == fingerprint && db.runs[run].status.Active?
      then Tx(purged, Ok(Attached(s, run, db.runs[run].lease)))
      else Tx(db, Fail(Invalid))
    else if db.publications[session.namespace.publication].maxRuns < 1
            || |LiveRuns(db.sessions, session.namespace, now)| >= db.publications[session.namespace.publication].maxRuns
    then Tx(db, Fail(RunQuota))
    else if key in purged.admissions || Reserved(purged.admissions, run) then
      if key in purged.admissions && purged.admissions[key].run in db.runs
         && db.runs[purged.admissions[key].run].status.Active?
      then Tx(purged, Ok(AttachTo(purged, key)))
      else Tx(db, Fail(Conflict))
    else
      Tx(purged.(
           admissions := purged.admissions[key := Reservation(s, run, now + window)],
           sessions := db.sessions[s := session.(state := Running, lease := db.supply, deadline := now + lease)],
           runs := db.runs[run := Run(s, db.supply, session.head, session.count, fingerprint, Active, NONE, now + window)],
           supply := db.supply + 1),
         Ok(Acquired(run, db.supply)))
  }

  predicate Reserved(admissions: map<AdmissionKey, Reservation>, run: Id) {
    exists a :: a in admissions && admissions[a].run == run
  }

  // ---- finalize ----

  datatype ToolRequest = ToolRequest(call: Id, tool: Id, arguments: Id, finite: bool)

  datatype ToolRow = ToolRow(call: Id, tool: Id, arguments: Id, schema: Id)

  datatype Prefix = Prefix(hash: Id, count: int, boundary: Id)

  /** A response to store. `formed` says that its fields are there, have their types, stay within their
      bounds and are finite; `id` is the one its envelope carries. */
  datatype Record = Record(formed: bool, previous: Id, items: seq<Id>, output: Id, envelope: Id, id: Id)

  /** What a run publishes. */
  datatype Final = Final(head: Id, count: int, prefixes: seq<Prefix>, checkpoint: Id, response: Id,
                         record: Option<Record>, requests: seq<ToolRequest>, schemas: map<Id, Id>)

  predicate GoodRequests(requests: seq<ToolRequest>, schemas: map<Id, Id>) {
    && |requests| <= 128
    && (forall i :: 0 <= i < |requests| ==>
          requests[i].call != NONE && requests[i].tool != NONE && requests[i].tool in schemas && requests[i].finite)
    && (forall i, j :: 0 <= i < j < |requests| ==> requests[i].call != requests[j].call)
  }

  function Rows(requests: seq<ToolRequest>, schemas: map<Id, Id>): seq<ToolRow>
    requires GoodRequests(requests, schemas)
  {
    seq(|requests|, i requires 0 <= i < |requests| =>
      ToolRow(requests[i].call, requests[i].tool, requests[i].arguments, schemas[requests[i].tool]))
  }

  /** The lease is held by this run. */
  predicate Owns(db: Db, k: Id, lease: Id) {
    && k in db.runs && db.runs[k].status.Active? && db.runs[k].lease == lease
    && db.runs[k].session in db.sessions && db.sessions[db.runs[k].session].state.Running?
    && db.sessions[db.runs[k].session].lease == lease
  }

  predicate HasPending(batches: map<Id, ToolBatch>, s: Id) {
    exists b :: b in batches && batches[b].session == s && batches[b].state.Pending?
  }

  ghost predicate HasBatch(batches: map<Id, ToolBatch>, k: Id) {
    exists b :: b in batches && batches[b].run == k
  }

  ghost function BatchOf(batches: map<Id, ToolBatch>, k: Id): (b: Id)
    requires HasBatch(batches, k)
    ensures b in batches && batches[b].run == k
  {
    var b :| b in batches && batches[b].run == k; b
  }

  /** The batch's calls are these rows, position by position. */
  predicate SameRows(calls: map<CallKey, ToolCall>, b: Id, rows: seq<ToolRow>) {
    && (forall i :: 0 <= i < |rows| ==>
          && CallKey(b, rows[i].call) in calls
          && var c := calls[CallKey(b, rows[i].call)];
             c.position == i && c.tool == rows[i].tool && c.arguments == rows[i].arguments && c.schema == rows[i].schema)
    && (forall c :: c in calls && c.batch == b ==> exists i :: 0 <= i < |rows| && rows[i].call == c.call)
  }

  function WithRows(calls: map<CallKey, ToolCall>, b: Id, rows: seq<ToolRow>): map<CallKey, ToolCall>
    decreases |rows|
  {
    if rows == [] then calls
    else
      var n := |rows| - 1;
      WithRows(calls, b, rows[..n])[CallKey(b, rows[n].call) :=
        ToolCall(n, rows[n].tool, rows[n].arguments, rows[n].schema, Pending, NONE, 0.0)]
  }

  function WithoutRun(admissions: map<AdmissionKey, Reservation>, k: Id): map<AdmissionKey, Reservation> {
    map a | a in admissions && admissions[a].run != k :: admissions[a]
  }

  predicate GoodPrefixes(prefixes: seq<Prefix>, count: int) {
    forall i :: 0 <= i < |prefixes| ==>
      prefixes[i].hash != NONE && 1 <= prefixes[i].count <= count && prefixes[i].boundary != NONE
  }

  predicate GoodRecord(f: Final) {
    f.record.Some? ==>
      f.record.value.formed && f.response != NONE && f.record.value.id == f.response && |f.record.value.items| == f.count
  }

  /** Only the Responses dialect stores responses. */
  predicate Storable(sessions: map<Id, Session>, s: Id) {
    s in sessions && sessions[s].namespace.profile.dialect.Responses?
  }

  function StoredOf(s: Id, f: Final, record: Record, expiresAt: real): Stored
    requires f.count >= 0
  {
    Stored(s, f.response, record.previous, f.checkpoint, f.head, f.count, record.items, record.output, record.envelope,
           expiresAt)
  }

  /** A stored response is this one; its session and expiry are not looked at. */
  predicate SameResponse(stored: Stored, f: Final, record: Record)
    requires f.count >= 0
  {
    stored == StoredOf(stored.session, f, record, stored.expiresAt)
  }

  /** The run or the response id is in the table already. */
  predicate Taken(responses: map<Id, Stored>, k: Id, response: Id) {
    k in responses || exists j :: j in responses && responses[j].response == response
  }

  /** What a repeated call has to agree with. */
  ghost predicate Repeats(db: Db, k: Id, f: Final, rows: seq<ToolRow>)
    requires k in db.runs
  {
    var run := db.runs[k];
    && run.session in db.sessions && db.sessions[run.session].head == f.head && db.sessions[run.session].count == f.count
    && (rows != [] ==> HasBatch(db.batches, k) && SameRows(db.calls, BatchOf(db.batches, k), rows))
    && (f.response != NONE ==> run.response == f.response)
    && (f.record.Some? ==> k in db.responses && SameResponse(db.responses[k], f, f.record.value))
  }

  ghost function Finalize(db: Db, k: Id, lease: Id, f: Final, now: real): Tx<bool> {
    if k == NONE || lease == NONE || f.head == NONE || !GoodRequests(f.requests, f.schemas) || !GoodRecord(f)
       || k !in db.runs || (f.record.Some? && !Storable(db.sessions, db.runs[k].session))
    then Tx(db, Fail(Invalid))
    else
      var run := db.runs[k];
      var rows := Rows(f.requests, f.schemas);
      if run.status.Completed? then Tx(db, if Repeats(db, k, f, rows) then Ok(true) else Fail(LeaseLost))
      else if !Owns(db, k, lease) then Tx(db, Fail(LeaseLost))
      else if f.count < run.parentCount then Tx(db, Fail(Invalid))
      else if rows != [] && HasPending(db.batches, run.session) then Tx(db, Fail(Invalid))
      else if !GoodPrefixes(f.prefixes, f.count) then Tx(db, Fail(Invalid))
      else if f.record.Some? && Taken(db.responses, k, f.response) then Tx(db, Fail(Conflict))
      else Tx(Publish(db, k, f, rows, now), Ok(false))
  }

  /** A session of an older generation is left to expire at once. */
  function ExpiryOf(publications: map<Id, Publication>, session: Session, now: real): real {
    var ns := session.namespace;
    if ns.publication in publications && publications[ns.publication].generation == ns.generation
    then now + session.ttl else now
  }

  function StoreResponse(responses: map<Id, Stored>, k: Id, s: Id, f: Final, expiresAt: real): map<Id, Stored>
    requires f.count >= 0
  {
    if f.record.None? then responses else responses[k := StoredOf(s, f, f.record.value, expiresAt)]
  }

  function Publish(db: Db, k: Id, f: Final, rows: seq<ToolRow>, now: real): Db
    requires k in db.runs && db.runs[k].session in db.sessions && f.count >= 0
  {
    var s := db.runs[k].session;
    var session := db.sessions[s];
    var expiresAt := ExpiryOf(db.publications, session, now);
    var published := db.(
      responses := StoreResponse(db.responses, k, s, f, expiresAt),
      sessions := db.sessions[s := session.(
        head := f.head, count := f.count, state := if rows == [] then Idle else WaitingTool, lease := NONE,
        deadline := 0.0, expiresAt := expiresAt)],
      runs := db.runs[k := db.runs[k].(status := Completed, response := f.response)],
      admissions := WithoutRun(db.admissions, k));
    if rows == [] then published
    else published.(
      batches := db.batches[db.supply := ToolBatch(k, s, f.head, f.count, Pending, NONE, now, 0.0)],
      calls := WithRows(db.calls, db.supply, rows),
      supply := db.supply + 1)
  }

  // ---- settle ----

  predicate AtParent(batch: ToolBatch, run: Run) {
    batch.session == run.session && batch.head == run.parentHead && batch.count == run.parentCount
  }

  /** The newest batch at the run's parent head; ties are the database's choice. */
  predicate Newest(db: Db, k: Id, b: Id) {
    && k in db.runs && b in db.batches && AtParent(db.batches[b], db.runs[k])
    && forall x :: x in db.batches && AtParent(db.batches[x], db.runs[k]) ==>
         db.batches[x].createdAt <= db.batches[b].createdAt
  }

  predicate AnyAtParent(db: Db, k: Id) {
    k in db.runs && exists b :: b in db.batches && AtParent(db.batches[b], db.runs[k])
  }

  function CallsOf(calls: map<CallKey, ToolCall>, b: Id): set<Id> {
    set c | c in calls && c.batch == b :: c.call
  }

  predicate SchemasHold(calls: map<CallKey, ToolCall>, b: Id, schemas: map<Id, Id>) {
    forall c :: c in calls && c.batch == b ==> calls[c].tool in schemas && schemas[calls[c].tool] == calls[c].schema
  }

  predicate SameResults(calls: map<CallKey, ToolCall>, b: Id, results: map<Id, Id>) {
    forall c :: c in calls && c.batch == b && c.call in results ==> calls[c].result == results[c.call]
  }

  function SettleCalls(calls: map<CallKey, ToolCall>, b: Id, results: map<Id, Id>, now: real): map<CallKey, ToolCall> {
    map c | c in calls ::
      if c.batch == b && c.call in results && calls[c].state.Pending?
      then calls[c].(state := Settled, result := results[c.call], settledAt := now) else calls[c]
  }

  /** `results` maps call ids to result fingerprints; None is a malformed or duplicated result. */
  function Settle(db: Db, k: Id, lease: Id, b: Id, results: Option<map<Id, Id>>, schemas: map<Id, Id>, now: real): Tx<bool>
  {
    if k == NONE || lease == NONE || results.None? || k !in db.runs then Tx(db, Fail(Invalid))
    else if !Owns(db, k, lease) then Tx(db, Fail(LeaseLost))
    else if !AnyAtParent(db, k) || b !in db.batches then Tx(db, Fail(Invalid))
    else if results.value.Keys != CallsOf(db.calls, b) || !SchemasHold(db.calls, b, schemas) then Tx(db, Fail(Invalid))
    else
      var batch := db.batches[b];
      match batch.state
      case Settled =>
        if batch.settledBy != k || !SameResults(db.calls, b, results.value) then Tx(db, Fail(Invalid))
        else Tx(db, Ok(true))
      case Withdrawn => Tx(db, Fail(Invalid))
      case Pending =>
        Tx(db.(calls := SettleCalls(db.calls, b, results.value, now),
               batches := db.batches[b := batch.(state := Settled, settledBy := k, settledAt := now)]), Ok(false))
  }

  // ---- leaving without a head ----

  predicate SettledBy(batch: ToolBatch, ks: set<Id>) {
    batch.state.Settled? && batch.settledBy in ks
  }

  function UnsettleCalls(calls: map<CallKey, ToolCall>, batches: map<Id, ToolBatch>, ks: set<Id>): map<CallKey, ToolCall> {
    map c | c in calls ::
      if calls[c].state.Settled? && c.batch in batches && SettledBy(batches[c.batch], ks)
      then calls[c].(state := Pending, result := NONE, settledAt := 0.0) else calls[c]
  }

  function UnsettleBatches(batches: map<Id, ToolBatch>, ks: set<Id>): map<Id, ToolBatch> {
    map b | b in batches ::
      if SettledBy(batches[b], ks) then batches[b].(state := Pending, settledBy := NONE, settledAt := 0.0) else batches[b]
  }

  function FailRun(db: Db, k: Id, lease: Id, coded: bool, canceled: bool, now: real): Tx<bool> {
    if k == NONE || lease == NONE || !coded || k !in db.runs then Tx(db, Fail(Invalid))
    else if db.runs[k].status == (if canceled then Canceled else Failed) then Tx(db, Ok(false))
    else if !Owns(db, k, lease) then Tx(db, Fail(LeaseLost))
    else
      var s := db.runs[k].session;
      var session := db.sessions[s];
      Tx(db.(calls := UnsettleCalls(db.calls, db.batches, {k}), batches := UnsettleBatches(db.batches, {k}),
             runs := db.runs[k := db.runs[k].(status := if canceled then Canceled else Failed)],
             sessions := db.sessions[s := session.(state := Quarantined, lease := NONE, deadline := 0.0,
                                                   expiresAt := Min(session.expiresAt, now))],
             admissions := WithoutRun(db.admissions, k)), Ok(true))
  }

  /** The run and the session are matched by the lease separately. */
  function Heartbeat(db: Db, k: Id, lease: Id, seconds: real, now: real): Tx<bool> {
    Tx(db.(sessions := Extend(db.sessions, lease, now + seconds)),
       Ok(k in db.runs && db.runs[k].lease == lease && db.runs[k].status.Active? && Leases(db.sessions, lease)))
  }

  predicate Leases(sessions: map<Id, Session>, lease: Id) {
    exists s :: s in sessions && sessions[s].lease == lease && sessions[s].state.Running?
  }

  function Extend(sessions: map<Id, Session>, lease: Id, deadline: real): map<Id, Session> {
    map s | s in sessions ::
      if sessions[s].lease == lease && sessions[s].state.Running? then sessions[s].(deadline := deadline) else sessions[s]
  }

  function ActiveRuns(runs: map<Id, Run>, s: Id): set<Id> {
    set k | k in runs && runs[k].session == s && runs[k].status.Active?
  }

  /** One row of the sweep over lapsed leases. */
  function AbandonOne(db: Db, s: Id): Db
    requires s in db.sessions
  {
    var ks := ActiveRuns(db.runs, s);
    db.(calls := UnsettleCalls(db.calls, db.batches, ks), batches := UnsettleBatches(db.batches, ks),
        runs := Abandon(db.runs, s),
        sessions := db.sessions[s := db.sessions[s].(state := Quarantined, lease := NONE, deadline := 0.0)],
        admissions := Without(db.admissions, s))
  }

  predicate LeaseLapsed(session: Session, now: real) { session.state.Running? && session.deadline <= now }

  function AbandonAll(db: Db, rows: seq<Id>): Db
    decreases |rows|
  {
    if rows == [] then db
    else if rows[0] in db.sessions then AbandonAll(AbandonOne(db, rows[0]), rows[1..])
    else AbandonAll(db, rows[1..])
  }

  /** The rows an abandonment sweep selected: every lapsed session, once. */
  ghost predicate LapsedRows(db: Db, rows: seq<Id>, now: real) {
    && (forall i, j :: 0 <= i < j < |rows| ==> rows[i] != rows[j])
    && (forall s :: s in rows <==> s in db.sessions && LeaseLapsed(db.sessions[s], now))
  }

  // ---- expiry ----

  predicate Sweepable(session: Session, now: real) {
    (session.state.Idle? || session.state.Quarantined?) && session.expiresAt <= now
  }

  /** The rows an expiry sweep selected: the longest expired ones, at most `limit` of them. */
  ghost predicate SweepRows(db: Db, rows: set<Id>, limit: nat, now: real) {
    && |rows| <= limit
    && (forall s :: s in rows ==> s in db.sessions && Sweepable(db.sessions[s], now))
    && (forall s :: s in db.sessions && Sweepable(db.sessions[s], now) && s !in rows ==>
          |rows| == limit && forall r :: r in rows ==> db.sessions[r].expiresAt <= db.sessions[s].expiresAt)
  }

  function SweepClaim(db: Db, rows: set<Id>): Db {
    db.(sessions := Claimed(db.sessions, rows))
  }

  function Claimed(sessions: map<Id, Session>, rows: set<Id>): map<Id, Session> {
    map s | s in sessions ::
      if s in rows && (sessions[s].state.Idle? || sessions[s].state.Quarantined?)
      then sessions[s].(state := Expired) else sessions[s]
  }

  /** After the deletion callback: drop the session, or put it back for a later sweep. */
  function SweepDone(db: Db, s: Id, removed: bool, now: real): Db {
    if s !in db.sessions || !db.sessions[s].state.Expired? then db
    else if removed then Drop(db, s)
    else db.(sessions := db.sessions[s := db.sessions[s].(state := Quarantined, expiresAt := now + 60.0)])
  }

  predicate OldGeneration(session: Session, publication: Id, generation: nat) {
    session.namespace.publication == publication && session.namespace.generation != generation
  }

  predicate OldBatch(batches: map<Id, ToolBatch>, sessions: map<Id, Session>, b: Id, publication: Id, generation: nat) {
    && b in batches && batches[b].session in sessions
    && OldGeneration(sessions[batches[b].session], publication, generation)
  }

  function ExpireSession(session: Session, now: real): Session {
    match session.state
    case Idle => session.(expiresAt := Min(session.expiresAt, now))
    case Quarantined => session.(expiresAt := Min(session.expiresAt, now))
    case WaitingTool => session.(state := Quarantined, expiresAt := Min(session.expiresAt, now))
    case _ => session
  }

  function WithdrawCalls(calls: map<CallKey, ToolCall>, batches: map<Id, ToolBatch>, sessions: map<Id, Session>,
                         publication: Id, generation: nat): map<CallKey, ToolCall>
  {
    map c | c in calls ::
      if calls[c].state.Pending? && OldBatch(batches, sessions, c.batch, publication, generation)
      then calls[c].(state := Withdrawn) else calls[c]
  }

  function WithdrawBatches(batches: map<Id, ToolBatch>, sessions: map<Id, Session>, publication: Id, generation: nat,
                           now: real): map<Id, ToolBatch>
  {
    map b | b in batches ::
      if batches[b].state.Pending? && OldBatch(batches, sessions, b, publication, generation)
      then batches[b].(state := Withdrawn, settledAt := now) else batches[b]
  }

  function ExpireSessions(sessions: map<Id, Session>, publication: Id, generation: nat, now: real): map<Id, Session> {
    map s | s in sessions ::
      if OldGeneration(sessions[s], publication, generation) then ExpireSession(sessions[s], now) else sessions[s]
  }

  /** Withdraw pending batches of older generations and schedule their idle sessions. */
  function ExpireGenerations(db: Db, publication: Id, generation: nat, now: real): Db {
    db.(calls := WithdrawCalls(db.calls, db.batches, db.sessions, publication, generation),
        batches := WithdrawBatches(db.batches, db.sessions, publication, generation, now),
        sessions := ExpireSessions(db.sessions, publication, generation, now))
  }

  function Reset(db: Db, publication: Id, now: real): Tx<nat> {
    if publication !in db.publications || db.publications[publication].generation < 1 then Tx(db, Fail(Invalid))
    else
      var next := db.publications[publication].generation + 1;
      var moved := db.(publications := db.publications[publication := db.publications[publication].(generation := next)]);
      Tx(ExpireGenerations(moved, publication, next, now), Ok(next))
  }

  // ---- deduplication probe ----

  function FindActive(db: Db, key: AdmissionKey, now: real): Tx<Option<Answer>> {
    var purged := db.(admissions := Purge(db.admissions, now));
    Tx(purged, Ok(if LiveReservation(purged, key, now) then Some(AttachTo(purged, key)) else None))
  }
}

/** The standard-API session store: one map per table (core/_a2a_standard_api.py).

  Session, lease and batch ids are drawn from `supply`, consumed in order: what the source draws at
  random is fresh here. Run ids and fingerprints come from the caller.
*/
module ApiTypes {
  import opened Basics

  datatype Error = Invalid | SessionQuota | RunQuota | LeaseLost | Conflict

  datatype Result<+T> = Ok(value: T) | Fail(error: Error)

  datatype Tx<+T> = Tx(db: Db, result: Result<T>)

  datatype Dialect = Chat | Responses | Messages

  /** `model` stands for the model id and the two canonicalization versions. */
  datatype Profile = Profile(dialect: Dialect, model: Id)

  datatype Namespace = Namespace(publication: Id, key: Id, generation: nat, profile: Profile)

  /** `open` says that the publication is enabled for the standard API, isolated and not marked for
      deletion; `profiles` are the dialects and models it serves. */
  datatype Publication = Publication(open: bool, generation: nat, profiles: set<Profile>, maxSessions: int,
                                     maxRuns: int, ttl: real)

  datatype SessionState = Idle | Running | WaitingTool | Quarantined | Expired

  datatype Session = Session(namespace: Namespace, conversation: Id, head: Id, count: nat, state: SessionState,
                             lease: Id, deadline: real, ttl: real, expiresAt: real)

  /** Active is the source's `running` run. */
  datatype RunStatus = Active | Completed | Failed | Canceled | Abandoned

  datatype Run = Run(session: Id, lease: Id, parentHead: Id, parentCount: nat, fingerprint: Id, status: RunStatus,
                     response: Id, replayUntil: real)

  datatype AdmissionKey = AdmissionKey(namespace: Namespace, head: Id, count: nat, fingerprint: Id)

  datatype Reservation = Reservation(session: Id, run: Id, replayUntil: real)

  datatype ToolState = Pending | Settled | Withdrawn

  datatype ToolBatch = ToolBatch(run: Id, session: Id, head: Id, count: nat, state: ToolState, settledBy: Id,
                                 createdAt: real, settledAt: real)

  datatype CallKey = CallKey(batch: Id, call: Id)

  datatype ToolCall = ToolCall(position: nat, tool: Id, arguments: Id, schema: Id, state: ToolState, result: Id,
                               settledAt: real)

  /** What is stored of a response: `items`, `output` and `envelope` are its encoded parts. */
  datatype Stored = Stored(session: Id, response: Id, previous: Id, checkpoint: Id, head: Id, count: nat,
                           items: seq<Id>, output: Id, envelope: Id, expiresAt: real)

  /** `responses` are keyed by the run that published them, which is unique in the table. */
  datatype Db = Db(publications: map<Id, Publication>, keys: map<Id, Id>, sessions: map<Id, Session>,
                   runs: map<Id, Run>, admissions: map<AdmissionKey, Reservation>, batches: map<Id, ToolBatch>,
                   calls: map<CallKey, ToolCall>, responses: map<Id, Stored>, supply: nat)
}

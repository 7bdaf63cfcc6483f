/** Thread generations, resolution and rotation (core/_a2a_turn_machine.py). */
module TurnThreads {
  import opened Basics
  import opened TurnTypes

  function EnsureThread(db: Db, t: ThreadKey): Tx<nat> {
    if t.thread == NONE then Tx(db, Fail(InvalidArgument))
    else if t in db.threads then Tx(db, Ok(db.threads[t].generation))
    else Tx(db.(threads := db.threads[t := Thread(0, 0, None)]), Ok(0))
  }

  /** The generation gate every run passes first. */
  predicate Holds(db: Db, t: ThreadKey, generation: int) {
    t in db.threads && db.threads[t].closedBefore <= generation == db.threads[t].generation
  }

  function Current(db: Db, t: ThreadKey): nat {
    if t in db.threads then db.threads[t].generation else 0
  }

  /** First transaction of resolve: the cleanup left behind by a rotation, if any. */
  function ResolveCheck(db: Db, t: ThreadKey, generation: int): Result<Option<Conversation>> {
    if Holds(db, t, generation) then Ok(db.threads[t].pending)
    else Fail(ThreadRotated(Current(db, t)))
  }

  /** Clear the marker by compare-and-set, after its deletion callback returned.
      Rotation also pins the generation it created; resolve does not. */
  function ClearPending(db: Db, t: ThreadKey, marker: Conversation, generation: Option<nat>): Db {
    if t in db.threads && db.threads[t].pending == Some(marker)
       && (generation.Some? ==> db.threads[t].generation == generation.value)
    then db.(threads := db.threads[t := db.threads[t].(pending := None)])
    else db
  }

  function Internal(p: Publication, c: ContextId): Conversation {
    if p.isolated then Child(p.conversation, c) else Parent(p.conversation)
  }

  /** Last transaction of resolve: validate again and create or refresh the context. */
  function ResolveFinish(db: Db, p: Publication, t: ThreadKey, generation: int): Tx<Conversation> {
    if !Holds(db, t, generation) then Tx(db, Fail(ThreadRotated(Current(db, t))))
    else
      var c := ContextId(t, generation);
      if c in db.contexts then Tx(db, Ok(db.contexts[c]))
      else Tx(db.(contexts := db.contexts[c := Internal(p, c)]), Ok(Internal(p, c)))
  }

  ghost predicate HasActive(db: Db, c: ContextId) {
    exists k :: k in db.admissions && k.context == c && Active(db.admissions[k])
  }

  ghost function ActiveRun(db: Db, c: ContextId): (k: RunKey)
    requires HasActive(db, c)
    ensures k in db.admissions && k.context == c && Active(db.admissions[k])
  {
    var k :| k in db.admissions && k.context == c && Active(db.admissions[k]); k
  }

  ghost predicate HasOpenBatch(db: Db, c: ContextId) {
    exists k :: k in db.batches && k.context == c && Open(db.batches[k])
  }

  ghost function OpenBatch(db: Db, c: ContextId): (k: RunKey)
    requires HasOpenBatch(db, c)
    ensures k in db.batches && k.context == c && Open(db.batches[k])
  {
    var k :| k in db.batches && k.context == c && Open(db.batches[k]); k
  }

  /** What is left of each table without the rows that hang off one context. */
  function Besides<V>(m: map<ContextId, V>, c: ContextId): map<ContextId, V> { map x | x in m && x != c :: m[x] }

  function Outside<V>(m: map<RunKey, V>, c: ContextId): map<RunKey, V> { map k | k in m && k.context != c :: m[k] }

  function RowsOutside(m: map<JournalKey, Event>, c: ContextId): map<JournalKey, Event> {
    map j | j in m && j.run.context != c :: m[j]
  }

  function CallsOutside(m: map<CallKey, Call>, c: ContextId): map<CallKey, Call> {
    map x | x in m && x.run.context != c :: m[x]
  }

  /** Delete one context; every dependent row goes with it. */
  function DropContext(db: Db, c: ContextId): Db {
    db.(contexts := Besides(db.contexts, c), admissions := Outside(db.admissions, c), fences := Besides(db.fences, c),
        runs := Outside(db.runs, c), journal := RowsOutside(db.journal, c), calls := CallsOutside(db.calls, c),
        batches := Outside(db.batches, c), runTokens := Outside(db.runTokens, c))
  }

  /** The conversation a rotation leaves to be deleted. */
  function Marker(db: Db, c: ContextId, isolated: bool): Option<Conversation> {
    if isolated && c in db.contexts then Some(db.contexts[c]) else None
  }

  ghost function Rotate(db: Db, t: ThreadKey, isolated: bool, expected: int, close: bool): Tx<nat> {
    if t !in db.threads then Tx(db, Fail(UnknownThread))
    else
      var thread := db.threads[t];
      var c := ContextId(t, thread.generation);
      if expected != thread.generation then Tx(db, Fail(ThreadRotated(thread.generation)))
      else if thread.pending.Some? then Tx(db, Fail(CleanupPending))
      else if HasActive(db, c) then Tx(db, Fail(TurnBusy(ActiveRun(db, c).run)))
      else if HasOpenBatch(db, c) then Tx(db, Fail(TurnBusy(OpenBatch(db, c).run)))
      else
        var next := thread.generation + 1;
        var closed := if close && thread.closedBefore < next then next else thread.closedBefore;
        Tx(DropContext(db, c).(
             threads := db.threads[t := Thread(next, closed, Marker(db, c, isolated))],
             tombstones := set k | k in db.tombstones
                                   && !(k.context.thread == t && k.context.generation < next)),
           Ok(next))
  }
}

/** Crash-ordered cleanup of rotated conversations: resolve and rotate are several transactions with
    a deletion callback between them, and any process may stop for good at any point. */
module TurnCleanup {
  import opened Basics
  import opened TurnTypes
  import opened TurnThreads
  import opened TurnInvariants
  import opened TurnMachine
  import opened TurnThreadFrames

  /** Where a call of resolve or rotate stands between its transactions. */
  datatype Process =
    | Checked(thread: ThreadKey, generation: nat, pending: Option<Conversation>)
    | Rotated(thread: ThreadKey, generation: nat, marker: Conversation)
    | Returned(thread: ThreadKey, generation: nat, marker: Conversation, rotating: bool)
    | Cleared(thread: ThreadKey, generation: nat)

  /** `deleted` are the conversations whose deletion callback returned; `dropped` the conversations
      isolated rotations took from their threads. */
  datatype World = World(db: Db, processes: map<nat, Process>, deleted: set<Conversation>,
                         dropped: set<(ThreadKey, Conversation)>)

  datatype Happening =
    | Transact(op: Op)
    | Check(pid: nat, thread: ThreadKey, generation: nat, callback: bool)
    | Rotating(pid: nat, thread: ThreadKey, isolated: bool, expected: nat, close: bool, callback: bool)
    | Callback(pid: nat)
    | Clear(pid: nat)
    | HandOut(pid: nat, publication: Publication)
    | Crash(pid: nat)

  function Without(m: map<nat, Process>, pid: nat): map<nat, Process> {
    map p | p in m && p != pid :: m[p]
  }

  /** One step of one process. A process that raises simply ends, as if it crashed. */
  ghost function Next(w: World, e: Happening): World {
    match e
    case Transact(op) =>
      // Everything else that runs on the database; threads move only by the steps below.
      if op.ClearOp? || op.ResolveOp? || op.RotateOp? then w else w.(db := Step(w.db, op))
    case Check(pid, t, generation, callback) =>
      if pid in w.processes then w
      else (match ResolveCheck(w.db, t, generation)
        case Fail(_) => w
        case Ok(None) => w.(processes := w.processes[pid := Cleared(t, generation)])
        case Ok(Some(marker)) =>
          if callback then w.(processes := w.processes[pid := Checked(t, generation, Some(marker))]) else w)
    case Rotating(pid, t, isolated, expected, close, callback) =>
      if pid in w.processes then w
      else
        var r := Rotate(w.db, t, isolated, expected, close);
        if r.result.Fail? then w
        else
          var marker := r.db.threads[t].pending;
          w.(db := r.db,
             dropped := if marker.Some? then w.dropped + {(t, marker.value)} else w.dropped,
             processes := if marker.Some? && callback
                          then w.processes[pid := Rotated(t, r.result.value, marker.value)] else w.processes)
    case Callback(pid) =>
      if pid !in w.processes then w
      else (match w.processes[pid]
        case Checked(t, g, Some(marker)) =>
          w.(deleted := w.deleted + {marker}, processes := w.processes[pid := Returned(t, g, marker, false)])
        case Rotated(t, g, marker) =>
          w.(deleted := w.deleted + {marker}, processes := w.processes[pid := Returned(t, g, marker, true)])
        case _ => w)
    case Clear(pid) =>
      if pid !in w.processes then w
      else (match w.processes[pid]
        case Returned(t, g, marker, rotating) =>
          w.(db := ClearPending(w.db, t, marker, if rotating then Some(g) else None),
             processes := if rotating then Without(w.processes, pid) else w.processes[pid := Cleared(t, g)])
        case _ => w)
    case HandOut(pid, publication) =>
      if pid !in w.processes then w
      else (match w.processes[pid]
        case Cleared(t, g) =>
          w.(db := ResolveFinish(w.db, publication, t, g).db, processes := Without(w.processes, pid))
        case _ => w)
    case Crash(pid) => w.(processes := Without(w.processes, pid))
  }

  /** The context a step hands to its caller, if it does. */
  ghost predicate HandsOut(w: World, e: Happening) {
    e.HandOut? && e.pid in w.processes && w.processes[e.pid].Cleared?
    && ResolveFinish(w.db, e.publication, w.processes[e.pid].thread, w.processes[e.pid].generation).result.Ok?
  }

  // ---- what every interleaving keeps ----

  predicate Sound(threads: map<ThreadKey, Thread>, deleted: set<Conversation>, p: Process) {
    && p.thread in threads && p.generation <= threads[p.thread].generation
    && (var now := threads[p.thread];
        match p
        case Checked(_, g, pending) =>
          pending.Some? && (g == now.generation ==> now.pending.None? || now.pending == pending)
        case Rotated(_, g, marker) => g == now.generation ==> now.pending.None? || now.pending == Some(marker)
        case Returned(_, g, marker, _) =>
          marker in deleted && (g == now.generation ==> now.pending.None? || now.pending == Some(marker))
        case Cleared(_, g) => g == now.generation ==> now.pending.None?)
  }

  ghost predicate Accounted(w: World) {
    forall t, conversation :: (t, conversation) in w.dropped ==>
      conversation in w.deleted || (t in w.db.threads && w.db.threads[t].pending == Some(conversation))
  }

  ghost predicate Orderly(w: World) {
    && Accounted(w)
    && (forall pid :: pid in w.processes ==> Sound(w.db.threads, w.deleted, w.processes[pid]))
  }

  lemma EnsureAdds(db: Db, t: ThreadKey)
    ensures var after := EnsureThread(db, t).db.threads;
            after == db.threads || (t !in db.threads && after == db.threads[t := Thread(0, 0, None)])
  {
  }

  lemma TransactOrderly(w: World, op: Op)
    requires Orderly(w)
    ensures Orderly(Next(w, Transact(op)))
  {
    hide Step;
    if op.EnsureOp? {
      EnsureAdds(w.db, op.thread);
      assert Step(w.db, op) == EnsureThread(w.db, op.thread).db by { EnsureStep(w.db, op); }
    } else if !ThreadOp(op) {
      OtherThreads(w.db, op);
    }
  }

  lemma EnsureStep(db: Db, op: Op)
    requires op.EnsureOp?
    ensures Step(db, op) == EnsureThread(db, op.thread).db
  {
  }

  lemma RotatedThread(db: Db, t: ThreadKey, isolated: bool, expected: nat, close: bool)
    ensures var r := Rotate(db, t, isolated, expected, close);
            r.result.Ok? ==>
              && t in db.threads && db.threads[t].pending.None? && t in r.db.threads
              && r.db.threads == db.threads[t := r.db.threads[t]]
              && r.result.value == r.db.threads[t].generation == db.threads[t].generation + 1
  {
    hide DropContext;
  }

  lemma RotateOrderly(w: World, e: Happening)
    requires Orderly(w) && e.Rotating?
    ensures Orderly(Next(w, e))
  {
    hide Rotate;
    RotatedThread(w.db, e.thread, e.isolated, e.expected, e.close);
  }

  lemma ClearedThread(db: Db, t: ThreadKey, marker: Conversation, generation: Option<nat>)
    ensures var after := ClearPending(db, t, marker, generation).threads;
            after == db.threads
            || (t in db.threads && db.threads[t].pending == Some(marker)
                && after == db.threads[t := db.threads[t].(pending := None)])
    ensures generation.None? && t in db.threads && db.threads[t].pending == Some(marker) ==>
              ClearPending(db, t, marker, generation).threads[t].pending.None?
  {
  }

  lemma ClearOrderly(w: World, pid: nat)
    requires Orderly(w)
    ensures Orderly(Next(w, Clear(pid)))
  {
    hide ClearPending;
    if pid in w.processes && w.processes[pid].Returned? {
      var p := w.processes[pid];
      ClearedThread(w.db, p.thread, p.marker, if p.rotating then Some(p.generation) else None);
    }
  }

  lemma HandOutOrderly(w: World, pid: nat, publication: Publication)
    requires Orderly(w)
    ensures Orderly(Next(w, HandOut(pid, publication)))
  {
  }

  lemma NextOrderly(w: World, e: Happening)
    requires Orderly(w)
    ensures Orderly(Next(w, e))
  {
    match e
    case Transact(op) => TransactOrderly(w, op);
    case Check(pid, t, generation, callback) =>
    case Rotating(_, _, _, _, _, _) => RotateOrderly(w, e);
    case Callback(pid) =>
    case Clear(pid) => ClearOrderly(w, pid);
    case HandOut(pid, publication) => HandOutOrderly(w, pid, publication);
    case Crash(pid) =>
  }

  /** An interleaving of calls, callbacks, crashes and everything else, from a fresh database. */
  ghost predicate Interleaving(worlds: seq<World>, events: seq<Happening>) {
    && |worlds| == |events| + 1
    && Init(worlds[0].db) && worlds[0].processes == map[] && worlds[0].dropped == {}
    && forall i :: 0 <= i < |events| ==> worlds[i + 1] == Next(worlds[i], events[i])
  }

  lemma {:induction false} OrderlyAlways(worlds: seq<World>, events: seq<Happening>, n: nat)
    requires Interleaving(worlds, events) && n < |worlds|
    ensures Orderly(worlds[n])
  {
    hide Next;
    if n > 0 {
      OrderlyAlways(worlds, events, n - 1);
      NextOrderly(worlds[n - 1], events[n - 1]);
    }
  }

  /** At every point of every interleaving, a conversation an isolated rotation dropped is either
      its thread's pending marker or its deletion callback has returned. */
  lemma DroppedIsAccountedFor(worlds: seq<World>, events: seq<Happening>, n: nat, t: ThreadKey, conversation: Conversation)
    requires Interleaving(worlds, events) && n < |worlds| && (t, conversation) in worlds[n].dropped
    ensures conversation in worlds[n].deleted
            || (t in worlds[n].db.threads && worlds[n].db.threads[t].pending == Some(conversation))
  {
    hide Interleaving, Sound;
    OrderlyAlways(worlds, events, n);
  }

  /** Resolve hands out a context only for the current generation, with no cleanup pending and every
      conversation the thread ever dropped deleted. */
  lemma HandsOutClean(worlds: seq<World>, events: seq<Happening>, n: nat)
    requires Interleaving(worlds, events) && n < |events| && HandsOut(worlds[n], events[n])
    ensures var p := worlds[n].processes[events[n].pid];
            && p.thread in worlds[n].db.threads && worlds[n].db.threads[p.thread].generation == p.generation
            && worlds[n].db.threads[p.thread].pending.None?
            && forall conversation :: (p.thread, conversation) in worlds[n].dropped ==> conversation in worlds[n].deleted
  {
    OrderlyAlways(worlds, events, n);
  }

  // ---- which conversations are scheduled ----

  /** A rotation schedules the publication's own conversation exactly when it runs as isolated on a
      context that was created as shared. */
  lemma ParentScheduledIff(db: Db, t: ThreadKey, isolated: bool, expected: int, close: bool)
    requires Rotate(db, t, isolated, expected, close).result.Ok?
    ensures t in db.threads && t in Rotate(db, t, isolated, expected, close).db.threads
    ensures var c := ContextId(t, db.threads[t].generation);
            var pending := Rotate(db, t, isolated, expected, close).db.threads[t].pending;
            (pending.Some? && pending.value.Parent?) <==> (isolated && c in db.contexts && db.contexts[c].Parent?)
  {
    hide DropContext;
  }

  /** The policy of a publication may be changed between the two, and then its own conversation is
      scheduled for deletion. */
  lemma SharedCanBeScheduled(db: Db, conversation: Id)
    requires Init(db) && db.threads == map[]
    ensures var t := ThreadKey(1, 2, 3);
            var created := ResolveFinish(EnsureThread(db, t).db, Publication(1, conversation, false), t, 0).db;
            var r := Rotate(created, t, true, 0, false);
            r.result.Ok? && t in r.db.threads && r.db.threads[t].pending == Some(Parent(conversation))
  {
    var t := ThreadKey(1, 2, 3);
    var created := ResolveFinish(EnsureThread(db, t).db, Publication(1, conversation, false), t, 0).db;
    assert !HasActive(created, ContextId(t, 0)) && !HasOpenBatch(created, ContextId(t, 0));
    assert ContextId(t, 0) in created.contexts;
  }

  /** Every call passes the publication row of its thread, and publications keep their policy. */
  ghost predicate FixedPolicy(events: seq<Happening>, worlds: seq<World>, isolates: set<Id>)
    requires |worlds| == |events| + 1
  {
    forall i :: 0 <= i < |events| ==>
      && (events[i].Rotating? ==> (events[i].isolated <==> events[i].thread.publication in isolates))
      && (events[i].HandOut? && events[i].pid in worlds[i].processes ==>
            && events[i].publication.id == worlds[i].processes[events[i].pid].thread.publication
            && (events[i].publication.isolated <==> events[i].publication.id in isolates))
  }

  ghost predicate Private(db: Db, isolates: set<Id>) {
    && (forall c :: c in db.contexts && c.thread.publication in isolates ==> db.contexts[c].Child?)
    && (forall t :: t in db.threads && db.threads[t].pending.Some? ==> db.threads[t].pending.value.Child?)
  }

  lemma RotatePrivate(db: Db, t: ThreadKey, isolated: bool, expected: int, close: bool, isolates: set<Id>)
    requires Private(db, isolates) && (isolated <==> t.publication in isolates)
    ensures Private(Rotate(db, t, isolated, expected, close).db, isolates)
  {
  }

  lemma NextPrivate(w: World, e: Happening, isolates: set<Id>)
    requires Private(w.db, isolates)
    requires e.Rotating? ==> (e.isolated <==> e.thread.publication in isolates)
    requires e.HandOut? && e.pid in w.processes ==>
               e.publication.id == w.processes[e.pid].thread.publication
               && (e.publication.isolated <==> e.publication.id in isolates)
    ensures Private(Next(w, e).db, isolates)
  {
    hide Step, Rotate, ClearPending;
    match e
    case Transact(op) =>
      if op.EnsureOp? {
        EnsureAdds(w.db, op.thread);
        EnsureStep(w.db, op);
      } else if !ThreadOp(op) {
        OtherThreads(w.db, op);
      }
    case Rotating(_, t, isolated, expected, close, _) => RotatePrivate(w.db, t, isolated, expected, close, isolates);
    case Clear(pid) =>
      if pid in w.processes && w.processes[pid].Returned? {
        var p := w.processes[pid];
        ClearedPrivate(w.db, p.thread, p.marker, if p.rotating then Some(p.generation) else None, isolates);
      }
    case _ =>
  }

  lemma ClearedPrivate(db: Db, t: ThreadKey, marker: Conversation, generation: Option<nat>, isolates: set<Id>)
    requires Private(db, isolates)
    ensures Private(ClearPending(db, t, marker, generation), isolates)
  {
  }

  /** With fixed policies no publication's own conversation is ever scheduled for deletion. */
  lemma {:induction false} SharedNeverScheduled(worlds: seq<World>, events: seq<Happening>, n: nat, isolates: set<Id>)
    requires Interleaving(worlds, events) && n < |worlds| && FixedPolicy(events, worlds, isolates)
    requires forall t :: t in worlds[0].db.threads ==> worlds[0].db.threads[t].pending.None?
    ensures Private(worlds[n].db, isolates)
  {
    hide Next;
    if n > 0 {
      SharedNeverScheduled(worlds, events, n - 1, isolates);
      NextPrivate(worlds[n - 1], events[n - 1], isolates);
    }
  }
}

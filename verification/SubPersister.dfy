/** The coalescing background persister of a sub-agent and its incremental snapshots
    (core/_agent_executor_loop.py). */
module SubPersister {
  import opened Basics

  // ---- incremental snapshots ----

  datatype Message = Message(id: Id)
  datatype SavedRow = SavedRow(of: Message)

  function Serialize(messages: seq<Message>): (rows: seq<SavedRow>)
    ensures |rows| == |messages|
    ensures forall i :: 0 <= i < |messages| ==> rows[i] == SavedRow(messages[i])
  {
    seq(|messages|, i requires 0 <= i < |messages| => SavedRow(messages[i]))
  }

  /** The message list of the loop, and the rows serialized from it so far. `list` identifies the list
      object: it is the one the cache was filled from exactly when `source` is it. */
  class Snapshots {
    var messages: seq<Message>
    var list: nat
    var rows: seq<SavedRow>
    var source: Option<nat>

    /** The cached rows are those of the list's beginning. */
    ghost predicate Valid()
      reads this
    {
      && (source == Some(list) ==> |rows| <= |messages| && rows == Serialize(messages[..|rows|]))
      && (source.Some? ==> source.value <= list)
      && (source.None? ==> rows == [])
    }

    constructor (initial: seq<Message>)
      ensures Valid() && messages == initial
    {
      messages, list, rows, source := initial, 0, [], None;
    }

    /** The loop only extends its list. */
    method Extend(more: seq<Message>)
      requires Valid()
      modifies `messages
      ensures Valid() && messages == old(messages) + more
    {
      messages := messages + more;
      assert source == Some(list) ==> messages[..|rows|] == old(messages)[..|rows|];
    }

    /** A compaction swaps in another list. */
    method Replace(other: seq<Message>)
      requires Valid()
      modifies `messages, `list
      ensures Valid() && messages == other
    {
      messages, list := other, list + 1;
    }

    /** Serialize what is new, or everything when the list was swapped: always the whole list. */
    method Snapshot() returns (result: seq<SavedRow>)
      requires Valid()
      modifies `rows, `source
      ensures Valid() && result == Serialize(messages)
      ensures rows == result && source == Some(list)
    {
      if source != Some(list) || |messages| < |rows| {
        rows := Serialize(messages);
        source := Some(list);
      } else {
        rows := rows + Serialize(messages[|rows|..]);
      }
      result := rows;
    }
  }

  /** Without that discipline the incremental snapshot is the whole list exactly when it is rebuilt, or
      when the cached rows still are those of the list's beginning. */
  lemma IncrementalExact(messages: seq<Message>, rows: seq<SavedRow>, swapped: bool)
    ensures var snapshot := if swapped || |messages| < |rows| then Serialize(messages)
                            else rows + Serialize(messages[|rows|..]);
            snapshot == Serialize(messages)
            <==> swapped || |messages| < |rows| || rows == Serialize(messages[..|rows|])
  {
    if !swapped && |rows| <= |messages| {
      var snapshot := rows + Serialize(messages[|rows|..]);
      if snapshot == Serialize(messages) {
        assert forall i :: 0 <= i < |rows| ==> rows[i] == snapshot[i];
      }
    }
  }

  // ---- scheduling ----

  /** A worker is about to look at the shared fields, or is saving the snapshot with this number. */
  datatype Worker = Looking | Saving(snapshot: nat)

  /** Snapshots are numbered in the order they were scheduled; `pending` is the newest one. `saved` are
      the snapshots handed to the store, in order. */
  datatype World = World(scheduled: nat, dirty: bool, running: bool, pending: nat, workers: map<nat, Worker>,
                         started: nat, saved: seq<nat>)

  datatype Event = Schedule | Step(worker: nat)

  /** One locked section, or one save. */
  function Next(w: World, e: Event): World {
    match e
    case Schedule =>
      var noted := w.(pending := w.scheduled, scheduled := w.scheduled + 1, dirty := true);
      if w.running then noted
      else noted.(running := true, workers := w.workers[w.started := Looking], started := w.started + 1)
    case Step(k) =>
      if k !in w.workers then w
      else match w.workers[k]
        case Looking =>
          if w.dirty then w.(dirty := false, workers := w.workers[k := Saving(w.pending)])
          else w.(running := false, workers := w.workers - {k})
        case Saving(n) => w.(saved := w.saved + [n], workers := w.workers[k := Looking])
  }

  ghost predicate Run(worlds: seq<World>, events: seq<Event>) {
    && |worlds| == |events| + 1
    && worlds[0] == World(0, false, false, 0, map[], 0, [])
    && forall i :: 0 <= i < |events| ==> worlds[i + 1] == Next(worlds[i], events[i])
  }

  ghost predicate Coalescing(w: World) {
    && (w.running <==> w.workers != map[])
    && (forall j, k | j in w.workers && k in w.workers :: j == k)
    && (forall k :: k in w.workers ==> k < w.started)
    && (forall i, j :: 0 <= i < j < |w.saved| ==> w.saved[i] < w.saved[j])
    && (forall i :: 0 <= i < |w.saved| ==> w.saved[i] < w.scheduled)
    && (forall k :: k in w.workers && w.workers[k].Saving? ==>
          w.workers[k].snapshot < w.scheduled
          && forall i :: 0 <= i < |w.saved| ==> w.saved[i] < w.workers[k].snapshot)
    && (w.scheduled > 0 ==> w.pending == w.scheduled - 1)
    && (w.dirty ==> w.scheduled > 0 && w.running
                    && (forall k :: k in w.workers && w.workers[k].Saving? ==> w.workers[k].snapshot < w.pending)
                    && (forall i :: 0 <= i < |w.saved| ==> w.saved[i] < w.pending))
    && (!w.dirty && w.scheduled > 0 ==>
          (exists k :: k in w.workers && w.workers[k] == Saving(w.pending))
          || (w.saved != [] && w.saved[|w.saved| - 1] == w.pending))
  }

  lemma NextCoalesces(w: World, e: Event)
    requires Coalescing(w)
    ensures Coalescing(Next(w, e))
  {
    var after := Next(w, e);
    match e
    case Schedule =>
      if !w.running {
        assert w.workers == map[] && w.started in after.workers;
      } else {
        assert after.workers == w.workers;
      }
    case Step(k) =>
      if k in w.workers {
        assert forall j :: j in w.workers ==> j == k;
        assert forall j :: j in after.workers ==> j == k;
        if w.workers[k].Looking? && !w.dirty {
          assert after.workers == map[];
        } else {
          assert k in after.workers;
        }
      }
  }

  lemma {:induction false} CoalescesAlways(worlds: seq<World>, events: seq<Event>, n: nat)
    requires Run(worlds, events) && n < |worlds|
    ensures Coalescing(worlds[n])
  {
    hide Next, Coalescing;
    if n == 0 {
      StartCoalesces();
    } else {
      CoalescesAlways(worlds, events, n - 1);
      NextCoalesces(worlds[n - 1], events[n - 1]);
    }
  }

  lemma StartCoalesces()
    ensures Coalescing(World(0, false, false, 0, map[], 0, []))
  {
  }

  /** In every interleaving there is at most one worker, saves never go back to an older snapshot, and
      whenever no worker runs the last save is the last scheduled snapshot. */
  lemma PersisterIsSound(worlds: seq<World>, events: seq<Event>, n: nat)
    requires Run(worlds, events) && n < |worlds|
    ensures var w := worlds[n];
            && |w.workers| <= 1
            && (forall i, j :: 0 <= i < j < |w.saved| ==> w.saved[i] < w.saved[j])
            && (w.workers == map[] && w.scheduled > 0 ==>
                  w.saved != [] && w.saved[|w.saved| - 1] == w.scheduled - 1)
  {
    CoalescesAlways(worlds, events, n);
    var w := worlds[n];
    if k :| k in w.workers {
      assert w.workers == map[k := w.workers[k]];
    }
  }

  /** Left alone, the worker finishes: from any reachable state it saves the newest snapshot and stops
      within four of its own steps. */
  lemma WorkerDrains(w: World, k: nat)
    requires Coalescing(w) && k in w.workers
    ensures var end := Next(Next(Next(Next(w, Step(k)), Step(k)), Step(k)), Step(k));
            && end.workers == map[] && !end.running
            && (w.scheduled > 0 ==> end.saved != [] && end.saved[|end.saved| - 1] == w.scheduled - 1)
  {
    var a := Next(w, Step(k));
    NextCoalesces(w, Step(k));
    var b := Next(a, Step(k));
    NextCoalesces(a, Step(k));
    var c := Next(b, Step(k));
    NextCoalesces(b, Step(k));
    var d := Next(c, Step(k));
    NextCoalesces(c, Step(k));
    assert d.workers == map[];
  }
}

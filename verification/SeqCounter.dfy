/** The per-conversation line counter (core/_llm_seq.py): the lock is released between looking for the counter and
    filling it from disk, so callers interleave; and a process that starts anew fills it from less than the disk holds. */
module SeqCounter {
  import opened Basics

  datatype File = Transcript | Shared | Context(agent: string)

  datatype Line = Line(file: File, number: nat)

  /** Where one call stands: about to look, sent to the disk, back with what it read, or answered; or a caller that read
      the disk and is about to seed the counter. */
  datatype Call = Looking | Missing | Reading(seen: nat) | Seeding(seen: nat) | Answered(number: nat)

  /** `disk` holds the lines of all files in the order written, the first `since` of them by earlier processes; `saved`
      is the number in the saved metadata. `handed` holds the numbers this process gave out, in order. */
  datatype World = World(counter: Option<nat>, disk: seq<Line>, since: nat, saved: nat, calls: map<nat, Call>,
                         handed: seq<nat>)

  datatype Event =
    | Enter(call: nat)
    | Look(call: nat)
    | Read(call: nat)
    | Fill(call: nat)
    | Scan(call: nat)
    | Seed(call: nat)
    | Record(number: nat)
    | Write(line: Line)
    | Save(number: nat)
    | Restart

  /** The number of the transcript's last line. */
  function TailOf(disk: seq<Line>): nat
    decreases |disk|
  {
    if disk == [] then 0
    else
      var last := disk[|disk| - 1];
      if last.file.Transcript? then last.number else TailOf(disk[..|disk| - 1])
  }

  function Max(a: nat, b: nat): nat { if a > b then a else b }

  /** What the counter is filled from: the transcript's last line and the saved metadata. */
  function Seen(w: World): nat { Max(w.saved, TailOf(w.disk)) }

  /** The line carries a number given out for it, and follows what this process wrote to the file. */
  predicate Writable(w: World, line: Line) {
    && line.number in w.handed
    && forall i :: 0 <= i < |w.disk| && w.since <= i ==>
         w.disk[i].number != line.number && (w.disk[i].file == line.file ==> w.disk[i].number < line.number)
  }

  /** Metadata is fed from transcript lines only, as this process writes them. */
  predicate Savable(w: World, number: nat) {
    number > w.saved && exists i :: 0 <= i < |w.disk| && w.since <= i && w.disk[i] == Line(Transcript, number)
  }

  function Next(w: World, e: Event): World {
    match e
    case Enter(c) => if c in w.calls then w else w.(calls := w.calls[c := Looking])
    case Look(c) =>
      if c !in w.calls || !w.calls[c].Looking? then w
      else if w.counter.Some? then Hand(w, c, w.counter.value + 1)
      else w.(calls := w.calls[c := Missing])
    case Read(c) => if c !in w.calls || !w.calls[c].Missing? then w else w.(calls := w.calls[c := Reading(Seen(w))])
    case Fill(c) =>
      if c !in w.calls || !w.calls[c].Reading? then w
      else
        var seen := w.calls[c].seen;
        Hand(w, c, (if w.counter.None? || seen > w.counter.value then seen else w.counter.value) + 1)
    case Scan(c) => if c in w.calls then w else w.(calls := w.calls[c := Seeding(Seen(w))])
    case Seed(c) =>
      if c !in w.calls || !w.calls[c].Seeding? then w
      else if w.counter.None? || w.calls[c].seen > w.counter.value then w.(counter := Some(w.calls[c].seen))
      else w
    case Record(n) =>
      if n in w.handed && (w.counter.None? || n > w.counter.value) then w.(counter := Some(n)) else w
    case Write(line) => if Writable(w, line) then w.(disk := w.disk + [line]) else w
    case Save(n) => if Savable(w, n) then w.(saved := n) else w
    case Restart => w.(counter := None, since := |w.disk|, calls := map[], handed := [])
  }

  function Hand(w: World, c: nat, n: nat): World {
    w.(counter := Some(n), calls := w.calls[c := Answered(n)], handed := w.handed + [n])
  }

  /** A process that has just started, on any disk. */
  ghost predicate Fresh(w: World) {
    w.counter.None? && w.calls == map[] && w.handed == [] && w.since == |w.disk|
  }

  ghost predicate Run(worlds: seq<World>, events: seq<Event>) {
    && |worlds| == |events| + 1 && Fresh(worlds[0])
    && forall i :: 0 <= i < |events| ==> worlds[i + 1] == Next(worlds[i], events[i])
  }

  /** From `r` to `n` one process, started at `r`. */
  ghost predicate OneProcess(worlds: seq<World>, events: seq<Event>, r: nat, n: nat) {
    && Run(worlds, events) && r <= n < |worlds| && Fresh(worlds[r])
    && forall i :: r <= i < n ==> !events[i].Restart?
  }

  // ---- one process ----

  /** The numbers given out are the ones right behind what the disk showed at the start, and the counter is the last. */
  ghost predicate Climbing(start: World, w: World) {
    var base := Seen(start);
    && (forall i :: 0 <= i < |w.handed| ==> w.handed[i] == base + 1 + i)
    && (w.counter.None? ==> w.handed == [])
    && (w.counter.Some? ==> w.counter.value == base + |w.handed|)
    && (forall c :: c in w.calls && (w.calls[c].Reading? || w.calls[c].Seeding?) ==>
          base <= w.calls[c].seen <= base + |w.handed|)
  }

  /** What the process wrote is behind what it found, under numbers it gave out, rising along each file. */
  ghost predicate Writing(start: World, w: World) {
    && w.since == |start.disk| <= |w.disk| && w.disk[..w.since] == start.disk
    && (forall i :: 0 <= i < |w.disk| && w.since <= i ==> w.disk[i].number in w.handed)
    && (forall i, j :: w.since <= i < j < |w.disk| ==>
          w.disk[i].number != w.disk[j].number
          && (w.disk[i].file == w.disk[j].file ==> w.disk[i].number < w.disk[j].number))
    && (w.saved == start.saved || w.saved in w.handed)
  }

  lemma {:induction false} TailBetween(start: World, w: World, n: nat)
    requires Climbing(start, w) && Writing(start, w) && w.since <= n <= |w.disk|
    ensures TailOf(w.disk[..n]) == TailOf(start.disk) || TailOf(w.disk[..n]) in w.handed
    decreases n
  {
    if n > w.since {
      TailBetween(start, w, n - 1);
      assert w.disk[..n][..n - 1] == w.disk[..n - 1];
    }
  }

  /** Whatever a reader sees lies between what the disk showed at the start and the counter. */
  lemma SeenBetween(start: World, w: World)
    requires Climbing(start, w) && Writing(start, w)
    ensures Seen(start) <= Seen(w) <= Seen(start) + |w.handed|
  {
    TailBetween(start, w, |w.disk|);
    assert w.disk[..|w.disk|] == w.disk;
  }

  lemma NextClimbs(start: World, w: World, e: Event)
    requires Climbing(start, w) && Writing(start, w) && !e.Restart?
    ensures Climbing(start, Next(w, e))
  {
    hide Writable, Savable, Seen, Writing;
    SeenBetween(start, w);
  }

  lemma NextWrites(start: World, w: World, e: Event)
    requires Climbing(start, w) && Writing(start, w) && !e.Restart?
    ensures Writing(start, Next(w, e))
  {
    hide Seen, Climbing;
    var next := Next(w, e);
    assert w.disk <= next.disk;
    assert next.disk[..w.since] == w.disk[..w.since];
  }

  lemma FreshStarts(w: World)
    requires Fresh(w)
    ensures Climbing(w, w) && Writing(w, w)
  {
  }

  /** However the locked sections interleave, a process gives out the numbers right behind what it saw on disk when it
      started, one after the other. */
  lemma {:induction false} SequenceClimbs(worlds: seq<World>, events: seq<Event>, r: nat, n: nat)
    requires OneProcess(worlds, events, r, n)
    ensures Climbing(worlds[r], worlds[n]) && Writing(worlds[r], worlds[n])
    decreases n
  {
    hide Climbing, Writing, Next, Fresh;
    if n == r {
      FreshStarts(worlds[r]);
    } else {
      SequenceClimbs(worlds, events, r, n - 1);
      NextClimbs(worlds[r], worlds[n - 1], events[n - 1]);
      NextWrites(worlds[r], worlds[n - 1], events[n - 1]);
    }
  }

  /** Within one process no two calls receive the same number. */
  lemma NumbersAreDistinct(worlds: seq<World>, events: seq<Event>, r: nat, n: nat, i: nat, j: nat)
    requires OneProcess(worlds, events, r, n) && i < j < |worlds[n].handed|
    ensures Seen(worlds[r]) < worlds[n].handed[i] < worlds[n].handed[j]
  {
    hide Run, Fresh, Writing;
    SequenceClimbs(worlds, events, r, n);
  }

  // ---- across a restart ----

  /** No line of any file is above the transcript's last line and the saved metadata. */
  ghost predicate NoneAbove(w: World) { forall i :: 0 <= i < |w.disk| ==> w.disk[i].number <= Seen(w) }

  /** The numbers a process gives out are above every line it found on disk exactly if no context or shared line (or
      earlier transcript line) was above the transcript's last line and the saved metadata when it started. */
  lemma RestartClimbsIff(worlds: seq<World>, events: seq<Event>, r: nat, n: nat)
    requires OneProcess(worlds, events, r, n) && worlds[n].handed != []
    ensures (forall i, j :: 0 <= i < |worlds[r].disk| && 0 <= j < |worlds[n].handed| ==>
               worlds[r].disk[i].number < worlds[n].handed[j])
            <==> NoneAbove(worlds[r])
  {
    hide Run, Fresh, Writing, Seen;
    SequenceClimbs(worlds, events, r, n);
    var first := worlds[n].handed[0];
    assert first == Seen(worlds[r]) + 1;
    if !NoneAbove(worlds[r]) {
      var i :| 0 <= i < |worlds[r].disk| && worlds[r].disk[i].number > Seen(worlds[r]);
      assert !(worlds[r].disk[i].number < worlds[n].handed[0]);
    }
  }

  /** Along each file the numbers rise. */
  ghost predicate FilesRise(disk: seq<Line>) {
    forall i, j :: 0 <= i < j < |disk| && disk[i].file == disk[j].file ==> disk[i].number < disk[j].number
  }

  /** A process that finds no line above keeps every file rising. */
  lemma FilesKeepRising(worlds: seq<World>, events: seq<Event>, r: nat, n: nat)
    requires OneProcess(worlds, events, r, n) && NoneAbove(worlds[r]) && FilesRise(worlds[r].disk)
    ensures FilesRise(worlds[n].disk)
  {
    hide Run, Fresh, Seen;
    SequenceClimbs(worlds, events, r, n);
    var start, w := worlds[r], worlds[n];
    forall i, j | 0 <= i < j < |w.disk| && w.disk[i].file == w.disk[j].file
      ensures w.disk[i].number < w.disk[j].number
    {
      if i < w.since { assert w.disk[i] == w.disk[..w.since][i] == start.disk[i]; }
      if j < w.since { assert w.disk[j] == w.disk[..w.since][j] == start.disk[j]; }
    }
  }

  // ---- a restart that repeats numbers ----

  const EMPTY := World(None, [], 0, 0, map[], [])
  const BOT := Context("bot")

  /** A message to an agent is numbered 1 in the transcript, 2 in the agent's context, 3 in the shared one. After a
      restart one to everybody follows. */
  function RestartRun(): seq<Event> {
    [Enter(0), Look(0), Read(0), Fill(0), Write(Line(Transcript, 1)), Enter(1), Look(1), Write(Line(BOT, 2)),
     Enter(2), Look(2), Write(Line(Shared, 3)), Save(1), Restart,
     Enter(0), Look(0), Read(0), Fill(0), Write(Line(Transcript, 2)), Enter(1), Look(1), Write(Line(Shared, 3))]
  }

  /** A process's first number, written to the transcript. */
  lemma Drawn(worlds: seq<World>, events: seq<Event>, i: nat, n: nat)
    requires Run(worlds, events) && i + 4 < |events|
    requires events[i] == Enter(0) && events[i + 1] == Look(0) && events[i + 2] == Read(0) && events[i + 3] == Fill(0)
    requires events[i + 4] == Write(Line(Transcript, n))
    requires var w := worlds[i]; Fresh(w) && n == w.saved + 1 && TailOf(w.disk) == w.saved
    ensures var w := worlds[i];
            worlds[i + 5] == World(Some(n), w.disk + [Line(Transcript, n)], w.since, w.saved, map[0 := Answered(n)], [n])
  {
    assert worlds[i + 1] == Next(worlds[i], events[i]) && worlds[i + 2] == Next(worlds[i + 1], events[i + 1]);
    assert worlds[i + 3] == Next(worlds[i + 2], events[i + 2]) && worlds[i + 4] == Next(worlds[i + 3], events[i + 3]);
    assert worlds[i + 4 + 1] == Next(worlds[i + 4], events[i + 4]);
  }

  /** A further number, written to a file this process wrote nothing higher to. */
  lemma DrawnMore(worlds: seq<World>, events: seq<Event>, i: nat, c: nat, line: Line)
    requires Run(worlds, events) && i + 2 < |events|
    requires events[i] == Enter(c) && events[i + 1] == Look(c) && events[i + 2] == Write(line)
    requires var w := worlds[i];
             && c !in w.calls && w.counter == Some(line.number - 1)
             && forall j :: 0 <= j < |w.disk| && w.since <= j ==> w.disk[j].number < line.number
    ensures var w := worlds[i];
            worlds[i + 3] == w.(counter := Some(line.number), disk := w.disk + [line],
                                calls := w.calls[c := Answered(line.number)], handed := w.handed + [line.number])
  {
    var w := worlds[i];
    assert worlds[i + 1] == Next(worlds[i], events[i]) && worlds[i + 2] == Next(worlds[i + 1], events[i + 1]);
    assert worlds[i + 2 + 1] == Next(worlds[i + 2], events[i + 2]);
    assert w.calls[c := Looking][c := Answered(line.number)] == w.calls[c := Answered(line.number)];
  }

  lemma FirstProcess(worlds: seq<World>)
    requires Run(worlds, RestartRun()) && worlds[0] == EMPTY
    ensures worlds[13] == World(None, [Line(Transcript, 1), Line(BOT, 2), Line(Shared, 3)], 3, 1, map[], [])
  {
    hide Next;
    var events := RestartRun();
    Drawn(worlds, events, 0, 1);
    DrawnMore(worlds, events, 5, 1, Line(BOT, 2));
    DrawnMore(worlds, events, 8, 2, Line(Shared, 3));
    assert worlds[11 + 1] == Next(worlds[11], events[11]) && worlds[12 + 1] == Next(worlds[12], events[12]);
    Saved(worlds[11], worlds[12], worlds[13]);
  }

  lemma Saved(w: World, saved: World, restarted: World)
    requires saved == Next(w, Save(1)) && restarted == Next(saved, Restart)
    requires w.disk == [Line(Transcript, 1), Line(BOT, 2), Line(Shared, 3)] && w.since == 0 && w.saved == 0
    ensures restarted == World(None, w.disk, 3, 1, map[], [])
  {
    assert w.disk[0] == Line(Transcript, 1);
  }

  lemma Tails(disk: seq<Line>)
    requires disk == [Line(Transcript, 1), Line(BOT, 2), Line(Shared, 3)]
    ensures TailOf(disk) == 1
  {
    assert disk[..2] == [Line(Transcript, 1), Line(BOT, 2)] && disk[..2][..1] == [Line(Transcript, 1)];
    assert TailOf(disk[..2][..1]) == 1 && TailOf(disk[..2]) == 1;
  }

  /** The two shared lines carry one number, and so do the context's line and the second of the transcript. */
  lemma NumbersRepeat(worlds: seq<World>)
    requires Run(worlds, RestartRun()) && worlds[0] == EMPTY
    ensures FilesRise(worlds[13].disk) && Fresh(worlds[13]) && !NoneAbove(worlds[13])
    ensures worlds[21].disk == [Line(Transcript, 1), Line(BOT, 2), Line(Shared, 3), Line(Transcript, 2), Line(Shared, 3)]
    ensures !FilesRise(worlds[21].disk)
  {
    hide Next, TailOf;
    FirstProcess(worlds);
    Tails(worlds[13].disk);
    assert worlds[13].disk[2].number == 3;
    Drawn(worlds, RestartRun(), 13, 2);
    DrawnMore(worlds, RestartRun(), 18, 1, Line(Shared, 3));
    var disk := worlds[21].disk;
    assert disk[2] == disk[4] == Line(Shared, 3);
  }
}

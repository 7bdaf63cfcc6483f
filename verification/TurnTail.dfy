/** The paged subscriber loop over a run's journal, while everybody else goes on committing. */
module TurnTail {
  import opened Basics
  import opened TurnTypes
  import opened TurnJournal
  import opened TurnInvariants
  import opened TurnMachine
  import opened TurnHistory

  const PAGE := 1000

  /** Why a tail stops: another subscriber, the journal pruned under it, an error, the run drained,
      or the client gone (also: still waiting when the schedule ends). */
  datatype End = TakenOver | Expired | Failed | Drained | Detached

  predicate IsCurrent(db: Db, k: RunKey, epoch: nat) {
    k in db.runs && db.runs[k].epoch == epoch
  }

  /** What the events with sequence in (low, high] look like on the wire: malformed ones are skipped. */
  ghost function Wire(h: seq<Event>, low: int, high: int): (rows: seq<Row>)
    requires low < high ==> 0 <= low && high <= |h|
  {
    if high <= low then []
    else Wire(h, low, high - 1) + if h[high - 1].parses then [Row(high, h[high - 1])] else []
  }

  lemma {:induction false} HistoryGrows(states: seq<Db>, ops: seq<Op>, i: nat, j: nat, k: RunKey)
    requires i <= j <= |ops| && |states| == |ops| + 1
    ensures History(states, ops, i, k) <= History(states, ops, j, k)
    decreases j
  {
    hide Emits;
    if i < j { HistoryGrows(states, ops, i, j - 1, k); }
  }

  lemma {:induction false} WireSame(h: seq<Event>, g: seq<Event>, low: int, high: int)
    requires h <= g && (low < high ==> 0 <= low && high <= |h|)
    ensures Wire(h, low, high) == Wire(g, low, high)
    decreases high - low
  {
    if low < high { WireSame(h, g, low, high - 1); }
  }

  lemma WindowGapless(db: Db, k: RunKey, h: seq<Event>)
    requires k in db.runs && Window(db, k, h)
    ensures Gapless(db, k)
  {
  }

  /** A page holds the events right after the cursor, in order. */
  lemma PageOfHistory(db: Db, k: RunKey, h: seq<Event>, cursor: int, epoch: nat)
    requires Window(db, k, h) && (k in db.runs ==> Gapless(db, k))
    ensures var page := ReadEvents(db, k, cursor, PAGE, Some(epoch));
            page.Ok? ==>
              && k in db.runs && 0 <= cursor && cursor + |page.value| <= |h|
              && (forall x :: 0 <= x < |page.value| ==> page.value[x] == Row(cursor + 1 + x, h[cursor + x]))
  {
  }

  /** What has been emitted when the tail last looked at the store. */
  ghost predicate Emitted(states: seq<Db>, ops: seq<Op>, k: RunKey, a: int, cursor: int, at: nat, rows: seq<Row>)
    requires at <= |ops| && |states| == |ops| + 1
  {
    && a <= cursor
    && (a < cursor ==> 0 <= a && cursor <= |History(states, ops, at, k)|)
    && rows == Wire(History(states, ops, at, k), a, cursor)
  }

  lemma EmittedLater(states: seq<Db>, ops: seq<Op>, k: RunKey, a: int, cursor: int, i: nat, j: nat, rows: seq<Row>)
    requires i <= j <= |ops| && |states| == |ops| + 1 && Emitted(states, ops, k, a, cursor, i, rows)
    ensures Emitted(states, ops, k, a, cursor, j, rows)
  {
    HistoryGrows(states, ops, i, j, k);
    WireSame(History(states, ops, i, k), History(states, ops, j, k), a, cursor);
  }

  lemma EmitRow(states: seq<Db>, ops: seq<Op>, k: RunKey, a: int, cursor: int, at: nat, rows: seq<Row>, e: Event)
    requires at <= |ops| && |states| == |ops| + 1 && Emitted(states, ops, k, a, cursor, at, rows)
    requires 0 <= cursor < |History(states, ops, at, k)| && History(states, ops, at, k)[cursor] == e
    ensures Emitted(states, ops, k, a, cursor + 1, at, if e.parses then rows + [Row(cursor + 1, e)] else rows)
  {
  }

  /** A schedule says which state of the run each store access of the tail sees. */
  predicate Scheduled(schedule: seq<nat>, n: nat) {
    && (forall i :: 0 <= i < |schedule| ==> schedule[i] <= n)
    && (forall i, j :: 0 <= i < j < |schedule| ==> schedule[i] <= schedule[j])
  }

  /** The tail's place between two store accesses. */
  datatype Place = Place(rows: seq<Row>, cursor: int, at: nat, tick: nat)

  ghost predicate Placed(states: seq<Db>, ops: seq<Op>, k: RunKey, a: int, schedule: seq<nat>, p: Place) {
    && |states| == |ops| + 1 && p.at <= |ops| && p.tick <= |schedule|
    && (p.tick < |schedule| ==> p.at <= schedule[p.tick])
    && Emitted(states, ops, k, a, p.cursor, p.at, p.rows)
  }

  lemma LookAgain(states: seq<Db>, ops: seq<Op>, k: RunKey, a: int, schedule: seq<nat>, p: Place)
    requires Placed(states, ops, k, a, schedule, p) && p.tick < |schedule| && Scheduled(schedule, |ops|)
    ensures Placed(states, ops, k, a, schedule, p.(at := schedule[p.tick], tick := p.tick + 1))
    ensures History(states, ops, p.at, k) <= History(states, ops, schedule[p.tick], k)
  {
    EmittedLater(states, ops, k, a, p.cursor, p.at, schedule[p.tick], p.rows);
    HistoryGrows(states, ops, p.at, schedule[p.tick], k);
  }

  lemma EmitOne(states: seq<Db>, ops: seq<Op>, k: RunKey, a: int, schedule: seq<nat>, p: Place, h: seq<Event>, row: Row)
    requires Placed(states, ops, k, a, schedule, p) && h <= History(states, ops, p.at, k)
    requires 0 <= p.cursor < |h| && row == Row(p.cursor + 1, h[p.cursor])
    ensures Placed(states, ops, k, a, schedule,
                   p.(cursor := row.sequence, rows := if row.event.parses then p.rows + [row] else p.rows))
  {
    EmitRow(states, ops, k, a, p.cursor, p.at, p.rows, row.event);
  }

  /** Each of these looks at the store was scheduled and found the run with this subscriber still the current one. */
  ghost predicate Looked(states: seq<Db>, k: RunKey, epoch: nat, schedule: seq<nat>, looks: seq<nat>) {
    forall i :: 0 <= i < |looks| ==>
      && looks[i] in schedule && looks[i] < |states|
      && k in states[looks[i]].runs && states[looks[i]].runs[k].epoch == epoch
  }

  /** Why a tail stopped short, in terms of the state it looked at last. */
  ghost predicate StoppedFor(db: Db, k: RunKey, epoch: nat, cursor: int, exhausted: bool, end: End) {
    match end
    case TakenOver => k in db.runs ==> db.runs[k].epoch != epoch
    case Expired => k in db.runs && db.runs[k].epoch == epoch && 0 <= cursor < db.runs[k].watermark
    case Failed => k !in db.runs || cursor < 0 || cursor > db.runs[k].committed
    case Drained => k in db.runs && db.runs[k].ended && cursor >= db.runs[k].committed
    case Detached => exhausted
  }

  /** The rows of one page; None says the tail may go on. */
  method EmitPage(states: seq<Db>, ops: seq<Op>, k: RunKey, a: int, epoch: nat, schedule: seq<nat>, start: Place,
                  page: seq<Row>, ghost h: seq<Event>)
    returns (p: Place, end: Option<End>, ghost looks: seq<nat>)
    requires |states| == |ops| + 1 && Scheduled(schedule, |ops|)
    requires Placed(states, ops, k, a, schedule, start) && h == History(states, ops, start.at, k)
    requires 0 <= start.cursor && start.cursor + |page| <= |h|
    requires forall x :: 0 <= x < |page| ==> page[x] == Row(start.cursor + 1 + x, h[start.cursor + x])
    ensures Placed(states, ops, k, a, schedule, p) && start.tick <= p.tick
    ensures h <= History(states, ops, p.at, k)
    ensures end.None? ==> p.cursor == start.cursor + |page|
    ensures |looks| == p.cursor - start.cursor && Looked(states, k, epoch, schedule, looks)
    ensures end.Some? ==> (end.value.TakenOver? || end.value.Detached?) && p.at < |states|
                          && StoppedFor(states[p.at], k, epoch, p.cursor, p.tick == |schedule|, end.value)
  {
    hide History, Emitted, Placed;
    p, looks := start, [];
    var x := 0;
    PlacedFacts(states, ops, k, a, schedule, p);
    while x < |page|
      invariant 0 <= x <= |page| && start.tick <= p.tick <= |schedule| && p.at <= |ops|
      invariant Placed(states, ops, k, a, schedule, p) && h <= History(states, ops, p.at, k)
      invariant p.cursor == start.cursor + x
      invariant |looks| == x && Looked(states, k, epoch, schedule, looks)
    {
      if p.tick == |schedule| { return p, Some(Detached), looks; }
      LookAgain(states, ops, k, a, schedule, p);
      p := p.(at := schedule[p.tick], tick := p.tick + 1);
      if !IsCurrent(states[p.at], k, epoch) { return p, Some(TakenOver), looks; }
      looks := looks + [p.at];
      EmitOne(states, ops, k, a, schedule, p, h, page[x]);
      p := p.(cursor := page[x].sequence, rows := if page[x].event.parses then p.rows + [page[x]] else p.rows);
      x := x + 1;
    }
    end := None;
  }

  lemma PlacedFacts(states: seq<Db>, ops: seq<Op>, k: RunKey, a: int, schedule: seq<nat>, p: Place)
    requires Placed(states, ops, k, a, schedule, p)
    ensures p.at <= |ops| && p.tick <= |schedule|
    ensures p.cursor == a || p.cursor <= |History(states, ops, p.at, k)|
  {
  }

  /** In every state the run's rows are the window on its history. */
  ghost predicate Windowed(states: seq<Db>, ops: seq<Op>, k: RunKey) {
    && |states| == |ops| + 1
    && forall n :: 0 <= n <= |ops| ==> Window(states[n], k, History(states, ops, n, k))
  }

  /** Every run of the turn machine can be tailed. */
  lemma RunsAreWindowed(states: seq<Db>, ops: seq<Op>, k: RunKey)
    requires IsRun(states, ops)
    ensures Windowed(states, ops, k)
  {
    hide Window, History, Step, Init;
    forall n | 0 <= n <= |ops| ensures Window(states[n], k, History(states, ops, n, k)) {
      JournalIsWindow(states, ops, n, k);
    }
  }

  /** Tail the run from sequence `a`. Whatever stops it, the rows are a contiguous stretch of the
      run's history right after `a`, each sent on by the current subscriber; a drained tail has emitted
      the whole history of an ended run. */
  method TailJournal(states: seq<Db>, ops: seq<Op>, k: RunKey, a: int, epoch: nat, schedule: seq<nat>)
    returns (p: Place, end: End, ghost looks: seq<nat>)
    requires Windowed(states, ops, k) && Scheduled(schedule, |ops|)
    ensures p.at <= |ops| && Emitted(states, ops, k, a, p.cursor, p.at, p.rows)
    ensures end.Drained? ==> k in states[p.at].runs && states[p.at].runs[k].ended
                             && p.cursor == |History(states, ops, p.at, k)|
    ensures |looks| == p.cursor - a && Looked(states, k, epoch, schedule, looks)
    ensures StoppedFor(states[p.at], k, epoch, p.cursor, p.tick == |schedule|, end)
  {
    hide History, Window, Emitted, ReadEvents, Gapless, Wire;
    p, looks := Place([], a, 0, 0), [];
    NothingYet(states, ops, k, a);
    while p.tick < |schedule|
      invariant Placed(states, ops, k, a, schedule, p)
      invariant |looks| == p.cursor - a && Looked(states, k, epoch, schedule, looks)
      decreases |schedule| - p.tick
    {
      LookAgain(states, ops, k, a, schedule, p);
      p := p.(at := schedule[p.tick], tick := p.tick + 1);
      ghost var h := History(states, ops, p.at, k);
      WindowFacts(states[p.at], k, h, p.cursor, epoch);
      var page := ReadEvents(states[p.at], k, p.cursor, PAGE, Some(epoch));
      if page.Fail? {
        end := if page.error.SubscriberTakenOver? then TakenOver
               else if page.error.ReplayExpired? then Expired else Failed;
        PageRefused(states[p.at], k, p.cursor, epoch);
        return;
      }
      var stopped;
      ghost var more;
      p, stopped, more := EmitPage(states, ops, k, a, epoch, schedule, p, page.value, h);
      looks := looks + more;
      if stopped.Some? { return p, stopped.value, looks; }
      if |page.value| == 0 {
        if p.tick == |schedule| { return p, Detached, looks; }
        LookAgain(states, ops, k, a, schedule, p);
        p := p.(at := schedule[p.tick], tick := p.tick + 1);
        WindowFacts(states[p.at], k, History(states, ops, p.at, k), p.cursor, epoch);
        if k in states[p.at].runs && states[p.at].runs[k].ended && p.cursor >= states[p.at].runs[k].committed {
          return p, Drained, looks;
        }
      }
    }
    end := Detached;
  }

  lemma WindowFacts(db: Db, k: RunKey, h: seq<Event>, cursor: int, epoch: nat)
    requires Window(db, k, h)
    ensures k in db.runs ==> Gapless(db, k) && db.runs[k].committed == |h|
    ensures var page := ReadEvents(db, k, cursor, PAGE, Some(epoch));
            page.Ok? ==>
              && k in db.runs && 0 <= cursor && cursor + |page.value| <= |h|
              && (forall x :: 0 <= x < |page.value| ==> page.value[x] == Row(cursor + 1 + x, h[cursor + x]))
  {
    if k in db.runs { WindowGapless(db, k, h); }
    PageOfHistory(db, k, h, cursor, epoch);
  }

  lemma PageRefused(db: Db, k: RunKey, cursor: int, epoch: nat)
    requires k in db.runs ==> Gapless(db, k)
    requires ReadEvents(db, k, cursor, PAGE, Some(epoch)).Fail?
    ensures var error := ReadEvents(db, k, cursor, PAGE, Some(epoch)).error;
            StoppedFor(db, k, epoch, cursor, false, if error.SubscriberTakenOver? then TakenOver
                                                    else if error.ReplayExpired? then Expired else Failed)
  {
  }

  lemma NothingYet(states: seq<Db>, ops: seq<Op>, k: RunKey, a: int)
    requires |states| == |ops| + 1
    ensures Emitted(states, ops, k, a, a, 0, [])
  {
  }
}

/** What the counter's callers get: each its own number, once, and what a reader makes of the disk. */
module SeqAnswers {
  import opened Basics
  import opened SeqCounter

  /** The last line of the transcript. */
  ghost predicate LastLine(disk: seq<Line>, i: int) {
    0 <= i < |disk| && disk[i].file == Transcript && forall j :: i < j < |disk| ==> disk[j].file != Transcript
  }

  lemma {:induction false} TailIs(disk: seq<Line>)
    ensures forall i :: LastLine(disk, i) ==> TailOf(disk) == disk[i].number
    ensures (forall i :: !LastLine(disk, i)) ==> TailOf(disk) == 0
    decreases |disk|
  {
    if disk != [] {
      var n := |disk| - 1;
      if disk[n].file == Transcript {
        assert LastLine(disk, n);
      } else {
        TailIs(disk[..n]);
        forall i ensures LastLine(disk[..n], i) <==> LastLine(disk, i) {
          assert forall j :: 0 <= j < n ==> disk[..n][j] == disk[j];
        }
      }
    }
  }

  /** A reader takes the larger of the saved number and the one on the transcript's last line, whatever the other
      files hold. */
  lemma SeenLaw(w: World)
    ensures w.saved <= Seen(w)
    ensures forall i :: LastLine(w.disk, i) ==>
              w.disk[i].number <= Seen(w) && (Seen(w) == w.saved || Seen(w) == w.disk[i].number)
    ensures (forall i :: !LastLine(w.disk, i)) ==> Seen(w) == w.saved
  {
    TailIs(w.disk);
    hide TailOf, LastLine;
  }

  // ---- every call its own number ----

  /** The call that an event is about. */
  predicate About(e: Event, c: nat) {
    match e
    case Enter(x) => x == c
    case Look(x) => x == c
    case Read(x) => x == c
    case Fill(x) => x == c
    case Scan(x) => x == c
    case Seed(x) => x == c
    case _ => false
  }

  /** Only its own events move a call, and nothing moves it once it is answered. */
  lemma OthersStay(w: World, e: Event, c: nat)
    requires !e.Restart? && c in w.calls && (!About(e, c) || w.calls[c].Answered?)
    ensures c in Next(w, e).calls && Next(w, e).calls[c] == w.calls[c]
  {
    hide Writable, Savable, Seen;
  }

  /** A call that looks is answered with the number behind the counter, or sent to the disk when there is none; one back
      from the disk is answered with the number behind both. */
  lemma OwnSteps(w: World, c: nat)
    ensures c !in w.calls ==> Next(w, Enter(c)) == w.(calls := w.calls[c := Looking])
    ensures c in w.calls && w.calls[c] == Looking ==>
              var after := Next(w, Look(c));
              c in after.calls
              && (w.counter == None ==> after == w.(calls := w.calls[c := Missing]))
              && (w.counter != None ==> after.calls[c] == Answered(w.counter.value + 1) && after.counter == Some(w.counter.value + 1))
    ensures c in w.calls && w.calls[c] == Missing ==> Next(w, Read(c)) == w.(calls := w.calls[c := Reading(Seen(w))])
    ensures c in w.calls && w.calls[c].Reading? ==>
              var after := Next(w, Fill(c));
              c in after.calls && after.calls[c].Answered? && after.counter == Some(after.calls[c].number)
              && w.calls[c].seen < after.calls[c].number
              && (w.counter != None ==> w.counter.value < after.calls[c].number)
              && (after.calls[c].number == w.calls[c].seen + 1
                  || (w.counter != None && after.calls[c].number == w.counter.value + 1))
  {
    hide Seen;
  }

  /** A number this process wrote to the transcript. */
  predicate Transcribed(w: World, n: nat) {
    exists i :: w.since <= i < |w.disk| && 0 <= i && w.disk[i].file == Transcript && w.disk[i].number == n
  }

  /** The steps besides the calls. Seeding lifts the counter to what was seen, recording to a number given out, and neither
      lowers it; a line is written once, above the process's own lines of its file; the saved number only rises, to a line
      of the transcript; a restart forgets all but the disk. */
  lemma StepsLaw(w: World, c: nat, n: nat, line: Line)
    ensures c in w.calls && w.calls[c].Seeding? ==>
              Next(w, Seed(c)) == w.(counter := Some(if w.counter.Some? && w.calls[c].seen < w.counter.value
                                                     then w.counter.value else w.calls[c].seen))
    ensures c !in w.calls ==> Next(w, Scan(c)) == w.(calls := w.calls[c := Seeding(Seen(w))])
    ensures Next(w, Record(n)) == if n in w.handed && (w.counter.Some? ==> w.counter.value < n) then w.(counter := Some(n)) else w
    ensures Next(w, Save(n)) == if w.saved < n && Transcribed(w, n) then w.(saved := n) else w
    ensures Next(w, Write(line))
            == if line.number in w.handed
                  && (forall i :: w.since <= i < |w.disk| && 0 <= i ==>
                        w.disk[i].number != line.number
                        && (w.disk[i].file == line.file ==> w.disk[i].number < line.number))
               then w.(disk := w.disk + [line]) else w
    ensures Next(w, Restart) == World(None, w.disk, |w.disk|, w.saved, map[], [])
  {
    hide Seen;
  }

  /** The numbers given out are the answers of the calls, one each. */
  ghost predicate Answers(w: World) {
    && (forall c :: c in w.calls && w.calls[c].Answered? ==> w.calls[c].number in w.handed)
    && (forall n :: n in w.handed ==> Answered(n) in w.calls.Values)
    && (forall b, c :: b in w.calls && c in w.calls && b != c && w.calls[b].Answered? && w.calls[c].Answered? ==>
          w.calls[b].number != w.calls[c].number)
  }

  lemma HandAnswers(w: World, c: nat, n: nat)
    requires Answers(w) && c in w.calls && !w.calls[c].Answered? && n !in w.handed
    ensures Answers(Hand(w, c, n))
  {
    var after := Hand(w, c, n);
    forall m | m in after.handed ensures Answered(m) in after.calls.Values {
      if m in w.handed {
        var x :| x in w.calls && w.calls[x] == Answered(m);
        assert after.calls[x] == Answered(m);
      } else {
        assert after.calls[c] == Answered(m);
      }
    }
  }

  lemma MoveAnswers(w: World, after: World)
    requires Answers(w) && after.handed == w.handed
    requires forall c :: c in w.calls && w.calls[c].Answered? ==> c in after.calls && after.calls[c] == w.calls[c]
    requires forall c :: c in after.calls && after.calls[c].Answered? ==> c in w.calls && w.calls[c] == after.calls[c]
    ensures Answers(after)
  {
    forall n | n in w.handed ensures Answered(n) in after.calls.Values {
      var c :| c in w.calls && w.calls[c] == Answered(n);
      assert after.calls[c] == Answered(n);
    }
  }

  lemma NotYet(start: World, w: World)
    requires Climbing(start, w)
    ensures w.counter.Some? ==> w.counter.value + 1 !in w.handed
    ensures forall c :: c in w.calls && w.calls[c].Reading? ==>
              (if w.counter.None? || w.calls[c].seen > w.counter.value then w.calls[c].seen else w.counter.value) + 1 !in w.handed
  {
  }

  lemma NextAnswers(start: World, w: World, e: Event)
    requires Climbing(start, w) && Answers(w) && !e.Restart?
    ensures Answers(Next(w, e))
  {
    hide Answers, Writable, Savable, Seen;
    NotYet(start, w);
    hide Climbing;
    var after := Next(w, e);
    if e.Look? && e.call in w.calls && w.calls[e.call].Looking? && w.counter.Some? {
      HandAnswers(w, e.call, w.counter.value + 1);
    } else if e.Fill? && e.call in w.calls && w.calls[e.call].Reading? {
      var seen := w.calls[e.call].seen;
      HandAnswers(w, e.call, (if w.counter.None? || seen > w.counter.value then seen else w.counter.value) + 1);
    } else {
      MoveAnswers(w, after);
    }
  }

  /** However the calls of a process interleave, each is answered with a number of its own, and no number is given out
      without a call that it answers. */
  lemma {:induction false} EachItsOwn(worlds: seq<World>, events: seq<Event>, r: nat, n: nat)
    requires OneProcess(worlds, events, r, n)
    ensures Answers(worlds[n])
    decreases n
  {
    hide Climbing, Writing, Next, Answers;
    if n == r {
      NoneYet(worlds[r]);
    } else {
      EachItsOwn(worlds, events, r, n - 1);
      SequenceClimbs(worlds, events, r, n - 1);
      NextAnswers(worlds[r], worlds[n - 1], events[n - 1]);
    }
  }

  lemma NoneYet(w: World)
    requires Fresh(w)
    ensures Answers(w)
  {
  }

  /** Where a call stands it stays as long as nothing is about it. */
  lemma {:induction false} CallStays(worlds: seq<World>, events: seq<Event>, i: nat, j: nat, c: nat)
    requires Run(worlds, events) && i <= j <= |events| && c in worlds[i].calls
    requires forall k :: i <= k < j ==> !events[k].Restart? && (!About(events[k], c) || worlds[i].calls[c].Answered?)
    ensures c in worlds[j].calls && worlds[j].calls[c] == worlds[i].calls[c]
    decreases j
  {
    hide Next, Fresh;
    if i < j {
      CallStays(worlds, events, i, j - 1, c);
      OthersStay(worlds[j - 1], events[j - 1], c);
      assert worlds[j - 1 + 1] == Next(worlds[j - 1], events[j - 1]);
    }
  }

  /** A call that entered, and then looked, read and filled in its turn, is answered, whatever happens in between, and
      its answer stays to the end of the process. */
  lemma CallIsAnswered(worlds: seq<World>, events: seq<Event>, i: nat, look: nat, read: nat, fill: nat, n: nat, c: nat)
    requires Run(worlds, events) && i < look < read < fill < n <= |events|
    requires c !in worlds[i].calls && events[i] == Enter(c)
    requires events[look] == Look(c) && events[read] == Read(c) && events[fill] == Fill(c)
    requires forall k :: i <= k < n ==> !events[k].Restart? && (About(events[k], c) ==> k in {i, look, read} || k >= fill)
    ensures c in worlds[fill + 1].calls && worlds[fill + 1].calls[c].Answered?
    ensures c in worlds[n].calls && worlds[n].calls[c] == worlds[fill + 1].calls[c]
  {
    hide Next, Fresh, About;
    AboutItself(c);
    OwnSteps(worlds[i], c);
    assert worlds[i + 1] == Next(worlds[i], events[i]);
    CallStays(worlds, events, i + 1, look, c);
    OwnSteps(worlds[look], c);
    assert worlds[look + 1] == Next(worlds[look], events[look]);
    if worlds[look + 1].calls[c].Answered? {
      CallStays(worlds, events, look + 1, fill + 1, c);
    } else {
      CallStays(worlds, events, look + 1, read, c);
      OwnSteps(worlds[read], c);
      assert worlds[read + 1] == Next(worlds[read], events[read]);
      CallStays(worlds, events, read + 1, fill, c);
      OwnSteps(worlds[fill], c);
      assert worlds[fill + 1] == Next(worlds[fill], events[fill]);
    }
    CallStays(worlds, events, fill + 1, n, c);
  }

  lemma AboutItself(c: nat)
    ensures About(Enter(c), c) && About(Look(c), c) && About(Read(c), c) && About(Fill(c), c)
  {
  }
}

/** The conversation's files and caches, written in place (core/_conversation_store_append.py). */
module ConversationStore {
  import opened Basics
  import opened ConversationViews
  import R = ConversationRows
  import O = ConversationOrder
  import U = ConversationBursts

  type Item = R.Item

  /** Failed is an error in the middle of routing. */
  datatype Outcome = Appended | Duplicate | Refused | Failed

  class Conversation {
    var transcript: seq<Row>
    var shared: seq<Row>
    var contexts: map<string, seq<Row>>
    var inboxes: map<string, seq<Row>>
    var parents: map<Id, Id>
    var warm: bool
    var agents: set<string>
    var declared: set<string>
    var next: nat
    var seqNo: nat

    function Snapshot(): R.State
      reads this
    {
      R.State(transcript, shared, contexts, inboxes, parents, warm, agents, declared, next, seqNo)
    }

    constructor (declared: set<string>)
      ensures O.Filed(Snapshot()) && transcript == [] && this.declared == declared
    {
      transcript, shared, contexts, inboxes, parents := [], [], map[], map[], map[];
      warm, agents, this.declared, next, seqNo := false, {}, declared, 0, 0;
    }

    // ---- one message ----

    method AppendTranscript(rows: seq<Row>)
      modifies `transcript, `parents, `seqNo
      ensures Snapshot() == R.AppendTranscript(old(Snapshot()), rows)
    {
      var lines := R.Stamped(rows, seqNo);
      seqNo := seqNo + |rows|;
      transcript := transcript + lines;
      parents := R.Remember(parents, lines);
    }

    method SeedIfMissing(agent: string)
      modifies `contexts
      ensures Snapshot() == R.Seeded(old(Snapshot()), agent)
    {
      if agent !in contexts && shared != [] {
        contexts := contexts[agent := R.SeedOf(shared, agent)];
      }
    }

    method AppendContext(agent: string, rows: seq<Row>)
      modifies `contexts, `seqNo
      ensures Snapshot() == R.AppendContext(old(Snapshot()), agent, rows)
    {
      contexts := contexts[agent := R.ContextOf(contexts, agent) + R.Stamped(rows, seqNo)];
      seqNo := seqNo + |rows|;
    }

    method AppendShared(rows: seq<Row>)
      modifies `shared, `seqNo
      ensures Snapshot() == old(Snapshot()).(shared := old(shared) + R.Stamped(rows, old(seqNo)),
                                             seqNo := old(seqNo) + |rows|)
    {
      shared := shared + R.Stamped(rows, seqNo);
      seqNo := seqNo + |rows|;
    }

    /** The roster for a broadcast; looking it up cold warms the cache. */
    method LookUpAgents(item: Item) returns (known: set<string>)
      modifies `warm, `agents
      ensures known == R.Known(old(Snapshot()), item) && Snapshot() == R.Looked(old(Snapshot()), item)
    {
      var route := R.RouteOf(item);
      if item.message.role.UserRole? && route != "" && !warm {
        known := {route};
      } else {
        if !warm { warm, agents := true, declared; }
        known := agents;
        if route != "" { known := known + {route}; }
      }
    }

    method Note(touched: set<string>)
      modifies `warm, `agents
      ensures Snapshot() == R.Noted(old(Snapshot()), touched)
    {
      if touched != {} {
        agents := (if warm then agents else {}) + touched;
        warm := true;
      }
    }

    /** Append one message to every file it belongs in. False is an error: of an invalid message, which writes
        nothing, or of one whose shared rows have no named author or no sender for those who catch up, which
        leaves what was written before that showed. */
    method AppendMessage(item: Item) returns (ok: bool)
      modifies this
      ensures ok <==> R.Accepted(old(Snapshot()), item)
      ensures Snapshot() == R.AppendOne(old(Snapshot()), item)
    {
      hide R.Canonical, R.AppendTranscript, R.Delegated, R.Fanned, R.FanAccepted, R.DelegateAccepted, R.Touched,
        R.DelegateReach;
      if !R.ValidMessage(item.message) { return false; }
      ok := true;
      var m := item.message;
      var isContext := m.source.kind.FromContext?;
      var canon := R.Canonical(m, map[], parents, transcript, next);
      parents, next := canon.parents, canon.next;
      if !isContext { AppendTranscript(canon.rows); }
      if m.displayOnly { return; }
      var touched: set<string>;
      if m.source.kind.FromDelegate? {
        ok, touched := RouteDelegate(item, canon.rows);
        if ok { Note(touched); }
      } else {
        ok, touched := Fan(item, canon.rows);
        if ok && !isContext { Note(touched); }
      }
    }

    /** Queue the rows for the others, one after the other; without a sender the first one is an error. */
    method QueueCatchUp(others: set<string>, source: Source, rows: seq<Row>) returns (ok: bool)
      modifies `inboxes
      ensures ok <==> R.Sendable(source) || others == {}
      ensures inboxes == R.CaughtUp(old(inboxes), others, source, rows)
    {
      hide R.Queued, R.ViewOr;
      ok := true;
      if !R.Sendable(source) { return others == {}; }
      var left := others;
      NothingQueued(inboxes, rows);
      assert others - left == {};
      while left != {}
        invariant left <= others
        invariant inboxes == R.Queued(old(inboxes), others - left, rows)
        decreases |left|
      {
        var other :| other in left;
        QueuedMore(old(inboxes), others - left, other, rows);
        inboxes := inboxes[other := R.ContextOf(inboxes, other) + R.ViewOr(rows, other)];
        assert others - (left - {other}) == (others - left) + {other};
        left := left - {other};
      }
      assert others - {} == others;
    }

    method Fan(item: Item, rows: seq<Row>) returns (ok: bool, touched: set<string>)
      modifies this
      ensures Snapshot() == R.Fanned(old(Snapshot()), item, rows)
      ensures ok <==> R.FanAccepted(old(Snapshot()), item, rows)
      ensures ok ==> touched == R.Touched(old(Snapshot()), item, rows)
    {
      hide R.Stamped, R.CaughtUp, R.SharedOr, R.ShareAll, R.AppendContext, R.Seeded;
      ok, touched := true, {};
      var route := R.RouteOf(item);
      ghost var before := Snapshot();
      SameRoster(before, route, rows);
      if route != "" {
        if !item.message.source.kind.FromContext? { SeedIfMissing(route); }
        AppendContext(route, rows);
        touched := touched + {route};
      }
      ghost var own := Snapshot();
      var candidates := FilterForShared(rows);
      if R.ReachesShared(item) && candidates != [] {
        if R.ShareAll(candidates).None? { return false, touched; }
        AppendShared(R.SharedOr(candidates));
        var known := LookUpAgents(item);
        var others := OthersOf(known, route);
        assert others == R.Others(before, item) && others == R.Others(own, item);
        ok := QueueCatchUp(others, item.message.source, candidates);
        touched := touched + others;
      }
    }

    /** Private routing between two agents. */
    method RouteDelegate(item: Item, rows: seq<Row>) returns (ok: bool, touched: set<string>)
      requires rows != []
      modifies this
      ensures Snapshot() == R.Delegated(old(Snapshot()), item, rows)
      ensures ok <==> R.DelegateAccepted(old(Snapshot()), item, rows)
      ensures ok ==> touched == R.DelegateReach(old(Snapshot()), R.Attributed(rows[0], item.agent).source)
    {
      hide R.CaughtUp, R.AppendContext, R.SenderCopy, R.RequestCopy, R.Sendable, R.Attributed, R.Stamped;
      ok, touched := true, {};
      ghost var before := Snapshot();
      var source := R.Attributed(rows[0], item.agent).source;
      if source.recipient == "" { return; }
      var anchor := rows[0].(source := source);
      var mine := [R.SenderCopy(anchor).(source := rows[0].source)] + rows[1..];
      SameRoster(before, source.sender, mine);
      if R.SenderKeeps(source) {
        AppendContext(source.sender, mine);
        touched := {source.sender};
      }
      if !R.Projects(source) { return; }
      // The copy carries its number in the shared context to whoever catches up.
      var copy := R.RequestCopy(anchor).(source := rows[0].source, seqNo := seqNo + 1);
      NumberedAlready(copy, seqNo);
      AppendShared([copy]);
      if !warm { warm, agents := true, declared; }
      var others := BystandersOf(agents + touched, source);
      assert others == R.Bystanders(before, source, R.DelegateTouched(source));
      ok := QueueCatchUp(others, rows[0].source, [copy]);
      touched := touched + others;
    }

    // ---- a burst ----

    /** Append a burst with one write per file. Messages are validated first, up to any delegate traffic, which
        falls back to one append per message; then the burst is written, or given up where routing fails. */
    method AppendMessages(items: seq<Item>) returns (ok: bool)
      modifies this
      ensures Wrote(old(Snapshot()), items, ok, Snapshot())
      ensures old(warm) && (forall i :: 0 <= i < |items| ==> U.Willing(old(Snapshot()), items[i])) ==>
                ok && (Snapshot() == R.AppendAll(old(Snapshot()), items) <==> U.Coalesces(old(Snapshot()), items))
    {
      hide R.AppendOne, U.Willing, U.Coalesces, U.AllAccepted, R.Accepted, R.ValidMessage;
      ghost var before := Snapshot();
      ghost var willing := warm && forall i :: 0 <= i < |items| ==> U.Willing(before, items[i]);
      if willing { WillingFacts(before, items); }
      if |items| == 1 {
        AllOfOne(before, items);
        ok := AppendMessage(items[0]);
        return;
      }
      var i := 0;
      while i < |items|
        invariant 0 <= i <= |items| && Snapshot() == before
        invariant forall j :: 0 <= j < i ==> R.ValidMessage(items[j].message)
        invariant forall j :: 0 <= j < i ==> !items[j].message.source.kind.FromDelegate?
      {
        if !R.ValidMessage(items[i].message) {
          assert Plain(items[..i]);
          return false;
        }
        if items[i].message.source.kind.FromDelegate? {
          NotRefused(items, i);
          var done: nat;
          ok, done := OneByOne(items);
          assert !ok ==> FailsAt(before, items, done);
          return;
        }
        i := i + 1;
      }
      ok := WriteBurst(items);
    }

    /** Deduplicate, then append one ordered batch: a batch already in the transcript, in whole or in part,
        is never appended again. `starts` says where the transcript's segments begin, `shown` how content prints. */
    method AppendIfAbsent(items: seq<Item>, starts: seq<nat>, shown: Content -> string) returns (outcome: Outcome)
      requires R.Segmented(starts, |transcript|)
      modifies this
      ensures outcome.Duplicate? || outcome.Refused? ==> Snapshot() == old(Snapshot())
      ensures outcome.Appended? ==> items != [] && (forall i :: 0 <= i < |items| ==>
                R.ValidMessage(items[i].message) && !R.HasId(old(transcript), items[i].message.id))
      ensures (exists i :: 0 <= i < |items| && R.HasId(old(transcript), items[i].message.id)) ==>
                outcome.Duplicate? || outcome.Refused?
      ensures outcome.Appended? || outcome.Failed? ==> Wrote(old(Snapshot()), items, outcome.Appended?, Snapshot())
      ensures outcome.Duplicate? <==>
                Identified(items) && forall i :: 0 <= i < |items| ==> Stored(old(transcript), starts, shown, items[i])
      ensures !Identified(items) ==> outcome.Refused?
      ensures old(warm) && Identified(items) && (forall i :: 0 <= i < |items| ==> U.Willing(old(Snapshot()), items[i]))
              && (forall i :: 0 <= i < |items| ==> !R.HasId(old(transcript), items[i].message.id)) ==>
                outcome.Appended?
                && (Snapshot() == R.AppendAll(old(Snapshot()), items) <==> U.Coalesces(old(Snapshot()), items))
    {
      hide R.AppendAll, U.Willing, R.Scan, U.Coalesces, Wrote, R.RowOf, R.ValidMessage;
      if !Identified(items) { return Refused; }
      var found := 0;
      var i := 0;
      while i < |items|
        invariant 0 <= i <= |items| && 0 <= found <= i
        invariant Snapshot() == old(Snapshot())
        invariant forall j :: 0 <= j < i && R.HasId(transcript, items[j].message.id) ==>
                    Stored(transcript, starts, shown, items[j])
        invariant found == 0 <==> forall j :: 0 <= j < i ==> !R.HasId(transcript, items[j].message.id)
        invariant found == i <==> forall j :: 0 <= j < i ==> R.HasId(transcript, items[j].message.id)
      {
        if R.HasId(transcript, items[i].message.id) {
          if !Stored(transcript, starts, shown, items[i]) { return Refused; }
          found := found + 1;
        }
        i := i + 1;
      }
      if found == |items| { return Duplicate; }
      if found > 0 { return Refused; }
      ghost var before := Snapshot();
      var ok := AppendMessages(items);
      if ok { WroteValid(before, items, Snapshot()); }
      outcome := if ok then Appended else Failed;
    }

    /** The pass over the burst: rows pile up per file, catch-up and seeds go out at once, and every file
        is written at the end; a message whose routing fails ends the pass with no file written. */
    method WriteBurst(items: seq<Item>) returns (ok: bool)
      modifies this
      ensures ok <==> U.AllAccepted(old(Snapshot()), items)
      ensures Snapshot() == if ok then U.Flushed(old(Snapshot()), U.BurstAll(old(Snapshot()), items))
                            else U.GivenUp(old(Snapshot()), U.BurstAll(old(Snapshot()), U.Routed(old(Snapshot()), items)))
    {
      hide U.BurstOne, U.BurstAccepted, U.Flushed;
      ghost var before := Snapshot();
      var lines: seq<Row>, sharedRows: seq<Row> := [], [];
      var ctxRows: map<string, seq<Row>>, batch: map<Id, Id> := map[], map[];
      var touched: set<string> := {};
      assert items[..0] == [];
      var i := 0;
      while i < |items|
        invariant 0 <= i <= |items|
        invariant transcript == before.transcript && shared == before.shared && declared == before.declared
        invariant U.BurstAll(before, items[..i])
                  == U.Burst(lines, sharedRows, ctxRows, batch, touched, contexts, parents, inboxes, warm, agents, next, seqNo)
        invariant forall j :: 0 <= j < i ==> U.BurstAccepted(before, U.BurstAll(before, items[..j]), items[j])
      {
        assert items[..i + 1][..i] == items[..i];
        U.BurstFrame(before, Snapshot(), U.BurstAll(before, items[..i]), items[i]);
        ok, lines, sharedRows, ctxRows, batch, touched := BurstStep(items[i], lines, sharedRows, ctxRows, batch, touched);
        if !ok {
          U.RoutedIs(before, items, i);
          return;
        }
        i := i + 1;
      }
      assert items[..i] == items;
      U.FlushedFrame(before, Snapshot(), U.BurstAll(before, items));
      Flush(lines, sharedRows, ctxRows, touched, batch);
      ok := true;
    }

    /** One write per file, then one note of whom the burst reached. */
    method Flush(lines: seq<Row>, sharedRows: seq<Row>, ctxRows: map<string, seq<Row>>, touched: set<string>,
                 ghost batch: map<Id, Id>)
      modifies this
      ensures Snapshot()
              == U.Flushed(old(Snapshot()), U.Burst(lines, sharedRows, ctxRows, batch, touched, old(contexts), old(parents),
                                                    old(inboxes), old(warm), old(agents), old(next), old(seqNo)))
    {
      hide R.Remember, U.Joined, R.Noted;
      transcript := transcript + lines;
      parents := R.Remember(parents, lines);
      contexts := U.Joined(contexts, ctxRows);
      shared := shared + sharedRows;
      if lines != [] { Note(touched); }
    }

    /** One message of the pass. */
    method BurstStep(item: Item, lines: seq<Row>, sharedRows: seq<Row>, ctxRows: map<string, seq<Row>>,
                     batch: map<Id, Id>, touched: set<string>)
      returns (ok: bool, lines': seq<Row>, sharedRows': seq<Row>, ctxRows': map<string, seq<Row>>, batch': map<Id, Id>,
               touched': set<string>)
      modifies `contexts, `parents, `inboxes, `next, `seqNo, `warm, `agents
      ensures var b := U.Burst(lines, sharedRows, ctxRows, batch, touched, old(contexts), old(parents), old(inboxes),
                               old(warm), old(agents), old(next), old(seqNo));
              && (ok <==> U.BurstAccepted(old(Snapshot()), b, item))
              && U.BurstOne(old(Snapshot()), b, item)
                 == U.Burst(lines', sharedRows', ctxRows', batch', touched', contexts, parents, inboxes, warm, agents, next,
                            seqNo)
    {
      hide R.Canonical, R.Stamped, U.Owned, U.Broadcast, U.SeededFiles, R.Others, R.ShareAll, U.BurstOne, U.BurstAccepted,
        FilterForShared, U.LoggedBurst;
      ok := true;
      sharedRows', ctxRows', touched' := sharedRows, ctxRows, touched;
      ghost var s := Snapshot();
      ghost var b := U.Burst(lines, sharedRows, ctxRows, batch, touched, contexts, parents, inboxes, warm, agents, next, seqNo);
      var rows;
      rows, lines', batch' := LogStep(item.message, lines, batch, b);
      U.BurstParts(s, b, item, rows);
      U.OwnRoster(s, b, item, rows);
      if item.message.displayOnly { return; }
      ghost var logged := U.LoggedBurst(s, b, item.message);
      U.SeedFrame(s, Snapshot(), logged, item);
      if R.RouteOf(item) != "" { ctxRows', touched' := OwnStep(item, rows, ctxRows', touched', logged); }
      ghost var own := U.OwnBurst(s, logged, item, rows);
      var candidates := FilterForShared(rows);
      if R.ReachesShared(item) && candidates != [] {
        if R.ShareAll(candidates).None? { ok := false; return; }
        U.OthersFrame(s, Snapshot(), item);
        U.BroadcastFrame(s, Snapshot(), own, item, candidates);
        ok, sharedRows', touched' := ShareStep(item, candidates, sharedRows', touched', own);
      }
    }

    method LogStep(m: R.Message, lines: seq<Row>, batch: map<Id, Id>, ghost b: U.Burst)
      returns (rows: seq<Row>, lines': seq<Row>, batch': map<Id, Id>)
      requires b.lines == lines && b.batch == batch && b.parents == parents && b.next == next && b.seqNo == seqNo
      modifies `parents, `next, `seqNo
      ensures rows == R.Canonical(m, b.batch, b.parents, transcript, b.next).rows
      ensures U.LoggedBurst(old(Snapshot()), b, m)
              == b.(lines := lines', batch := batch', parents := parents, next := next, seqNo := seqNo)
    {
      hide R.Canonical, R.Stamped;
      var canon := R.Canonical(m, batch, parents, transcript, next);
      rows, lines' := canon.rows, lines;
      parents, next, batch' := canon.parents, canon.next, canon.batch;
      if !m.source.kind.FromContext? {
        lines' := lines' + R.Stamped(canon.rows, seqNo);
        seqNo := seqNo + |canon.rows|;
      }
    }

    method OwnStep(item: Item, rows: seq<Row>, ctxRows: map<string, seq<Row>>, touched: set<string>, ghost b: U.Burst)
      returns (ctxRows': map<string, seq<Row>>, touched': set<string>)
      requires b.contexts == ctxRows && b.touched == touched && b.files == contexts && b.seqNo == seqNo
      modifies `contexts, `seqNo
      ensures U.Owned(U.SeededFiles(old(Snapshot()), b, item), R.RouteOf(item), rows)
              == b.(contexts := ctxRows', touched := touched', files := contexts, seqNo := seqNo)
    {
      hide R.Stamped, R.SeedOf;
      var route := R.RouteOf(item);
      if !item.message.source.kind.FromContext? { SeedIfMissing(route); }
      ctxRows' := ctxRows[route := R.ContextOf(ctxRows, route) + R.Stamped(rows, seqNo)];
      seqNo := seqNo + |rows|;
      touched' := touched + {route};
    }

    method ShareStep(item: Item, candidates: seq<Row>, sharedRows: seq<Row>, touched: set<string>, ghost b: U.Burst)
      returns (ok: bool, sharedRows': seq<Row>, touched': set<string>)
      requires b.shared == sharedRows && b.touched == touched && b.inboxes == inboxes && b.seqNo == seqNo
      requires b.warm == warm && b.agents == agents
      modifies `inboxes, `seqNo, `warm, `agents
      ensures ok <==> R.Sendable(item.message.source) || R.Others(old(Snapshot()), item) == {}
      ensures U.Broadcast(old(Snapshot()), b, item, candidates)
              == b.(shared := sharedRows', touched := touched', inboxes := inboxes, warm := warm, agents := agents,
                    seqNo := seqNo)
    {
      hide R.Stamped, R.CaughtUp, R.SharedOr, R.Looked, R.Known, R.Others;
      ghost var before := Snapshot();
      var more := R.Stamped(R.SharedOr(candidates), seqNo);
      sharedRows' := sharedRows + more;
      seqNo := seqNo + |more|;
      U.OthersFrame(before, Snapshot(), item);
      U.OthersFrame(before, U.Roster(before, b), item);
      U.LookedFrame(Snapshot(), U.Roster(before, b), item);
      OthersKnown(Snapshot(), item);
      var known := LookUpAgents(item);
      var others := OthersOf(known, R.RouteOf(item));
      ok := QueueCatchUp(others, item.message.source, candidates);
      touched' := if R.Sendable(item.message.source) then touched + others else touched;
    }

    /** Delegate traffic falls back to one append per message, up to the first that fails. */
    method OneByOne(items: seq<Item>) returns (ok: bool, done: nat)
      modifies this
      ensures done <= |items| && (ok <==> done == |items|)
      ensures forall i :: 0 <= i < done ==> R.Accepted(R.AppendAll(old(Snapshot()), items[..i]), items[i])
      ensures !ok ==> !R.Accepted(R.AppendAll(old(Snapshot()), items[..done]), items[done])
      ensures Snapshot() == R.AppendAll(old(Snapshot()), if ok then items else items[..done + 1])
    {
      hide R.AppendOne, R.Accepted;
      done := 0;
      while done < |items|
        invariant 0 <= done <= |items|
        invariant forall i :: 0 <= i < done ==> R.Accepted(R.AppendAll(old(Snapshot()), items[..i]), items[i])
        invariant Snapshot() == R.AppendAll(old(Snapshot()), items[..done])
      {
        assert items[..done + 1][..done] == items[..done];
        var appended := AppendMessage(items[done]);
        if !appended { return false, done; }
        done := done + 1;
      }
      assert items[..done] == items;
      ok := true;
    }
  }

  /** No delegate traffic. */
  predicate Plain(items: seq<Item>) {
    forall i :: 0 <= i < |items| ==> !items[i].message.source.kind.FromDelegate?
  }

  /** No append of the messages one after the other raises. */
  predicate AllTaken(s: R.State, items: seq<Item>) {
    forall i :: 0 <= i < |items| ==> R.Accepted(R.AppendAll(s, items[..i]), items[i])
  }

  /** A message is refused before any delegate traffic is reached. */
  predicate Refuses(items: seq<Item>) {
    exists i :: 0 <= i < |items| && !R.ValidMessage(items[i].message) && Plain(items[..i])
  }

  /** The first message that fails, appending one after the other. */
  predicate FailsAt(s: R.State, items: seq<Item>, n: nat)
    requires n < |items|
  {
    && (forall i :: 0 <= i < n ==> R.Accepted(R.AppendAll(s, items[..i]), items[i]))
    && !R.Accepted(R.AppendAll(s, items[..n]), items[n])
  }

  /** What appending a burst comes to: one message, a refusal, delegate traffic appended up to the first message
      that fails, or a burst written or given up. */
  ghost predicate Wrote(before: R.State, items: seq<Item>, ok: bool, after: R.State) {
    if |items| == 1 then after == R.AppendOne(before, items[0]) && (ok <==> R.Accepted(before, items[0]))
    else if Refuses(items) then !ok && after == before
    else if !Plain(items) then
      && (ok <==> AllTaken(before, items))
      && if ok then after == R.AppendAll(before, items)
         else exists n :: 0 <= n < |items| && FailsAt(before, items, n) && after == R.AppendAll(before, items[..n + 1])
    else
      && (ok <==> U.AllAccepted(before, items))
      && after == if ok then U.Flushed(before, U.BurstAll(before, items))
                  else U.GivenUp(before, U.BurstAll(before, U.Routed(before, items)))
  }

  lemma WroteValid(before: R.State, items: seq<Item>, after: R.State)
    requires Wrote(before, items, true, after)
    ensures forall i :: 0 <= i < |items| ==> R.ValidMessage(items[i].message)
  {
    hide R.ValidMessage, R.AppendAll, R.AppendOne, R.FanAccepted, R.DelegateAccepted, U.Flushed, U.BurstAll, U.AllAccepted;
    if |items| > 1 && Plain(items) {
      forall i | 0 <= i < |items| ensures R.ValidMessage(items[i].message) {
        assert Plain(items[..i]);
      }
    }
  }

  lemma NotRefused(items: seq<Item>, n: nat)
    requires n < |items| && items[n].message.source.kind.FromDelegate?
    requires forall j :: 0 <= j <= n ==> R.ValidMessage(items[j].message)
    ensures !Refuses(items) && !Plain(items)
  {
    hide R.ValidMessage;
    forall i | 0 <= i < |items| && !R.ValidMessage(items[i].message) ensures !Plain(items[..i]) {
      assert items[..i][n] == items[n];
    }
  }

  lemma NothingQueued(inboxes: map<string, seq<Row>>, rows: seq<Row>)
    ensures R.Queued(inboxes, {}, rows) == inboxes
  {
    forall a | a in inboxes ensures inboxes[a] + [] == inboxes[a] {
    }
  }

  lemma QueuedMore(inboxes: map<string, seq<Row>>, others: set<string>, other: string, rows: seq<Row>)
    requires other !in others
    ensures var queued := R.Queued(inboxes, others, rows);
            R.Queued(inboxes, others + {other}, rows)
            == queued[other := R.ContextOf(queued, other) + R.ViewOr(rows, other)]
  {
    hide R.ViewOr;
    var queued, more := R.Queued(inboxes, others, rows), R.Queued(inboxes, others + {other}, rows);
    forall a | a in more ensures a == other || (a in queued && more[a] == queued[a]) {
    }
    assert R.ContextOf(inboxes, other) + [] == R.ContextOf(inboxes, other);
    assert R.ContextOf(queued, other) == R.ContextOf(inboxes, other);
  }

  lemma NumberedAlready(row: Row, n: nat)
    requires row.seqNo == n + 1
    ensures R.Stamped([row], n) == [row]
  {
  }

  /** Every message is minted and has an id of its own. Whom a user message names is looked at later. */
  predicate Identified(items: seq<Item>) {
    && items != []
    && (forall i :: 0 <= i < |items| ==> R.Minted(items[i].message) && items[i].message.id != NONE)
    && (forall i, j :: 0 <= i < j < |items| ==> items[i].message.id != items[j].message.id)
  }

  /** The transcript holds the message's id, with the same meaning. */
  predicate Stored(transcript: seq<Row>, starts: seq<nat>, shown: Content -> string, item: Item)
    requires R.Segmented(starts, |transcript|)
  {
    R.HasId(transcript, item.message.id)
    && var row := R.RowOf(transcript, starts, item.message.id);
       row.role == item.message.role && shown(row.content) == shown(item.message.content)
       && row.source.target == item.message.source.target && row.attachments == item.message.attachments
  }

  function OthersOf(known: set<string>, route: string): set<string> {
    set a | a in known && a != "" && a != route
  }

  lemma OthersKnown(s: R.State, item: Item)
    ensures OthersOf(R.Known(s, item), R.RouteOf(item)) == R.Others(s, item)
  {
  }

  function BystandersOf(known: set<string>, source: Source): set<string> {
    set a | a in known && a != "" && a != source.sender && a != source.recipient
  }

  /** Writing files leaves the roster alone. */
  lemma SameRoster(s: R.State, agent: string, rows: seq<Row>)
    ensures var t := R.AppendContext(s, agent, rows);
            t.warm == s.warm && t.agents == s.agents && t.declared == s.declared && t.inboxes == s.inboxes
    ensures var t := R.AppendContext(R.Seeded(s, agent), agent, rows);
            t.warm == s.warm && t.agents == s.agents && t.declared == s.declared && t.inboxes == s.inboxes
  {
  }

  lemma WillingFacts(s: R.State, items: seq<Item>)
    requires s.warm && forall i :: 0 <= i < |items| ==> U.Willing(s, items[i])
    ensures Plain(items) && (forall i :: 0 <= i < |items| ==> R.ValidMessage(items[i].message))
    ensures U.AllAccepted(s, items) && (|items| == 1 ==> R.Accepted(s, items[0]) && U.Coalesces(s, items))
    ensures U.Flushed(s, U.BurstAll(s, items)) == R.AppendAll(s, items) <==> U.Coalesces(s, items)
  {
    U.WillingAccepted(s, items);
    U.BurstIsAppendAll(s, items);
    hide U.BurstAccepted, U.Flushed, R.AppendAll;
  }

  lemma AllOfOne(s: R.State, items: seq<Item>)
    requires |items| == 1
    ensures R.AppendAll(s, items) == R.AppendOne(s, items[0])
  {
    assert items[..0] == [];
  }
}

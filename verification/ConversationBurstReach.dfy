/** What bursts and whole runs of appends leave in the shared context and the inboxes: public messages and requests,
    each once and in order, and nothing private. */
module ConversationBurstReach {
  import opened ConversationViews
  import opened ConversationRows
  import opened ConversationRowLaws
  import opened ConversationReach
  import opened ConversationDelegates
  import opened ConversationBursts

  // ---- one message of a burst ----

  /** A burst as a store of its own: what it has accumulated for each file, and the inboxes and roster it has advanced. */
  function Pile(s: State, b: Burst): State {
    s.(transcript := b.lines, shared := b.shared, contexts := b.contexts, inboxes := b.inboxes, warm := b.warm,
       agents := b.agents, seqNo := b.seqNo)
  }

  function BurstRows(s: State, b: Burst, m: Message): seq<Row> {
    Canonical(m, b.batch, b.parents, s.transcript, b.next).rows
  }

  /** The rows pile up behind those for the same context; a missing file begins as the shared context on disk. */
  ghost predicate Piled(s: State, b: Burst, item: Item, rows: seq<Row>, after: Burst) {
    var m := item.message;
    forall a ::
      if MeantFor(item, a) && !m.displayOnly then
        && a in after.contexts
        && Adds(ContextOf(b.contexts, a), after.contexts[a], rows, b.seqNo + TranscriptLines(m, rows))
        && (if m.source.kind != FromContext && a !in b.files && s.shared != [] then
              a in after.files && after.files[a] == Reading(s.shared, a)
            else Untouched(b.files, after.files, a))
      else Untouched(b.contexts, after.contexts, a) && Untouched(b.files, after.files, a)
  }

  ghost predicate BurstReached(s: State, b: Burst, item: Item, rows: seq<Row>, after: Burst) {
    && Transcribed(Pile(s, b), item.message, rows, Pile(s, after)) && Piled(s, b, item, rows, after)
    && SharedAs(Pile(s, b), item, rows, Pile(s, after)) && HeardAs(Pile(s, b), item, Pile(s, after))
  }

  lemma BurstLogged(s: State, b: Burst, m: Message)
    ensures var rows, after := BurstRows(s, b, m), LoggedBurst(s, b, m);
            && Transcribed(Pile(s, b), m, rows, Pile(s, after)) && after.seqNo == b.seqNo + TranscriptLines(m, rows)
            && after.contexts == b.contexts && after.files == b.files && after.shared == b.shared
            && after.inboxes == b.inboxes && after.warm == b.warm && after.agents == b.agents
  {
    hide Canonical, Stamped, Adds;
    AddsLines(b.lines, BurstRows(s, b, m), b.seqNo);
  }

  lemma BurstOwn(s: State, b: Burst, item: Item, rows: seq<Row>)
    ensures var own := OwnBurst(s, b, item, rows); var route := RouteOf(item);
            && own == b.(contexts := own.contexts, files := own.files, touched := own.touched, seqNo := own.seqNo)
            && own.seqNo == b.seqNo + (if route == "" then 0 else |rows|)
            && (forall a :: a != route || a == "" ==> Untouched(b.contexts, own.contexts, a) && Untouched(b.files, own.files, a))
            && (route != "" ==>
                  && route in own.contexts && Adds(ContextOf(b.contexts, route), own.contexts[route], rows, b.seqNo)
                  && (if item.message.source.kind != FromContext && route !in b.files && s.shared != [] then
                        route in own.files && own.files[route] == Reading(s.shared, route)
                      else Untouched(b.files, own.files, route)))
  {
    var route := RouteOf(item);
    ReadingIs(s.shared, route);
    AddsLines(ContextOf(b.contexts, route), rows, b.seqNo);
    hide RouteOf, Stamped, SeedOf, Adds, Reading;
  }

  /** Own rows leave what is shared alone. */
  lemma BurstFanned(s: State, b: Burst, item: Item, rows: seq<Row>)
    requires !item.message.displayOnly && rows == BurstRows(s, b, item.message)
    ensures var m := item.message; var row := FirstRow(m);
            var own := OwnBurst(s, LoggedBurst(s, b, m), item, rows);
            BurstOne(s, b, item) == if Public(m) then Broadcast(s, own, item, [row]) else own
  {
    var m := item.message;
    CandidatesLaw(m, b.batch, b.parents, s.transcript, b.next);
    SharedView(FirstRow(m), "");
    FirstSource(m);
    hide FilterForShared, Says, Named, SharedCopy, ShareAll, FirstRow, Broadcast, OwnBurst, LoggedBurst, Canonical;
  }

  lemma BroadcastParts(s: State, own: Burst, item: Item)
    requires Public(item.message)
    ensures var m := item.message; var after := Broadcast(s, own, item, [FirstRow(m)]);
            && after.lines == own.lines && after.contexts == own.contexts && after.files == own.files
            && Adds(own.shared, after.shared, [SharedCopy(FirstRow(m))], own.seqNo)
            && HeardAs(Pile(s, own), item, Pile(s, after))
  {
    var m := item.message;
    var row := FirstRow(m);
    SharedView(row, "");
    FirstSource(m);
    AddsLines(own.shared, [SharedCopy(row)], own.seqNo);
    OthersSame(Roster(s, own), Pile(s, own), item);
    OthersNamed(Roster(s, own), item);
    hide Stamped, Adds, Named, Says, FirstRow, SharedCopy, ShareAll, CaughtUp, Others, Overhears, Looked, Untouched;
    forall a ensures if Signs(m.source) && Overhears(Pile(s, own), item, a) then
        a in Broadcast(s, own, item, [row]).inboxes
        && Broadcast(s, own, item, [row]).inboxes[a] == ContextOf(own.inboxes, a) + [CopyFor(row, a)]
      else Untouched(own.inboxes, Broadcast(s, own, item, [row]).inboxes, a)
    {
      OverhearsIs(Pile(s, own), item, a);
      CaughtUpIs(own.inboxes, Others(Roster(s, own), item), row, a);
    }
  }

  lemma NotHeard(s: State, b: Burst, after: Burst, item: Item)
    requires !Public(item.message) && after.inboxes == b.inboxes
    ensures HeardAs(Pile(s, b), item, Pile(s, after))
  {
  }

  lemma HeardBurst(s: State, b: Burst, own: Burst, after: Burst, item: Item)
    requires own.inboxes == b.inboxes && own.warm == b.warm && own.agents == b.agents
    requires HeardAs(Pile(s, own), item, Pile(s, after))
    ensures HeardAs(Pile(s, b), item, Pile(s, after))
  {
    forall a ensures Overhears(Pile(s, b), item, a) <==> Overhears(Pile(s, own), item, a) {
    }
    hide Overhears, Untouched, CopyFor, Public;
  }

  lemma PiledIs(s: State, b: Burst, logged: Burst, item: Item, rows: seq<Row>, after: Burst)
    requires !item.message.displayOnly
    requires logged.contexts == b.contexts && logged.files == b.files
    requires logged.seqNo == b.seqNo + TranscriptLines(item.message, rows)
    requires var own := OwnBurst(s, logged, item, rows); after.contexts == own.contexts && after.files == own.files
    ensures Piled(s, b, item, rows, after)
    ensures OwnBurst(s, logged, item, rows).seqNo == logged.seqNo + ContextLines(item, rows)
  {
    BurstOwn(s, logged, item, rows);
    NoRoute(item);
    hide OwnBurst, RouteOf, Adds, Untouched, Reading, MeantFor, MeantForSomebody;
    forall a | a != "" ensures RouteOf(item) == a <==> MeantFor(item, a) { RouteLaw(item, a); }
    assert !MeantFor(item, "") by { Nobody(item); }
  }

  /** A message of a burst reaches exactly whom it would reach alone: a private one adds nothing to the shared rows and
      queues nothing, any other adds its one copy for each reader. */
  lemma BurstLaw(s: State, b: Burst, item: Item)
    ensures BurstReached(s, b, item, BurstRows(s, b, item.message), BurstOne(s, b, item))
  {
    var m := item.message;
    var rows, logged := BurstRows(s, b, m), LoggedBurst(s, b, m);
    BurstLogged(s, b, m);
    var after := BurstOne(s, b, item);
    hide Transcribed, HeardAs, Piled, Adds, BurstRows, Says, Named, FirstRow, SharedCopy, ContextLines, MeantFor, Broadcast;
    if m.displayOnly {
      assert after == logged;
      ShownOnly(s, b, item, rows, after);
    } else {
      var own := OwnBurst(s, logged, item, rows);
      BurstFanned(s, b, item, rows);
      BurstOwn(s, logged, item, rows);
      hide BurstOne, OwnBurst, LoggedBurst;
      if Public(m) {
        BroadcastParts(s, own, item);
        HeardBurst(s, b, own, after, item);
      } else {
        NotHeard(s, b, after, item);
      }
      PiledIs(s, b, logged, item, rows, after);
      SameTranscript(Pile(s, b), m, rows, Pile(s, logged), Pile(s, after));
    }
  }

  /** The routing of a message of a burst raises nothing exactly if it would not on the roster as the burst has it. */
  lemma BurstAcceptedLaw(s: State, b: Burst, item: Item)
    ensures BurstAccepted(s, b, item) <==> Passes(Pile(s, b), item)
  {
    var m := item.message;
    CandidatesLaw(m, b.batch, b.parents, s.transcript, b.next);
    hide FilterForShared, Canonical, FanAccepted, Says, Named, FirstRow, Overhears;
    if !m.displayOnly { FanPasses(Pile(s, b), Roster(s, b), item, BurstRows(s, b, m)); }
  }

  lemma ShownOnly(s: State, b: Burst, item: Item, rows: seq<Row>, after: Burst)
    requires item.message.displayOnly
    requires after.contexts == b.contexts && after.files == b.files && after.inboxes == b.inboxes && after.shared == b.shared
    ensures Piled(s, b, item, rows, after) && HeardAs(Pile(s, b), item, Pile(s, after))
    ensures SharedAs(Pile(s, b), item, rows, Pile(s, after))
  {
    forall a ensures Untouched(b.contexts, b.contexts, a) && Untouched(b.files, b.files, a) && Untouched(b.inboxes, b.inboxes, a) {
    }
    hide Untouched, Adds, MeantFor, Overhears;
  }

  // ---- whole runs ----

  /** The copy a message adds to the shared context, if any. */
  function SharedOf(item: Item): seq<Row> {
    var m := item.message;
    if !Proper(m) || m.displayOnly then []
    else if m.source.kind == FromDelegate then if Requests(m.source) then [RequestRow(FirstRow(m), From(item))] else []
    else if Public(m) then [SharedCopy(FirstRow(m))] else []
  }

  function AllShared(items: seq<Item>): seq<Row>
    decreases |items|
  {
    if items == [] then [] else AllShared(items[..|items| - 1]) + SharedOf(items[|items| - 1])
  }

  /** The same but for its number, and for the parent of a tool result, which is found when it is written. */
  predicate Alike(line: Row, copy: Row) { line == copy.(seqNo := line.seqNo, parent := line.parent) }

  ghost predicate AllAlike(lines: seq<Row>, copies: seq<Row>) {
    |lines| == |copies| && forall i :: 0 <= i < |lines| ==> Alike(lines[i], copies[i])
  }

  /** Behind `before` there are exactly these copies, in order. */
  ghost predicate Holds(before: seq<Row>, after: seq<Row>, copies: seq<Row>) {
    |before| <= |after| && after[..|before|] == before && AllAlike(after[|before|..], copies)
  }

  lemma HoldsMore(before: seq<Row>, middle: seq<Row>, after: seq<Row>, copies: seq<Row>, more: seq<Row>)
    requires Holds(before, middle, copies) && Holds(middle, after, more)
    ensures Holds(before, after, copies + more)
  {
    hide Alike;
    assert forall i :: 0 <= i < |middle| ==> after[i] == after[..|middle|][i];
    assert after[|before|..|middle|] == middle[|before|..];
    assert after[|before|..] == middle[|before|..] + after[|middle|..];
  }

  lemma AddsHolds(before: seq<Row>, after: seq<Row>, row: Row, copy: Row, n: nat)
    requires Adds(before, after, [row], n) && Alike(row, copy)
    ensures Holds(before, after, [copy])
  {
  }

  lemma FirstAlike(s: State, m: Message)
    ensures var rows := Expanded(s, m).rows; rows != [] && rows[0] == FirstRow(m).(parent := rows[0].parent)
  {
    RowsLaw(s, m);
    hide CallsAre, CallIs;
  }

  lemma RequestAlike(row: Row, first: Row, sender: string)
    requires row == first.(parent := row.parent)
    ensures Alike(RequestRow(row, sender), RequestRow(first, sender))
  {
  }

  /** Delegate traffic, the roster apart. */
  lemma DelegateParts(s: State, item: Item)
    requires item.message.source.kind == FromDelegate
    ensures var m := item.message; var rows, after := Expanded(s, m).rows, AppendOne(s, item);
            && rows != [] && Alike(RequestRow(rows[0], From(item)), RequestRow(FirstRow(m), From(item)))
            && (if !Proper(m) || m.displayOnly then after.shared == s.shared && after.inboxes == s.inboxes
                else DelegatedAs(s, item, rows, after))
  {
    var m := item.message;
    hide AppendOne, Expanded, FirstRow, RequestRow, Proper, From, RosterAs, RowsAre, Adds, Signed, StandsBy, Alike, DelegatedAs;
    var rows := Expanded(s, m).rows;
    var reached := (if Keeps(m.source) then {From(item)} else {})
      + if Requests(m.source) then set x | x in (if s.warm then s.agents else s.declared) && StandsBy(s, item, x) else {};
    forall a ensures DelegateReaches(s, item, a) <==> a in reached {
      if StandsBy(s, item, a) { KnowsWhoStandsBy(s, item, a); }
    }
    DelegateLaw(s, item, reached);
    FirstAlike(s, m);
    RequestAlike(rows[0], FirstRow(m), From(item));
  }

  lemma KnowsWhoStandsBy(s: State, item: Item, a: string)
    requires StandsBy(s, item, a)
    ensures a in if s.warm then s.agents else s.declared
  {
  }

  lemma DelegateShares(s: State, item: Item)
    requires item.message.source.kind == FromDelegate
    ensures Holds(s.shared, AppendOne(s, item).shared, SharedOf(item))
  {
    hide AppendOne, Expanded, FirstRow, RequestRow, Proper, From, Untouched, Alike, Signs, StandsBy, NotedRow;
    var m := item.message;
    DelegateParts(s, item);
    var rows := Expanded(s, m).rows;
    if Proper(m) && !m.displayOnly && Requests(m.source) {
      hide Holds;
      AddsHolds(s.shared, AppendOne(s, item).shared, RequestRow(rows[0], From(item)), RequestRow(FirstRow(m), From(item)),
                s.seqNo + |rows| + |rows|);
    } else {
      HoldsNothing(s.shared);
    }
  }

  /** One append adds its copy, or nothing. */
  lemma OneShares(s: State, item: Item)
    ensures Holds(s.shared, AppendOne(s, item).shared, SharedOf(item))
  {
    hide AppendOne, Expanded, FirstRow, Proper, RowsAre, Transcribed, Contexted, HeardAs, Says, Named, SharedCopy, Adds, Holds;
    var m := item.message;
    HoldsNothing(s.shared);
    if m.source.kind == FromDelegate {
      DelegateShares(s, item);
    } else {
      ReachLaw(s, item);
      if Proper(m) && Public(m) {
        var copy := SharedCopy(FirstRow(m));
        SelfAlike(copy);
        AddsHolds(s.shared, AppendOne(s, item).shared, copy, copy,
                  s.seqNo + TranscriptLines(m, Expanded(s, m).rows) + ContextLines(item, Expanded(s, m).rows));
      }
    }
  }

  lemma SelfAlike(row: Row)
    ensures Alike(row, row)
  {
  }

  /** After any appends the shared context holds what it held, then one copy of each public message and of each request
      between agents, in order: nothing private is ever in it. */
  lemma {:induction false} SharedLaw(s: State, items: seq<Item>)
    ensures Holds(s.shared, AppendAll(s, items).shared, AllShared(items))
    decreases |items|
  {
    hide AppendOne, SharedOf, Holds;
    if items == [] {
      HoldsNothing(s.shared);
    } else {
      var n := |items| - 1;
      SharedLaw(s, items[..n]);
      OneShares(AppendAll(s, items[..n]), items[n]);
      HoldsMore(s.shared, AppendAll(s, items[..n]).shared, AppendAll(s, items).shared, AllShared(items[..n]), SharedOf(items[n]));
    }
  }

  lemma HoldsNothing(rows: seq<Row>)
    ensures Holds(rows, rows, [])
  {
  }

  lemma BurstOneShares(s: State, b: Burst, item: Item)
    requires Proper(item.message) && item.message.source.kind != FromDelegate
    ensures Holds(b.shared, BurstOne(s, b, item).shared, SharedOf(item))
  {
    var m := item.message;
    var rows := BurstRows(s, b, m);
    BurstLaw(s, b, item);
    hide BurstOne, BurstRows, FirstRow, Proper, Transcribed, Piled, HeardAs, Says, Named, SharedCopy, Adds;
    if Public(m) {
      AddsHolds(b.shared, BurstOne(s, b, item).shared, SharedCopy(FirstRow(m)), SharedCopy(FirstRow(m)),
                b.seqNo + TranscriptLines(m, rows) + ContextLines(item, rows));
    }
  }

  lemma {:induction false} BurstPiles(s: State, items: seq<Item>)
    requires forall i :: 0 <= i < |items| ==> Proper(items[i].message) && items[i].message.source.kind != FromDelegate
    ensures Holds([], BurstAll(s, items).shared, AllShared(items))
    decreases |items|
  {
    hide BurstOne, SharedOf, Holds, Proper;
    if items == [] {
      HoldsNothing([]);
    } else {
      var n := |items| - 1;
      BurstPiles(s, items[..n]);
      BurstOneShares(s, BurstAll(s, items[..n]), items[n]);
      HoldsMore([], BurstAll(s, items[..n]).shared, BurstAll(s, items).shared, AllShared(items[..n]), SharedOf(items[n]));
    }
  }

  /** The same of a burst written out, whatever the roster: its shared rows are those of its messages one by one. */
  lemma BurstSharedLaw(s: State, items: seq<Item>)
    requires forall i :: 0 <= i < |items| ==> Proper(items[i].message) && items[i].message.source.kind != FromDelegate
    ensures Holds(s.shared, Flushed(s, BurstAll(s, items)).shared, AllShared(items))
  {
    BurstPiles(s, items);
    var b := BurstAll(s, items);
    assert (s.shared + b.shared)[|s.shared|..] == b.shared;
    hide BurstAll, AllShared, AllAlike, Remember, Joined;
    assert b.shared[0..] == b.shared;
  }

  // ---- inboxes ----

  /** The message is one that the agent may catch up on: a public one meant for somebody else, or a request between two
      others; and the line is its copy. */
  predicate Overheard(item: Item, a: string, line: Row) {
    var m := item.message;
    && Proper(m) && !m.displayOnly
    && (if m.source.kind == FromDelegate then
          Requests(m.source) && a != From(item) && a != m.source.recipient
          && Alike(line, RequestRow(FirstRow(m), From(item)))
        else Public(m) && !MeantFor(item, a) && Alike(line, CopyFor(FirstRow(m), a)))
  }

  /** An inbox gets at most one line of an append, and only of a message its agent may catch up on. */
  ghost predicate InboxGrows(before: map<string, seq<Row>>, after: map<string, seq<Row>>, a: string, item: Item) {
    || ContextOf(after, a) == ContextOf(before, a)
    || exists line :: ContextOf(after, a) == ContextOf(before, a) + [line] && Overheard(item, a, line)
  }

  lemma DelegateInbox(s: State, item: Item, a: string)
    requires item.message.source.kind == FromDelegate
    ensures InboxGrows(s.inboxes, AppendOne(s, item).inboxes, a, item)
  {
    hide AppendOne, Expanded, FirstRow, RequestRow, Proper, From, Adds, Signs, NotedRow;
    var m := item.message;
    DelegateParts(s, item);
    var rows := Expanded(s, m).rows;
    if Proper(m) && !m.displayOnly && Requests(m.source) && Signs(m.source) && StandsBy(s, item, a) {
      var copy := RequestRow(rows[0], From(item));
      var line := copy.(seqNo := s.seqNo + |rows| + |rows| + 1);
      assert Alike(line, RequestRow(FirstRow(m), From(item)));
      hide Alike;
      assert Overheard(item, a, line);
      hide Overheard;
      assert ContextOf(AppendOne(s, item).inboxes, a) == ContextOf(s.inboxes, a) + [line];
    }
  }

  lemma OneInbox(s: State, item: Item, a: string)
    ensures InboxGrows(s.inboxes, AppendOne(s, item).inboxes, a, item)
  {
    var m := item.message;
    if m.source.kind == FromDelegate {
      DelegateInbox(s, item, a);
    } else {
      ReachLaw(s, item);
      hide AppendOne, Expanded, FirstRow, Proper, RowsAre, Transcribed, Contexted, SharedAs, Says, Named, CopyFor;
      if Proper(m) && Public(m) && Signs(m.source) && Overhears(s, item, a) {
        assert Overheard(item, a, CopyFor(FirstRow(m), a));
      }
    }
  }

  /** Whatever an inbox holds after any appends was there before, or is the copy of a message its agent may catch up on. */
  lemma {:induction false} InboxLaw(s: State, items: seq<Item>, a: string, line: Row)
    requires line in ContextOf(AppendAll(s, items).inboxes, a)
    ensures line in ContextOf(s.inboxes, a) || exists i :: 0 <= i < |items| && Overheard(items[i], a, line)
    decreases |items|
  {
    hide AppendOne, Overheard, ContextOf;
    if items != [] {
      var n := |items| - 1;
      var before := AppendAll(s, items[..n]);
      OneInbox(before, items[n], a);
      if line in ContextOf(before.inboxes, a) {
        InboxLaw(s, items[..n], a, line);
        if i :| 0 <= i < n && Overheard(items[..n][i], a, line) { assert Overheard(items[i], a, line); }
      } else {
        assert Overheard(items[n], a, line);
      }
    }
  }
}

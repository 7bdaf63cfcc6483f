/** A burst of messages written with one pass per file: what it accumulates, and why it comes to the
    same as appending them one at a time. */
module ConversationBursts {
  import opened Basics
  import opened ConversationViews
  import opened ConversationRows

  /** What a burst has accumulated, and the parts of the state it has already advanced: `files` are the
      contexts on disk, where missing ones are seeded on the way. */
  datatype Burst = Burst(
    lines: seq<Row>, shared: seq<Row>, contexts: map<string, seq<Row>>, batch: map<Id, Id>, touched: set<string>,
    files: map<string, seq<Row>>, parents: map<Id, Id>, inboxes: map<string, seq<Row>>, warm: bool, agents: set<string>,
    next: nat, seqNo: nat)

  function Start(s: State): Burst {
    Burst([], [], map[], map[], {}, s.contexts, s.parents, s.inboxes, s.warm, s.agents, s.next, s.seqNo)
  }

  function Numbered(b: Burst, canon: Canon): Burst {
    b.(batch := canon.batch, parents := canon.parents, next := canon.next)
  }

  function Logged(b: Burst, rows: seq<Row>): Burst {
    b.(lines := b.lines + Stamped(rows, b.seqNo), seqNo := b.seqNo + |rows|)
  }

  function Owned(b: Burst, route: string, rows: seq<Row>): Burst {
    b.(contexts := b.contexts[route := ContextOf(b.contexts, route) + Stamped(rows, b.seqNo)],
       seqNo := b.seqNo + |rows|, touched := b.touched + {route})
  }

  /** A context missing on disk is seeded from the shared context on disk. */
  function SeededFiles(s: State, b: Burst, item: Item): Burst {
    b.(files := if item.message.source.kind.FromContext? then b.files
                else Seeded(s.(contexts := b.files), RouteOf(item)).contexts)
  }

  /** The store as the burst sees its roster. */
  function Roster(s: State, b: Burst): State { s.(warm := b.warm, agents := b.agents) }

  function Broadcast(s: State, b: Burst, item: Item, candidates: seq<Row>): Burst {
    var lines := Stamped(SharedOr(candidates), b.seqNo);
    var looked := Looked(Roster(s, b), item);
    var others := Others(Roster(s, b), item);
    b.(shared := b.shared + lines, seqNo := b.seqNo + |lines|, warm := looked.warm, agents := looked.agents,
       inboxes := CaughtUp(b.inboxes, others, item.message.source, candidates),
       touched := b.touched + if Sendable(item.message.source) then others else {})
  }

  function LoggedBurst(s: State, b: Burst, m: Message): Burst {
    var canon := Canonical(m, b.batch, b.parents, s.transcript, b.next);
    if m.source.kind.FromContext? then Numbered(b, canon) else Logged(Numbered(b, canon), canon.rows)
  }

  function OwnBurst(s: State, b: Burst, item: Item, rows: seq<Row>): Burst {
    if RouteOf(item) == "" then b else Owned(SeededFiles(s, b, item), RouteOf(item), rows)
  }

  /** One message of the burst, on a store whose files are still as they were: as far as its routing goes. */
  function BurstOne(s: State, b: Burst, item: Item): Burst {
    var m := item.message;
    var rows := Canonical(m, b.batch, b.parents, s.transcript, b.next).rows;
    var logged := LoggedBurst(s, b, m);
    if m.displayOnly then logged
    else
      var own := OwnBurst(s, logged, item, rows);
      var candidates := FilterForShared(rows);
      if !ReachesShared(item) || candidates == [] || ShareAll(candidates).None? then own
      else Broadcast(s, own, item, candidates)
  }

  /** The message's routing raises nothing. */
  predicate BurstAccepted(s: State, b: Burst, item: Item) {
    item.message.displayOnly
    || FanAccepted(Roster(s, b), item, Canonical(item.message, b.batch, b.parents, s.transcript, b.next).rows)
  }

  /** Files with the accumulated rows behind them. */
  function Joined(contexts: map<string, seq<Row>>, more: map<string, seq<Row>>): map<string, seq<Row>> {
    map a | a in contexts.Keys + more.Keys :: ContextOf(contexts, a) + ContextOf(more, a)
  }

  /** The burst written out. */
  function Flushed(s: State, b: Burst): State {
    var written := s.(transcript := s.transcript + b.lines, parents := Remember(b.parents, b.lines),
                      contexts := Joined(b.files, b.contexts), shared := s.shared + b.shared,
                      inboxes := b.inboxes, warm := b.warm, agents := b.agents, next := b.next, seqNo := b.seqNo);
    if b.lines == [] then written else Noted(written, b.touched)
  }

  /** The burst given up: no accumulated row is written, but seeds, catch-up and numbers are spent. */
  function GivenUp(s: State, b: Burst): State {
    s.(contexts := b.files, parents := b.parents, inboxes := b.inboxes, warm := b.warm, agents := b.agents,
       next := b.next, seqNo := b.seqNo)
  }

  /** The whole burst. */
  function BurstAll(s: State, items: seq<Item>): Burst
    decreases |items|
  {
    if items == [] then Start(s) else BurstOne(s, BurstAll(s, items[..|items| - 1]), items[|items| - 1])
  }

  /** No message of the burst raises. */
  predicate AllAccepted(s: State, items: seq<Item>) {
    forall i :: 0 <= i < |items| ==> BurstAccepted(s, BurstAll(s, items[..i]), items[i])
  }

  /** The messages up to the first whose routing fails, with that one. */
  function Routed(s: State, items: seq<Item>): seq<Item>
    decreases |items|
  {
    if items == [] then []
    else
      var n := |items| - 1;
      var before := Routed(s, items[..n]);
      if !AllAccepted(s, items[..n]) then before else items
  }

  lemma {:induction false} RoutedIs(s: State, items: seq<Item>, i: nat)
    requires i < |items| && !BurstAccepted(s, BurstAll(s, items[..i]), items[i])
    requires forall j :: 0 <= j < i ==> BurstAccepted(s, BurstAll(s, items[..j]), items[j])
    ensures Routed(s, items) == items[..i + 1]
    decreases |items|
  {
    hide BurstAccepted, BurstAll;
    var n := |items| - 1;
    var before := items[..n];
    assert forall j :: 0 <= j <= n ==> before[..j] == items[..j];
    if i < n {
      assert before[i] == items[i];
      RoutedIs(s, before, i);
      assert before[..i + 1] == items[..i + 1];
    } else {
      assert forall j :: 0 <= j < n ==> before[j] == items[j];
      assert AllAccepted(s, before);
      assert items[..i + 1] == items;
    }
  }

  // ---- what a burst reads of the store ----

  predicate SameFiles(s: State, t: State) {
    s.transcript == t.transcript && s.shared == t.shared && s.declared == t.declared
  }

  lemma FlushedFrame(s: State, t: State, b: Burst)
    requires SameFiles(s, t)
    ensures Flushed(s, b) == Flushed(t, b)
  {
    hide Remember, Joined, Noted;
  }

  lemma OthersFrame(s: State, t: State, item: Item)
    requires s.warm == t.warm && s.agents == t.agents && s.declared == t.declared
    ensures Others(s, item) == Others(t, item)
  {
    assert Known(s, item) == Known(t, item);
  }

  lemma SeedFrame(s: State, t: State, b: Burst, item: Item)
    requires s.shared == t.shared
    ensures SeededFiles(s, b, item) == SeededFiles(t, b, item)
  {
  }

  lemma BroadcastFrame(s: State, t: State, b: Burst, item: Item, candidates: seq<Row>)
    requires s.declared == t.declared
    ensures Broadcast(s, b, item, candidates) == Broadcast(t, b, item, candidates)
  {
    hide Stamped, SharedOr, CaughtUp, Others;
    OthersFrame(Roster(s, b), Roster(t, b), item);
  }

  /** One message of the burst, case by case. */
  lemma BurstParts(s: State, b: Burst, item: Item, rows: seq<Row>)
    requires rows == Canonical(item.message, b.batch, b.parents, s.transcript, b.next).rows
    ensures var own := OwnBurst(s, LoggedBurst(s, b, item.message), item, rows); var candidates := FilterForShared(rows);
            if item.message.displayOnly then
              BurstOne(s, b, item) == LoggedBurst(s, b, item.message) && BurstAccepted(s, b, item)
            else if !ReachesShared(item) || candidates == [] then BurstOne(s, b, item) == own && BurstAccepted(s, b, item)
            else if ShareAll(candidates).None? then BurstOne(s, b, item) == own && !BurstAccepted(s, b, item)
            else
              && BurstOne(s, b, item) == Broadcast(s, own, item, candidates)
              && (BurstAccepted(s, b, item)
                  <==> Sendable(item.message.source) || Others(Roster(s, b), item) == {})
  {
    hide Canonical, FilterForShared, ShareAll, OwnBurst, LoggedBurst, Broadcast, Others;
  }

  /** Piling up own rows leaves the roster alone. */
  lemma OwnRoster(s: State, b: Burst, item: Item, rows: seq<Row>)
    ensures Roster(s, OwnBurst(s, LoggedBurst(s, b, item.message), item, rows)) == Roster(s, b)
  {
    hide Canonical, Stamped, Seeded;
  }

  /** What looking the roster up makes of it. */
  lemma LookedFrame(s: State, t: State, item: Item)
    requires s.warm == t.warm && s.agents == t.agents && s.declared == t.declared
    ensures Looked(s, item).warm == Looked(t, item).warm && Looked(s, item).agents == Looked(t, item).agents
    ensures Looked(s, item) == s.(warm := Looked(s, item).warm, agents := Looked(s, item).agents)
  {
  }

  lemma BurstFrame(s: State, t: State, b: Burst, item: Item)
    requires SameFiles(s, t)
    ensures BurstOne(s, b, item) == BurstOne(t, b, item) && (BurstAccepted(s, b, item) <==> BurstAccepted(t, b, item))
  {
    hide Canonical, Owned, Broadcast, SeededFiles, Others, FilterForShared, ShareAll, Logged;
    OthersFrame(Roster(s, b), Roster(t, b), item);
    var rows := Canonical(item.message, b.batch, b.parents, s.transcript, b.next).rows;
    var logged := LoggedBurst(s, b, item.message);
    SeedFrame(s, t, logged, item);
    BroadcastFrame(s, t, OwnBurst(s, logged, item, rows), item, FilterForShared(rows));
  }

  // ---- parents ----

  lemma {:induction false} RememberMerge(p: map<Id, Id>, d: map<Id, Id>, lines: seq<Row>)
    ensures Remember(p + d, lines) == p + Remember(d, lines)
    decreases |lines|
  {
    if lines != [] { RememberMerge(p, d, lines[..|lines| - 1]); }
  }

  lemma {:induction false} RememberMore(p: map<Id, Id>, a: seq<Row>, b: seq<Row>)
    ensures Remember(p, a + b) == Remember(Remember(p, a), b)
    decreases |b|
  {
    if b == [] {
      assert a + b == a;
    } else {
      assert (a + b)[..|a + b| - 1] == a + b[..|b| - 1];
      RememberMore(p, a, b[..|b| - 1]);
    }
  }

  lemma {:induction false} RememberStamped(p: map<Id, Id>, rows: seq<Row>, n: nat)
    ensures Remember(p, Stamped(rows, n)) == Remember(p, rows)
    decreases |rows|
  {
    if rows != [] {
      assert Stamped(rows, n)[..|rows| - 1] == Stamped(rows[..|rows| - 1], n);
      RememberStamped(p, rows[..|rows| - 1], n);
    }
  }

  /** What the known parents say of a call that no written line names. */
  lemma {:induction false} Unremembered(lines: seq<Row>, call: Id)
    requires call !in Remember(map[], lines) && call != NONE
    requires forall i :: 0 <= i < |lines| ==> lines[i].role.ToolCallRole? ==> lines[i].id != NONE
    ensures forall i :: 0 <= i < |lines| && lines[i].role.ToolCallRole? ==> lines[i].toolCall != call
    decreases |lines|
  {
    if lines != [] { Unremembered(lines[..|lines| - 1], call); }
  }

  lemma {:induction false} ScanPast(transcript: seq<Row>, lines: seq<Row>, call: Id)
    requires forall i :: 0 <= i < |lines| && lines[i].role.ToolCallRole? ==> lines[i].toolCall != call
    ensures Scan(transcript + lines, call) == Scan(transcript, call)
    decreases |lines|
  {
    if lines == [] {
      assert transcript + lines == transcript;
    } else {
      assert (transcript + lines)[..|transcript + lines| - 1] == transcript + lines[..|lines| - 1];
      ScanPast(transcript, lines[..|lines| - 1], call);
    }
  }

  /** The rows of a call list, and the parents they make known. */
  lemma {:induction false} CallRowsKnown(calls: seq<Call>, anchor: Row, batch: map<Id, Id>, other: map<Id, Id>, next: nat)
    ensures var (rows, known, last) := CallRows(calls, anchor, batch, next);
            && known == Remember(batch, rows)
            && rows == CallRows(calls, anchor, other, next).0 && last == CallRows(calls, anchor, other, next).2
            && forall i :: 0 <= i < |rows| ==> rows[i].id != NONE
    decreases |calls|
  {
    if calls != [] {
      CallRowsKnown(calls[..|calls| - 1], anchor, batch, other, next);
      var rows := CallRows(calls, anchor, batch, next).0;
      assert rows[..|rows| - 1] == CallRows(calls[..|calls| - 1], anchor, batch, next).0;
    }
  }

  /** Two ways to hold the known parents agree: one cache, or a batch in front of it. */
  ghost predicate SameParents(cache: map<Id, Id>, written: seq<Row>, batch: map<Id, Id>, parents: map<Id, Id>,
                              lines: seq<Row>, transcript: seq<Row>)
  {
    && cache == parents + batch && written == transcript + lines
    && batch == Remember(map[], lines)
    && (forall t :: t in batch ==> batch[t] != NONE)
    && (forall i :: 0 <= i < |lines| && lines[i].role.ToolCallRole? ==> lines[i].id != NONE)
  }

  lemma SameParent(m: Message, cache: map<Id, Id>, written: seq<Row>, batch: map<Id, Id>, parents: map<Id, Id>,
                   lines: seq<Row>, transcript: seq<Row>)
    requires SameParents(cache, written, batch, parents, lines, transcript) && m.toolCall != NONE
    ensures ParentOf(m, map[], cache, written) == ParentOf(m, batch, parents, transcript)
    ensures Cached(m, map[], cache, written) == Cached(m, batch, parents, transcript) + batch
  {
    if m.toolCall !in batch {
      Unremembered(lines, m.toolCall);
      ScanPast(transcript, lines, m.toolCall);
    }
  }

  /** The rows of an assistant message do not depend on what is known. */
  lemma AssistantCanonical(m: Message, batch: map<Id, Id>, parents: map<Id, Id>, transcript: seq<Row>, next: nat,
                           cache: map<Id, Id>, written: seq<Row>)
    requires m.role.AssistantRole?
    ensures var one := Canonical(m, map[], cache, written, next); var fast := Canonical(m, batch, parents, transcript, next);
            && one.rows == fast.rows && one.next == fast.next && one.parents == cache && fast.parents == parents
            && fast.batch == Remember(batch, fast.rows)
            && (forall i :: 0 <= i < |fast.rows| && fast.rows[i].role.ToolCallRole? ==> fast.rows[i].id != NONE)
  {
    var fast := Canonical(m, batch, parents, transcript, next);
    hide CallRows, Remember;
    var from := next + |ThoughtRows(m, next)|;
    CallRowsKnown(m.calls, AnchorRow(m), batch, map[], from);
    var calls := CallRows(m.calls, AnchorRow(m), batch, from).0;
    var lead := [AnchorRow(m)] + ThoughtRows(m, next);
    RememberMore(batch, lead, calls);
    RememberNothing(batch, lead);
  }

  /** Both expand a message into the same rows. */
  lemma SameCanonical(m: Message, cache: map<Id, Id>, written: seq<Row>, batch: map<Id, Id>, parents: map<Id, Id>,
                      lines: seq<Row>, transcript: seq<Row>, next: nat)
    requires SameParents(cache, written, batch, parents, lines, transcript)
    requires m.role.SystemRole? || m.id != NONE
    ensures var one := Canonical(m, map[], cache, written, next); var fast := Canonical(m, batch, parents, transcript, next);
            && one.rows == fast.rows && one.next == fast.next
            && one.parents == fast.parents + batch
            && fast.batch == Remember(batch, fast.rows)
            && (forall i :: 0 <= i < |fast.rows| && fast.rows[i].role.ToolCallRole? ==> fast.rows[i].id != NONE)
  {
    if m.role.AssistantRole? {
      AssistantCanonical(m, batch, parents, transcript, next, cache, written);
    } else {
      hide CallRows, ParentOf, Cached;
      if m.role.ToolRole? && m.toolCall != NONE { SameParent(m, cache, written, batch, parents, lines, transcript); }
      RememberOne(batch, Canonical(m, batch, parents, transcript, next).rows);
    }
  }

  lemma RememberOne(batch: map<Id, Id>, rows: seq<Row>)
    requires |rows| == 1
    ensures var r := rows[0];
            Remember(batch, rows)
            == if r.role.ToolCallRole? && r.toolCall != NONE && r.id != NONE then batch[r.toolCall := r.id] else batch
  {
    assert rows[..0] == [];
  }

  lemma {:induction false} RememberNothing(batch: map<Id, Id>, rows: seq<Row>)
    requires forall i :: 0 <= i < |rows| ==> !rows[i].role.ToolCallRole?
    ensures Remember(batch, rows) == batch
    decreases |rows|
  {
    if rows != [] { RememberNothing(batch, rows[..|rows| - 1]); }
  }

  // ---- one step of the burst is one append, but for the contexts ----

  /** What a burst may be made of: the roster is warm and every routed agent on it, no delegate traffic, named
      authors and senders, and context injections without tool calls. */
  predicate Willing(s: State, item: Item) {
    && Routable(item) && !item.message.source.kind.FromDelegate?
    && s.warm
    && (RouteOf(item) != "" ==> RouteOf(item) in s.agents)
    && (item.message.source.kind.FromContext? ==> !item.message.role.ToolCallRole? && item.message.calls == [])
  }

  /** The one-at-a-time store is the burst's store with the accumulated rows behind its files, contexts apart. */
  ghost predicate Abreast(s: State, one: State, b: Burst) {
    && SameParents(one.parents, one.transcript, b.batch, b.parents, b.lines, s.transcript)
    && one.shared == s.shared + b.shared
    && one.inboxes == b.inboxes && one.next == b.next && one.seqNo == b.seqNo
    && one.warm && s.warm && b.warm && one.agents == s.agents == b.agents && one.declared == s.declared
    && b.touched <= s.agents
  }

  lemma StartAbreast(s: State)
    requires s.warm
    ensures Abreast(s, s, Start(s))
  {
    assert s.parents + map[] == s.parents;
    assert s.transcript + [] == s.transcript && s.shared + [] == s.shared;
  }

  lemma LogAbreast(s: State, one: State, b: Burst, m: Message)
    requires Abreast(s, one, b) && (m.role.SystemRole? || m.id != NONE)
    requires m.source.kind.FromContext? ==> !m.role.ToolCallRole? && m.calls == []
    ensures Expanded(one, m).rows == Canonical(m, b.batch, b.parents, s.transcript, b.next).rows
    ensures Abreast(s, LoggedOne(one, m), LoggedBurst(s, b, m))
    ensures LoggedOne(one, m).contexts == one.contexts && LoggedOne(one, m).shared == one.shared
    ensures var after := LoggedBurst(s, b, m);
            after.contexts == b.contexts && after.files == b.files && after.shared == b.shared
  {
    hide Canonical, Remember, Stamped;
    var canon := Expanded(one, m);
    var fast := Canonical(m, b.batch, b.parents, s.transcript, b.next);
    SameCanonical(m, one.parents, one.transcript, b.batch, b.parents, b.lines, s.transcript, b.next);
    if m.source.kind.FromContext? {
      NoCalls(m, b.batch, b.parents, s.transcript, b.next);
    } else {
      WrittenParents(s, one, b, canon.parents, fast);
    }
  }

  lemma WrittenParents(s: State, one: State, b: Burst, known: map<Id, Id>, fast: Canon)
    requires SameParents(one.parents, one.transcript, b.batch, b.parents, b.lines, s.transcript)
    requires known == fast.parents + b.batch && fast.batch == Remember(b.batch, fast.rows)
    requires forall i :: 0 <= i < |fast.rows| && fast.rows[i].role.ToolCallRole? ==> fast.rows[i].id != NONE
    ensures var lines := Stamped(fast.rows, b.seqNo);
            SameParents(Remember(known, lines), one.transcript + lines, fast.batch, fast.parents, b.lines + lines, s.transcript)
  {
    hide Remember;
    var lines := Stamped(fast.rows, b.seqNo);
    RememberStamped(b.batch, fast.rows, b.seqNo);
    RememberMore(map[], b.lines, lines);
    RememberMerge(fast.parents, b.batch, lines);
    RememberIds(b.batch, lines);
    assert (s.transcript + b.lines) + lines == s.transcript + (b.lines + lines);
  }

  lemma NoCalls(m: Message, batch: map<Id, Id>, parents: map<Id, Id>, transcript: seq<Row>, next: nat)
    requires !m.role.ToolCallRole? && m.calls == []
    ensures Canonical(m, batch, parents, transcript, next).batch == batch
  {
  }

  lemma {:induction false} RememberIds(p: map<Id, Id>, lines: seq<Row>)
    requires forall t :: t in p ==> p[t] != NONE
    ensures forall t :: t in Remember(p, lines) ==> Remember(p, lines)[t] != NONE
    decreases |lines|
  {
    if lines != [] { RememberIds(p, lines[..|lines| - 1]); }
  }

  /** The agent's own context after one more message routed to it, seeded when it is missing. */
  function OwnOne(s: State, item: Item, rows: seq<Row>): State {
    if RouteOf(item) == "" then s
    else AppendContext(if item.message.source.kind.FromContext? then s else Seeded(s, RouteOf(item)), RouteOf(item), rows)
  }

  lemma OwnAbreast(s: State, one: State, b: Burst, item: Item, rows: seq<Row>)
    requires Abreast(s, one, b) && (RouteOf(item) != "" ==> RouteOf(item) in s.agents)
    ensures Abreast(s, OwnOne(one, item, rows), OwnBurst(s, b, item, rows))
  {
    hide SameParents, Stamped, SeedOf;
  }

  lemma BroadcastAbreast(s: State, one: State, b: Burst, item: Item, candidates: seq<Row>, shared: State)
    requires Abreast(s, one, b) && (RouteOf(item) != "" ==> RouteOf(item) in s.agents)
    requires var lines := Stamped(SharedOr(candidates), one.seqNo);
             shared == Looked(one, item).(shared := one.shared + lines, seqNo := one.seqNo + |lines|,
               inboxes := CaughtUp(one.inboxes, Others(one, item), item.message.source, candidates))
    ensures Abreast(s, shared, Broadcast(s, b, item, candidates))
  {
    hide SameParents;
    OthersFrame(one, Roster(s, b), item);
    assert Others(one, item) <= s.agents;
    var lines := Stamped(SharedOr(candidates), one.seqNo);
    assert (s.shared + b.shared) + lines == s.shared + (b.shared + lines);
  }

  /** Routing one message: its shared rows, if any, go out on both sides. */
  lemma FanAbreast(s: State, one: State, b: Burst, item: Item, rows: seq<Row>)
    requires Abreast(s, one, b) && (RouteOf(item) != "" ==> RouteOf(item) in s.agents)
    ensures var own := OwnBurst(s, b, item, rows); var candidates := FilterForShared(rows);
            Abreast(s, Fanned(one, item, rows),
                    if !ReachesShared(item) || candidates == [] || ShareAll(candidates).None? then own
                    else Broadcast(s, own, item, candidates))
    ensures Fanned(one, item, rows).contexts == OwnOne(one, item, rows).contexts
  {
    hide Abreast, Owned, Broadcast, Looked, Others, CaughtUp, SharedOr, Stamped, Seeded, AppendContext, ShareAll,
      SeededFiles, FilterForShared;
    var own, fast := OwnOne(one, item, rows), OwnBurst(s, b, item, rows);
    var candidates := FilterForShared(rows);
    OwnAbreast(s, one, b, item, rows);
    LookedContexts(own, item);
    if ReachesShared(item) && candidates != [] && ShareAll(candidates).Some? {
      BroadcastAbreast(s, own, fast, item, candidates, Fanned(one, item, rows));
    }
  }

  lemma LookedContexts(s: State, item: Item)
    ensures Looked(s, item).contexts == s.contexts
  {
  }

  lemma NotedWarm(s: State, touched: set<string>)
    requires s.warm && touched <= s.agents
    ensures Noted(s, touched) == s
  {
    assert s.agents + touched == s.agents;
  }

  /** Touching the roster of a warm conversation with agents it knows changes nothing. */
  lemma TouchedKnown(s: State, one: State, item: Item, rows: seq<Row>)
    requires one.warm && one.agents == s.agents && (RouteOf(item) != "" ==> RouteOf(item) in s.agents)
    ensures Touched(one, item, rows) <= s.agents
  {
  }

  lemma WarmFacts(s: State, one: State, b: Burst)
    requires Abreast(s, one, b)
    ensures one.warm && one.agents == s.agents && b.touched <= s.agents
  {
  }

  /** One append, in its parts. */
  lemma WillingAppend(s: State, one: State, item: Item)
    requires Willing(s, item) && one.warm && one.agents == s.agents
    requires var logged := LoggedOne(one, item.message); logged.warm && logged.agents == s.agents
    requires var fanned := Fanned(LoggedOne(one, item.message), item, Expanded(one, item.message).rows);
             fanned.warm && fanned.agents == s.agents
    ensures AppendOne(one, item) == if item.message.displayOnly then LoggedOne(one, item.message)
                                    else Fanned(LoggedOne(one, item.message), item, Expanded(one, item.message).rows)
  {
    hide Fanned, LoggedOne, Expanded, Touched, Noted, FanAccepted;
    var logged, rows := LoggedOne(one, item.message), Expanded(one, item.message).rows;
    TouchedKnown(s, logged, item, rows);
    NotedWarm(Fanned(logged, item, rows), Touched(logged, item, rows));
  }

  lemma StepAbreast(s: State, one: State, b: Burst, item: Item)
    requires Abreast(s, one, b) && Willing(s, item)
    ensures Abreast(s, AppendOne(one, item), BurstOne(s, b, item))
    ensures AppendOne(one, item).contexts
            == if item.message.displayOnly then one.contexts
               else OwnOne(LoggedOne(one, item.message), item, Expanded(one, item.message).rows).contexts
  {
    hide Abreast, Fanned, OwnBurst, Broadcast, LoggedBurst, LoggedOne, Expanded, FilterForShared, ShareAll, AppendOne,
      OwnOne, Canonical;
    var m := item.message;
    LogAbreast(s, one, b, m);
    var rows, logged, burst := Expanded(one, m).rows, LoggedOne(one, m), LoggedBurst(s, b, m);
    FanAbreast(s, logged, burst, item, rows);
    var own := OwnBurst(s, burst, item, rows);
    var candidates := FilterForShared(rows);
    var fanned := if !ReachesShared(item) || candidates == [] || ShareAll(candidates).None? then own
                  else Broadcast(s, own, item, candidates);
    WarmFacts(s, one, b);
    WarmFacts(s, logged, burst);
    WarmFacts(s, Fanned(logged, item, rows), fanned);
    WillingAppend(s, one, item);
  }

  lemma {:induction false} AllAbreast(s: State, items: seq<Item>)
    requires s.warm && forall i :: 0 <= i < |items| ==> Willing(s, items[i])
    ensures Abreast(s, AppendAll(s, items), BurstAll(s, items))
    decreases |items|
  {
    hide Abreast, AppendOne, BurstOne, Willing;
    if items == [] {
      StartAbreast(s);
    } else {
      AllAbreast(s, items[..|items| - 1]);
      StepAbreast(s, AppendAll(s, items[..|items| - 1]), BurstAll(s, items[..|items| - 1]), items[|items| - 1]);
    }
  }
  /** No message a willing burst is made of raises, in the burst or on its own. */
  lemma WillingAccepted(s: State, items: seq<Item>)
    requires s.warm && forall i :: 0 <= i < |items| ==> Willing(s, items[i])
    ensures AllAccepted(s, items)
    ensures |items| == 1 ==> Accepted(s, items[0])
  {
    hide Canonical, BurstAll, LoggedOne, Expanded, FanAccepted;
    forall i | 0 <= i < |items| ensures BurstAccepted(s, BurstAll(s, items[..i]), items[i]) {
      var b := BurstAll(s, items[..i]);
      Candidates(items[i].message, b.batch, b.parents, s.transcript, b.next);
      NamedFan(Roster(s, b), items[i], Canonical(items[i].message, b.batch, b.parents, s.transcript, b.next).rows);
    }
    if |items| == 1 {
      ExpandedCandidates(s, items[0].message);
      NamedFan(LoggedOne(s, items[0].message), items[0], Expanded(s, items[0].message).rows);
    }
  }

  lemma ExpandedCandidates(s: State, m: Message)
    ensures var rows := Expanded(s, m).rows;
            && rows != [] && FilterForShared(rows) == (if Shareable(BaseRow(m)) then [rows[0]] else []) && rows[0].source == m.source
  {
    hide Canonical;
    Candidates(m, map[], s.parents, s.transcript, s.next);
  }

  lemma NamedFan(s: State, item: Item, rows: seq<Row>)
    requires Routable(item) && rows != [] && rows[0].source == item.message.source
    requires FilterForShared(rows) in {[rows[0]], []}
    ensures FanAccepted(s, item, rows)
  {
    hide FilterForShared, Others;
    NamedShared(rows[0]);
  }

  lemma NamedShared(row: Row)
    requires row.source.kind.FromAgent? ==> row.source.name != ""
    ensures ShareAll([row]).Some? && |SharedOr([row])| == 1
  {
    assert [row][1..] == [];
    assert ShareAll([row][1..]) == Some([]);
  }

  // ---- the contexts, agent by agent ----

  /** The message is written to the agent's own context. */
  predicate RoutedTo(item: Item, a: string) { a != "" && !item.message.displayOnly && RouteOf(item) == a }

  predicate Injected(item: Item) { item.message.source.kind.FromContext? }

  /** The message adds a row to the shared context. */
  predicate Shares(item: Item) {
    !item.message.displayOnly && ReachesShared(item) && Shareable(BaseRow(item.message))
  }

  function ShareCount(items: seq<Item>): nat
    decreases |items|
  {
    if items == [] then 0
    else ShareCount(items[..|items| - 1]) + if Shares(items[|items| - 1]) then 1 else 0
  }

  predicate AnyRouted(items: seq<Item>, a: string) { exists i :: 0 <= i < |items| && RoutedTo(items[i], a) }

  /** A message that seeds a missing context, being no injection, was routed to the agent. */
  predicate AnyOpened(items: seq<Item>, a: string) {
    exists i :: 0 <= i < |items| && RoutedTo(items[i], a) && !Injected(items[i])
  }

  /** How many seed rows more the burst leaves in the context of an agent that had none. */
  function Drift(s: State, items: seq<Item>, a: string): int
    decreases |items|
  {
    if items == [] then 0
    else
      var before := items[..|items| - 1];
      var last := items[|items| - 1];
      if !RoutedTo(last, a) || Injected(last) then Drift(s, before, a)
      else if !AnyRouted(before, a) then 0 - ShareCount(before)
      else if !AnyOpened(before, a) then |s.shared|
      else Drift(s, before, a)
  }

  /** A message's rows that may be shared: its first one, if any. */
  lemma Candidates(m: Message, batch: map<Id, Id>, parents: map<Id, Id>, transcript: seq<Row>, next: nat)
    ensures var rows := Canonical(m, batch, parents, transcript, next).rows;
            FilterForShared(rows) == (if Shareable(BaseRow(m)) then [rows[0]] else []) && rows[0].source == m.source
  {
    var rows := Canonical(m, batch, parents, transcript, next).rows;
    hide FilterForShared, IsBlank;
    if m.role.AssistantRole? {
      TurnCandidates(m, batch, next);
    } else {
      assert rows[1..] == [];
      NoneShared([]);
      OnlyFirst(rows);
    }
  }

  lemma TurnCandidates(m: Message, batch: map<Id, Id>, next: nat)
    ensures var from := next + |ThoughtRows(m, next)|;
            FilterForShared([AnchorRow(m)] + ThoughtRows(m, next) + CallRows(m.calls, AnchorRow(m), batch, from).0)
            == if Shareable(AnchorRow(m)) then [AnchorRow(m)] else []
  {
    hide FilterForShared, IsBlank, CallRows;
    var from := next + |ThoughtRows(m, next)|;
    var calls := CallRows(m.calls, AnchorRow(m), batch, from).0;
    CallsNotShared(m.calls, AnchorRow(m), batch, from);
    NoneShared(ThoughtRows(m, next) + calls);
    var rows := [AnchorRow(m)] + ThoughtRows(m, next) + calls;
    assert rows[1..] == ThoughtRows(m, next) + calls;
    OnlyFirst(rows);
  }

  lemma OnlyFirst(rows: seq<Row>)
    requires rows != [] && FilterForShared(rows[1..]) == []
    ensures FilterForShared(rows) == if Shareable(rows[0]) then [rows[0]] else []
  {
  }

  lemma {:induction false} CallsNotShared(calls: seq<Call>, anchor: Row, batch: map<Id, Id>, next: nat)
    ensures forall row :: row in CallRows(calls, anchor, batch, next).0 ==> row.role.ToolCallRole?
    decreases |calls|
  {
    if calls != [] {
      var n := |calls| - 1;
      CallsNotShared(calls[..n], anchor, batch, next);
      var before := CallRows(calls[..n], anchor, batch, next);
      assert CallRows(calls, anchor, batch, next).0 == before.0 + [CallRow(calls[n], anchor, before.2 + 1)];
    }
  }

  lemma {:induction false} NoneShared(rows: seq<Row>)
    requires forall row :: row in rows ==> row.role.ToolCallRole? || row.role.ThinkingRole?
    ensures FilterForShared(rows) == []
  {
    if rows != [] { NoneShared(rows[1..]); }
  }

  lemma SharedByOne(s: State, b: Burst, item: Item)
    requires Routable(item)
    ensures |BurstOne(s, b, item).shared| == |b.shared| + if Shares(item) then 1 else 0
  {
    hide Canonical, Stamped, CaughtUp, Others, Looked, IsBlank, SeededFiles, Owned, Logged, Numbered;
    var m := item.message;
    var rows := Canonical(m, b.batch, b.parents, s.transcript, b.next).rows;
    Candidates(m, b.batch, b.parents, s.transcript, b.next);
    SharedApart(s, b, item, rows);
    if Shareable(BaseRow(m)) { NamedShared(rows[0]); }
  }

  lemma SharedApart(s: State, b: Burst, item: Item, rows: seq<Row>)
    ensures LoggedBurst(s, b, item.message).shared == b.shared
    ensures OwnBurst(s, LoggedBurst(s, b, item.message), item, rows).shared == b.shared
  {
    hide Canonical, Stamped, Seeded;
  }

  lemma {:induction false} SharedByAll(s: State, items: seq<Item>)
    requires forall i :: 0 <= i < |items| ==> Willing(s, items[i])
    ensures |BurstAll(s, items).shared| == ShareCount(items)
    decreases |items|
  {
    hide BurstOne, Shares, Routable;
    if items != [] {
      SharedByAll(s, items[..|items| - 1]);
      SharedByOne(s, BurstAll(s, items[..|items| - 1]), items[|items| - 1]);
    }
  }

  /** What a message routed to the agent finds in front of its own lines: its context, or the seed. */
  function Before(contexts: map<string, seq<Row>>, shared: seq<Row>, item: Item, a: string): seq<Row> {
    if a in contexts then contexts[a] else if Injected(item) then [] else SeedOf(shared, a)
  }

  function LinesOf(one: State, m: Message): seq<Row> { Stamped(Expanded(one, m).rows, LoggedOne(one, m).seqNo) }

  lemma OwnedStep(one: State, item: Item, rows: seq<Row>, a: string)
    ensures var own := OwnOne(one, item, rows).contexts; var lines := Stamped(rows, one.seqNo);
            if RouteOf(item) != a || a == "" then
              (a in own <==> a in one.contexts) && ContextOf(own, a) == ContextOf(one.contexts, a)
            else a in own && own[a] == Before(one.contexts, one.shared, item, a) + lines
  {
    hide Stamped;
  }

  lemma FiledStep(s: State, b: Burst, item: Item, rows: seq<Row>, a: string)
    ensures var own := OwnBurst(s, b, item, rows);
            if RouteOf(item) != a || a == "" then
              && (a in own.contexts <==> a in b.contexts) && ContextOf(own.contexts, a) == ContextOf(b.contexts, a)
              && (a in own.files <==> a in b.files) && ContextOf(own.files, a) == ContextOf(b.files, a)
            else
              && a in own.contexts && own.contexts[a] == ContextOf(b.contexts, a) + Stamped(rows, b.seqNo)
              && (a in own.files <==> a in b.files || (!Injected(item) && s.shared != []))
              && ContextOf(own.files, a) == Before(b.files, s.shared, item, a)
  {
    hide Stamped, Owned, SeededFiles, RouteOf;
    if RouteOf(item) != "" { SeededStep(s, b, item, a); }
    OwnedPile(SeededFiles(s, b, item), RouteOf(item), rows, a);
  }

  lemma SeededStep(s: State, b: Burst, item: Item, a: string)
    requires RouteOf(item) != ""
    ensures var seeded := SeededFiles(s, b, item);
            && seeded.contexts == b.contexts && seeded.seqNo == b.seqNo
            && (RouteOf(item) != a ==>
                  (a in seeded.files <==> a in b.files) && ContextOf(seeded.files, a) == ContextOf(b.files, a))
            && (RouteOf(item) == a ==>
                  (a in seeded.files <==> a in b.files || (!Injected(item) && s.shared != []))
                  && ContextOf(seeded.files, a) == Before(b.files, s.shared, item, a))
  {
    hide RouteOf;
  }

  lemma OwnedPile(b: Burst, route: string, rows: seq<Row>, a: string)
    ensures var own := Owned(b, route, rows);
            && own.files == b.files
            && (route != a ==>
                  (a in own.contexts <==> a in b.contexts) && ContextOf(own.contexts, a) == ContextOf(b.contexts, a))
            && (route == a ==>
                  a in own.contexts && own.contexts[a] == ContextOf(b.contexts, a) + Stamped(rows, b.seqNo))
  {
    hide Stamped;
  }

  lemma BurstContexts(s: State, b: Burst, item: Item, rows: seq<Row>)
    requires rows == Canonical(item.message, b.batch, b.parents, s.transcript, b.next).rows
    ensures var own := OwnBurst(s, LoggedBurst(s, b, item.message), item, rows); var after := BurstOne(s, b, item);
            if item.message.displayOnly then after == LoggedBurst(s, b, item.message)
            else after.contexts == own.contexts && after.files == own.files
  {
    hide Canonical, OwnBurst, LoggedBurst, FilterForShared, ShareAll, Broadcast;
    BroadcastContexts(s, OwnBurst(s, LoggedBurst(s, b, item.message), item, rows), item, FilterForShared(rows));
  }

  /** One message, seen from one agent's context on both sides. */
  lemma AgentStep(s: State, one: State, b: Burst, item: Item, a: string)
    requires Abreast(s, one, b) && Willing(s, item)
    ensures var one' := AppendOne(one, item); var b' := BurstOne(s, b, item);
            if !RoutedTo(item, a) then
              && (a in one'.contexts <==> a in one.contexts) && ContextOf(one'.contexts, a) == ContextOf(one.contexts, a)
              && (a in b'.contexts <==> a in b.contexts) && ContextOf(b'.contexts, a) == ContextOf(b.contexts, a)
              && (a in b'.files <==> a in b.files) && ContextOf(b'.files, a) == ContextOf(b.files, a)
            else
              && a in one'.contexts && one'.contexts[a] == Before(one.contexts, one.shared, item, a) + LinesOf(one, item.message)
              && a in b'.contexts && b'.contexts[a] == ContextOf(b.contexts, a) + LinesOf(one, item.message)
              && (a in b'.files <==> a in b.files || (!Injected(item) && s.shared != []))
              && ContextOf(b'.files, a) == Before(b.files, s.shared, item, a)
  {
    hide Abreast, AppendOne, LoggedOne, LoggedBurst, Expanded, Canonical, Stamped, BurstOne, OwnOne, OwnBurst, Before;
    var m := item.message;
    StepAbreast(s, one, b, item);
    LogAbreast(s, one, b, m);
    SameNumber(s, LoggedOne(one, m), LoggedBurst(s, b, m));
    var rows := Expanded(one, m).rows;
    OwnedStep(LoggedOne(one, m), item, rows, a);
    FiledStep(s, LoggedBurst(s, b, m), item, rows, a);
    BurstContexts(s, b, item, rows);
  }

  lemma SameNumber(s: State, one: State, b: Burst)
    requires Abreast(s, one, b)
    ensures one.seqNo == b.seqNo && one.shared == s.shared + b.shared
  {
  }

  lemma BroadcastContexts(s: State, b: Burst, item: Item, candidates: seq<Row>)
    ensures Broadcast(s, b, item, candidates).contexts == b.contexts && Broadcast(s, b, item, candidates).files == b.files
  {
  }

  /** Where an agent's context stands on both sides after the same messages. */
  ghost predicate Standing(s: State, items: seq<Item>, one: State, b: Burst, a: string) {
    var joined := ContextOf(b.files, a) + ContextOf(b.contexts, a);
    if a in s.contexts then
      a in b.files && a in one.contexts && one.contexts[a] == joined
    else
      && (a in one.contexts <==> AnyRouted(items, a)) && (a in b.contexts <==> AnyRouted(items, a))
      && (a in b.files <==> AnyOpened(items, a) && s.shared != [])
      && |joined| == |ContextOf(one.contexts, a)| + Drift(s, items, a)
      && (Drift(s, items, a) == 0 ==> joined == ContextOf(one.contexts, a))
  }
  lemma RoutedMore(items: seq<Item>, a: string)
    requires items != []
    ensures var before := items[..|items| - 1]; var last := items[|items| - 1];
            && (AnyRouted(items, a) <==> AnyRouted(before, a) || RoutedTo(last, a))
            && (AnyOpened(items, a) <==> AnyOpened(before, a) || (RoutedTo(last, a) && !Injected(last)))
  {
    hide RoutedTo, Injected;
    var before := items[..|items| - 1];
    assert forall i :: 0 <= i < |before| ==> before[i] == items[i];
    if AnyRouted(before, a) {
      var i :| 0 <= i < |before| && RoutedTo(before[i], a);
      assert RoutedTo(items[i], a);
    }
    if AnyOpened(before, a) {
      var i :| 0 <= i < |before| && RoutedTo(before[i], a) && !Injected(before[i]);
      assert RoutedTo(items[i], a);
    }
  }

  lemma NotOpened(items: seq<Item>, a: string)
    requires AnyOpened(items, a)
    ensures AnyRouted(items, a)
  {
  }

  lemma StandingStart(s: State, a: string)
    requires s.warm
    ensures Standing(s, [], s, Start(s), a)
  {
  }

  /** A known agent's context stays the same on both sides. */
  lemma StandingKnown(s: State, items: seq<Item>, one: State, b: Burst, a: string)
    requires a in s.contexts && items != [] && Willing(s, items[|items| - 1]) && Abreast(s, one, b)
    requires Standing(s, items[..|items| - 1], one, b, a)
    ensures Standing(s, items, AppendOne(one, items[|items| - 1]), BurstOne(s, b, items[|items| - 1]), a)
  {
    hide AppendOne, BurstOne, Abreast, Willing, RoutedTo, LinesOf, Drift, Injected;
    AgentStep(s, one, b, items[|items| - 1], a);
  }

  /** Another agent's message, or an injection. */
  lemma StandingIdle(s: State, items: seq<Item>, one: State, b: Burst, a: string)
    requires a !in s.contexts && items != [] && Willing(s, items[|items| - 1]) && Abreast(s, one, b)
    requires Standing(s, items[..|items| - 1], one, b, a)
    requires !RoutedTo(items[|items| - 1], a) || Injected(items[|items| - 1])
    ensures Standing(s, items, AppendOne(one, items[|items| - 1]), BurstOne(s, b, items[|items| - 1]), a)
  {
    hide AppendOne, BurstOne, Abreast, Willing, RoutedTo, LinesOf, Injected, AnyRouted, AnyOpened, ShareCount, SeedOf;
    var last := items[|items| - 1];
    AgentStep(s, one, b, last, a);
    RoutedMore(items, a);
    var lines := LinesOf(one, last.message);
    assert ContextOf(b.files, a) + (ContextOf(b.contexts, a) + lines) == ContextOf(b.files, a) + ContextOf(b.contexts, a) + lines;
  }

  /** A message of the agent's own that seeds its context, unless it has one by now. */
  lemma StandingOpened(s: State, items: seq<Item>, one: State, b: Burst, a: string)
    requires a !in s.contexts && items != [] && Willing(s, items[|items| - 1]) && Abreast(s, one, b)
    requires Standing(s, items[..|items| - 1], one, b, a) && |b.shared| == ShareCount(items[..|items| - 1])
    requires RoutedTo(items[|items| - 1], a) && !Injected(items[|items| - 1])
    ensures Standing(s, items, AppendOne(one, items[|items| - 1]), BurstOne(s, b, items[|items| - 1]), a)
  {
    hide AppendOne, BurstOne, Abreast, Willing, RoutedTo, LinesOf, Injected, AnyRouted, AnyOpened, ShareCount, SeedOf;
    var before, last := items[..|items| - 1], items[|items| - 1];
    AgentStep(s, one, b, last, a);
    RoutedMore(items, a);
    SameNumber(s, one, b);
    if AnyOpened(before, a) { NotOpened(before, a); } else { DriftUnopened(s, before, a); }
    var lines := LinesOf(one, last.message);
    assert ContextOf(b.files, a) + (ContextOf(b.contexts, a) + lines) == ContextOf(b.files, a) + ContextOf(b.contexts, a) + lines;
    assert b.shared == [] ==> one.shared == s.shared;
    SeedLength(one.shared, a);
    SeedLength(s.shared, a);
  }

  lemma SeedLength(rows: seq<Row>, a: string)
    ensures |SeedOf(rows, a)| == |rows|
  {
    InOrderIs(rows);
  }

  lemma {:induction false} DriftUnopened(s: State, items: seq<Item>, a: string)
    requires !AnyOpened(items, a)
    ensures Drift(s, items, a) == 0
    decreases |items|
  {
    hide RoutedTo, Injected, ShareCount, AnyRouted;
    if items != [] {
      RoutedMore(items, a);
      DriftUnopened(s, items[..|items| - 1], a);
    }
  }

  lemma {:induction false} AllStanding(s: State, items: seq<Item>, a: string)
    requires s.warm && forall i :: 0 <= i < |items| ==> Willing(s, items[i])
    ensures Standing(s, items, AppendAll(s, items), BurstAll(s, items), a)
    decreases |items|
  {
    hide Standing, Abreast, AppendOne, BurstOne, Willing, ShareCount, RoutedTo, Injected;
    if items == [] {
      StandingStart(s, a);
    } else {
      var before := items[..|items| - 1];
      AllStanding(s, before, a);
      AllAbreast(s, before);
      SharedByAll(s, before);
      if a in s.contexts {
        StandingKnown(s, items, AppendAll(s, before), BurstAll(s, before), a);
      } else {
        var last := items[|items| - 1];
        if !RoutedTo(last, a) || Injected(last) {
          StandingIdle(s, items, AppendAll(s, before), BurstAll(s, before), a);
        } else {
          StandingOpened(s, items, AppendAll(s, before), BurstAll(s, before), a);
        }
      }
    }
  }

  // ---- when a burst is the same as appending one at a time ----

  /** The message that creates the agent's missing context. */
  predicate FirstFor(items: seq<Item>, i: nat, a: string) {
    i < |items| && RoutedTo(items[i], a) && forall j :: 0 <= j < i ==> !RoutedTo(items[j], a)
  }

  /** An agent without a context gets the same one either way: nothing of the burst is shared before the message
      that creates it, or that message is an injection and there is nothing to seed from, or nothing seeds later. */
  predicate SeedsAlike(s: State, items: seq<Item>, a: string) {
    forall i: nat :: i < |items| && FirstFor(items, i, a) ==>
      if Injected(items[i])
      then s.shared == [] || forall j :: i < j < |items| && RoutedTo(items[j], a) ==> Injected(items[j])
      else forall j :: 0 <= j < i ==> !Shares(items[j])
  }

  lemma {:induction false} NothingShared(items: seq<Item>)
    ensures ShareCount(items) == 0 <==> forall j :: 0 <= j < |items| ==> !Shares(items[j])
    decreases |items|
  {
    hide Shares;
    if items != [] { NothingShared(items[..|items| - 1]); }
  }

  lemma DriftUnrouted(s: State, items: seq<Item>, a: string)
    requires !AnyRouted(items, a)
    ensures Drift(s, items, a) == 0
  {
    if AnyOpened(items, a) { NotOpened(items, a); }
    DriftUnopened(s, items, a);
  }

  /** The drift is decided by the message that creates the context, and by whether an injection did. */
  lemma {:induction false} DriftFrom(s: State, items: seq<Item>, i: nat, a: string)
    requires FirstFor(items, i, a)
    ensures Drift(s, items, a)
            == if !Injected(items[i]) then 0 - ShareCount(items[..i]) else if AnyOpened(items, a) then |s.shared| else 0
    decreases |items|
  {
    hide RoutedTo, Injected, ShareCount;
    var n := |items| - 1;
    var before := items[..n];
    RoutedMore(items, a);
    if i == n {
      assert !AnyRouted(before, a);
      DriftUnrouted(s, before, a);
      assert !AnyOpened(before, a);
    } else {
      assert before[..i] == items[..i] && before[i] == items[i];
      assert FirstFor(before, i, a);
      DriftFrom(s, before, i, a);
      assert AnyRouted(before, a);
      if !Injected(items[i]) { assert AnyOpened(before, a); }
    }
  }

  lemma {:induction false} FirstExists(items: seq<Item>, a: string) returns (i: nat)
    requires AnyRouted(items, a)
    ensures FirstFor(items, i, a)
    decreases |items|
  {
    hide RoutedTo;
    var n := |items| - 1;
    if AnyRouted(items[..n], a) {
      i := FirstExists(items[..n], a);
      assert items[..n][i] == items[i];
      assert forall j :: 0 <= j < i ==> items[..n][j] == items[j];
    } else {
      i := n;
      RoutedMore(items, a);
      assert forall j :: 0 <= j < n ==> items[..n][j] == items[j];
    }
  }

  lemma SeedsAlikeIs(s: State, items: seq<Item>, a: string)
    ensures SeedsAlike(s, items, a) <==> Drift(s, items, a) == 0
  {
    hide RoutedTo, Injected, Shares, ShareCount, Drift;
    if AnyRouted(items, a) {
      var i := FirstExists(items, a);
      DriftFrom(s, items, i, a);
      NothingShared(items[..i]);
      assert forall j :: 0 <= j < i ==> items[..i][j] == items[j];
      assert forall k: nat :: k < |items| && FirstFor(items, k, a) ==> k == i;
      if AnyOpened(items, a) {
        var j :| 0 <= j < |items| && RoutedTo(items[j], a) && !Injected(items[j]);
        assert j >= i;
      }
    } else {
      DriftUnrouted(s, items, a);
    }
  }

  /** Every routed agent has a context, or gets the same one either way. */
  predicate Coalesces(s: State, items: seq<Item>) {
    forall i :: 0 <= i < |items| ==> RouteOf(items[i]) in s.contexts || SeedsAlike(s, items, RouteOf(items[i]))
  }

  lemma FlushedApart(s: State, one: State, b: Burst)
    requires Abreast(s, one, b)
    ensures Flushed(s, b).contexts == Joined(b.files, b.contexts)
    ensures Flushed(s, b) == one.(contexts := Joined(b.files, b.contexts))
  {
    RememberMerge(b.parents, map[], b.lines);
    assert b.parents + map[] == b.parents;
    var written := s.(transcript := s.transcript + b.lines, parents := Remember(b.parents, b.lines),
                      contexts := Joined(b.files, b.contexts), shared := s.shared + b.shared,
                      inboxes := b.inboxes, warm := b.warm, agents := b.agents, next := b.next, seqNo := b.seqNo);
    NotedWarm(written, b.touched);
  }

  lemma Unrouted(items: seq<Item>, a: string)
    requires forall i :: 0 <= i < |items| ==> RouteOf(items[i]) != a
    ensures !AnyRouted(items, a)
  {
  }

  lemma StandingIs(s: State, items: seq<Item>, one: State, b: Burst, a: string)
    requires Standing(s, items, one, b, a)
    ensures var joined := Joined(b.files, b.contexts);
            && (a in joined <==> a in one.contexts || (a !in s.contexts && a in b.files))
            && (a in one.contexts ==> (joined[a] == one.contexts[a] <==> a in s.contexts || Drift(s, items, a) == 0))
  {
    if a !in s.contexts && AnyOpened(items, a) { NotOpened(items, a); }
  }

  /** A burst leaves transcript, shared context, every agent's context and every inbox with the same rows and
      numbers as appending its messages one at a time, exactly when every routed agent has a context or gets
      the same one either way. */
  lemma BurstIsAppendAll(s: State, items: seq<Item>)
    requires s.warm && forall i :: 0 <= i < |items| ==> Willing(s, items[i])
    ensures Flushed(s, BurstAll(s, items)) == AppendAll(s, items) <==> Coalesces(s, items)
    ensures Flushed(s, BurstAll(s, items)) == AppendAll(s, items).(contexts := Flushed(s, BurstAll(s, items)).contexts)
  {
    hide Standing, Abreast, Willing, Flushed, SeedsAlike, Drift, Joined, AnyRouted, AnyOpened;
    var one, b := AppendAll(s, items), BurstAll(s, items);
    AllAbreast(s, items);
    FlushedApart(s, one, b);
    forall a ensures var joined := Joined(b.files, b.contexts);
      && (a in joined <==> a in one.contexts)
      && (a in one.contexts ==> (joined[a] == one.contexts[a] <==> a in s.contexts || SeedsAlike(s, items, a)))
    {
      AllStanding(s, items, a);
      SeedsAlikeIs(s, items, a);
      StandingIs(s, items, one, b, a);
      StandingKeys(s, items, one, b, a);
    }
    if Coalesces(s, items) {
      forall a | a in one.contexts ensures Joined(b.files, b.contexts)[a] == one.contexts[a] {
        CoalescesAll(s, items, a);
      }
      assert Joined(b.files, b.contexts) == one.contexts;
    } else {
      var i :| 0 <= i < |items| && RouteOf(items[i]) !in s.contexts && !SeedsAlike(s, items, RouteOf(items[i]));
      var a := RouteOf(items[i]);
      AllStanding(s, items, a);
      DriftingHas(s, items, one, b, a);
      assert Joined(b.files, b.contexts)[a] != one.contexts[a];
    }
  }

  lemma StandingKeys(s: State, items: seq<Item>, one: State, b: Burst, a: string)
    requires Standing(s, items, one, b, a)
    ensures a in one.contexts || a !in b.files
  {
    if a !in s.contexts && AnyOpened(items, a) { NotOpened(items, a); }
  }

  lemma CoalescesAll(s: State, items: seq<Item>, a: string)
    requires Coalesces(s, items)
    ensures a in s.contexts || SeedsAlike(s, items, a)
  {
    hide Drift;
    if forall i :: 0 <= i < |items| ==> RouteOf(items[i]) != a {
      Unrouted(items, a);
      DriftUnrouted(s, items, a);
      SeedsAlikeIs(s, items, a);
    }
  }

  lemma DriftingHas(s: State, items: seq<Item>, one: State, b: Burst, a: string)
    requires Standing(s, items, one, b, a) && a !in s.contexts && !SeedsAlike(s, items, a)
    ensures a in one.contexts
  {
    hide Drift;
    var i: nat :| i < |items| && FirstFor(items, i, a);
  }
  /** How far the two are apart for an agent without a context. Its first message, if it is no injection, finds
      the rows shared earlier in the burst only one at a time; after an injection only the burst still seeds. */
  lemma MissingContextLosesSeed(s: State, items: seq<Item>, i: nat, a: string)
    requires s.warm && forall j :: 0 <= j < |items| ==> Willing(s, items[j])
    requires a !in s.contexts && FirstFor(items, i, a)
    ensures var one, burst := AppendAll(s, items).contexts, Flushed(s, BurstAll(s, items)).contexts;
            && a in one && a in burst
            && |one[a]| - |burst[a]|
               == if !Injected(items[i]) then ShareCount(items[..i])
                  else if AnyOpened(items, a) then 0 - |s.shared| else 0
  {
    hide Abreast, Willing, Flushed, Drift, ShareCount, AnyOpened, RoutedTo, Injected;
    var one, b := AppendAll(s, items), BurstAll(s, items);
    AllAbreast(s, items);
    AllStanding(s, items, a);
    FlushedApart(s, one, b);
    DriftFrom(s, items, i, a);
    StandingIs(s, items, one, b, a);
    assert AnyRouted(items, a);
  }

  const TO_ALL := Source(FromUser, "user", "ALL", "", false, "", "", false, false, "", "", false, false)
  const TO_ALL_MESSAGE := Message(UserRole, 1, true, 1.0, Text("hello"), TO_ALL, NONE, NONE, NONE, NONE, [], "", NONE, [], false)
  const TO_AGENT_MESSAGE := TO_ALL_MESSAGE.(id := 2, source := TO_ALL.(target := "agent"))
  const NEW_ROOM := State([], [], map[], map[], map[], true, {"agent"}, {"agent"}, 0, 0)

  /** A shared message, then one for an agent without a context: the burst loses the shared row. */
  lemma SeedIsLost()
    ensures var items := [Item(TO_ALL_MESSAGE, ""), Item(TO_AGENT_MESSAGE, "")];
            var one, burst := AppendAll(NEW_ROOM, items), Flushed(NEW_ROOM, BurstAll(NEW_ROOM, items));
            && burst != one
            && "agent" in burst.contexts && "agent" in one.contexts
            && |one.contexts["agent"]| == |burst.contexts["agent"]| + 1
  {
    hide AppendAll, BurstAll, Flushed;
    var items := [Item(TO_ALL_MESSAGE, ""), Item(TO_AGENT_MESSAGE, "")];
    assert "ALL"[0] == 'A' && "agent"[0] == 'a' && |"agent"| != |"all"|;
    assert Willing(NEW_ROOM, items[0]) && Willing(NEW_ROOM, items[1]);
    assert Shares(items[0]) && FirstFor(items, 1, "agent");
    assert items[..1] == [items[0]] && items[..1][..0] == [];
    assert ShareCount(items[..1]) == 1;
    MissingContextLosesSeed(NEW_ROOM, items, 1, "agent");
  }
}

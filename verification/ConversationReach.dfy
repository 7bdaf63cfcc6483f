/** Whom a message reaches: what an append leaves in the shared context, the contexts and the inboxes, told from the
    message's own fields. */
module ConversationReach {
  import opened Basics
  import opened ConversationViews
  import opened ConversationRows
  import opened ConversationRowLaws
  import U = ConversationBursts

  // ---- who is meant ----

  /** A message is for its own agent and the user's eyes: it is not to leave the agent's context. */
  predicate Private(m: Message) { m.displayOnly || m.source.targetOnly || m.source.kind == FromContext }

  /** The message adds to the shared context: it is nobody's own, says something, and its author has a name. */
  predicate Public(m: Message) { !Private(m) && Says(m) && Named(m.source) }

  /** The agent whose own context a message belongs in: the writer's, or whom it is for unless that is everybody. */
  predicate MeantFor(item: Item, a: string) {
    a != "" && if item.agent != "" then a == item.agent
               else a == item.message.source.target && a !in {"ALL", "all"}
  }

  ghost predicate MeantForSomebody(item: Item) { exists a :: MeantFor(item, a) }

  /** The other agents the store knows of: the warm roster, or the declared one, which is not looked up for a user's
      message to one agent. */
  ghost predicate Overhears(s: State, item: Item, a: string) {
    a != "" && !MeantFor(item, a)
    && if s.warm then a in s.agents
       else a in s.declared && !(item.message.role == UserRole && MeantForSomebody(item))
  }

  /** Somebody can be named as the sender of a catch-up row. */
  predicate Signs(s: Source) { s.sender != "" || s.name != "" }

  /** What an append demands of a message. */
  predicate Proper(m: Message) {
    && (m.role != SystemRole ==> m.id != NONE && m.dated)
    && (m.role == UserRole && m.source.kind != FromContext ==> m.source.target != "")
  }

  /** The rows, numbered on from `n`. */
  ghost predicate Lines(out: seq<Row>, rows: seq<Row>, n: nat) {
    |out| == |rows| && forall i :: 0 <= i < |out| ==> out[i] == rows[i].(seqNo := n + 1 + i)
  }

  /** Behind what was there. */
  ghost predicate Adds(before: seq<Row>, after: seq<Row>, rows: seq<Row>, n: nat) {
    |before| <= |after| && after[..|before|] == before && Lines(after[|before|..], rows, n)
  }

  ghost predicate Untouched(before: map<string, seq<Row>>, after: map<string, seq<Row>>, a: string) {
    (a in after <==> a in before) && (a in before ==> after[a] == before[a])
  }

  // ---- routing ----

  lemma RouteLaw(item: Item, a: string)
    requires a != ""
    ensures RouteOf(item) == a <==> MeantFor(item, a)
    ensures RouteOf(item) != "" <==> MeantForSomebody(item)
  {
    if RouteOf(item) != "" { assert MeantFor(item, RouteOf(item)); }
  }

  lemma NoRoute(item: Item)
    ensures RouteOf(item) != "" <==> MeantForSomebody(item)
  {
    if RouteOf(item) != "" { assert MeantFor(item, RouteOf(item)); }
  }

  lemma OverhearsIs(s: State, item: Item, a: string)
    ensures a in Others(s, item) <==> Overhears(s, item, a)
  {
    NoRoute(item);
    if a != "" { RouteLaw(item, a); }
    hide RouteOf, MeantFor, MeantForSomebody;
  }

  lemma ProperIs(m: Message)
    ensures ValidMessage(m) <==> Proper(m)
  {
  }

  // ---- the parts of an append ----

  /** The transcript gets every message but injected context. */
  ghost predicate Transcribed(s: State, m: Message, rows: seq<Row>, after: State) {
    if m.source.kind == FromContext then after.transcript == s.transcript
    else Adds(s.transcript, after.transcript, rows, s.seqNo)
  }

  function TranscriptLines(m: Message, rows: seq<Row>): nat { if m.source.kind == FromContext then 0 else |rows| }

  /** The context the message belongs in gets its rows; one that is missing begins as the shared context as its agent
      reads it. Every other context stays. */
  ghost predicate Contexted(s: State, item: Item, rows: seq<Row>, after: State) {
    var m := item.message;
    forall a ::
      if MeantFor(item, a) && !m.displayOnly then
        && a in after.contexts
        && Adds(if a in s.contexts then s.contexts[a] else if m.source.kind == FromContext then [] else Reading(s.shared, a),
                after.contexts[a], rows, s.seqNo + TranscriptLines(m, rows))
      else Untouched(s.contexts, after.contexts, a)
  }

  /** The shared context in the order its rows were made, each as the agent reads it. */
  function Reading(shared: seq<Row>, a: string): (out: seq<Row>)
    ensures |out| == |shared|
  {
    InOrderIs(shared);
    seq(|shared|, i requires 0 <= i < |shared| => FromShared(InOrder(shared)[i], a))
  }

  ghost function ContextLines(item: Item, rows: seq<Row>): nat {
    if MeantForSomebody(item) && !item.message.displayOnly then |rows| else 0
  }

  /** The shared context gets the copy of a public message and nothing else. */
  ghost predicate SharedAs(s: State, item: Item, rows: seq<Row>, after: State) {
    var m := item.message;
    if Public(m) then
      Adds(s.shared, after.shared, [SharedCopy(FirstRow(m))], s.seqNo + TranscriptLines(m, rows) + ContextLines(item, rows))
    else after.shared == s.shared
  }

  /** Whoever overhears a signed public message gets its copy for it; every other inbox stays. */
  ghost predicate HeardAs(s: State, item: Item, after: State) {
    var m := item.message;
    forall a ::
      if Public(m) && Signs(m.source) && Overhears(s, item, a) then
        a in after.inboxes && after.inboxes[a] == ContextOf(s.inboxes, a) + [CopyFor(FirstRow(m), a)]
      else Untouched(s.inboxes, after.inboxes, a)
  }

  lemma StampedLines(rows: seq<Row>, n: nat)
    ensures Lines(Stamped(rows, n), rows, n)
  {
  }

  lemma AddsLines(before: seq<Row>, rows: seq<Row>, n: nat)
    ensures Adds(before, before + Stamped(rows, n), rows, n)
  {
    assert (before + Stamped(rows, n))[|before|..] == Stamped(rows, n);
    StampedLines(rows, n);
    hide Lines, Stamped;
  }

  lemma ReadingIs(shared: seq<Row>, a: string)
    ensures SeedOf(shared, a) == Reading(shared, a)
  {
    InOrderIs(shared);
    hide InOrder;
  }

  lemma LoggedParts(s: State, m: Message)
    ensures var rows, after := Expanded(s, m).rows, LoggedOne(s, m);
            && Transcribed(s, m, rows, after) && after.seqNo == s.seqNo + TranscriptLines(m, rows)
            && after.contexts == s.contexts && after.shared == s.shared && after.inboxes == s.inboxes
            && after.warm == s.warm && after.agents == s.agents && after.declared == s.declared
  {
    hide Canonical, Stamped, Remember, Adds;
    AddsLines(s.transcript, Expanded(s, m).rows, s.seqNo);
  }

  /** The part of an append that is the agent's own. */
  lemma OwnParts(s: State, item: Item, rows: seq<Row>)
    ensures var own := U.OwnOne(s, item, rows); var route := RouteOf(item);
            && own == s.(contexts := own.contexts, seqNo := own.seqNo)
            && own.seqNo == s.seqNo + (if route == "" then 0 else |rows|)
            && (forall a :: a != route || a == "" ==> Untouched(s.contexts, own.contexts, a))
            && (route != "" ==>
                  route in own.contexts
                  && Adds(if route in s.contexts then s.contexts[route]
                          else if item.message.source.kind == FromContext then [] else Reading(s.shared, route),
                          own.contexts[route], rows, s.seqNo))
  {
    var route := RouteOf(item);
    ReadingIs(s.shared, route);
    AddsLines(Before(s, item, route), rows, s.seqNo);
    hide RouteOf, Stamped, SeedOf, Adds;
    if route != "" { OwnContext(s, item, rows); }
  }

  function Before(s: State, item: Item, a: string): seq<Row> {
    if a in s.contexts then s.contexts[a] else if item.message.source.kind == FromContext then [] else Reading(s.shared, a)
  }

  lemma OwnContext(s: State, item: Item, rows: seq<Row>)
    requires RouteOf(item) != ""
    ensures U.OwnOne(s, item, rows)
            == s.(contexts := s.contexts[RouteOf(item) := Before(s, item, RouteOf(item)) + Stamped(rows, s.seqNo)],
                  seqNo := s.seqNo + |rows|)
  {
    ReadingIs(s.shared, RouteOf(item));
    hide Stamped, RouteOf, SeedOf, Reading;
  }

  lemma SharedView(row: Row, a: string)
    ensures ShareAll([row]) == if Named(row.source) then Some([SharedCopy(row)]) else None
    ensures a != "" ==> ViewAll([row], a) == if Named(row.source) then Some([CopyFor(row, a)]) else None
  {
    assert [row][1..] == [];
    assert ShareAll([row][1..]) == Some([]) && ViewAll([row][1..], a) == Some([]);
    CopiesLaw(row, if a == "" then "a" else a);
    hide ForShared, ForAgent, SharedCopy, CopyFor;
    assert forall x: Row :: [x] + [] == [x];
  }

  /** What is left of the fan-out once its parts have names. */
  lemma FannedIs(s: State, item: Item, rows: seq<Row>)
    requires var m := item.message;
             !m.displayOnly && FilterForShared(rows) == if Says(m) && m.source.kind != FromContext then [FirstRow(m)] else []
    ensures var m := item.message; var own := U.OwnOne(s, item, rows); var row := FirstRow(m);
            Fanned(s, item, rows)
            == if Public(m) then
                 Looked(own, item).(shared := own.shared + Stamped([SharedCopy(row)], own.seqNo), seqNo := own.seqNo + 1,
                                    inboxes := CaughtUp(own.inboxes, Others(own, item), m.source, [row]))
               else own
  {
    SharedView(FirstRow(item.message), "");
    hide FilterForShared, Says, Named, SharedCopy, ShareAll, FirstRow, Others, CaughtUp, AppendContext, Seeded, RouteOf;
    hide Looked;
    assert FirstRow(item.message).source == item.message.source by { FirstSource(item.message); }
  }

  lemma FirstSource(m: Message)
    ensures FirstRow(m).source == m.source
  {
  }

  lemma CaughtUpIs(inboxes: map<string, seq<Row>>, others: set<string>, row: Row, a: string)
    requires Named(row.source) && "" !in others
    ensures var after := CaughtUp(inboxes, others, row.source, [row]);
            if Signs(row.source) && a in others then a in after && after[a] == ContextOf(inboxes, a) + [CopyFor(row, a)]
            else Untouched(inboxes, after, a)
  {
    SharedView(row, a);
    hide ViewAll, CopyFor, Named;
  }

  lemma OthersSame(s: State, t: State, item: Item)
    requires s.warm == t.warm && s.agents == t.agents && s.declared == t.declared
    ensures Others(s, item) == Others(t, item)
  {
    U.OthersFrame(s, t, item);
  }

  lemma OthersNamed(s: State, item: Item)
    ensures "" !in Others(s, item)
  {
  }

  /** What the fan-out leaves behind, the roster apart. */
  lemma FannedParts(s: State, item: Item, rows: seq<Row>)
    requires var m := item.message;
             !m.displayOnly && FilterForShared(rows) == if Says(m) && m.source.kind != FromContext then [FirstRow(m)] else []
    ensures var m := item.message; var own := U.OwnOne(s, item, rows); var after := Fanned(s, item, rows);
            && after.transcript == s.transcript && after.contexts == own.contexts && after.declared == s.declared
            && after.seqNo == own.seqNo + (if Public(m) then 1 else 0)
            && (if Public(m) then Adds(s.shared, after.shared, [SharedCopy(FirstRow(m))], own.seqNo) else after.shared == s.shared)
            && HeardAs(s, item, after)
  {
    var m := item.message;
    var own := U.OwnOne(s, item, rows);
    hide FilterForShared, Says, Named, RouteOf, Stamped, FirstRow, Adds, Untouched, SharedCopy, CaughtUp, Others, Overhears;
    FannedIs(s, item, rows);
    OwnParts(s, item, rows);
    hide U.OwnOne, Fanned;
    AddsLines(s.shared, [SharedCopy(FirstRow(m))], own.seqNo);
    U.LookedFrame(own, own, item);
    OthersSame(s, own, item);
    OthersNamed(s, item);
    FirstSource(m);
    forall a ensures if Public(m) && Signs(m.source) && Overhears(s, item, a) then
        a in Fanned(s, item, rows).inboxes
        && Fanned(s, item, rows).inboxes[a] == ContextOf(s.inboxes, a) + [CopyFor(FirstRow(m), a)]
      else Untouched(s.inboxes, Fanned(s, item, rows).inboxes, a)
    {
      OverhearsIs(s, item, a);
      if Public(m) { CaughtUpIs(s.inboxes, Others(s, item), FirstRow(m), a); } else { Same(s.inboxes, a); }
    }
  }

  lemma Same(inboxes: map<string, seq<Row>>, a: string)
    ensures Untouched(inboxes, inboxes, a)
  {
  }

  // ---- one append ----

  ghost predicate Reached(s: State, item: Item, rows: seq<Row>, after: State) {
    && Transcribed(s, item.message, rows, after) && Contexted(s, item, rows, after)
    && SharedAs(s, item, rows, after) && HeardAs(s, item, after)
    && after.seqNo == s.seqNo + TranscriptLines(item.message, rows) + ContextLines(item, rows)
                      + if Public(item.message) then 1 else 0
  }

  lemma ContextedIs(s: State, logged: State, item: Item, rows: seq<Row>, after: State)
    requires !item.message.displayOnly
    requires logged.contexts == s.contexts && logged.shared == s.shared
    requires logged.seqNo == s.seqNo + TranscriptLines(item.message, rows)
    requires after.contexts == U.OwnOne(logged, item, rows).contexts
    ensures Contexted(s, item, rows, after)
    ensures U.OwnOne(logged, item, rows).seqNo == logged.seqNo + ContextLines(item, rows)
  {
    OwnParts(logged, item, rows);
    NoRoute(item);
    hide U.OwnOne, RouteOf, Adds, Untouched, Reading, MeantFor, MeantForSomebody;
    forall a | a != "" ensures RouteOf(item) == a <==> MeantFor(item, a) { RouteLaw(item, a); }
    assert !MeantFor(item, "") by { Nobody(item); }
  }

  lemma Nobody(item: Item)
    ensures !MeantFor(item, "")
  {
  }

  lemma HeardFrom(s: State, logged: State, item: Item, fanned: State, after: State)
    requires logged.warm == s.warm && logged.agents == s.agents && logged.declared == s.declared
    requires logged.inboxes == s.inboxes && after.inboxes == fanned.inboxes
    requires HeardAs(logged, item, fanned)
    ensures HeardAs(s, item, after)
  {
    hide Untouched, MeantFor, MeantForSomebody, CopyFor, Public;
    forall a ensures Overhears(s, item, a) <==> Overhears(logged, item, a) {
    }
    hide Overhears;
  }

  lemma NotedParts(s: State, touched: set<string>)
    ensures var after := Noted(s, touched); after == s.(warm := after.warm, agents := after.agents)
  {
  }

  lemma Displayed(s: State, item: Item)
    requires Proper(item.message) && item.message.displayOnly
    ensures Reached(s, item, Expanded(s, item.message).rows, AppendOne(s, item))
  {
    ProperIs(item.message);
    LoggedParts(s, item.message);
    var rows := Expanded(s, item.message).rows;
    hide Expanded, LoggedOne, ValidMessage, Proper, Transcribed, MeantFor, MeantForSomebody, Overhears, Says, Named;
  }

  lemma Ordinary(s: State, item: Item)
    requires Proper(item.message) && !item.message.displayOnly && item.message.source.kind != FromDelegate
    ensures Reached(s, item, Expanded(s, item.message).rows, AppendOne(s, item))
  {
    var m := item.message;
    hide Canonical, LoggedOne, Fanned, Noted, FanAccepted, Touched, ValidMessage, Proper, Says, Named, FirstRow, FilterForShared;
    hide Transcribed, Contexted, HeardAs, Adds, ContextLines, TranscriptLines;
    ProperIs(m);
    var rows, logged := Expanded(s, m).rows, LoggedOne(s, m);
    CandidatesLaw(m, map[], s.parents, s.transcript, s.next);
    LoggedParts(s, m);
    FannedParts(logged, item, rows);
    var fanned := Fanned(logged, item, rows);
    NotedParts(fanned, Touched(logged, item, rows));
    var after := AppendOne(s, item);
    ContextedIs(s, logged, item, rows, after);
    HeardFrom(s, logged, item, fanned, after);
    SameTranscript(s, m, rows, logged, after);
  }

  lemma SameTranscript(s: State, m: Message, rows: seq<Row>, one: State, other: State)
    requires Transcribed(s, m, rows, one) && other.transcript == one.transcript
    ensures Transcribed(s, m, rows, other)
  {
  }

  /** An append of anything but delegate traffic: a private message leaves the shared context, the inboxes and every
      context but one alone; any other adds its copy for each reader, and its rows to the one context. */
  lemma ReachLaw(s: State, item: Item)
    requires item.message.source.kind != FromDelegate
    ensures var rows, after := Expanded(s, item.message).rows, AppendOne(s, item);
            if !Proper(item.message) then after == s
            else RowsAre(s, item.message, rows) && Reached(s, item, rows, after)
  {
    RowsLaw(s, item.message);
    hide RowsAre, Reached, Expanded, LoggedOne, Proper, ValidMessage;
    ProperIs(item.message);
    if Proper(item.message) {
      if item.message.displayOnly { Displayed(s, item); } else { Ordinary(s, item); }
    }
  }

  // ---- failures and the roster ----

  /** An append raises nothing: there is nothing to share, or its author has a name and somebody can sign for whoever
      overhears it. */
  ghost predicate Passes(s: State, item: Item) {
    var m := item.message;
    || Private(m) || !Says(m)
    || (Named(m.source) && (Signs(m.source) || forall a :: !Overhears(s, item, a)))
  }

  lemma FanPasses(s: State, logged: State, item: Item, rows: seq<Row>)
    requires logged.warm == s.warm && logged.agents == s.agents && logged.declared == s.declared
    requires var m := item.message;
             !m.displayOnly && FilterForShared(rows) == if Says(m) && m.source.kind != FromContext then [FirstRow(m)] else []
    ensures FanAccepted(logged, item, rows) <==> Passes(s, item)
  {
    var m := item.message;
    OthersSame(s, logged, item);
    SharedView(FirstRow(m), "");
    FirstSource(m);
    forall a ensures a in Others(s, item) <==> Overhears(s, item, a) { OverhearsIs(s, item, a); }
    assert Others(s, item) == {} <==> forall a :: !Overhears(s, item, a);
    hide Others, Overhears, FilterForShared, ShareAll, Says, Named, FirstRow, SharedCopy;
  }

  /** Exactly these appends raise nothing. */
  lemma AcceptedLaw(s: State, item: Item)
    requires item.message.source.kind != FromDelegate
    ensures Accepted(s, item) <==> Proper(item.message) && Passes(s, item)
  {
    var m := item.message;
    hide Canonical, LoggedOne, FanAccepted, ValidMessage, Proper, Says, Named, FirstRow, FilterForShared, Overhears;
    hide Transcribed, Signs;
    ProperIs(m);
    CandidatesLaw(m, map[], s.parents, s.transcript, s.next);
    LoggedParts(s, m);
    if !m.displayOnly { FanPasses(s, LoggedOne(s, m), item, Expanded(s, m).rows); }
  }

  /** The roster is warm once it was looked up or somebody was reached; then it holds what was known and those. */
  ghost predicate RosterAs(s: State, looks: bool, reached: set<string>, after: State) {
    var known := if s.warm then s.agents else if looks then s.declared else {};
    if reached != {} then after.warm && after.agents == known + reached
    else if s.warm || looks then after.warm && after.agents == known
    else !after.warm && after.agents == s.agents
  }

  /** The agents a message reaches: the one it is meant for, and whoever overhears it. */
  ghost predicate ReachedBy(s: State, item: Item, a: string) {
    MeantFor(item, a) || (Public(item.message) && Overhears(s, item, a))
  }

  ghost predicate RosterAfter(s: State, item: Item, reached: set<string>, after: State) {
    var m := item.message;
    if m.displayOnly then after.warm == s.warm && after.agents == s.agents
    else
      RosterAs(s, Public(m) && !(m.role == UserRole && MeantForSomebody(item)),
               if m.source.kind != FromContext && Passes(s, item) then reached else {}, after)
  }

  lemma TouchedIs(s: State, logged: State, item: Item, rows: seq<Row>)
    requires logged.warm == s.warm && logged.agents == s.agents && logged.declared == s.declared
    requires var m := item.message;
             !m.displayOnly && FilterForShared(rows) == if Says(m) && m.source.kind != FromContext then [FirstRow(m)] else []
    requires Passes(s, item)
    ensures forall a :: a in Touched(logged, item, rows) <==> ReachedBy(s, item, a)
  {
    OthersSame(s, logged, item);
    forall a ensures a in Touched(logged, item, rows) <==> ReachedBy(s, item, a) {
      OverhearsIs(s, item, a);
      if a != "" { RouteLaw(item, a); } else { Nobody(item); NoSilence(s, item); }
      hide Others, Overhears, FilterForShared, Says, Named, FirstRow, RouteOf, MeantFor, MeantForSomebody;
    }
  }

  lemma NoSilence(s: State, item: Item)
    ensures !Overhears(s, item, "")
  {
  }

  lemma LookedIs(s: State, item: Item)
    ensures var looked := Looked(s, item); var looks := !(item.message.role == UserRole && MeantForSomebody(item));
            looked.warm == (s.warm || looks)
            && looked.agents == if s.warm then s.agents else if looks then s.declared else s.agents
  {
    NoRoute(item);
    hide RouteOf, MeantForSomebody;
  }

  lemma FannedRoster(s: State, item: Item, rows: seq<Row>)
    requires var m := item.message;
             !m.displayOnly && FilterForShared(rows) == if Says(m) && m.source.kind != FromContext then [FirstRow(m)] else []
    ensures var m := item.message; var fanned := Fanned(s, item, rows);
            var looks := Public(m) && !(m.role == UserRole && MeantForSomebody(item));
            fanned.warm == (s.warm || looks)
            && fanned.agents == if s.warm then s.agents else if looks then s.declared else s.agents
  {
    var own := U.OwnOne(s, item, rows);
    hide FilterForShared, Says, Named, RouteOf, Stamped, FirstRow, Adds, Untouched, SharedCopy, CaughtUp, Others, MeantForSomebody;
    FannedIs(s, item, rows);
    OwnParts(s, item, rows);
    LookedIs(own, item);
    hide U.OwnOne, Fanned, Looked;
  }

  lemma NotedRoster(s: State, fanned: State, looks: bool, touched: set<string>)
    requires fanned.warm == (s.warm || looks)
    requires fanned.agents == if s.warm then s.agents else if looks then s.declared else s.agents
    ensures RosterAs(s, looks, touched, Noted(fanned, touched)) && RosterAs(s, looks, {}, fanned)
  {
  }

  /** Exactly the agents a message reaches are added to the roster, unless its append fails on the way. */
  lemma RosterLaw(s: State, item: Item, reached: set<string>)
    requires item.message.source.kind != FromDelegate && Proper(item.message)
    requires forall a :: a in reached <==> ReachedBy(s, item, a)
    ensures RosterAfter(s, item, reached, AppendOne(s, item))
  {
    var m := item.message;
    hide Canonical, LoggedOne, FanAccepted, ValidMessage, Proper, Says, Named, FirstRow, FilterForShared, Overhears, ReachedBy;
    hide Transcribed, Signs, Fanned, Noted, Touched, RosterAs, MeantForSomebody, Passes;
    ProperIs(m);
    CandidatesLaw(m, map[], s.parents, s.transcript, s.next);
    LoggedParts(s, m);
    var rows, logged := Expanded(s, m).rows, LoggedOne(s, m);
    if !m.displayOnly {
      var looks := Public(m) && !(m.role == UserRole && MeantForSomebody(item));
      FanPasses(s, logged, item, rows);
      FannedRoster(logged, item, rows);
      if Passes(s, item) {
        TouchedIs(s, logged, item, rows);
        assert Touched(logged, item, rows) == reached;
      }
      NotedRoster(s, Fanned(logged, item, rows), looks, Touched(logged, item, rows));
    }
  }

  // ---- known parents ----

  /** After an append a call is known by the newest line just written for it, by the line it had to be searched for, or as
      it was before. */
  ghost predicate Knows(s: State, m: Message, lines: seq<Row>, after: map<Id, Id>, call: Id) {
    && (forall i :: Names(lines, call, i) ==> 0 <= i < |lines| && call in after && after[call] == lines[i].id)
    && ((forall i :: !Names(lines, call, i)) ==>
          && (forall i :: Found(s, m, call, i) ==>
                0 <= i < |s.transcript| && call in after && after[call] == s.transcript[i].id)
          && ((forall i :: !Found(s, m, call, i)) ==> SameParent(s.parents, after, call)))
  }

  lemma FanKeepsParents(s: State, item: Item, rows: seq<Row>)
    ensures Fanned(s, item, rows).parents == s.parents
  {
    hide Stamped, SharedOr, ShareAll, CaughtUp, Others, FilterForShared, Adds, Untouched, RouteOf, Looked, ReachesShared;
    var own := U.OwnOne(s, item, rows);
    OwnParts(s, item, rows);
    U.LookedFrame(own, own, item);
    FanIsOwn(s, item, rows);
    hide U.OwnOne;
  }

  lemma FanIsOwn(s: State, item: Item, rows: seq<Row>)
    ensures var own := U.OwnOne(s, item, rows);
            Fanned(s, item, rows).parents == own.parents || Fanned(s, item, rows).parents == Looked(own, item).parents
  {
    hide Stamped, SharedOr, ShareAll, CaughtUp, Others, FilterForShared, RouteOf, Looked, ReachesShared, AppendContext, Seeded;
  }

  lemma DelegateKeepsParents(s: State, item: Item, rows: seq<Row>)
    requires rows != []
    ensures Delegated(s, item, rows).parents == s.parents
  {
    hide Stamped, CaughtUp, Bystanders, Attributed, SenderCopy, RequestCopy, Projects, SenderKeeps;
  }

  lemma AppendKeepsLogged(s: State, item: Item)
    requires Proper(item.message)
    ensures var logged, after := LoggedOne(s, item.message), AppendOne(s, item);
            after.parents == logged.parents && after.transcript == logged.transcript
  {
    hide Canonical, LoggedOne, Fanned, Delegated, Noted, FanAccepted, DelegateAccepted, Touched, ValidMessage, Proper;
    hide DelegateReach;
    ProperIs(item.message);
    var rows, logged := Expanded(s, item.message).rows, LoggedOne(s, item.message);
    FanKeepsTranscript(logged, item, rows);
    DelegateKeepsTranscript(logged, item, rows);
    FanKeepsParents(logged, item, rows);
    DelegateKeepsParents(logged, item, rows);
    NotedParts(Fanned(logged, item, rows), Touched(logged, item, rows));
    NotedParts(Delegated(logged, item, rows), DelegateReach(logged, Attributed(rows[0], item.agent).source));
  }

  lemma LoggedLines(s: State, m: Message)
    ensures var canon, logged := Expanded(s, m), LoggedOne(s, m);
            |s.transcript| <= |logged.transcript|
            && logged.parents == Remember(canon.parents, logged.transcript[|s.transcript|..])
  {
    var lines := if m.source.kind == FromContext then [] else Stamped(Expanded(s, m).rows, s.seqNo);
    hide Canonical, Stamped;
    assert (s.transcript + lines)[|s.transcript|..] == lines && s.transcript + [] == s.transcript;
  }

  /** What every append leaves known of a tool call's row. */
  lemma ParentsLaw(s: State, item: Item, call: Id)
    requires Proper(item.message)
    ensures var after := AppendOne(s, item);
            |s.transcript| <= |after.transcript|
            && Knows(s, item.message, after.transcript[|s.transcript|..], after.parents, call)
  {
    hide AppendOne, Expanded, LoggedOne, Remember, Names, Found, Proper;
    var m := item.message;
    AppendKeepsLogged(s, item);
    LoggedLines(s, m);
    CachedLaw(s, m, call);
    RememberIs(Expanded(s, m).parents, AppendOne(s, item).transcript[|s.transcript|..], call);
    NamesIn(AppendOne(s, item).transcript[|s.transcript|..], call);
  }

  lemma NamesIn(lines: seq<Row>, call: Id)
    ensures forall i :: Names(lines, call, i) ==> 0 <= i < |lines|
  {
  }
}

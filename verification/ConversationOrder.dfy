/** The numbers of a conversation's lines: how they run along each file, and what a restart does to them. */
module ConversationOrder {
  import opened Basics
  import opened ConversationViews
  import opened ConversationRows

  // ---- along a file ----

  predicate Rising(rows: seq<Row>) { forall i, j :: 0 <= i < j < |rows| ==> rows[i].seqNo < rows[j].seqNo }

  predicate Bound(rows: seq<Row>, seqNo: nat) { forall i :: 0 <= i < |rows| ==> rows[i].seqNo <= seqNo }

  /** No row was made before one that stands in front of it. */
  predicate TimesRise(rows: seq<Row>) { forall i, j :: 0 <= i < j < |rows| ==> rows[i].time <= rows[j].time }

  /** Transcript and shared context rise, and the counter is past every line of every file. */
  ghost predicate Filed(s: State) {
    && Rising(s.transcript) && Bound(s.transcript, s.seqNo) && Rising(s.shared) && Bound(s.shared, s.seqNo)
    && forall a :: a in s.contexts ==> Bound(s.contexts[a], s.seqNo)
  }

  lemma StampedRises(rows: seq<Row>, more: seq<Row>, seqNo: nat)
    requires Bound(rows, seqNo)
    ensures Rising(rows + Stamped(more, seqNo)) <==> Rising(rows)
    ensures Bound(rows + Stamped(more, seqNo), seqNo + |more|)
  {
    var all := rows + Stamped(more, seqNo);
    if Rising(all) {
      forall i, j | 0 <= i < j < |rows| ensures rows[i].seqNo < rows[j].seqNo {
        assert all[i] == rows[i] && all[j] == rows[j];
      }
    }
  }

  // ---- seeds ----

  lemma InsertedLast(rows: seq<Row>, row: Row)
    requires rows != [] ==> AtMost(rows[|rows| - 1], row)
    ensures Inserted(rows, row) == rows + [row]
  {
  }

  lemma {:induction false} InPlace(rows: seq<Row>)
    requires Rising(rows) && TimesRise(rows)
    ensures InOrder(rows) == rows
    decreases |rows|
  {
    hide Inserted;
    if rows != [] {
      var n := |rows| - 1;
      InPlace(rows[..n]);
      InsertedLast(rows[..n], rows[n]);
      assert rows == rows[..n] + [rows[n]];
    }
  }

  lemma FoundAt(rows: seq<Row>, out: seq<Row>, i: nat) returns (p: nat)
    requires i < |rows| && multiset(out) == multiset(rows)
    ensures p < |out| && out[p] == rows[i]
  {
    assert rows[i] in multiset(rows);
    assert rows[i] in out;
    p :| 0 <= p < |out| && out[p] == rows[i];
  }

  lemma SortedFalls(rows: seq<Row>, out: seq<Row>)
    requires Rising(rows) && !TimesRise(rows) && Sorted(out) && multiset(out) == multiset(rows)
    ensures !Rising(out)
  {
    var i, j :| 0 <= i < j < |rows| && rows[i].time > rows[j].time;
    var p := FoundAt(rows, out, i);
    var q := FoundAt(rows, out, j);
    assert q < p;
  }

  lemma ViewedRises(rows: seq<Row>, agent: string)
    ensures Rising(Personalized(rows, agent)) <==> Rising(rows)
  {
    var seed := Personalized(rows, agent);
    assert forall i :: 0 <= i < |rows| ==> seed[i].seqNo == rows[i].seqNo;
  }

  /** The seed of a new context rises exactly if the times along the shared context do. */
  lemma SeedRises(shared: seq<Row>, agent: string)
    requires Rising(shared)
    ensures Rising(SeedOf(shared, agent)) <==> TimesRise(shared)
  {
    hide Rising, TimesRise, InOrder, Personalized, Sorted;
    InOrderIs(shared);
    ViewedRises(InOrder(shared), agent);
    if TimesRise(shared) {
      InPlace(shared);
    } else {
      SortedFalls(shared, InOrder(shared));
    }
  }

  lemma SeedBound(shared: seq<Row>, agent: string, seqNo: nat)
    requires Bound(shared, seqNo)
    ensures Bound(SeedOf(shared, agent), seqNo)
  {
    InOrderIs(shared);
    var out := InOrder(shared);
    forall i | 0 <= i < |out| ensures out[i].seqNo <= seqNo {
      assert out[i] in multiset(out);
      assert out[i] in shared;
    }
  }

  // ---- one append ----

  /** Every context rises exactly if it did. */
  ghost predicate SameRise(before: map<string, seq<Row>>, after: map<string, seq<Row>>) {
    && before.Keys <= after.Keys
    && forall a :: a in after ==> (Rising(after[a]) <==> Rising(ContextOf(before, a)))
  }

  lemma AppendContextFiled(s: State, agent: string, rows: seq<Row>)
    requires Filed(s)
    ensures var after := AppendContext(s, agent, rows);
            && Filed(after) && SameRise(s.contexts, after.contexts) && agent in after.contexts
            && after == s.(contexts := after.contexts, seqNo := s.seqNo + |rows|)
  {
    hide Rising, Stamped;
    StampedRises(ContextOf(s.contexts, agent), rows, s.seqNo);
  }

  lemma SharedFiled(s: State, rows: seq<Row>, after: State)
    requires Filed(s) && after.transcript == s.transcript && after.contexts == s.contexts
    requires after.shared == s.shared + Stamped(rows, s.seqNo) && after.seqNo == s.seqNo + |rows|
    ensures Filed(after)
  {
    hide Rising, Stamped;
    StampedRises(s.shared, rows, s.seqNo);
  }

  lemma TranscriptFiled(s: State, rows: seq<Row>)
    requires Filed(s)
    ensures var after := AppendTranscript(s, rows);
            && Filed(after) && after.contexts == s.contexts && after.shared == s.shared && after.seqNo == s.seqNo + |rows|
  {
    hide Rising, Stamped;
    StampedRises(s.transcript, rows, s.seqNo);
  }

  lemma SameFiles(s: State, after: State)
    requires Filed(s) && after.transcript == s.transcript && after.shared == s.shared && after.contexts == s.contexts
    requires after.seqNo == s.seqNo
    ensures Filed(after)
  {
  }

  lemma LoggedFiled(s: State, m: Message)
    requires Filed(s)
    ensures var after := LoggedOne(s, m);
            Filed(after) && after.contexts == s.contexts && after.shared == s.shared && s.seqNo <= after.seqNo
  {
    hide Filed, Canonical, AppendTranscript;
    var canon := Expanded(s, m);
    var numbered := s.(parents := canon.parents, next := canon.next);
    SameFiles(s, numbered);
    TranscriptFiled(numbered, canon.rows);
  }

  /** The append creates the agent's context from the shared one. */
  predicate Seeds(s: State, item: Item, a: string) {
    var m := item.message;
    && a != "" && a !in s.contexts && s.shared != [] && RouteOf(item) == a
    && ValidMessage(m) && !m.displayOnly && !m.source.kind.FromDelegate? && !m.source.kind.FromContext?
  }

  /** When a context rises after an append. */
  predicate Rises(s: State, item: Item, a: string) {
    if Seeds(s, item, a) then TimesRise(s.shared) else Rising(ContextOf(s.contexts, a))
  }

  lemma SeededFiled(s: State, agent: string)
    requires Filed(s)
    ensures var after := Seeded(s, agent);
            && Filed(after) && after == s.(contexts := after.contexts)
            && (forall a :: a in after.contexts ==>
                  (Rising(after.contexts[a]) <==> if a in s.contexts then Rising(s.contexts[a]) else TimesRise(s.shared)))
            && after.contexts.Keys == s.contexts.Keys + (if s.shared == [] then {} else {agent})
  {
    hide Rising, TimesRise, SeedOf;
    SeedRises(s.shared, agent);
    SeedBound(s.shared, agent, s.seqNo);
  }

  lemma OwnFiled(s: State, item: Item, rows: seq<Row>)
    requires Filed(s) && !item.message.source.kind.FromDelegate? && ValidMessage(item.message)
    requires RouteOf(item) != "" && !item.message.displayOnly
    ensures var route := RouteOf(item);
            var own := AppendContext(if item.message.source.kind.FromContext? then s else Seeded(s, route), route, rows);
            && Filed(own) && own == s.(contexts := own.contexts, seqNo := s.seqNo + |rows|)
            && (forall a :: a in own.contexts ==> (Rising(own.contexts[a]) <==> Rises(s, item, a)))
            && s.contexts.Keys + {route} <= own.contexts.Keys
  {
    hide Filed, TimesRise, AppendContext, Seeded, ValidMessage, RouteOf;
    var route := RouteOf(item);
    if item.message.source.kind.FromContext? {
      AppendContextFiled(s, route, rows);
    } else {
      SeededFiled(s, route);
      AppendContextFiled(Seeded(s, route), route, rows);
    }
  }

  lemma FannedFiled(s: State, item: Item, rows: seq<Row>)
    requires Filed(s) && !item.message.source.kind.FromDelegate? && ValidMessage(item.message) && !item.message.displayOnly
    ensures var after := Fanned(s, item, rows);
            && Filed(after) && s.seqNo <= after.seqNo && s.contexts.Keys <= after.contexts.Keys
            && (forall a :: a in after.contexts ==> (Rising(after.contexts[a]) <==> Rises(s, item, a)))
            && (forall a :: Seeds(s, item, a) ==> a in after.contexts)
  {
    hide Filed, FilterForShared, CaughtUp, Stamped, SharedOr, ShareAll, AppendContext, Seeded, ValidMessage, TimesRise, Rising;
    var route := RouteOf(item);
    if route != "" { OwnFiled(s, item, rows); }
    var own := if route == "" then s
               else AppendContext(if item.message.source.kind.FromContext? then s else Seeded(s, route), route, rows);
    var candidates := FilterForShared(rows);
    if ReachesShared(item) && candidates != [] && ShareAll(candidates).Some? {
      SharedFiled(own, SharedOr(candidates), Fanned(s, item, rows));
    }
  }

  lemma DelegatedFiled(s: State, item: Item, rows: seq<Row>)
    requires Filed(s) && rows != []
    ensures var after := Delegated(s, item, rows);
            Filed(after) && s.seqNo <= after.seqNo && SameRise(s.contexts, after.contexts)
  {
    hide Filed, CaughtUp, SenderCopy, RequestCopy, Attributed, Bystanders, AppendContext, SenderKeeps, Projects, Rising;
    var source := Attributed(rows[0], item.agent).source;
    var anchor := rows[0].(source := source);
    var mine := [SenderCopy(anchor).(source := rows[0].source)] + rows[1..];
    AppendContextFiled(s, source.sender, mine);
    var own := if SenderKeeps(source) then AppendContext(s, source.sender, mine) else s;
    if source.recipient != "" && Projects(source) {
      var copy := RequestCopy(anchor).(source := rows[0].source);
      assert Stamped([copy], own.seqNo) == [copy.(seqNo := own.seqNo + 1)];
      SharedFiled(own, [copy], Delegated(s, item, rows));
    }
  }

  lemma NotedFiled(s: State, touched: set<string>)
    requires Filed(s)
    ensures var after := Noted(s, touched); Filed(after) && after.contexts == s.contexts && after.seqNo == s.seqNo
  {
  }

  /** Every append numbers its lines above all earlier ones, so transcript and shared context keep rising. A context
      keeps rising, too, unless the append seeds it from shared rows whose times fall. */
  lemma AppendOneOrdered(s: State, item: Item)
    requires Filed(s)
    ensures var after := AppendOne(s, item);
            && Filed(after) && s.seqNo <= after.seqNo && s.contexts.Keys <= after.contexts.Keys
            && (forall a :: a in after.contexts ==> (Rising(after.contexts[a]) <==> Rises(s, item, a)))
            && (forall a :: Seeds(s, item, a) ==> a in after.contexts)
  {
    hide Filed, Delegated, Fanned, LoggedOne, DelegateReach, Touched, FanAccepted, DelegateAccepted, ValidMessage, Noted,
      Rising, TimesRise, RouteOf;
    var m := item.message;
    if ValidMessage(m) {
      var rows := Expanded(s, m).rows;
      var logged := LoggedOne(s, m);
      LoggedFiled(s, m);
      if m.displayOnly {
      } else if m.source.kind.FromDelegate? {
        DelegatedFiled(logged, item, rows);
        NotedFiled(Delegated(logged, item, rows), DelegateReach(logged, Attributed(rows[0], item.agent).source));
      } else {
        FannedFiled(logged, item, rows);
        NotedFiled(Fanned(logged, item, rows), Touched(logged, item, rows));
      }
    }
  }

  // ---- any number of appends ----

  lemma {:induction false} NeverSeeded(s: State, items: seq<Item>, a: string)
    requires Filed(s) && a !in AppendAll(s, items).contexts
    ensures Filed(AppendAll(s, items)) && s.contexts.Keys <= AppendAll(s, items).contexts.Keys
    ensures forall i :: 0 <= i < |items| ==> !Seeds(AppendAll(s, items[..i]), items[i], a)
    decreases |items|
  {
    hide Filed, AppendOne, Seeds, Rising, TimesRise;
    if items != [] {
      var n := |items| - 1;
      StaysFiled(s, items[..n]);
      AppendOneOrdered(AppendAll(s, items[..n]), items[n]);
      NeverSeeded(s, items[..n], a);
      forall i | 0 <= i < n ensures items[..n][..i] == items[..i] { }
    }
  }

  lemma {:induction false} StaysFiled(s: State, items: seq<Item>)
    requires Filed(s)
    ensures Filed(AppendAll(s, items)) && s.contexts.Keys <= AppendAll(s, items).contexts.Keys
    decreases |items|
  {
    hide Filed, AppendOne, Rises, Seeds, Rising;
    if items != [] {
      var n := |items| - 1;
      StaysFiled(s, items[..n]);
      AppendOneOrdered(AppendAll(s, items[..n]), items[n]);
    }
  }

  /** Whatever is appended, an agent's context rises exactly if it did at the start and every seed of it was taken
      while the times along the shared context rose. */
  lemma {:induction false} ContextRisesIff(s: State, items: seq<Item>, a: string)
    requires Filed(s)
    ensures var after := AppendAll(s, items);
            && Filed(after) && s.seqNo <= after.seqNo && s.contexts.Keys <= after.contexts.Keys
            && (a in after.contexts ==>
                  (Rising(after.contexts[a])
                   <==> Rising(ContextOf(s.contexts, a))
                        && forall i :: 0 <= i < |items| && Seeds(AppendAll(s, items[..i]), items[i], a) ==>
                             TimesRise(AppendAll(s, items[..i]).shared)))
    decreases |items|
  {
    hide Filed, AppendOne, Rising, TimesRise, Seeds;
    if items != [] {
      var n := |items| - 1;
      var before := AppendAll(s, items[..n]);
      ContextRisesIff(s, items[..n], a);
      AppendOneOrdered(before, items[n]);
      forall i | 0 <= i < n ensures items[..n][..i] == items[..i] { }
      SeedsMissing(before, items[n], a);
      if a !in before.contexts { NeverSeeded(s, items[..n], a); }
    }
  }

  lemma SeedsMissing(s: State, item: Item, a: string)
    ensures Seeds(s, item, a) ==> a !in s.contexts
    ensures a !in s.contexts ==> Rising(ContextOf(s.contexts, a))
  {
  }

  // ---- a seed that falls ----

  /** A plain user message. */
  predicate Plain(m: Message) {
    && m.role.UserRole? && m.source.kind.FromUser? && m.source.target != "" && m.source.name != "" && ValidMessage(m)
    && !m.source.targetOnly && !m.displayOnly
  }

  lemma PlainFan(s: State, m: Message)
    requires Plain(m)
    ensures var item := Item(m, ""); var after := Fanned(s, item, [BaseRow(m)]); var route := RouteOf(item);
            var n := s.seqNo + if route == "" then 0 else 1;
            && after.transcript == s.transcript
            && after.seqNo == n + 1 && |after.shared| == |s.shared| + 1 && after.shared[..|s.shared|] == s.shared
            && after.shared[|s.shared|].seqNo == n + 1 && after.shared[|s.shared|].time == m.time
            && after.contexts
               == if route == "" then s.contexts
                  else Seeded(s, route).contexts[route := ContextOf(Seeded(s, route).contexts, route)
                                                          + [BaseRow(m).(seqNo := s.seqNo + 1)]]
  {
    var row := BaseRow(m);
    assert Stamped([row], s.seqNo) == [row.(seqNo := s.seqNo + 1)];
    PlainShared(m);
    hide Seeded, CaughtUp, Others, FilterForShared, ShareAll, RouteOf, Minted;
  }

  /** Where a plain user message is written: transcript, context of the agent it names, shared context. */
  lemma PlainLines(s: State, m: Message)
    requires Plain(m)
    ensures var after := AppendOne(s, Item(m, "")); var route := RouteOf(Item(m, ""));
            var n := s.seqNo + if route == "" then 1 else 2;
            && after.transcript == s.transcript + [BaseRow(m).(seqNo := s.seqNo + 1)]
            && after.seqNo == n + 1 && |after.shared| == |s.shared| + 1 && after.shared[..|s.shared|] == s.shared
            && after.shared[|s.shared|].seqNo == n + 1 && after.shared[|s.shared|].time == m.time
            && after.contexts
               == if route == "" then s.contexts
                  else Seeded(s, route).contexts[route := ContextOf(Seeded(s, route).contexts, route)
                                                          + [BaseRow(m).(seqNo := s.seqNo + 2)]]
  {
    hide Seeded, Fanned, LoggedOne, AppendOne, RouteOf;
    PlainLogged(s, m);
    PlainOne(s, m);
    PlainFan(LoggedOne(s, m), m);
    SeededAlike(s, LoggedOne(s, m), RouteOf(Item(m, "")));
  }

  lemma PlainLogged(s: State, m: Message)
    requires Plain(m)
    ensures var logged := LoggedOne(s, m);
            && Expanded(s, m).rows == [BaseRow(m)] && logged.transcript == s.transcript + [BaseRow(m).(seqNo := s.seqNo + 1)]
            && logged.seqNo == s.seqNo + 1 && logged.shared == s.shared && logged.contexts == s.contexts
  {
    hide Remember;
    assert Stamped([BaseRow(m)], s.seqNo) == [BaseRow(m).(seqNo := s.seqNo + 1)];
  }

  lemma PlainOne(s: State, m: Message)
    requires Plain(m) && Expanded(s, m).rows == [BaseRow(m)]
    ensures var one := AppendOne(s, Item(m, "")); var fanned := Fanned(LoggedOne(s, m), Item(m, ""), [BaseRow(m)]);
            && one.transcript == fanned.transcript && one.shared == fanned.shared && one.contexts == fanned.contexts
            && one.seqNo == fanned.seqNo
  {
    hide Fanned, LoggedOne, Expanded, FanAccepted, Touched, Minted, RouteOf, Delegated, DelegateAccepted;
  }

  lemma SeededAlike(s: State, t: State, agent: string)
    requires t.contexts == s.contexts && t.shared == s.shared
    ensures Seeded(s, agent).contexts == Seeded(t, agent).contexts
  {
  }

  lemma PlainShared(m: Message)
    requires Plain(m)
    ensures FilterForShared([BaseRow(m)]) == [BaseRow(m)] && ShareAll([BaseRow(m)]).Some?
    ensures |ShareAll([BaseRow(m)]).value| == 1 && ShareAll([BaseRow(m)]).value[0].time == m.time
  {
    var rows := [BaseRow(m)];
    assert rows[1..] == [];
    assert FilterForShared(rows[1..]) == [] && ShareAll(rows[1..]) == Some([]);
  }

  const TO_ALL := Source(FromUser, "user", "ALL", "", false, "", "", false, false, "", "", false, false)
  const EARLIER := Message(UserRole, 1, true, 5.0, Text("hello"), TO_ALL, NONE, NONE, NONE, NONE, [], "", NONE, [], false)
  const LATER := EARLIER.(id := 2, time := 10.0)
  const TO_BOT := EARLIER.(id := 3, time := 20.0, source := TO_ALL.(target := "bot"))
  const ROOM := State([], [], map[], map[], map[], false, {}, {}, 0, 0)

  /** The message made later is written first, then a new agent is addressed: its context begins 4, 2. */
  lemma SeedFalls()
    ensures var after := AppendAll(ROOM, [Item(LATER, ""), Item(EARLIER, ""), Item(TO_BOT, "")]);
            && Rising(after.transcript) && Rising(after.shared)
            && "bot" in after.contexts && |after.contexts["bot"]| == 3 && !Rising(after.contexts["bot"])
            && after.contexts["bot"][0].seqNo == 4 && after.contexts["bot"][1].seqNo == 2
  {
    hide AppendOne, InOrder;
    Routes();
    var items := [Item(LATER, ""), Item(EARLIER, ""), Item(TO_BOT, "")];
    assert items[..2] == [Item(LATER, ""), Item(EARLIER, "")] && items[..2][..1] == [Item(LATER, "")] && items[..1][..0] == [];
    PlainLines(ROOM, LATER);
    var one := AppendOne(ROOM, Item(LATER, ""));
    PlainLines(one, EARLIER);
    var two := AppendOne(one, Item(EARLIER, ""));
    assert AppendAll(ROOM, []) == ROOM && AppendAll(ROOM, items[..1]) == one;
    assert AppendAll(ROOM, items[..2]) == two;
    StaysFiled(ROOM, items[..2]);
    assert two.shared[0].time == 10.0 && two.shared[1].time == 5.0;
    assert Seeds(two, Item(TO_BOT, ""), "bot");
    PlainLines(two, TO_BOT);
    Swapped(two.shared);
    StaysFiled(ROOM, items);
    AppendOneOrdered(two, Item(TO_BOT, ""));
    assert AppendAll(ROOM, items) == AppendOne(two, Item(TO_BOT, ""));
  }

  lemma Swapped(rows: seq<Row>)
    requires |rows| == 2 && rows[0].time > rows[1].time
    ensures InOrder(rows) == [rows[1], rows[0]]
  {
    assert rows[..1][..0] == [] && InOrder(rows[..1]) == [rows[0]];
    assert !AtMost(rows[0], rows[1]) && [rows[0]][..0] == [];
    assert Inserted([rows[0]], rows[1]) == Inserted([], rows[1]) + [rows[0]];
  }

  lemma Routes()
    ensures RouteOf(Item(LATER, "")) == "" == RouteOf(Item(EARLIER, "")) && RouteOf(Item(TO_BOT, "")) == "bot"
  {
    assert "bot"[0] == 'b';
  }

  // ---- a restart ----

  /** The number of the transcript's last line. */
  function TailOf(transcript: seq<Row>): nat { if transcript == [] then 0 else transcript[|transcript| - 1].seqNo }

  /** A new process has no caches, and takes the counter from the transcript's last line and the saved metadata. */
  function Restarted(s: State, saved: nat): State {
    s.(parents := map[], warm := false, agents := {},
       seqNo := if saved > TailOf(s.transcript) then saved else TailOf(s.transcript))
  }

  /** The counter is past every line again exactly if no shared or context line is above the transcript's last one
      and the saved number. */
  lemma RestartFilesIff(s: State, saved: nat)
    requires Filed(s)
    ensures Filed(Restarted(s, saved))
            <==> var n := Restarted(s, saved).seqNo;
                 Bound(s.shared, n) && forall a :: a in s.contexts ==> Bound(s.contexts[a], n)
  {
    var n := Restarted(s, saved).seqNo;
    forall i | 0 <= i < |s.transcript| ensures s.transcript[i].seqNo <= n {
      assert s.transcript[i].seqNo <= TailOf(s.transcript);
    }
  }

  /** A message to an agent, a restart, a message to everybody: two shared lines carry number 3. */
  lemma RestartRepeats(before: State, after: State)
    requires before == AppendOne(ROOM, Item(TO_BOT, ""))
    requires after == AppendOne(Restarted(before, TailOf(before.transcript)), Item(EARLIER, ""))
    ensures Filed(before) && |after.shared| == 2 && after.shared[0].seqNo == 3 == after.shared[1].seqNo
    ensures |after.transcript| == 2 && after.transcript[1].seqNo == 2
    ensures "bot" in after.contexts && |after.contexts["bot"]| == 1 && after.contexts["bot"][0].seqNo == 2
  {
    hide AppendOne;
    Routes();
    AppendOneOrdered(ROOM, Item(TO_BOT, ""));
    PlainLines(ROOM, TO_BOT);
    assert TailOf(before.transcript) == 1;
    PlainLines(Restarted(before, 1), EARLIER);
  }
}

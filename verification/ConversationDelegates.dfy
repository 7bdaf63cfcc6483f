/** Delegate traffic between two agents: who keeps which copy, told from the message's own fields. */
module ConversationDelegates {
  import opened Basics
  import opened ConversationViews
  import opened ConversationRows
  import opened ConversationRowLaws
  import opened ConversationReach

  /** The agent a message is from: the one it records, or its writer. */
  function From(item: Item): string {
    if item.message.source.sender == "" then item.agent else item.message.source.sender
  }

  /** The sender keeps all but what an outsider asks of somebody. */
  predicate Keeps(s: Source) { s.recipient != "" && (s.reply || !s.external) }

  /** A request between agents of the conversation is seen by all. */
  predicate Requests(s: Source) { s.recipient != "" && !s.reply && !s.external }

  /** The row with its sender's note of whom it went to. */
  function NotedRow(row: Row, sender: string): Row {
    var s := row.source;
    row.(content := Marked(row.content, "[delegate " + sender + " \U{2192} "
                                        + (if s.recipientLabel == "" then s.recipient else s.recipientLabel) + "]:"))
  }

  /** The request as everybody else reads it: nobody's own turn, under sender and recipient. */
  function RequestRow(row: Row, sender: string): Row {
    row.(role := if row.role == AssistantRole then UserRole else row.role,
         content := Marked(row.content, "[" + sender + " to agent " + row.source.recipient + "]:"))
  }

  /** Anybody else the store knows of. */
  predicate StandsBy(s: State, item: Item, a: string) {
    a != "" && a != From(item) && a != item.message.source.recipient && (if s.warm then a in s.agents else a in s.declared)
  }

  ghost predicate Someone(s: State, item: Item) { exists a :: StandsBy(s, item, a) }

  function KeptLines(item: Item, rows: seq<Row>): nat { if Keeps(item.message.source) then |rows| else 0 }

  ghost predicate DelegatedAs(s: State, item: Item, rows: seq<Row>, after: State)
    requires rows != []
  {
    var source, who := item.message.source, From(item);
    var n := s.seqNo + |rows|;
    && Adds(s.transcript, after.transcript, rows, s.seqNo)
    && (forall a ::
          if a == who && Keeps(source) then
            a in after.contexts && Adds(ContextOf(s.contexts, a), after.contexts[a], [NotedRow(rows[0], who)] + rows[1..], n)
          else Untouched(s.contexts, after.contexts, a))
    && (if Requests(source) then Adds(s.shared, after.shared, [RequestRow(rows[0], who)], n + |rows|)
        else after.shared == s.shared)
    && (forall a ::
          if Requests(source) && Signs(source) && StandsBy(s, item, a) then
            && a in after.inboxes
            && after.inboxes[a] == ContextOf(s.inboxes, a) + [RequestRow(rows[0], who).(seqNo := n + |rows| + 1)]
          else Untouched(s.inboxes, after.inboxes, a))
    && after.seqNo == n + KeptLines(item, rows) + if Requests(source) then 1 else 0
  }

  lemma TagsAre(row: Row, sender: string)
    ensures var s := row.source.(sender := sender);
            && SenderCopy(row.(source := s)).(source := row.source) == NotedRow(row, sender)
            && RequestCopy(row.(source := s)).(source := row.source) == RequestRow(row, sender)
  {
    var s := row.source.(sender := sender);
    MarkedIs(row.content, SenderTag(s));
    MarkedIs(row.content, RequestTag(s));
    hide Prefixed, Marked;
  }

  lemma StandsByIs(s: State, item: Item, source: Source, a: string)
    requires source == item.message.source.(sender := From(item))
    ensures a in Bystanders(s, source, DelegateTouched(source)) <==> StandsBy(s, item, a)
  {
  }

  lemma FirstIs(s: State, m: Message)
    ensures var rows := Expanded(s, m).rows; rows != [] && rows[0].source == m.source
  {
    RowsLaw(s, m);
    hide CallsAre, CallIs;
  }

  lemma AttributedIs(row: Row, item: Item)
    requires row.source == item.message.source
    ensures Attributed(row, item.agent).source == item.message.source.(sender := From(item))
  {
  }

  /** Delegate traffic, in its parts. */
  lemma DelegatedIs(s: State, item: Item, rows: seq<Row>)
    requires rows != [] && rows[0].source == item.message.source
    ensures var source, who := item.message.source, From(item); var named := source.(sender := who);
            var own := if Keeps(source) then AppendContext(s, who, [NotedRow(rows[0], who)] + rows[1..]) else s;
            var copy := RequestRow(rows[0], who).(seqNo := own.seqNo + 1);
            Delegated(s, item, rows)
            == if !Requests(source) then own
               else
                 own.(warm := true, agents := if s.warm then s.agents else s.declared, shared := own.shared + [copy],
                      seqNo := own.seqNo + 1,
                      inboxes := CaughtUp(own.inboxes, Bystanders(own, named, DelegateTouched(named)), source, [copy]))
  {
    var who := From(item);
    AttributedIs(rows[0], item);
    TagsAre(rows[0], who);
    hide SenderCopy, RequestCopy, NotedRow, RequestRow, Stamped, CaughtUp, Bystanders, DelegateTouched, Attributed, From;
    assert SenderKeeps(item.message.source.(sender := who)) <==> SenderKeeps(item.message.source);
    assert Projects(item.message.source.(sender := who)) <==> Projects(item.message.source);
  }

  lemma QueuedIs(inboxes: map<string, seq<Row>>, others: set<string>, source: Source, copy: Row, a: string)
    requires copy.source.kind == FromDelegate
    ensures var after := CaughtUp(inboxes, others, source, [copy]);
            if Signs(source) && a in others then a in after && after[a] == ContextOf(inboxes, a) + [copy]
            else Untouched(inboxes, after, a)
  {
    assert [copy][1..] == [] && [copy] + [] == [copy];
    assert ViewAll([copy][1..], a) == Some([]);
    assert ViewAll([copy], a) == Some([copy]);
    hide ViewAll;
  }

  lemma AddsOne(before: seq<Row>, row: Row, n: nat)
    ensures Adds(before, before + [row.(seqNo := n + 1)], [row], n)
  {
  }

  lemma SameBystanders(s: State, t: State, source: Source)
    requires s.warm == t.warm && s.agents == t.agents && s.declared == t.declared
    ensures Bystanders(s, source, DelegateTouched(source)) == Bystanders(t, source, DelegateTouched(source))
  {
  }

  lemma ContextAdds(s: State, agent: string, rows: seq<Row>)
    ensures var after := AppendContext(s, agent, rows);
            && after == s.(contexts := after.contexts, seqNo := s.seqNo + |rows|)
            && agent in after.contexts && Adds(ContextOf(s.contexts, agent), after.contexts[agent], rows, s.seqNo)
            && forall a :: a != agent ==> Untouched(s.contexts, after.contexts, a)
  {
    AddsLines(ContextOf(s.contexts, agent), rows, s.seqNo);
    hide Stamped, Adds;
  }

  /** The contexts, the shared context and the numbers. */
  lemma DelegatedFiles(s: State, item: Item, rows: seq<Row>)
    requires rows != [] && rows[0].source == item.message.source
    ensures var source, who := item.message.source, From(item); var after := Delegated(s, item, rows);
            && after.transcript == s.transcript
            && (forall a ::
                  if a == who && Keeps(source) then
                    && a in after.contexts
                    && Adds(ContextOf(s.contexts, a), after.contexts[a], [NotedRow(rows[0], who)] + rows[1..], s.seqNo)
                  else Untouched(s.contexts, after.contexts, a))
            && (if Requests(source) then Adds(s.shared, after.shared, [RequestRow(rows[0], who)], s.seqNo + |rows|)
                else after.shared == s.shared)
            && after.seqNo == s.seqNo + KeptLines(item, rows) + (if Requests(source) then 1 else 0)
  {
    hide NotedRow, RequestRow, Stamped, CaughtUp, Bystanders, DelegateTouched, Attributed, From, Adds, Untouched, Delegated;
    hide AppendContext;
    var who := From(item);
    var mine := [NotedRow(rows[0], who)] + rows[1..];
    DelegatedIs(s, item, rows);
    ContextAdds(s, who, mine);
    AddsOne(s.shared, RequestRow(rows[0], who), s.seqNo + |rows|);
    forall a ensures Untouched(s.contexts, s.contexts, a) { Same(s.contexts, a); }
  }

  /** The inboxes. */
  lemma DelegatedInbox(s: State, item: Item, rows: seq<Row>, a: string)
    requires rows != [] && rows[0].source == item.message.source && item.message.source.kind == FromDelegate
    ensures var source, who := item.message.source, From(item); var after := Delegated(s, item, rows);
            if Requests(source) && Signs(source) && StandsBy(s, item, a) then
              && a in after.inboxes
              && after.inboxes[a] == ContextOf(s.inboxes, a) + [RequestRow(rows[0], who).(seqNo := s.seqNo + |rows| + 1)]
            else Untouched(s.inboxes, after.inboxes, a)
  {
    hide NotedRow, Stamped, CaughtUp, Bystanders, DelegateTouched, Attributed, From, Signs, StandsBy, Adds, Untouched, Delegated;
    hide AppendContext;
    var source, who := item.message.source, From(item);
    var named := source.(sender := who);
    var mine := [NotedRow(rows[0], who)] + rows[1..];
    var copy := RequestRow(rows[0], who);
    assert copy.source.kind == FromDelegate;
    hide RequestRow;
    DelegatedIs(s, item, rows);
    ContextAdds(s, who, mine);
    SameBystanders(s, if Keeps(source) then AppendContext(s, who, mine) else s, named);
    StandsByIs(s, item, named, a);
    QueuedIs(s.inboxes, Bystanders(s, named, DelegateTouched(named)), source, copy.(seqNo := s.seqNo + |rows| + 1), a);
    Same(s.inboxes, a);
  }

  lemma TransfersLogged(s: State, logged: State, item: Item, rows: seq<Row>, after: State)
    requires rows != [] && rows[0].source == item.message.source && item.message.source.kind == FromDelegate
    requires logged == s.(transcript := logged.transcript, parents := logged.parents, next := logged.next, seqNo := s.seqNo + |rows|)
    requires Adds(s.transcript, logged.transcript, rows, s.seqNo)
    requires var routed := Delegated(logged, item, rows); after == routed.(warm := after.warm, agents := after.agents)
    ensures DelegatedAs(s, item, rows, after)
  {
    hide Delegated, NotedRow, RequestRow, Adds, Untouched, From, Signs, Keeps, Requests;
    DelegatedFiles(logged, item, rows);
    forall a { DelegatedInbox(logged, item, rows, a); }
    forall a ensures StandsBy(s, item, a) <==> StandsBy(logged, item, a) {
    }
    hide StandsBy;
  }

  lemma LoggedFrame(s: State, m: Message)
    requires m.source.kind == FromDelegate
    ensures var rows, logged := Expanded(s, m).rows, LoggedOne(s, m);
            && logged == s.(transcript := logged.transcript, parents := logged.parents, next := logged.next, seqNo := s.seqNo + |rows|)
            && Adds(s.transcript, logged.transcript, rows, s.seqNo)
  {
    hide Canonical, Stamped, Remember, Adds;
    AddsLines(s.transcript, Expanded(s, m).rows, s.seqNo);
  }

  /** A delegate message that raises nothing: whoever stands by a request can be told who it is from. */
  ghost predicate Signed(s: State, item: Item) {
    item.message.displayOnly || !Requests(item.message.source) || Signs(item.message.source) || !Someone(s, item)
  }

  lemma SignedIs(s: State, logged: State, item: Item, rows: seq<Row>)
    requires rows != [] && rows[0].source == item.message.source && !item.message.displayOnly
    requires logged.warm == s.warm && logged.agents == s.agents && logged.declared == s.declared
    ensures DelegateAccepted(logged, item, rows) <==> Signed(s, item)
  {
    var named := item.message.source.(sender := From(item));
    AttributedIs(rows[0], item);
    SameBystanders(s, logged, named);
    var others := Bystanders(s, named, DelegateTouched(named));
    forall a ensures a in others <==> StandsBy(s, item, a) { StandsByIs(s, item, named, a); }
    assert others == {} <==> !Someone(s, item);
    assert Projects(named) <==> Projects(item.message.source);
    hide Bystanders, DelegateTouched, StandsBy, Someone, Attributed;
  }

  /** The agents delegate traffic reaches: the sender who keeps it, and whoever stands by a request. */
  predicate DelegateReaches(s: State, item: Item, a: string) {
    || (Keeps(item.message.source) && a == From(item))
    || (Requests(item.message.source) && StandsBy(s, item, a))
  }

  lemma ReachIs(s: State, logged: State, item: Item, rows: seq<Row>, a: string)
    requires rows != [] && rows[0].source == item.message.source
    requires logged.warm == s.warm && logged.agents == s.agents && logged.declared == s.declared
    ensures a in DelegateReach(logged, Attributed(rows[0], item.agent).source) <==> DelegateReaches(s, item, a)
  {
    var named := item.message.source.(sender := From(item));
    AttributedIs(rows[0], item);
    SameBystanders(s, logged, named);
    StandsByIs(s, item, named, a);
    hide Bystanders, Attributed, StandsBy;
  }

  lemma RoutedRoster(s: State, item: Item, rows: seq<Row>)
    requires rows != [] && rows[0].source == item.message.source
    ensures var routed := Delegated(s, item, rows); var looks := Requests(item.message.source);
            routed.warm == (s.warm || looks)
            && routed.agents == if s.warm then s.agents else if looks then s.declared else s.agents
  {
    hide NotedRow, RequestRow, Stamped, CaughtUp, Bystanders, DelegateTouched, Attributed, From;
    DelegatedIs(s, item, rows);
  }

  /** An append of delegate traffic: transcript, sender, shared request and bystanders; what raises; and the roster. */
  lemma DelegateLaw(s: State, item: Item, reached: set<string>)
    requires item.message.source.kind == FromDelegate
    requires forall a :: a in reached <==> DelegateReaches(s, item, a)
    ensures var m := item.message; var rows, after := Expanded(s, m).rows, AppendOne(s, item);
            && rows != [] && RowsAre(s, m, rows)
            && (Accepted(s, item) <==> Proper(m) && Signed(s, item))
            && (if !Proper(m) then after == s
                else if m.displayOnly then
                  Adds(s.transcript, after.transcript, rows, s.seqNo) && after.contexts == s.contexts
                  && after.shared == s.shared && after.inboxes == s.inboxes && after.warm == s.warm && after.agents == s.agents
                else
                  && DelegatedAs(s, item, rows, after)
                  && RosterAs(s, Requests(m.source), if Signed(s, item) then reached else {}, after))
  {
    var m := item.message;
    hide Canonical, ValidMessage, Proper, RowsAre, LoggedOne, Delegated, Noted, DelegateAccepted, DelegateReach, Adds, RosterAs;
    hide DelegatedAs, DelegateReaches, Attributed;
    ProperIs(m);
    RowsLaw(s, m);
    FirstIs(s, m);
    LoggedFrame(s, m);
    var rows, logged := Expanded(s, m).rows, LoggedOne(s, m);
    hide Expanded;
    var routed := Delegated(logged, item, rows);
    var touched := DelegateReach(logged, Attributed(rows[0], item.agent).source);
    NotedParts(routed, touched);
    if !m.displayOnly {
      SignedIs(s, logged, item, rows);
      RoutedRoster(logged, item, rows);
      NotedRoster(s, routed, Requests(m.source), touched);
      forall a ensures a in touched <==> a in reached { ReachIs(s, logged, item, rows, a); }
      assert touched == reached;
      if Proper(m) { TransfersLogged(s, logged, item, rows, AppendOne(s, item)); }
    }
  }
}

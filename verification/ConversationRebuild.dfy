/** An agent's view rebuilt from the transcript (core/_conversation_store_agentctx.py). */
module ConversationRebuild {
  import opened Basics
  import opened ConversationViews
  import opened ConversationRows

  /** The row's author: the agent of an ordinary turn, the sender of a delegate-mode one. */
  function AuthorOf(s: Source): string {
    match s.kind
    case FromAgent => s.name
    case FromDelegate => s.sender
    case _ => ""
  }

  predicate IsOwn(s: Source, agent: string) { agent != "" && AuthorOf(s) == agent }

  // ---- delegate rows ----

  function ReplyTag(s: Source): string { "Here is agent '" + s.sender + "''s reply to your delegate:" }

  function MessageTag(s: Source): string {
    if s.external then "Here is a message from '" + (if s.senderLabel != "" then s.senderLabel else s.sender) + "':"
    else "Here is a message from agent '" + s.sender + "':"
  }

  /** The copy of a delegate row that an agent holds, if it reaches that agent. */
  function DelegateView(m: Row, agent: string): Option<Row> {
    var s := m.source;
    if s.recipient == "" || agent == "" then None
    else if agent == s.sender then
      if s.external && !s.reply then None else Some(m.(content := Prefixed(m.content, SenderTag(s))))
    else if s.reply && s.external then None
    else
      var demoted := m.(role := if m.role.AssistantRole? then UserRole else m.role);
      if agent == s.recipient then
        if s.reply && s.selfOnly then None
        else Some(demoted.(content := Prefixed(m.content, if s.reply then ReplyTag(s) else MessageTag(s))))
      else if s.reply || s.external then None
      else Some(demoted.(content := Prefixed(m.content, RequestTag(s))))
  }

  /** What live routing gave the agent of a row that `writer` wrote, its number apart: the sender's own row, or
      the request a bystander catches up on. An unrecorded sender is the writer, but only for the routing: the
      row stays as it was. Targeted delivery to the recipient is not routed here. */
  function LiveCopy(m: Row, writer: string, agent: string): Option<Row> {
    var s := Attributed(m, writer).source;
    var anchor := m.(source := s);
    if s.recipient == "" then None
    else if agent == s.sender then if SenderKeeps(s) then Some(SenderCopy(anchor).(source := m.source)) else None
    else if agent == s.recipient || !Projects(s) || !Sendable(m.source) then None
    else Some(RequestCopy(anchor).(source := m.source))
  }

  /** Content that a prefix leaves as it is. */
  predicate Tagged(c: Content, prefix: string) {
    match c
    case Text(text) => StartsWith(text, prefix + "\n") || StartsWith(text, prefix + " ")
    case Parts(blocks) => blocks != [] && blocks[0].TextBlock? && blocks[0].text == prefix
    case Scalar(shown) => StartsWith(shown, prefix + "\n") || StartsWith(shown, prefix + " ")
  }

  lemma SamePrefixText(text: string, p: string, q: string)
    ensures PrefixText(text, p) == PrefixText(text, q) <==> p == q || (Tagged(Text(text), p) && Tagged(Text(text), q))
  {
    var one, other := p + "\n" + text, q + "\n" + text;
    assert one[..|p|] == p && other[..|q|] == q;
  }

  lemma SamePrefix(c: Content, p: string, q: string)
    ensures Prefixed(c, p) == Prefixed(c, q) <==> p == q || (Tagged(c, p) && Tagged(c, q))
  {
    match c
    case Text(text) => SamePrefixText(text, p, q);
    case Scalar(shown) => SamePrefixText(shown, p, q);
    case Parts(blocks) =>
      var one, other := [TextBlock(p, NONE)] + blocks, [TextBlock(q, NONE)] + blocks;
      assert one[0] == TextBlock(p, NONE) && other[0] == TextBlock(q, NONE);
      assert |one| == |blocks| + 1 == |other|;
  }

  /** Two tags that part within their first two characters are never both on one content. */
  lemma PartedTags(c: Content, p: string, q: string)
    requires |p| >= 2 && |q| >= 2 && p[..2] != q[..2]
    ensures Prefixed(c, p) != Prefixed(c, q)
  {
    SamePrefix(c, p, q);
    match c
    case Text(text) => PartedText(text, p, q);
    case Scalar(shown) => PartedText(shown, p, q);
    case Parts(_) =>
  }

  lemma PartedText(text: string, p: string, q: string)
    requires |p| >= 2 && |q| >= 2 && p[..2] != q[..2]
    ensures !(Tagged(Text(text), p) && Tagged(Text(text), q))
  {
    BeginsAs(text, p);
    BeginsAs(text, q);
  }

  lemma BeginsAs(text: string, p: string)
    requires |p| >= 2
    ensures Tagged(Text(text), p) ==> |text| >= 2 && text[..2] == p[..2]
  {
    if StartsWith(text, p + "\n") {
      assert text[..|p| + 1][..2] == (p + "\n")[..2] == p[..2];
      assert text[..|p| + 1][..2] == text[..2];
    }
    if StartsWith(text, p + " ") {
      assert text[..|p| + 1][..2] == (p + " ")[..2] == p[..2];
      assert text[..|p| + 1][..2] == text[..2];
    }
  }

  /** When a rebuilt copy is the live one: the row records its sender, or nothing is routed, or the writer is the
      external requester who keeps nothing, or a bystander gets nothing, or the request names nobody either way
      (or already carries both tags). */
  predicate Recoverable(m: Row, writer: string, agent: string) {
    var s := m.source;
    || s.sender != "" || s.recipient == ""
    || (if agent == writer then s.external && !s.reply && agent != s.recipient
        else !Projects(s)
             || (s.name != ""
                 && (writer == "" || (Tagged(m.content, RequestTag(s)) && Tagged(m.content, RequestTag(s.(sender := writer)))))))
  }

  /** The sender's and the bystanders' rebuilt copies are what live routing gave them exactly then. */
  lemma RebuiltDelegateIsLive(m: Row, writer: string, agent: string)
    requires m.source.kind.FromDelegate? && agent != ""
    requires agent == Attributed(m, writer).source.sender || agent != m.source.recipient
    ensures DelegateView(m, agent) == LiveCopy(m, writer, agent) <==> Recoverable(m, writer, agent)
  {
    hide SenderTag, RequestTag, ReplyTag, MessageTag, Prefixed, Tagged;
    if m.source.sender == "" {
      var s := m.source.(sender := writer);
      if agent == writer {
        TagsPart(m.source, s);
        PartedTags(m.content, SenderTag(s), RequestTag(m.source));
        PartedTags(m.content, SenderTag(s), ReplyTag(m.source));
        PartedTags(m.content, SenderTag(s), MessageTag(m.source));
      } else {
        SamePrefix(m.content, RequestTag(m.source), RequestTag(s));
        TagsDiffer(m.source, writer);
      }
    }
  }

  lemma TagsPart(s: Source, t: Source)
    requires s.sender == ""
    ensures forall tag :: tag in {RequestTag(s), ReplyTag(s), MessageTag(s), SenderTag(t)} ==> |tag| >= 2
    ensures forall tag :: tag in {RequestTag(s), ReplyTag(s), MessageTag(s)} ==> tag[..2] != SenderTag(t)[..2]
  {
    assert SenderTag(t)[..2] == "[d" && RequestTag(s)[..2] == "[ " && ReplyTag(s)[..2] == "He" && MessageTag(s)[..2] == "He";
  }

  lemma TagsDiffer(s: Source, writer: string)
    requires s.sender == ""
    ensures RequestTag(s) == RequestTag(s.(sender := writer)) <==> writer == ""
  {
    assert |RequestTag(s.(sender := writer))| == |RequestTag(s)| + |writer|;
  }

  const UNSIGNED_REPLY := Row(AssistantRole, 1, Text("done"),
    Source(FromDelegate, "", "", "", false, "", "asker", true, false, "", "", false, false), NONE, NONE, NONE, NONE, NONE, [], 1.0, 0)

  /** A reply that records no sender is kept by the agent who wrote it, and lost to it when its view is rebuilt. */
  lemma UnsignedReplyIsLost()
    ensures LiveCopy(UNSIGNED_REPLY, "writer", "writer").Some? && DelegateView(UNSIGNED_REPLY, "writer").None?
    ensures DelegateView(UNSIGNED_REPLY.(source := UNSIGNED_REPLY.source.(sender := "writer")), "writer").Some?
  {
    assert "writer" != "" && "asker" != "";
  }

  lemma QueuedCopy(inboxes: map<string, seq<Row>>, others: set<string>, row: Row, agent: string)
    requires row.source.kind.FromDelegate?
    ensures agent in others ==> agent in Queued(inboxes, others, [row])
    ensures ContextOf(Queued(inboxes, others, [row]), agent)
            == ContextOf(inboxes, agent) + if agent in others then [row] else []
  {
    assert [row][1..] == [] && [row] + [] == [row];
    assert ViewAll([row][1..], agent) == Some([]);
    assert ViewAll([row], agent) == Some([row]);
    assert ContextOf(inboxes, agent) + [] == ContextOf(inboxes, agent);
  }

  /** Live routing leaves that copy with the sender: at its place in the sender's context, its children behind it. */
  lemma SenderLeftCopy(s: State, item: Item, rows: seq<Row>, agent: string)
    requires rows != [] && rows[0].source.kind.FromDelegate? && agent != ""
    ensures var after := Delegated(s, item, rows).contexts; var copy := LiveCopy(rows[0], item.agent, agent);
            if agent == Attributed(rows[0], item.agent).source.sender && copy.Some? then
              && agent in after
              && after[agent] == ContextOf(s.contexts, agent) + Stamped([copy.value] + rows[1..], s.seqNo)
            else (agent in after <==> agent in s.contexts) && ContextOf(after, agent) == ContextOf(s.contexts, agent)
  {
    hide SenderCopy, RequestCopy, Stamped, CaughtUp, Bystanders;
  }

  /** And with a bystander: at the end of its inbox, under the number the request has in the shared context. */
  lemma BystanderLeftCopy(s: State, item: Item, rows: seq<Row>, agent: string)
    requires rows != [] && rows[0].source.kind.FromDelegate? && agent != ""
    ensures var after := Delegated(s, item, rows); var source := Attributed(rows[0], item.agent).source;
            var copy := LiveCopy(rows[0], item.agent, agent);
            if agent in Bystanders(s, source, DelegateTouched(source)) && copy.Some? then
              && after.shared == s.shared + [copy.value.(seqNo := s.seqNo + |rows| + 1)]
              && agent in after.inboxes
              && after.inboxes[agent] == ContextOf(s.inboxes, agent) + [copy.value.(seqNo := s.seqNo + |rows| + 1)]
            else ContextOf(after.inboxes, agent) == ContextOf(s.inboxes, agent)
  {
    hide Queued, SenderCopy, RequestCopy, Stamped, AppendContext;
    var source := Attributed(rows[0], item.agent).source;
    var anchor := rows[0].(source := source);
    var mine := [SenderCopy(anchor).(source := rows[0].source)] + rows[1..];
    ContextGrows(s, source.sender, mine);
    var own := if SenderKeeps(source) then AppendContext(s, source.sender, mine) else s;
    SameBystanders(s, own, source);
    var copy := RequestCopy(anchor).(source := rows[0].source, seqNo := own.seqNo + 1);
    QueuedCopy(s.inboxes, Bystanders(s, source, DelegateTouched(source)), copy, agent);
  }

  lemma SameBystanders(s: State, t: State, source: Source)
    requires s.warm == t.warm && s.agents == t.agents && s.declared == t.declared
    ensures Bystanders(s, source, DelegateTouched(source)) == Bystanders(t, source, DelegateTouched(source))
  {
  }

  /** Whoever gets no copy is left alone; whoever gets one gets it once, in the place it belongs. */
  lemma DelegatedLeavesCopies(s: State, item: Item, rows: seq<Row>, agent: string)
    requires rows != [] && rows[0].source.kind.FromDelegate? && agent != ""
    ensures var after := Delegated(s, item, rows); var source := Attributed(rows[0], item.agent).source;
            var copy := LiveCopy(rows[0], item.agent, agent);
            var keeps := agent == source.sender && copy.Some?;
            var catches := agent in Bystanders(s, source, DelegateTouched(source)) && copy.Some?;
            && ContextOf(after.contexts, agent)
               == ContextOf(s.contexts, agent) + (if keeps then Stamped([copy.value] + rows[1..], s.seqNo) else [])
            && ContextOf(after.inboxes, agent)
               == ContextOf(s.inboxes, agent)
                  + (if catches then [copy.value.(seqNo := s.seqNo + |rows| + 1)] else [])
            && (catches ==> after.shared == s.shared + [copy.value.(seqNo := s.seqNo + |rows| + 1)])
  {
    hide Delegated, LiveCopy, Stamped, Bystanders;
    SenderLeftCopy(s, item, rows, agent);
    BystanderLeftCopy(s, item, rows, agent);
    assert ContextOf(s.contexts, agent) + [] == ContextOf(s.contexts, agent);
    assert ContextOf(s.inboxes, agent) + [] == ContextOf(s.inboxes, agent);
  }

  // ---- the whole view ----

  /** The ids of this agent's own tool calls. */
  function OwnCalls(raw: seq<Row>, agent: string): set<Id> {
    set i | 0 <= i < |raw| && raw[i].role.ToolCallRole? && IsOwn(raw[i].source, agent) && raw[i].toolCall != NONE ::
      raw[i].toolCall
  }

  /** The text of a turn, as far as it has any. */
  function TextOf(c: Content): Option<string> {
    match c
    case Text(text) => if IsBlank(c) then None else Some(text)
    case Parts(blocks) => var text := JoinText(blocks); if IsBlank(Text(text)) then None else Some(text)
    case Scalar(_) => None
  }

  function JoinText(blocks: seq<Block>): string {
    if blocks == [] then ""
    else
      var rest := JoinText(blocks[1..]);
      if !blocks[0].TextBlock? || IsBlank(Text(blocks[0].text)) then rest
      else if rest == "" then blocks[0].text
      else blocks[0].text + "\n" + rest
  }

  /** One transcript row as the agent sees it, if it does. */
  function RowView(m: Row, agent: string, own: set<Id>): Option<Row> {
    match m.role
    case TraceRole => if m.source.kind.FromAgent? && agent != "" && m.source.name == agent then Some(m) else None
    case ToolRole => if m.toolCall != NONE && m.toolCall in own then Some(m) else None
    case ThinkingRole => if IsOwn(m.source, agent) then Some(m) else None
    case ToolCallRole => if IsOwn(m.source, agent) then Some(m) else None
    case AssistantRole =>
      if m.source.kind.FromAgent? then
        if IsOwn(m.source, agent) then Some(m)
        else if SubContext(m.source) || TextOf(m.content).None? then None
        else Some(m.(role := UserRole,
                     content := Text((if m.source.name != "" then "[Agent " + m.source.name + "]: " else "[Agent]: ")
                                     + TextOf(m.content).value)))
      else if m.source.kind.FromDelegate? then DelegateView(m, agent)
      else Some(m)
    case UserRole =>
      if m.source.kind.FromDelegate? then DelegateView(m, agent)
      else
        var foreign := m.source.target != "" && agent != "" && m.source.target != agent;
        if m.source.btw && foreign then None
        else if foreign && m.content.Text? then
          Some(m.(content := Text("[User to agent " + m.source.target + "]: " + m.content.text)))
        else Some(m)
    case _ => Some(m)
  }

  function Views(raw: seq<Row>, agent: string, own: set<Id>): seq<Row>
    decreases |raw|
  {
    if raw == [] then []
    else
      var n := |raw| - 1;
      var last := RowView(raw[n], agent, own);
      Views(raw[..n], agent, own) + if last.Some? then [last.value] else []
  }

  function Rebuilt(raw: seq<Row>, agent: string): seq<Row> { Views(raw, agent, OwnCalls(raw, agent)) }

  /** Two passes: collect the agent's own call ids, then keep and rewrite rows. */
  method PersonalizeTranscript(raw: seq<Row>, agent: string) returns (out: seq<Row>)
    ensures out == Rebuilt(raw, agent)
  {
    var own: set<Id> := {};
    var i := 0;
    while i < |raw|
      invariant 0 <= i <= |raw|
      invariant own == OwnCalls(raw[..i], agent)
    {
      OwnCallsMore(raw, i, agent);
      if raw[i].role.ToolCallRole? && IsOwn(raw[i].source, agent) && raw[i].toolCall != NONE {
        own := own + {raw[i].toolCall};
      }
      i := i + 1;
    }
    assert raw[..i] == raw;
    out := [];
    i := 0;
    while i < |raw|
      invariant 0 <= i <= |raw|
      invariant out == Views(raw[..i], agent, own)
    {
      assert raw[..i + 1][..i] == raw[..i];
      var view := RowView(raw[i], agent, own);
      if view.Some? { out := out + [view.value]; }
      i := i + 1;
    }
    assert raw[..i] == raw;
  }

  lemma OwnCallsMore(raw: seq<Row>, i: nat, agent: string)
    requires i < |raw|
    ensures OwnCalls(raw[..i + 1], agent)
            == OwnCalls(raw[..i], agent)
               + (if raw[i].role.ToolCallRole? && IsOwn(raw[i].source, agent) && raw[i].toolCall != NONE
                  then {raw[i].toolCall} else {})
  {
    var more, less := raw[..i + 1], raw[..i];
    forall c | c in OwnCalls(less, agent) ensures c in OwnCalls(more, agent) {
      var j :| 0 <= j < |less| && less[j].role.ToolCallRole? && IsOwn(less[j].source, agent) && less[j].toolCall != NONE
               && less[j].toolCall == c;
      assert more[j] == less[j];
    }
    forall c | c in OwnCalls(more, agent) && c !in OwnCalls(less, agent) ensures c == raw[i].toolCall {
      var j :| 0 <= j < |more| && more[j].role.ToolCallRole? && IsOwn(more[j].source, agent) && more[j].toolCall != NONE
               && more[j].toolCall == c;
    }
    if raw[i].role.ToolCallRole? && IsOwn(raw[i].source, agent) && raw[i].toolCall != NONE {
      assert more[i].toolCall in OwnCalls(more, agent);
    }
  }

  lemma {:induction false} ViewsFrom(raw: seq<Row>, agent: string, own: set<Id>, row: Row)
    requires row in Views(raw, agent, own)
    ensures exists i :: 0 <= i < |raw| && RowView(raw[i], agent, own) == Some(row)
    decreases |raw|
  {
    var n := |raw| - 1;
    if row in Views(raw[..n], agent, own) {
      ViewsFrom(raw[..n], agent, own, row);
      var i :| 0 <= i < |raw[..n]| && RowView(raw[..n][i], agent, own) == Some(row);
      assert raw[i] == raw[..n][i];
    } else {
      assert RowView(raw[n], agent, own) == Some(row);
    }
  }

  lemma {:induction false} ViewsHold(raw: seq<Row>, agent: string, own: set<Id>, i: nat)
    requires i < |raw| && RowView(raw[i], agent, own).Some?
    ensures RowView(raw[i], agent, own).value in Views(raw, agent, own)
    decreases |raw|
  {
    var n := |raw| - 1;
    if i < n {
      assert raw[..n][i] == raw[i];
      ViewsHold(raw[..n], agent, own, i);
    }
  }

  /** Every kept tool result has its own tool_call row in the rebuilt view. */
  lemma ResultsHaveCalls(raw: seq<Row>, agent: string, row: Row)
    requires row in Rebuilt(raw, agent) && row.role.ToolRole?
    ensures exists call :: call in Rebuilt(raw, agent) && call.role.ToolCallRole? && call.toolCall == row.toolCall
                           && IsOwn(call.source, agent)
  {
    var own := OwnCalls(raw, agent);
    ViewsFrom(raw, agent, own, row);
    var i :| 0 <= i < |raw| && RowView(raw[i], agent, own) == Some(row);
    assert row.toolCall in own;
    var j :| 0 <= j < |raw| && raw[j].role.ToolCallRole? && IsOwn(raw[j].source, agent) && raw[j].toolCall != NONE
             && raw[j].toolCall == row.toolCall;
    ViewsHold(raw, agent, own, j);
  }

  /** No row authored by another agent keeps the assistant, thinking or tool_call role. */
  lemma OthersNeverSpeakAsOwn(raw: seq<Row>, agent: string, row: Row)
    requires row in Rebuilt(raw, agent) && agent != ""
    requires row.source.kind.FromAgent? || row.source.kind.FromDelegate?
    requires AuthorOf(row.source) != agent
    ensures !row.role.AssistantRole? && !row.role.ThinkingRole? && !row.role.ToolCallRole?
  {
    var own := OwnCalls(raw, agent);
    ViewsFrom(raw, agent, own, row);
    var i :| 0 <= i < |raw| && RowView(raw[i], agent, own) == Some(row);
    hide RowView;
    ForeignView(raw[i], agent, own);
  }

  lemma ForeignView(m: Row, agent: string, own: set<Id>)
    requires agent != "" && RowView(m, agent, own).Some?
    requires var row := RowView(m, agent, own).value;
             (row.source.kind.FromAgent? || row.source.kind.FromDelegate?) && AuthorOf(row.source) != agent
    ensures var role := RowView(m, agent, own).value.role;
            !role.AssistantRole? && !role.ThinkingRole? && !role.ToolCallRole?
  {
    hide Prefixed, TextOf, SenderTag, RequestTag, ReplyTag, MessageTag;
  }

  /** The agent's own turn, as it wrote it. */
  predicate OwnTurn(m: Row, agent: string) {
    && IsOwn(m.source, agent)
    && (m.role.ThinkingRole? || m.role.ToolCallRole?
        || (m.source.kind.FromAgent? && (m.role.AssistantRole? || m.role.TraceRole?)))
  }

  function OwnTurns(rows: seq<Row>, agent: string): seq<Row>
    decreases |rows|
  {
    if rows == [] then []
    else
      var n := |rows| - 1;
      OwnTurns(rows[..n], agent) + if OwnTurn(rows[n], agent) then [rows[n]] else []
  }

  lemma {:induction false} OwnTurnsMore(rows: seq<Row>, more: seq<Row>, agent: string)
    requires |more| <= 1
    ensures OwnTurns(rows + more, agent) == OwnTurns(rows, agent) + OwnTurns(more, agent)
  {
    if more == [] {
      assert rows + more == rows;
    } else {
      assert (rows + more)[..|rows|] == rows;
      assert more[..0] == [];
    }
  }

  /** A row's view is an own turn of the agent only if the row itself is, and then it is that row. */
  lemma OwnView(m: Row, agent: string, own: set<Id>)
    ensures var view := RowView(m, agent, own);
            if OwnTurn(m, agent) then view == Some(m) else view.Some? ==> !OwnTurn(view.value, agent)
  {
    hide Prefixed, IsBlank, JoinText;
  }

  lemma {:induction false} OwnTurnsViewed(raw: seq<Row>, agent: string, own: set<Id>)
    ensures OwnTurns(Views(raw, agent, own), agent) == OwnTurns(raw, agent)
    decreases |raw|
  {
    hide OwnTurn, RowView;
    if raw != [] {
      var n := |raw| - 1;
      OwnTurnsViewed(raw[..n], agent, own);
      OwnView(raw[n], agent, own);
      var view := RowView(raw[n], agent, own);
      var last := if view.Some? then [view.value] else [];
      OwnTurnsMore(Views(raw[..n], agent, own), last, agent);
      if view.Some? { assert last[..0] == []; }
    }
  }

  /** The agent's own turns come through unchanged, all of them, in the order of the transcript, and no other row
      of the view passes for one. */
  lemma OwnTurnsKept(raw: seq<Row>, agent: string)
    ensures OwnTurns(Rebuilt(raw, agent), agent) == OwnTurns(raw, agent)
  {
    OwnTurnsViewed(raw, agent, OwnCalls(raw, agent));
  }
}

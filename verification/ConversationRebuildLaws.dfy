/** A rebuilt view, told from the rows of the transcript: which of them an agent sees, as what, and in what order. */
module ConversationRebuildLaws {
  import opened Basics
  import opened ConversationViews
  import opened ConversationRows
  import opened ConversationRowLaws
  import opened ConversationRebuild
  import D = ConversationDelegates
  import Reach = ConversationReach

  /** Written by the agent: its turn, or the delegate message it sent. */
  predicate By(s: Source, agent: string) {
    agent != "" && ((s.kind == FromAgent && s.name == agent) || (s.kind == FromDelegate && s.sender == agent))
  }

  /** Said to another agent. */
  predicate ToAnother(s: Source, agent: string) { agent != "" && s.target != "" && s.target != agent }

  /** A turn that another agent made inside a task or an aside. */
  predicate ApartFrom(m: Row, agent: string) {
    m.role == AssistantRole && m.source.kind == FromAgent && !By(m.source, agent) && (m.source.task != "" || m.source.btw)
  }

  /** A user's aside to another agent. */
  predicate AsideFrom(m: Row, agent: string) {
    m.role == UserRole && m.source.kind != FromDelegate && m.source.btw && ToAnother(m.source, agent)
  }

  /** Text with something to read in it. */
  predicate Reads(text: string) { exists i :: 0 <= i < |text| && text[i] !in {' ', '\n', '\t', '\r'} }

  /** The texts of a list of blocks that can be read, first to last. */
  function Texts(blocks: seq<Block>): seq<string> {
    if blocks == [] then []
    else (if blocks[0].TextBlock? && Reads(blocks[0].text) then [blocks[0].text] else []) + Texts(blocks[1..])
  }

  /** One text a line. */
  function Lined(texts: seq<string>): string
    decreases |texts|
  {
    if texts == [] then "" else if |texts| == 1 then texts[0] else Lined(texts[..|texts| - 1]) + "\n" + texts[|texts| - 1]
  }

  /** What a turn says, if it says anything. */
  predicate Speaks(c: Content) {
    match c
    case Text(text) => Reads(text)
    case Parts(blocks) => exists i :: 0 <= i < |blocks| && blocks[i].TextBlock? && Reads(blocks[i].text)
    case Scalar(_) => false
  }

  function Words(c: Content): string {
    match c
    case Text(text) => text
    case Parts(blocks) => Lined(Texts(blocks))
    case Scalar(_) => ""
  }

  /** A delegate message is seen by who sent it, unless an outsider asked for it; by whom it is for, unless the reply is
      for itself alone; and by all others if it is a request inside the conversation. Replies to outsiders are seen by
      their senders only. */
  predicate DelegateSeen(s: Source, agent: string) {
    && agent != "" && s.recipient != ""
    && (if agent == s.sender then s.reply || !s.external
        else if agent == s.recipient then !(s.reply && (s.external || s.selfOnly))
        else !s.reply && !s.external)
  }

  /** The agent sees this row of the transcript. */
  ghost predicate Seen(raw: seq<Row>, i: nat, agent: string)
    requires i < |raw|
  {
    var m := raw[i];
    match m.role
    case TraceRole => m.source.kind == FromAgent && By(m.source, agent)
    case ThinkingRole => By(m.source, agent)
    case ToolCallRole => By(m.source, agent)
    case ToolRole =>
      m.toolCall != NONE
      && exists j :: 0 <= j < |raw| && raw[j].role == ToolCallRole && raw[j].toolCall == m.toolCall && By(raw[j].source, agent)
    case SystemRole => true
    case UserRole => if m.source.kind == FromDelegate then DelegateSeen(m.source, agent) else !AsideFrom(m, agent)
    case AssistantRole =>
      if m.source.kind == FromDelegate then DelegateSeen(m.source, agent)
      else if m.source.kind == FromAgent && !By(m.source, agent) then !ApartFrom(m, agent) && Speaks(m.content)
      else true
  }

  /** The row of a delegate message as the agent sees it. */
  function DelegateShown(m: Row, agent: string): Row {
    var s := m.source;
    if agent == s.sender then
      m.(content := Marked(m.content, "[delegate " + s.sender + " \U{2192} "
                                      + (if s.recipientLabel == "" then s.recipient else s.recipientLabel) + "]:"))
    else
      m.(role := UserRole,
         content := Marked(m.content,
           if agent != s.recipient then "[" + s.sender + " to agent " + s.recipient + "]:"
           else if s.reply then "Here is agent '" + s.sender + "''s reply to your delegate:"
           else if s.external then "Here is a message from '" + (if s.senderLabel == "" then s.sender else s.senderLabel) + "':"
           else "Here is a message from agent '" + s.sender + "':"))
  }

  /** How the agent sees a row: another agent's turn in the user role under its name, a user's text under whom it was
      said to, and everything else as it was written. */
  function Shown(m: Row, agent: string): Row {
    if m.source.kind == FromDelegate && m.role in {UserRole, AssistantRole} then DelegateShown(m, agent)
    else if m.role == AssistantRole && m.source.kind == FromAgent && !By(m.source, agent) then
      m.(role := UserRole,
         content := Text("[Agent" + (if m.source.name == "" then "" else " " + m.source.name) + "]: " + Words(m.content)))
    else if m.role == UserRole && ToAnother(m.source, agent) && m.content.Text? then
      m.(content := Text("[User to agent " + m.source.target + "]: " + m.content.text))
    else m
  }

  // ---- one row ----

  lemma ReadsIs(text: string)
    ensures IsBlank(Text(text)) <==> !Reads(text)
  {
  }

  lemma {:induction false} LinedMore(text: string, texts: seq<string>)
    requires texts != []
    ensures Lined([text] + texts) == text + "\n" + Lined(texts)
    decreases |texts|
  {
    var n := |texts| - 1;
    assert ([text] + texts)[..|texts|] == [text] + texts[..n];
    if n == 0 {
      assert texts == [texts[0]] && [text] + texts[..0] == [text];
    } else {
      LinedMore(text, texts[..n]);
    }
  }

  lemma {:induction false} WordsOf(blocks: seq<Block>)
    ensures JoinText(blocks) == Lined(Texts(blocks))
    ensures Texts(blocks) == [] <==> !exists i :: 0 <= i < |blocks| && blocks[i].TextBlock? && Reads(blocks[i].text)
    ensures Texts(blocks) != [] ==> Reads(JoinText(blocks))
  {
    hide Reads, IsBlank;
    if blocks != [] {
      WordsOf(blocks[1..]);
      if blocks[0].TextBlock? { ReadsIs(blocks[0].text); }
      var rest := Texts(blocks[1..]);
      if blocks[0].TextBlock? && Reads(blocks[0].text) {
        assert Texts(blocks) == [blocks[0].text] + rest;
        if rest != [] {
          LinedMore(blocks[0].text, rest);
          Beyond(blocks[0].text, "\n" + JoinText(blocks[1..]));
          NotEmpty(JoinText(blocks[1..]));
          assert blocks[0].text + "\n" + Lined(rest) == blocks[0].text + ("\n" + Lined(rest));
        }
      } else {
        assert Texts(blocks) == rest;
        if i :| 0 <= i < |blocks| && blocks[i].TextBlock? && Reads(blocks[i].text) { assert blocks[1..][i - 1] == blocks[i]; }
      }
      if i :| 0 <= i < |blocks[1..]| && blocks[1..][i].TextBlock? && Reads(blocks[1..][i].text) {
        assert blocks[i + 1] == blocks[1..][i];
      }
    }
  }

  lemma Beyond(text: string, more: string)
    requires Reads(text)
    ensures Reads(text + more)
  {
    var i :| 0 <= i < |text| && text[i] !in {' ', '\n', '\t', '\r'};
    assert (text + more)[i] == text[i];
  }

  lemma NotEmpty(text: string)
    requires Reads(text)
    ensures text != ""
  {
  }

  lemma SpeaksIs(c: Content)
    ensures TextOf(c) == if Speaks(c) then Some(Words(c)) else None
  {
    match c
    case Text(text) => ReadsIs(text);
    case Scalar(_) =>
    case Parts(blocks) =>
      WordsOf(blocks);
      ReadsIs(JoinText(blocks));
      assert !Reads("");
  }

  lemma OwnIs(s: Source, agent: string)
    ensures IsOwn(s, agent) <==> By(s, agent)
  {
  }

  lemma OwnCallsAre(raw: seq<Row>, agent: string, call: Id)
    requires call != NONE
    ensures call in OwnCalls(raw, agent)
            <==> exists j :: 0 <= j < |raw| && raw[j].role == ToolCallRole && raw[j].toolCall == call && By(raw[j].source, agent)
  {
    if j :| 0 <= j < |raw| && raw[j].role == ToolCallRole && raw[j].toolCall == call && By(raw[j].source, agent) {
      assert raw[j].toolCall in OwnCalls(raw, agent);
    }
    if call in OwnCalls(raw, agent) {
      var j :| 0 <= j < |raw| && raw[j].role.ToolCallRole? && IsOwn(raw[j].source, agent) && raw[j].toolCall != NONE
               && raw[j].toolCall == call;
      OwnIs(raw[j].source, agent);
    }
  }

  lemma DelegateIs(m: Row, agent: string)
    requires m.role in {UserRole, AssistantRole}
    ensures DelegateView(m, agent) == if DelegateSeen(m.source, agent) then Some(DelegateShown(m, agent)) else None
  {
    var s := m.source;
    MarkedIs(m.content, SenderTag(s));
    MarkedIs(m.content, RequestTag(s));
    MarkedIs(m.content, ReplyTag(s));
    MarkedIs(m.content, MessageTag(s));
    hide Prefixed, Marked;
  }

  lemma AgentStub(name: string, words: string)
    ensures "[Agent" + (if name == "" then "" else " " + name) + "]: " + words
            == (if name != "" then "[Agent " + name + "]: " else "[Agent]: ") + words
  {
    if name == "" {
      assert "[Agent" + "" + "]: " == "[Agent]: ";
    } else {
      assert "[Agent" + (" " + name) + "]: " == "[Agent " + name + "]: ";
    }
  }

  lemma TurnIs(m: Row, agent: string, own: set<Id>)
    requires m.role == AssistantRole && m.source.kind == FromAgent && !By(m.source, agent)
    ensures RowView(m, agent, own) == if !ApartFrom(m, agent) && Speaks(m.content) then Some(Shown(m, agent)) else None
  {
    OwnIs(m.source, agent);
    SpeaksIs(m.content);
    AgentStub(m.source.name, Words(m.content));
    hide TextOf, Words, Speaks;
  }

  /** A row's view is what the agent sees of it. */
  lemma ViewIs(raw: seq<Row>, i: nat, agent: string)
    requires i < |raw|
    ensures RowView(raw[i], agent, OwnCalls(raw, agent)) == if Seen(raw, i, agent) then Some(Shown(raw[i], agent)) else None
  {
    var m := raw[i];
    OwnIs(m.source, agent);
    if m.role == AssistantRole && m.source.kind == FromAgent && !By(m.source, agent) {
      TurnIs(m, agent, OwnCalls(raw, agent));
      hide RowView, Speaks, Words, ApartFrom;
    } else {
      if m.role in {UserRole, AssistantRole} { DelegateIs(m, agent); }
      if m.toolCall != NONE { OwnCallsAre(raw, agent, m.toolCall); }
      hide OwnCalls, IsOwn, DelegateView, DelegateShown, DelegateSeen, Speaks, TextOf, Words, Marked;
    }
  }

  // ---- the whole view ----

  /** The rows the agent sees, by their places among the first `n`. */
  ghost function Picked(raw: seq<Row>, n: nat, agent: string): seq<nat>
    requires n <= |raw|
  {
    if n == 0 then [] else Picked(raw, n - 1, agent) + if Seen(raw, n - 1, agent) then [n - 1] else []
  }

  lemma {:induction false} PickedLaw(raw: seq<Row>, n: nat, agent: string)
    requires n <= |raw|
    ensures var picks := Picked(raw, n, agent);
            && (forall j, k :: 0 <= j < k < |picks| ==> picks[j] < picks[k])
            && (forall i: nat :: i in picks <==> i < n && Seen(raw, i, agent))
  {
    hide Seen;
    if n > 0 {
      PickedLaw(raw, n - 1, agent);
      var before := Picked(raw, n - 1, agent);
      assert forall j :: 0 <= j < |before| ==> before[j] in before;
    }
  }

  lemma {:induction false} ViewsAre(raw: seq<Row>, n: nat, agent: string)
    requires n <= |raw|
    ensures var out, picks := Views(raw[..n], agent, OwnCalls(raw, agent)), Picked(raw, n, agent);
            |out| == |picks| && forall j :: 0 <= j < |out| ==> picks[j] < |raw| && out[j] == Shown(raw[picks[j]], agent)
  {
    hide RowView, Seen, Shown, OwnCalls;
    if n > 0 {
      ViewsAre(raw, n - 1, agent);
      ViewIs(raw, n - 1, agent);
      assert raw[..n][..n - 1] == raw[..n - 1];
      PickedLaw(raw, n - 1, agent);
    }
  }

  /** The rebuilt view is exactly the rows the agent sees, each once, in the order of the transcript, each as shown. */
  lemma RebuildLaw(raw: seq<Row>, agent: string)
    ensures var out, picks := Rebuilt(raw, agent), Picked(raw, |raw|, agent);
            && |out| == |picks|
            && (forall j, k :: 0 <= j < k < |picks| ==> picks[j] < picks[k])
            && (forall i: nat :: i in picks <==> i < |raw| && Seen(raw, i, agent))
            && (forall j :: 0 <= j < |out| ==> picks[j] < |raw| && out[j] == Shown(raw[picks[j]], agent))
  {
    hide Seen, Shown, OwnCalls;
    ViewsAre(raw, |raw|, agent);
    PickedLaw(raw, |raw|, agent);
    assert raw[..|raw|] == raw;
  }

  // ---- what the view is for ----

  /** No row of the view was an aside to another agent, or another agent's turn in a task or an aside. */
  lemma NothingApart(raw: seq<Row>, agent: string, j: nat)
    requires j < |Rebuilt(raw, agent)|
    ensures exists i :: 0 <= i < |raw| && Rebuilt(raw, agent)[j] == Shown(raw[i], agent)
                        && !AsideFrom(raw[i], agent) && !ApartFrom(raw[i], agent)
  {
    RebuildLaw(raw, agent);
    var i := Picked(raw, |raw|, agent)[j];
    assert i in Picked(raw, |raw|, agent);
    hide Rebuilt, Picked, Shown, By, ToAnother, Speaks, DelegateSeen;
  }

  /** A user's message is in the view unless it is an aside to another agent, its text under whom it was said to. */
  lemma UsersAreSeen(raw: seq<Row>, i: nat, agent: string)
    requires i < |raw| && raw[i].role == UserRole && raw[i].source.kind != FromDelegate && !AsideFrom(raw[i], agent)
    ensures var m := raw[i];
            (if ToAnother(m.source, agent) && m.content.Text? then
               m.(content := Text("[User to agent " + m.source.target + "]: " + m.content.text))
             else m)
            in Rebuilt(raw, agent)
  {
    RebuildLaw(raw, agent);
    assert Seen(raw, i, agent) && i in Picked(raw, |raw|, agent);
    hide Rebuilt, Picked, Seen;
  }

  /** Another agent's turn that says something, outside tasks and asides, is in the view as a user row under its name. */
  lemma TurnsAreTold(raw: seq<Row>, i: nat, agent: string)
    requires i < |raw|
    requires var m := raw[i];
             m.role == AssistantRole && m.source.kind == FromAgent && m.source.name != ""
             && m.source.name != agent && m.source.task == "" && !m.source.btw && Speaks(m.content)
    ensures raw[i].(role := UserRole, content := Text("[Agent " + raw[i].source.name + "]: " + Words(raw[i].content)))
            in Rebuilt(raw, agent)
  {
    RebuildLaw(raw, agent);
    assert Seen(raw, i, agent) && i in Picked(raw, |raw|, agent);
    AgentStub(raw[i].source.name, Words(raw[i].content));
    hide Rebuilt, Picked, Seen, Words, Speaks;
  }

  /** A tool result is in the view exactly when some tool_call of the agent's own has its call id. */
  lemma ResultsAreOwn(raw: seq<Row>, i: nat, agent: string)
    requires i < |raw| && raw[i].role == ToolRole
    ensures raw[i] in Rebuilt(raw, agent)
            <==> raw[i].toolCall != NONE
                 && exists j :: 0 <= j < |raw| && raw[j].role == ToolCallRole && raw[j].toolCall == raw[i].toolCall
                                && By(raw[j].source, agent)
  {
    RebuildLaw(raw, agent);
    var out, picks := Rebuilt(raw, agent), Picked(raw, |raw|, agent);
    assert Seen(raw, i, agent) ==> i in picks;
    hide Rebuilt, Picked, By;
    if raw[i] in out {
      var j :| 0 <= j < |out| && out[j] == raw[i];
      assert picks[j] in picks;
      ShownResult(raw[picks[j]], agent);
    }
  }

  lemma ShownResult(m: Row, agent: string)
    requires Shown(m, agent).role == ToolRole
    ensures Shown(m, agent) == m
  {
    hide Words, Marked;
  }

  /** What live routing leaves with an agent: the sender's note of what it keeps, the request as others read it, and
      nothing for whom it is addressed to. */
  lemma LiveLaw(item: Item, m: Row, agent: string)
    requires m.source == item.message.source
    ensures LiveCopy(m, item.agent, agent)
            == if agent == D.From(item) then if D.Keeps(m.source) then Some(D.NotedRow(m, agent)) else None
               else if D.Requests(m.source) && agent != m.source.recipient && Reach.Signs(m.source)
               then Some(D.RequestRow(m, D.From(item)))
               else None
  {
    D.TagsAre(m, D.From(item));
    D.AttributedIs(m, item);
    hide SenderCopy, RequestCopy, D.NotedRow, D.RequestRow;
  }
}

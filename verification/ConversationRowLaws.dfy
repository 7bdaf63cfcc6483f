/** What one message becomes: its rows and the copies others get, told from the message's own fields. */
module ConversationRowLaws {
  import opened Basics
  import opened ConversationViews
  import opened ConversationRows
  import U = ConversationBursts

  // ---- rows ----

  /** The row a message is first of all. */
  function FirstRow(m: Message): Row {
    var turn := m.role.AssistantRole?;
    Row(m.role, m.id, m.content, m.source, if turn then NONE else m.toolCall, m.parent, m.tool, m.arguments,
        if turn then NONE else m.signature, m.attachments, m.time, 0)
  }

  /** A row for one call of an assistant message, behind the message's own row. */
  predicate CallIs(r: Row, c: Call, m: Message) {
    && r == Row(ToolCallRole, r.id, c.content, m.source, c.call, m.id, c.tool, c.arguments, NONE, [],
                if c.time == 0.0 then m.time else c.time, 0)
    && (c.row != NONE ==> r.id == c.row)
  }

  /** Call rows in order; the unnamed ones get ids of their own, above `next` and rising. */
  ghost predicate CallsAre(rows: seq<Row>, m: Message, next: nat) {
    && |rows| == |m.calls|
    && (forall i :: 0 <= i < |rows| ==> CallIs(rows[i], m.calls[i], m))
    && (forall i :: 0 <= i < |rows| && m.calls[i].row == NONE ==> next < rows[i].id)
    && (forall i, j :: 0 <= i < j < |rows| && m.calls[i].row == NONE && m.calls[j].row == NONE ==> rows[i].id < rows[j].id)
  }

  /** The newest tool_call row with this call id, counting from the end. */
  ghost predicate NewestCall(transcript: seq<Row>, call: Id, i: int) {
    && 0 <= i < |transcript| && transcript[i].role == ToolCallRole && transcript[i].toolCall == call
    && forall j :: i < j < |transcript| && transcript[j].role == ToolCallRole ==> transcript[j].toolCall != call
  }

  /** The row of a tool result hangs on the call it names, or on the one known, or on the newest one written. */
  ghost predicate ResultIs(r: Row, m: Message, parents: map<Id, Id>, transcript: seq<Row>) {
    && r == FirstRow(m).(parent := r.parent)
    && (m.parent != NONE || m.toolCall == NONE ==> r.parent == m.parent)
    && (m.parent == NONE && m.toolCall != NONE ==>
          if m.toolCall in parents && parents[m.toolCall] != NONE then r.parent == parents[m.toolCall]
          else
            && (forall i :: NewestCall(transcript, m.toolCall, i) ==> r.parent == transcript[i].id)
            && ((forall i :: !NewestCall(transcript, m.toolCall, i)) ==> r.parent == NONE))
  }

  predicate Thinks(m: Message) { m.thinking != "" || m.signature != NONE }

  /** The rows of a message: its own, then its thinking, then its calls. */
  ghost predicate RowsAre(s: State, m: Message, rows: seq<Row>) {
    match m.role
    case AssistantRole =>
      var lead := if Thinks(m) then 2 else 1;
      && |rows| == lead + |m.calls| && rows[0] == FirstRow(m)
      && (Thinks(m) ==> rows[1] == Row(ThinkingRole, s.next + 1, Text(m.thinking), m.source, NONE, m.id, NONE, NONE,
                                       m.signature, [], m.time, 0))
      && CallsAre(rows[lead..], m, s.next + lead - 1)
    case ToolRole => |rows| == 1 && ResultIs(rows[0], m, s.parents, s.transcript)
    case _ => rows == [FirstRow(m)]
  }

  /** One call more, with an id past all the unnamed ones before it. */
  lemma CallsMore(rows: seq<Row>, row: Row, m: Message, next: nat, last: nat)
    requires m.calls != [] && next <= last
    requires CallsAre(rows, m.(calls := m.calls[..|m.calls| - 1]), next)
    requires forall i :: 0 <= i < |rows| && m.calls[i].row == NONE ==> rows[i].id <= last
    requires CallIs(row, m.calls[|m.calls| - 1], m) && (m.calls[|m.calls| - 1].row == NONE ==> row.id == last + 1)
    ensures CallsAre(rows + [row], m, next)
  {
    var n := |m.calls| - 1;
    var all := rows + [row];
    forall i | 0 <= i < |all| ensures CallIs(all[i], m.calls[i], m) {
      if i < n { assert CallIs(rows[i], m.calls[..n][i], m.(calls := m.calls[..n])); }
    }
    hide CallIs;
  }

  lemma CallRowIs(c: Call, m: Message, newId: Id)
    ensures CallIs(CallRow(c, AnchorRow(m), newId), c, m)
    ensures c.row == NONE ==> CallRow(c, AnchorRow(m), newId).id == newId
  {
  }

  lemma CallRowsStep(calls: seq<Call>, anchor: Row, batch: map<Id, Id>, next: nat)
    requires calls != []
    ensures var n := |calls| - 1;
            var before := CallRows(calls[..n], anchor, batch, next);
            && CallRows(calls, anchor, batch, next).0 == before.0 + [CallRow(calls[n], anchor, before.2 + 1)]
            && CallRows(calls, anchor, batch, next).2 == if calls[n].row != NONE then before.2 else before.2 + 1
  {
    hide CallRow;
  }

  lemma CallRowsNone(anchor: Row, m: Message, batch: map<Id, Id>, next: nat)
    requires m.calls == []
    ensures CallsAre([], m, next) && CallRows([], anchor, batch, next).0 == [] && CallRows([], anchor, batch, next).2 == next
  {
  }

  lemma {:induction false} CallRowsAre(m: Message, batch: map<Id, Id>, next: nat)
    ensures var rows := CallRows(m.calls, AnchorRow(m), batch, next).0;
            var last := CallRows(m.calls, AnchorRow(m), batch, next).2;
            && CallsAre(rows, m, next) && |rows| == |m.calls| && next <= last
            && forall i :: 0 <= i < |rows| && m.calls[i].row == NONE ==> rows[i].id <= last
    decreases |m.calls|
  {
    hide CallsAre, CallIs, CallRow, CallRows;
    if m.calls == [] {
      CallRowsNone(AnchorRow(m), m, batch, next);
    } else {
      var n := |m.calls| - 1;
      var front := m.(calls := m.calls[..n]);
      assert AnchorRow(front) == AnchorRow(m);
      CallRowsAre(front, batch, next);
      CallRowsStep(m.calls, AnchorRow(m), batch, next);
      var before := CallRows(m.calls[..n], AnchorRow(m), batch, next);
      CallRowIs(m.calls[n], m, before.2 + 1);
      CallsMore(before.0, CallRow(m.calls[n], AnchorRow(m), before.2 + 1), m, next, before.2);
    }
  }

  lemma {:induction false} ScanIs(transcript: seq<Row>, call: Id)
    ensures forall i :: NewestCall(transcript, call, i) ==> Scan(transcript, call) == transcript[i].id
    ensures (forall i :: !NewestCall(transcript, call, i)) ==> Scan(transcript, call) == NONE
    decreases |transcript|
  {
    if transcript != [] {
      var n := |transcript| - 1;
      var front := transcript[..n];
      ScanIs(front, call);
      if transcript[n].role == ToolCallRole && transcript[n].toolCall == call {
        assert NewestCall(transcript, call, n);
      } else {
        forall i | i < n ensures NewestCall(front, call, i) <==> NewestCall(transcript, call, i) {
          assert forall j :: 0 <= j < n ==> front[j] == transcript[j];
        }
      }
    }
  }

  lemma ResultRow(m: Message, parents: map<Id, Id>, transcript: seq<Row>, next: nat)
    requires m.role.ToolRole?
    ensures var rows := Canonical(m, map[], parents, transcript, next).rows;
            |rows| == 1 && ResultIs(rows[0], m, parents, transcript)
  {
    ScanIs(transcript, m.toolCall);
    hide Scan, NewestCall, Cached;
  }

  lemma TurnRows(m: Message, parents: map<Id, Id>, transcript: seq<Row>, next: nat)
    requires m.role.AssistantRole?
    ensures var lead := if Thinks(m) then 2 else 1;
            var rows := Canonical(m, map[], parents, transcript, next).rows;
            rows[lead..] == CallRows(m.calls, AnchorRow(m), map[], next + lead - 1).0 && |rows| >= lead
            && rows[..lead] == [AnchorRow(m)] + ThoughtRows(m, next)
  {
    hide CallRows, CallsAre, AnchorRow;
  }

  lemma TurnRowsAre(s: State, m: Message)
    requires m.role.AssistantRole?
    ensures RowsAre(s, m, Expanded(s, m).rows)
  {
    hide CallRows, CallsAre, Canonical, ResultIs, AnchorRow;
    var lead := if Thinks(m) then 2 else 1;
    TurnRows(m, s.parents, s.transcript, s.next);
    CallRowsAre(m, map[], s.next + lead - 1);
    var rows := Expanded(s, m).rows;
    CallsLength(rows[lead..], m, s.next + lead - 1);
    AnchorIs(m);
    assert rows[0] == rows[..lead][0];
    if lead == 2 { assert rows[1] == rows[..lead][1]; }
  }

  lemma AnchorIs(m: Message)
    requires m.role.AssistantRole?
    ensures AnchorRow(m) == FirstRow(m)
  {
  }

  lemma CallsLength(rows: seq<Row>, m: Message, next: nat)
    requires CallsAre(rows, m, next)
    ensures |rows| == |m.calls|
  {
  }

  /** A message becomes these rows. */
  lemma RowsLaw(s: State, m: Message)
    ensures RowsAre(s, m, Expanded(s, m).rows)
  {
    hide CallRows, CallsAre, ParentOf, Cached, ResultIs;
    if m.role.AssistantRole? {
      TurnRowsAre(s, m);
    } else if m.role.ToolRole? {
      ResultRow(m, s.parents, s.transcript, s.next);
    }
  }

  // ---- copies ----

  /** Content with a tag in front, unless it carries the tag already. */
  function Marked(c: Content, tag: string): Content {
    match c
    case Text(text) => Text(if tag + "\n" <= text || tag + " " <= text then text else tag + "\n" + text)
    case Scalar(shown) => Text(if tag + "\n" <= shown || tag + " " <= shown then shown else tag + "\n" + shown)
    case Parts(blocks) =>
      if |blocks| > 0 && blocks[0].TextBlock? && blocks[0].text == tag then c else Parts([TextBlock(tag, NONE)] + blocks)
  }

  lemma MarkedIs(c: Content, tag: string)
    ensures Prefixed(c, tag) == Marked(c, tag)
  {
  }

  /** An agent's turn is announced by its name, with any task or aside it was made in. */
  function AgentTag(s: Source): string {
    "[Agent " + s.name + (if s.task != "" then " in Task " + s.task else if s.btw then " in /btw" else "") + "]:"
  }

  function UserTag(s: Source): string { "[User to agent " + s.target + (if s.btw then " in /btw" else "") + "]:" }

  /** The copy in the shared context: an agent's turn in the user role under its name, a user's message under whom it
      was for. */
  function SharedCopy(row: Row): Row {
    if row.source.kind == FromAgent then row.(role := UserRole, content := Marked(row.content, AgentTag(row.source)))
    else if row.source.kind == FromUser && row.source.target != "" then row.(content := Marked(row.content, UserTag(row.source)))
    else row
  }

  /** An agent's own copy is the row itself; anybody else reads the shared one. */
  function CopyFor(row: Row, agent: string): Row {
    if row.source.kind == FromAgent && row.source.name == agent && row.source.task == "" && !row.source.btw then row
    else if row.source.kind == FromUser && row.source.target == agent && !row.source.btw then row
    else SharedCopy(row)
  }

  predicate Named(s: Source) { s.kind == FromAgent ==> s.name != "" }

  lemma AgentTagIs(s: Source)
    ensures AgentPrefix(s.name, s) == AgentTag(s)
  {
    var front := "[Agent " + s.name;
    if s.task != "" {
      assert front + " in Task " + s.task + "]:" == front + (" in Task " + s.task) + "]:";
    } else if s.btw {
      assert front + " in /btw]:" == front + " in /btw" + "]:";
    } else {
      assert front + "" + "]:" == front + "]:";
    }
  }

  lemma UserTagIs(s: Source)
    ensures UserPrefix(s.target, s) == UserTag(s)
  {
    var front := "[User to agent " + s.target;
    if s.btw {
      assert front + " in /btw]:" == front + " in /btw" + "]:";
    } else {
      assert front + "" + "]:" == front + "]:";
    }
  }

  /** The shared and the direct copies are these; without a name there is none. */
  lemma CopiesLaw(row: Row, agent: string)
    requires agent != ""
    ensures ForShared(row) == if Named(row.source) then Some(SharedCopy(row)) else None
    ensures ForAgent(row, agent) == if Named(row.source) then Some(CopyFor(row, agent)) else None
  {
    AgentTagIs(row.source);
    UserTagIs(row.source);
    MarkedIs(row.content, AgentTag(row.source));
    MarkedIs(row.content, UserTag(row.source));
    hide Marked, Prefixed, AgentTag, UserTag, AgentPrefix, UserPrefix;
  }

  /** Something is said: an assistant's turn has more than white space. */
  predicate Says(m: Message) {
    match m.role
    case AssistantRole =>
      (match m.content
       case Text(text) => exists i :: 0 <= i < |text| && text[i] !in {' ', '\n', '\t', '\r'}
       case Scalar(shown) => exists i :: 0 <= i < |shown| && shown[i] !in {' ', '\n', '\t', '\r'}
       case Parts(_) => true)
    case UserRole => true
    case SystemRole => true
    case TraceRole => true
    case _ => false
  }

  /** The message may be shared at all: it says something and is no injected context. */
  lemma SaysIs(m: Message)
    ensures Shareable(BaseRow(m)) <==> Says(m) && m.source.kind != FromContext
  {
  }

  /** The rows of a message that may be shared: its first, if it says something. */
  lemma CandidatesLaw(m: Message, batch: map<Id, Id>, parents: map<Id, Id>, transcript: seq<Row>, next: nat)
    ensures FilterForShared(Canonical(m, batch, parents, transcript, next).rows)
            == if Says(m) && m.source.kind != FromContext then [FirstRow(m)] else []
  {
    U.Candidates(m, batch, parents, transcript, next);
    SaysIs(m);
    hide FilterForShared, Shareable, Says, CallRows, ParentOf, Cached;
    if Says(m) { SaysRole(m); }
  }

  lemma SaysRole(m: Message)
    requires Says(m)
    ensures !m.role.ToolRole?
  {
  }

  // ---- known parents ----

  /** The newest written line that makes this call known. */
  ghost predicate Names(lines: seq<Row>, call: Id, i: int) {
    && 0 <= i < |lines| && Calls(lines[i], call)
    && forall j :: i < j < |lines| ==> !Calls(lines[j], call)
  }

  predicate Calls(line: Row, call: Id) { line.role == ToolCallRole && line.toolCall == call && call != NONE && line.id != NONE }

  ghost predicate SameParent(before: map<Id, Id>, after: map<Id, Id>, call: Id) {
    (call in after <==> call in before) && (call in before ==> after[call] == before[call])
  }

  /** Written calls are known by their newest line; what else was known stays. */
  lemma {:induction false} RememberIs(parents: map<Id, Id>, lines: seq<Row>, call: Id)
    ensures var after := Remember(parents, lines);
            && (forall i :: Names(lines, call, i) ==> call in after && after[call] == lines[i].id)
            && ((forall i :: !Names(lines, call, i)) ==> SameParent(parents, after, call))
    decreases |lines|
  {
    if lines != [] {
      var n := |lines| - 1;
      var front := lines[..n];
      RememberIs(parents, front, call);
      if Calls(lines[n], call) {
        assert Names(lines, call, n);
        assert forall i :: Names(lines, call, i) ==> i == n;
      } else {
        forall i ensures Names(front, call, i) <==> Names(lines, call, i) {
          assert forall j :: 0 <= j < n ==> front[j] == lines[j];
        }
      }
    }
  }

  /** A result whose call is neither named nor known by then. */
  predicate Searches(parents: map<Id, Id>, m: Message) {
    m.role == ToolRole && m.parent == NONE && m.toolCall != NONE && !(m.toolCall in parents && parents[m.toolCall] != NONE)
  }

  /** The transcript's line that such a result's call is found at. */
  ghost predicate Found(s: State, m: Message, call: Id, i: int) {
    Searches(s.parents, m) && call == m.toolCall && NewestCall(s.transcript, call, i) && s.transcript[i].id != NONE
  }

  /** A call that had to be searched for in the transcript is known from then on. */
  lemma CachedLaw(s: State, m: Message, call: Id)
    ensures var after := Expanded(s, m).parents;
            && (forall i :: Found(s, m, call, i) ==>
                  0 <= i < |s.transcript| && call in after && after[call] == s.transcript[i].id)
            && ((forall i :: !Found(s, m, call, i)) ==> SameParent(s.parents, after, call))
  {
    ScanIs(s.transcript, m.toolCall);
    assert forall i :: NewestCall(s.transcript, m.toolCall, i) ==> 0 <= i < |s.transcript|;
    hide Scan, CallRows, ParentOf, NewestCall;
    if i :| NewestCall(s.transcript, m.toolCall, i) && call == m.toolCall && Searches(s.parents, m) {
      assert Found(s, m, call, i) <==> s.transcript[i].id != NONE;
    }
  }

  // ---- reading ----

  /** A context is read with every row as often as it was written, by time, and rows of one time by their numbers. */
  lemma ReadingLaw(rows: seq<Row>)
    ensures multiset(InOrder(rows)) == multiset(rows)
    ensures forall i, j :: 0 <= i < j < |InOrder(rows)| ==>
              var a, b := InOrder(rows)[i], InOrder(rows)[j];
              a.time < b.time || (a.time == b.time && a.seqNo <= b.seqNo)
  {
    InOrderIs(rows);
    hide InOrder;
  }
}

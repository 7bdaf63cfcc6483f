/** One logical message becomes canonical rows, and rows become lines of the files they belong in
    (core/_conversation_store_paths.py, core/_conversation_store_append.py). */
module ConversationRows {
  import opened Basics
  import opened ConversationViews

  /** `time` is 0.0 if the call has none of its own. */
  datatype Call = Call(call: Id, row: Id, content: Content, tool: Id, arguments: Id, time: real)

  /** A logical message; tool calls and thinking belong to assistant messages only. `time` is when it was made if
      it is `dated`, and when it is written if it is not. */
  datatype Message = Message(
    role: Role, id: Id, dated: bool, time: real, content: Content, source: Source, toolCall: Id, parent: Id, tool: Id, arguments: Id,
    calls: seq<Call>, thinking: string, signature: Id, attachments: seq<Id>, displayOnly: bool)

  /** What the writer hands to the store: a message and the agent it writes as. */
  datatype Item = Item(message: Message, agent: string)

  /** The files and caches of one conversation. A context exists when the agent is a key; `agents` is
      the append cache once it is warm, `declared` the roster it is first filled from. `next` numbers
      fresh row ids, `seqNo` the lines written. */
  datatype State = State(
    transcript: seq<Row>, shared: seq<Row>, contexts: map<string, seq<Row>>, inboxes: map<string, seq<Row>>,
    parents: map<Id, Id>, warm: bool, agents: set<string>, declared: set<string>, next: nat, seqNo: nat)

  // ---- canonical rows ----

  /** The newest tool_call row of the transcript with this call id. */
  function Scan(transcript: seq<Row>, call: Id): Id {
    if transcript == [] then NONE
    else
      var last := transcript[|transcript| - 1];
      if last.role.ToolCallRole? && last.toolCall == call then last.id
      else Scan(transcript[..|transcript| - 1], call)
  }

  /** Rows of one message, with the maps and counter it advanced. */
  datatype Canon = Canon(rows: seq<Row>, batch: map<Id, Id>, parents: map<Id, Id>, next: nat)

  function BaseRow(m: Message): Row {
    Row(m.role, m.id, m.content, m.source, m.toolCall, m.parent, m.tool, m.arguments, m.signature, m.attachments, m.time, 0)
  }

  /** The parent of a tool result: named, known in the batch, cached, or found in the transcript. */
  function ParentOf(m: Message, batch: map<Id, Id>, parents: map<Id, Id>, transcript: seq<Row>): Id {
    if m.parent != NONE then m.parent
    else if m.toolCall in batch && batch[m.toolCall] != NONE then batch[m.toolCall]
    else if m.toolCall in parents && parents[m.toolCall] != NONE then parents[m.toolCall]
    else Scan(transcript, m.toolCall)
  }

  /** A parent found in the transcript is cached. */
  function Cached(m: Message, batch: map<Id, Id>, parents: map<Id, Id>, transcript: seq<Row>): map<Id, Id> {
    if m.parent != NONE || (m.toolCall in batch && batch[m.toolCall] != NONE)
       || (m.toolCall in parents && parents[m.toolCall] != NONE) || Scan(transcript, m.toolCall) == NONE
    then parents
    else parents[m.toolCall := Scan(transcript, m.toolCall)]
  }

  function CallRow(c: Call, anchor: Row, newId: Id): Row {
    Row(ToolCallRole, if c.row != NONE then c.row else newId, c.content, anchor.source, c.call, anchor.id, c.tool,
        c.arguments, NONE, [], if c.time != 0.0 then c.time else anchor.time, 0)
  }

  /** The tool_call rows of an assistant message. */
  function CallRows(calls: seq<Call>, anchor: Row, batch: map<Id, Id>, next: nat): (seq<Row>, map<Id, Id>, nat)
    decreases |calls|
  {
    if calls == [] then ([], batch, next)
    else
      var n := |calls| - 1;
      var (rows, known, last) := CallRows(calls[..n], anchor, batch, next);
      var row := CallRow(calls[n], anchor, last + 1);
      (rows + [row], if calls[n].call != NONE then known[calls[n].call := row.id] else known,
       if calls[n].row != NONE then last else last + 1)
  }

  function AnchorRow(m: Message): Row { BaseRow(m).(toolCall := NONE, signature := NONE) }

  /** The thinking row of an assistant message, if it has any thinking. */
  function ThoughtRows(m: Message, next: nat): seq<Row> {
    if m.thinking == "" && m.signature == NONE then []
    else [Row(ThinkingRole, next + 1, Text(m.thinking), m.source, NONE, m.id, NONE, NONE, m.signature, [], m.time, 0)]
  }

  function Canonical(m: Message, batch: map<Id, Id>, parents: map<Id, Id>, transcript: seq<Row>, next: nat): (c: Canon)
    ensures c.rows != []
  {
    var row := BaseRow(m);
    match m.role
    case AssistantRole =>
      var anchor := AnchorRow(m);
      var (calls, known, last) := CallRows(m.calls, anchor, batch, next + |ThoughtRows(m, next)|);
      Canon([anchor] + ThoughtRows(m, next) + calls, known, parents, last)
    case ToolCallRole =>
      Canon([row], if m.toolCall != NONE then batch[m.toolCall := m.id] else batch, parents, next)
    case ToolRole =>
      if m.toolCall == NONE then Canon([row], batch, parents, next)
      else Canon([row.(parent := ParentOf(m, batch, parents, transcript))], batch,
                 Cached(m, batch, parents, transcript), next)
    case _ => Canon([row], batch, parents, next)
  }

  // ---- lines ----

  /** Lines are numbered in the order they are written. */
  function Stamped(rows: seq<Row>, seqNo: nat): (lines: seq<Row>)
    ensures |lines| == |rows|
    ensures forall i :: 0 <= i < |rows| ==> lines[i] == rows[i].(seqNo := seqNo + 1 + i)
  {
    seq(|rows|, i requires 0 <= i < |rows| => rows[i].(seqNo := seqNo + 1 + i))
  }

  /** Tool calls written to the transcript become known parents, newest last. */
  function Remember(parents: map<Id, Id>, lines: seq<Row>): map<Id, Id>
    decreases |lines|
  {
    if lines == [] then parents
    else
      var known := Remember(parents, lines[..|lines| - 1]);
      var last := lines[|lines| - 1];
      if last.role.ToolCallRole? && last.toolCall != NONE && last.id != NONE then known[last.toolCall := last.id] else known
  }

  // ---- routing ----

  /** Everything but a system prompt carries its id and its time. */
  predicate Minted(m: Message) { !m.role.SystemRole? ==> m.id != NONE && m.dated }

  predicate ValidMessage(m: Message) {
    && Minted(m)
    && (m.role.UserRole? && !m.source.kind.FromContext? ==> m.source.target != "")
  }

  /** The agent whose own context the message belongs in. */
  function RouteOf(item: Item): string {
    if item.agent != "" then item.agent
    else if item.message.source.target != "ALL" && item.message.source.target != "all" then item.message.source.target
    else ""
  }

  function ShareAll(rows: seq<Row>): Option<seq<Row>> {
    if rows == [] then Some([])
    else match ForShared(rows[0])
      case None => None
      case Some(row) =>
        match ShareAll(rows[1..]) case None => None case Some(rest) => Some([row] + rest)
  }

  function ViewAll(rows: seq<Row>, agent: string): Option<seq<Row>> {
    if rows == [] then Some([])
    else match ForAgent(rows[0], agent)
      case None => None
      case Some(row) =>
        match ViewAll(rows[1..], agent) case None => None case Some(rest) => Some([row] + rest)
  }

  function Personalized(rows: seq<Row>, agent: string): seq<Row> {
    seq(|rows|, i requires 0 <= i < |rows| => FromShared(rows[i], agent))
  }

  function ContextOf(contexts: map<string, seq<Row>>, agent: string): seq<Row> {
    if agent in contexts then contexts[agent] else []
  }

  // ---- reading a context ----

  /** A context is read in the order its rows were made, not written; rows made at once keep their line order. */
  predicate AtMost(a: Row, b: Row) { a.time < b.time || (a.time == b.time && a.seqNo <= b.seqNo) }

  function Inserted(rows: seq<Row>, row: Row): seq<Row>
    decreases |rows|
  {
    if rows == [] || AtMost(rows[|rows| - 1], row) then rows + [row]
    else Inserted(rows[..|rows| - 1], row) + [rows[|rows| - 1]]
  }

  function InOrder(rows: seq<Row>): seq<Row>
    decreases |rows|
  {
    if rows == [] then [] else Inserted(InOrder(rows[..|rows| - 1]), rows[|rows| - 1])
  }

  ghost predicate Sorted(rows: seq<Row>) { forall i, j :: 0 <= i < j < |rows| ==> AtMost(rows[i], rows[j]) }

  lemma {:induction false} InsertedBelow(rows: seq<Row>, row: Row, top: Row)
    requires AtMost(row, top) && forall i :: 0 <= i < |rows| ==> AtMost(rows[i], top)
    ensures forall i :: 0 <= i < |Inserted(rows, row)| ==> AtMost(Inserted(rows, row)[i], top)
    decreases |rows|
  {
    hide AtMost;
    if rows != [] && !AtMost(rows[|rows| - 1], row) { InsertedBelow(rows[..|rows| - 1], row, top); }
  }

  lemma {:induction false} InsertedSorted(rows: seq<Row>, row: Row)
    requires Sorted(rows)
    ensures Sorted(Inserted(rows, row))
    decreases |rows|
  {
    if rows != [] {
      var n := |rows| - 1;
      if !AtMost(rows[n], row) {
        InsertedSorted(rows[..n], row);
        InsertedBelow(rows[..n], row, rows[n]);
      }
    }
  }

  lemma {:induction false} InsertedHolds(rows: seq<Row>, row: Row)
    ensures multiset(Inserted(rows, row)) == multiset(rows) + multiset{row}
    decreases |rows|
  {
    hide AtMost;
    if rows != [] && !AtMost(rows[|rows| - 1], row) {
      var n := |rows| - 1;
      InsertedHolds(rows[..n], row);
      assert rows == rows[..n] + [rows[n]];
    }
  }

  /** Reading sorts and loses nothing. */
  lemma {:induction false} InOrderIs(rows: seq<Row>)
    ensures var out := InOrder(rows); |out| == |rows| && multiset(out) == multiset(rows) && Sorted(out)
    decreases |rows|
  {
    hide Sorted, Inserted;
    if rows != [] {
      var n := |rows| - 1;
      InOrderIs(rows[..n]);
      InsertedSorted(InOrder(rows[..n]), rows[n]);
      InsertedHolds(InOrder(rows[..n]), rows[n]);
      assert rows == rows[..n] + [rows[n]];
      assert |multiset(InOrder(rows))| == |multiset(rows)|;
    } else {
      SortedNone();
    }
  }

  lemma SortedNone()
    ensures Sorted([])
  {
  }

  function SeedOf(shared: seq<Row>, agent: string): seq<Row> { Personalized(InOrder(shared), agent) }

  /** A missing context starts as the personalized shared context, if there is one. */
  function Seeded(s: State, agent: string): State {
    if agent in s.contexts || s.shared == [] then s
    else s.(contexts := s.contexts[agent := SeedOf(s.shared, agent)])
  }

  function AppendContext(s: State, agent: string, rows: seq<Row>): State {
    s.(contexts := s.contexts[agent := ContextOf(s.contexts, agent) + Stamped(rows, s.seqNo)], seqNo := s.seqNo + |rows|)
  }

  function AppendTranscript(s: State, rows: seq<Row>): State {
    var lines := Stamped(rows, s.seqNo);
    s.(transcript := s.transcript + lines, parents := Remember(s.parents, lines), seqNo := s.seqNo + |rows|)
  }

  /** Who a shared row is broadcast to. */
  function Known(s: State, item: Item): set<string> {
    var route := RouteOf(item);
    (if item.message.role.UserRole? && route != "" && !s.warm then {}
     else if s.warm then s.agents else s.declared)
    + (if route != "" then {route} else {})
  }

  function Others(s: State, item: Item): set<string> {
    set a | a in Known(s, item) && a != "" && a != RouteOf(item)
  }

  /** Looking the roster up warms the append cache. */
  function Looked(s: State, item: Item): State {
    if s.warm || (item.message.role.UserRole? && RouteOf(item) != "") then s
    else s.(warm := true, agents := s.declared)
  }

  /** Every other agent receives its own view of the shared rows as catch-up. */
  function Queued(inboxes: map<string, seq<Row>>, others: set<string>, rows: seq<Row>): map<string, seq<Row>> {
    map a | a in inboxes.Keys + others ::
      ContextOf(inboxes, a) + (if a in others then ViewOr(rows, a) else [])
  }

  function ViewOr(rows: seq<Row>, agent: string): seq<Row> {
    var view := ViewAll(rows, agent); if view.Some? then view.value else []
  }

  function SharedOr(rows: seq<Row>): seq<Row> {
    var view := ShareAll(rows); if view.Some? then view.value else []
  }

  function Noted(s: State, touched: set<string>): State {
    if touched == {} then s
    else s.(agents := (if s.warm then s.agents else {}) + touched, warm := true)
  }

  predicate ReachesShared(item: Item) {
    !item.message.source.kind.FromContext? && !item.message.source.targetOnly
  }

  /** A catch-up row needs somebody to name as its sender. */
  predicate Sendable(source: Source) { source.sender != "" || source.name != "" }

  /** Catch-up for the others; without a sender the first of them is an error, and nothing is queued. */
  function CaughtUp(inboxes: map<string, seq<Row>>, others: set<string>, source: Source, rows: seq<Row>):
    map<string, seq<Row>>
  {
    if Sendable(source) then Queued(inboxes, others, rows) else inboxes
  }

  /** Own context, shared context and catch-up inboxes, for everything but delegate traffic: what is
      written before an author or a sender turns out to be missing stays written. */
  function Fanned(s: State, item: Item, rows: seq<Row>): State {
    var route := RouteOf(item);
    var own := if route == "" then s
               else AppendContext(if item.message.source.kind.FromContext? then s else Seeded(s, route), route, rows);
    var candidates := FilterForShared(rows);
    if !ReachesShared(item) || candidates == [] || ShareAll(candidates).None? then own
    else
      var lines := Stamped(SharedOr(candidates), own.seqNo);
      Looked(own, item).(shared := own.shared + lines, seqNo := own.seqNo + |lines|,
                         inboxes := CaughtUp(own.inboxes, Others(own, item), item.message.source, candidates))
  }

  /** Routing goes through: the shared rows have a named author, and whoever catches up a sender. */
  predicate FanAccepted(s: State, item: Item, rows: seq<Row>) {
    var candidates := FilterForShared(rows);
    ReachesShared(item) && candidates != [] ==>
      ShareAll(candidates).Some? && (Sendable(item.message.source) || Others(s, item) == {})
  }

  function Touched(s: State, item: Item, rows: seq<Row>): set<string> {
    (if RouteOf(item) != "" then {RouteOf(item)} else {})
    + (if ReachesShared(item) && FilterForShared(rows) != [] then Others(s, item) else {})
  }

  // ---- delegate traffic ----

  function SenderTag(s: Source): string {
    "[delegate " + s.sender + " \U{2192} " + (if s.recipientLabel != "" then s.recipientLabel else s.recipient) + "]:"
  }

  function RequestTag(s: Source): string { "[" + s.sender + " to agent " + s.recipient + "]:" }

  /** The sender's own copy, and the copy everybody else sees of a request. */
  function SenderCopy(m: Row): Row { m.(content := Prefixed(m.content, SenderTag(m.source))) }

  function RequestCopy(m: Row): Row {
    m.(role := if m.role.AssistantRole? then UserRole else m.role, content := Prefixed(m.content, RequestTag(m.source)))
  }

  /** The anchor row with its sender filled in from the writer. */
  function Attributed(m: Row, agent: string): Row {
    if m.source.sender != "" then m else m.(source := m.source.(sender := agent))
  }

  predicate SenderKeeps(s: Source) { !s.external || s.reply }

  predicate Projects(s: Source) { !s.reply && !s.external }

  function Bystanders(s: State, source: Source, touched: set<string>): set<string> {
    var known := (if s.warm then s.agents else s.declared) + touched;
    set a | a in known && a != "" && a != source.sender && a != source.recipient
  }

  /** Private routing between two agents: the sender keeps every row, a request is also shared and,
      under its line number there, queued for the others. */
  function Delegated(s: State, item: Item, rows: seq<Row>): State
    requires rows != []
  {
    var source := Attributed(rows[0], item.agent).source;
    if source.recipient == "" then s
    else
      var anchor := rows[0].(source := source);
      var own := if SenderKeeps(source)
                 then AppendContext(s, source.sender, [SenderCopy(anchor).(source := rows[0].source)] + rows[1..]) else s;
      if !Projects(source) then own
      else
        var copy := RequestCopy(anchor).(source := rows[0].source, seqNo := own.seqNo + 1);
        var looked := if own.warm then own else own.(warm := true, agents := own.declared);
        looked.(shared := own.shared + [copy], seqNo := own.seqNo + 1,
                inboxes := CaughtUp(own.inboxes, Bystanders(own, source, DelegateTouched(source)), rows[0].source, [copy]))
  }

  /** A request with bystanders needs a sender on the row itself: the writer's name is not written back. */
  predicate DelegateAccepted(s: State, item: Item, rows: seq<Row>)
    requires rows != []
  {
    var source := Attributed(rows[0], item.agent).source;
    source.recipient != "" && Projects(source) ==>
      Sendable(rows[0].source) || Bystanders(s, source, DelegateTouched(source)) == {}
  }

  function DelegateTouched(source: Source): set<string> {
    if source.recipient != "" && SenderKeeps(source) then {source.sender} else {}
  }

  // ---- appending ----

  /** The rows of a message, and the store with them in the transcript. */
  function Expanded(s: State, m: Message): Canon {
    Canonical(m, map[], s.parents, s.transcript, s.next)
  }

  function LoggedOne(s: State, m: Message): State {
    var canon := Expanded(s, m);
    var numbered := s.(parents := canon.parents, next := canon.next);
    if m.source.kind.FromContext? then numbered else AppendTranscript(numbered, canon.rows)
  }

  function DelegateReach(s: State, source: Source): set<string> {
    DelegateTouched(source)
    + if Projects(source) && source.recipient != "" then Bystanders(s, source, DelegateTouched(source)) else {}
  }

  /** Appending one message: an invalid one writes nothing, one whose routing fails leaves what it had
      written and no note of whom it reached. */
  function AppendOne(s: State, item: Item): State {
    var m := item.message;
    if !ValidMessage(m) then s
    else
      var rows := Expanded(s, m).rows;
      var logged := LoggedOne(s, m);
      if m.displayOnly then logged
      else if m.source.kind.FromDelegate? then
        var routed := Delegated(logged, item, rows);
        if DelegateAccepted(logged, item, rows)
        then Noted(routed, DelegateReach(logged, Attributed(rows[0], item.agent).source)) else routed
      else
        var fanned := Fanned(logged, item, rows);
        if m.source.kind.FromContext? || !FanAccepted(logged, item, rows) then fanned
        else Noted(fanned, Touched(logged, item, rows))
  }

  /** The append raises nothing. */
  predicate Accepted(s: State, item: Item) {
    var m := item.message;
    && ValidMessage(m)
    && (m.displayOnly
        || (if m.source.kind.FromDelegate? then DelegateAccepted(LoggedOne(s, m), item, Expanded(s, m).rows)
            else FanAccepted(LoggedOne(s, m), item, Expanded(s, m).rows)))
  }

  function AppendAll(s: State, items: seq<Item>): State
    decreases |items|
  {
    if items == [] then s else AppendOne(AppendAll(s, items[..|items| - 1]), items[|items| - 1])
  }

  /** A message every step of routing accepts: its shared rows have a named author and a sender for
      the catch-up inboxes. */
  predicate Routable(item: Item) {
    && ValidMessage(item.message)
    && (item.message.source.kind.FromAgent? ==> item.message.source.name != "")
    && (ReachesShared(item) ==> Sendable(item.message.source))
  }

  // ---- what the transcript holds ----

  predicate HasId(transcript: seq<Row>, id: Id) {
    exists i :: 0 <= i < |transcript| && transcript[i].id == id
  }

  /** Where the segments of a log of `n` rows begin, the oldest first. */
  predicate Segmented(starts: seq<nat>, n: nat) {
    && starts != [] && starts[0] == 0 && starts[|starts| - 1] <= n
    && forall i, j :: 0 <= i < j < |starts| ==> starts[i] <= starts[j]
  }

  function FirstOf(rows: seq<Row>, id: Id): Row
    requires HasId(rows, id)
  {
    if rows[0].id == id then rows[0] else FirstOf(rows[1..], id)
  }

  /** The first row with this id in the newest segment that has one. */
  function RowOf(transcript: seq<Row>, starts: seq<nat>, id: Id): Row
    requires Segmented(starts, |transcript|) && HasId(transcript, id)
    decreases |starts|
  {
    var n := |starts| - 1;
    if HasId(transcript[starts[n]..], id) then FirstOf(transcript[starts[n]..], id)
    else
      OlderHasId(transcript, starts[n], id);
      RowOf(transcript[..starts[n]], starts[..n], id)
  }

  lemma OlderHasId(transcript: seq<Row>, n: nat, id: Id)
    requires n <= |transcript| && HasId(transcript, id)
    ensures HasId(transcript[..n], id) || HasId(transcript[n..], id)
  {
    var i :| 0 <= i < |transcript| && transcript[i].id == id;
    if i < n {
      assert transcript[..n][i].id == id;
    } else {
      assert transcript[n..][i - n].id == id;
    }
  }

  lemma FanKeepsTranscript(s: State, item: Item, rows: seq<Row>)
    ensures Fanned(s, item, rows).transcript == s.transcript
  {
    hide Stamped, SharedOr, ShareAll, CaughtUp, Others, FilterForShared, SeedOf;
  }

  lemma DelegateKeepsTranscript(s: State, item: Item, rows: seq<Row>)
    requires rows != []
    ensures Delegated(s, item, rows).transcript == s.transcript
  {
    hide Stamped, CaughtUp, Bystanders, Attributed, SenderCopy, RequestCopy, Projects, SenderKeeps;
  }

  lemma TranscriptGrows(s: State, item: Item)
    ensures s.transcript <= AppendOne(s, item).transcript
    ensures ValidMessage(item.message) && !item.message.source.kind.FromContext? ==>
              HasId(AppendOne(s, item).transcript, item.message.id)
  {
    hide Fanned, Delegated, Noted, Bystanders, Touched, DelegateReach, FanAccepted, DelegateAccepted, ValidMessage;
    var rows := Expanded(s, item.message).rows;
    var logged := LoggedOne(s, item.message);
    FanKeepsTranscript(logged, item, rows);
    DelegateKeepsTranscript(logged, item, rows);
    NotedKeeps(Fanned(logged, item, rows), Touched(logged, item, rows));
    var source := Attributed(rows[0], item.agent).source;
    NotedKeeps(Delegated(logged, item, rows), DelegateReach(logged, source));
    if !item.message.source.kind.FromContext? {
      assert logged.transcript[|s.transcript|].id == item.message.id;
    }
  }

  lemma NotedKeeps(s: State, touched: set<string>)
    ensures Noted(s, touched).transcript == s.transcript
  {
  }

  /** The id of every valid message is in the transcript from then on, even when its routing failed, so a
      retry finds it there. */
  lemma {:induction false} AppendedIdsStay(s: State, items: seq<Item>, i: nat)
    requires i < |items| && ValidMessage(items[i].message) && !items[i].message.source.kind.FromContext?
    ensures HasId(AppendAll(s, items).transcript, items[i].message.id)
    decreases |items|
  {
    hide AppendOne;
    var n := |items| - 1;
    var before := AppendAll(s, items[..n]);
    TranscriptGrows(before, items[n]);
    if i < n {
      AppendedIdsStay(s, items[..n], i);
      var j :| 0 <= j < |before.transcript| && before.transcript[j].id == items[i].message.id;
      assert AppendOne(before, items[n]).transcript[j].id == items[i].message.id;
    }
  }

  /** An append to a context moves nothing but that context and the counter. */
  lemma ContextGrows(s: State, agent: string, rows: seq<Row>)
    ensures var after := AppendContext(s, agent, rows);
            && after == s.(contexts := after.contexts, seqNo := s.seqNo + |rows|)
  {
  }
}

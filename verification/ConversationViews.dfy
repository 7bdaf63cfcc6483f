/** Conversation rows and how each reader sees them (core/_conversation_store_ctxio.py). */
module ConversationViews {
  import opened Basics

  /** A block of multipart content; `extra` stands for whatever else a text block carries. */
  datatype Block = TextBlock(text: string, extra: Id) | MediaBlock(id: Id)

  /** Scalar is content that is neither a string nor a list; `shown` is how it prints. */
  datatype Content = Text(text: string) | Parts(blocks: seq<Block>) | Scalar(shown: string)

  datatype Role = UserRole | AssistantRole | SystemRole | ToolRole | ToolCallRole | ThinkingRole | TraceRole

  datatype SourceKind = NoKind | FromUser | FromAgent | FromDelegate | FromContext

  datatype Source = Source(
    kind: SourceKind, name: string, target: string, task: string, btw: bool, sender: string, recipient: string,
    reply: bool, external: bool, recipientLabel: string, senderLabel: string, selfOnly: bool, targetOnly: bool)

  datatype Row = Row(
    role: Role, id: Id, content: Content, source: Source, toolCall: Id, parent: Id, tool: Id, arguments: Id,
    signature: Id, attachments: seq<Id>, time: real, seqNo: nat)

  // ---- prefixes ----

  predicate StartsWith(s: string, p: string) { |p| <= |s| && s[..|p|] == p }

  function PrefixText(text: string, prefix: string): string {
    if StartsWith(text, prefix + "\n") || StartsWith(text, prefix + " ") then text else prefix + "\n" + text
  }

  function Prefixed(content: Content, prefix: string): Content {
    match content
    case Text(text) => Text(PrefixText(text, prefix))
    case Parts(blocks) =>
      if blocks != [] && blocks[0].TextBlock? && blocks[0].text == prefix then content
      else Parts([TextBlock(prefix, NONE)] + blocks)
    case Scalar(shown) => Text(PrefixText(shown, prefix))
  }

  function Stripped(content: Content, prefix: string): Content {
    match content
    case Text(text) => if StartsWith(text, prefix + "\n") then Text(text[|prefix| + 1..]) else content
    case Parts(blocks) =>
      if blocks != [] && blocks[0].TextBlock? && blocks[0].text == prefix then Parts(blocks[1..]) else content
    case Scalar(_) => content
  }

  /** Content that a prefix can be put on and taken off again. */
  predicate Restorable(content: Content, prefix: string) {
    match content
    case Text(text) => !StartsWith(text, prefix + "\n")
    case Parts(blocks) => !(blocks != [] && blocks[0].TextBlock? && blocks[0].text == prefix)
    case Scalar(_) => false
  }

  lemma PrefixKeeps(text: string, prefix: string)
    ensures StartsWith(PrefixText(text, prefix), prefix + "\n") || StartsWith(PrefixText(text, prefix), prefix + " ")
    ensures !StartsWith(text, prefix + "\n") && !StartsWith(text, prefix + " ") ==>
              PrefixText(text, prefix)[|prefix| + 1..] == text && StartsWith(PrefixText(text, prefix), prefix + "\n")
  {
    var full := prefix + "\n" + text;
    assert full[..|prefix| + 1] == prefix + "\n" && full[|prefix| + 1..] == text;
  }

  /** Stripping undoes prefixing exactly on restorable content. */
  lemma StripUndoesPrefix(content: Content, prefix: string)
    ensures Stripped(Prefixed(content, prefix), prefix) == content <==> Restorable(content, prefix)
  {
    match content
    case Text(text) =>
      PrefixKeeps(text, prefix);
      if StartsWith(text, prefix + "\n") {
        assert |text[|prefix| + 1..]| < |text|;
      } else if StartsWith(text, prefix + " ") {
        assert text[..|prefix| + 1][|prefix|] == ' ';
      }
    case Parts(blocks) =>
      if Restorable(content, prefix) {
        assert ([TextBlock(prefix, NONE)] + blocks)[1..] == blocks;
      } else {
        assert |blocks[1..]| < |blocks|;
      }
    case Scalar(_) =>
  }

  function AgentPrefix(name: string, s: Source): string {
    if s.task != "" then "[Agent " + name + " in Task " + s.task + "]:"
    else if s.btw then "[Agent " + name + " in /btw]:"
    else OwnPrefix(name)
  }

  function OwnPrefix(name: string): string { "[Agent " + name + "]:" }

  function UserPrefix(target: string, s: Source): string {
    if s.btw then "[User to agent " + target + " in /btw]:" else ToPrefix(target)
  }

  function ToPrefix(target: string): string { "[User to agent " + target + "]:" }

  // ---- the three views ----

  /** The agent-neutral copy for the shared context; None is the source's error on an unnamed agent. */
  function ForShared(m: Row): Option<Row> {
    match m.source.kind
    case FromAgent =>
      if m.source.name == "" then None
      else Some(m.(role := UserRole, content := Prefixed(m.content, AgentPrefix(m.source.name, m.source))))
    case FromUser =>
      if m.source.target == "" then Some(m)
      else Some(m.(content := Prefixed(m.content, UserPrefix(m.source.target, m.source))))
    case _ => Some(m)
  }

  predicate SubContext(s: Source) { s.task != "" || s.btw }

  /** The copy another agent receives directly. */
  function ForAgent(m: Row, agent: string): Option<Row> {
    match m.source.kind
    case FromAgent =>
      if m.source.name == "" then None
      else if m.source.name == agent && !SubContext(m.source) then Some(m)
      else Some(m.(role := UserRole, content := Prefixed(m.content, AgentPrefix(m.source.name, m.source))))
    case FromUser =>
      if m.source.target != "" && (m.source.target != agent || m.source.btw)
      then Some(m.(content := Prefixed(m.content, UserPrefix(m.source.target, m.source))))
      else Some(m)
    case _ => Some(m)
  }

  /** The shared copy turned into what one agent reads. */
  function FromShared(m: Row, agent: string): Row {
    if m.source.kind.FromAgent? && m.source.name == agent then
      if SubContext(m.source) then m
      else m.(role := AssistantRole, content := Stripped(m.content, OwnPrefix(agent)))
    else if m.source.kind.FromUser? && m.source.target == agent then
      m.(content := Stripped(m.content, ToPrefix(agent)))
    else m
  }

  /** When the two ways to an agent's copy meet: always, except that its own turns must be in the
      assistant role, and content addressed by or to it must survive a prefix and a strip. */
  predicate Commutes(m: Row, agent: string) {
    match m.source.kind
    case FromAgent =>
      m.source.name == agent && !SubContext(m.source) ==>
        m.role.AssistantRole? && Restorable(m.content, OwnPrefix(agent))
    case FromUser =>
      m.source.target == agent && !m.source.btw ==> Restorable(m.content, ToPrefix(agent))
    case _ => true
  }

  /** An aside's prefix is not the plain one: they part after the agent's name. */
  lemma AsideIsNotPlain(agent: string, content: Content)
    ensures var aside := "[User to agent " + agent + " in /btw]:";
            Stripped(Prefixed(content, aside), ToPrefix(agent)) == Prefixed(content, aside)
  {
    var head := "[User to agent " + agent;
    var aside := head + " in /btw]:";
    assert ToPrefix(agent) == head + "]:";
    assert aside[|head|] == ' ' && (head + "]:")[|head|] == ']';
    match content
    case Text(text) => AsideText(text, head);
    case Scalar(shown) => AsideText(shown, head);
    case Parts(_) =>
  }

  lemma AsideText(text: string, head: string)
    ensures !StartsWith(PrefixText(text, head + " in /btw]:"), head + "]:" + "\n")
  {
    var aside := head + " in /btw]:";
    var out := PrefixText(text, aside);
    PrefixKeeps(text, aside);
    assert out[|head|] == ' ' by {
      assert aside[|head|] == ' ';
      assert (aside + "\n")[|head|] == ' ' && (aside + " ")[|head|] == ' ';
      if StartsWith(out, aside + "\n") { assert out[..|aside| + 1][|head|] == (aside + "\n")[|head|]; }
      if StartsWith(out, aside + " ") { assert out[..|aside| + 1][|head|] == (aside + " ")[|head|]; }
    }
  }

  /** For every message and agent: personalizing the shared form gives the directly transformed row
      exactly when the message commutes. */
  lemma ViewsCommute(m: Row, agent: string)
    requires agent != ""
    ensures ForShared(m).None? <==> ForAgent(m, agent).None?
    ensures ForShared(m).Some? ==>
              (FromShared(ForShared(m).value, agent) == ForAgent(m, agent).value <==> Commutes(m, agent))
  {
    match m.source.kind
    case FromAgent =>
      StripUndoesPrefix(m.content, OwnPrefix(agent));
    case FromUser =>
      StripUndoesPrefix(m.content, ToPrefix(agent));
      AsideIsNotPlain(agent, m.content);
    case _ =>
  }

  // ---- what is shared at all ----

  predicate IsBlank(c: Content) {
    match c
    case Text(text) => forall i :: 0 <= i < |text| ==> text[i] in {' ', '\n', '\t', '\r'}
    case Parts(_) => false
    case Scalar(shown) => forall i :: 0 <= i < |shown| ==> shown[i] in {' ', '\n', '\t', '\r'}
  }

  predicate Shareable(m: Row) {
    && !m.role.ToolRole? && !m.role.ToolCallRole? && !m.role.ThinkingRole?
    && !m.source.kind.FromContext?
    && !(m.role.AssistantRole? && IsBlank(m.content))
  }

  function FilterForShared(rows: seq<Row>): (out: seq<Row>)
    ensures forall m :: m in out ==> m in rows && Shareable(m)
    ensures forall m :: m in rows && Shareable(m) ==> m in out
    ensures |out| <= |rows|
  {
    if rows == [] then []
    else (if Shareable(rows[0]) then [rows[0]] else []) + FilterForShared(rows[1..])
  }
}

/** What `run_claude` does with one line of a session's output (main.py:337-447): the
    pure specification of the classification, as a function from the line and the agent's
    record to the new record, the notifications broadcast, in order, and whether Python
    raised, which ends the read loop. */
module Classifier {
  import opened Wrappers
  import opened JsonValue
  import opened Events
  import Text

  /** The phrases that, together with a "?", make assistant text a question. */
  const QuestionPhrases: seq<string> :=
    ["would you", "should i", "do you want", "which", "what", "how", "prefer", "like me to"]

  /** `any(q in lowered for q in phrases)` */
  predicate AnyPhrase(lowered: string, phrases: seq<string>)
    decreases |phrases|
  {
    |phrases| > 0 && (Text.Contains(lowered, phrases[0]) || AnyPhrase(lowered, phrases[1..]))
  }

  lemma {:induction false} AnyPhraseExists(lowered: string, phrases: seq<string>)
    ensures AnyPhrase(lowered, phrases) <==> exists i :: 0 <= i < |phrases| && Text.Contains(lowered, phrases[i])
    decreases |phrases|
  {
    if |phrases| > 0 {
      AnyPhraseExists(lowered, phrases[1..]);
      if !Text.Contains(lowered, phrases[0]) && exists i :: 0 <= i < |phrases| && Text.Contains(lowered, phrases[i]) {
        var i :| 0 <= i < |phrases| && Text.Contains(lowered, phrases[i]);
        assert phrases[1..][i - 1] == phrases[i];
      }
    }
  }

  /** The question test on a text string: it holds a "?" and, lowercased, one of the
      eight phrases. */
  predicate IsQuestion(text: string) {
    Text.Contains(text, "?") && AnyPhrase(Text.Lower(text), QuestionPhrases)
  }

  /** `"?" in text and any(q in text.lower() for q in ...)` on a `text` of any JSON type.
      None: Python raises (`in` on a number, boolean or None; `.lower()` on a list or
      dictionary that holds "?"). */
  function QuestionTest(text: Json): (r: Option<bool>)
    ensures text.Str? ==> r == Some(IsQuestion(text.s))
    ensures r == Some(true) ==> text.Str?
    ensures (text.Null? || text.Bool? || text.Num?) ==> r.None?
  {
    match text
    case Str(s) => Some(IsQuestion(s))
    case Arr(xs) => if Str("?") in xs then None else Some(false)
    case Obj(m) => if "?" in m then None else Some(false)
    case _ => None
  }

  /** The interrupt a tool call raises by its name. */
  function ToolInterrupt(name: Json): (r: Option<InterruptKind>)
    ensures r == Some(Question) <==> name == Str("AskUserQuestion") || name == Str("AskHuman")
    ensures r == Some(Plan) <==> name == Str("ExitPlanMode")
  {
    if name == Str("AskUserQuestion") || name == Str("AskHuman") then Some(Question)
    else if name == Str("ExitPlanMode") then Some(Plan)
    else None
  }

  /** The blocks `for block in content_blocks` visits. None: Python raises before any block
      is handled (the value is not iterable, or it is a non-empty string or dictionary,
      whose first element is a string on which `.get` fails). */
  function Blocks(content: Json): Option<seq<Json>> {
    match content
    case Arr(xs) => Some(xs)
    case Str(s) => if s == "" then Some([]) else None
    case Obj(m) => if m == map[] then Some([]) else None
    case _ => None
  }

  /** The state of the loop over the content blocks: the message log, the notifications
      so far, the interrupt found so far and whether Python raised. */
  datatype Scan = Scan(messages: seq<Message>, events: seq<Notification>,
                       interrupt: Option<InterruptKind>, raised: bool)

  /** One iteration of the loop over the content blocks. */
  function BlockStep(agentId: string, s: Scan, block: Json): Scan {
    if s.raised then s
    else
      match block
      case Obj(b) =>
        var blockType := Lookup(b, "type", Null);
        if blockType == Str("text") then
          var text := Lookup(b, "text", Str(""));
          var messages := if Truthy(text) then s.messages + [Message("assistant", text)] else s.messages;
          match QuestionTest(text)
          case None => Scan(messages, s.events, s.interrupt, true)
          case Some(q) => Scan(messages, s.events, if q then Some(Question) else s.interrupt, false)
        else if blockType == Str("tool_use") then
          var name := Lookup(b, "name", Str(""));
          var input := Lookup(b, "input", EmptyObj);
          var kind := ToolInterrupt(name);
          Scan(s.messages, s.events + [ToolUse(agentId, name, input)],
               if kind.Some? then kind else s.interrupt, false)
        else s
      case _ => s.(raised := true)
  }

  /** The loop over the content blocks, after the blocks of `blocks`. */
  function ScanBlocks(agentId: string, start: Scan, blocks: seq<Json>): Scan
    decreases |blocks|
  {
    if |blocks| == 0 then start
    else BlockStep(agentId, ScanBlocks(agentId, start, blocks[..|blocks| - 1]), blocks[|blocks| - 1])
  }

  /** The fields of an agent record the classifier reads and writes. */
  datatype AgentView = AgentView(sessionId: Json, status: Status, messages: seq<Message>, waitingOnUser: bool)

  /** What handling one output unit did: the new record fields, the notifications in the
      order they were broadcast, and whether Python raised. */
  datatype UnitResult = UnitResult(view: AgentView, events: seq<Notification>, raised: bool)

  /** The end of a handled unit: the status change on an interrupt, then the output. */
  function Finish(agentId: string, view: AgentView, events: seq<Notification>,
                  interrupt: Option<InterruptKind>, content: Json, raw: string): UnitResult
  {
    match interrupt
    case None => UnitResult(view, events + [Output(agentId, content, raw)], false)
    case Some(kind) =>
      UnitResult(view.(status := NeedsAttention, waitingOnUser := true),
                 events + [StatusChanged(agentId, NeedsAttention), Interrupt(agentId, kind, content, raw)],
                 false)
  }

  /** One non-blank line `raw` of a session's output, decoded as `decoded` (None when
      `json.loads` fails). */
  function ClassifyUnit(agentId: string, view: AgentView, raw: string, decoded: Option<Json>): UnitResult {
    match decoded
    case None => UnitResult(view, [RawOutput(agentId, raw)], false)
    case Some(Obj(data)) =>
      var msgType := Lookup(data, "type", Str(""));
      var usage := if "usage" in data then [Usage(agentId, data["usage"])] else [];
      var sessionId := if msgType == Str("result") && "session_id" in data then data["session_id"] else view.sessionId;
      var view1 := view.(sessionId := sessionId);
      if msgType == Str("assistant") then
        match Lookup(data, "message", EmptyObj)
        case Obj(message) =>
          (match Blocks(Lookup(message, "content", Arr([])))
           case Some(blocks) =>
             var s := ScanBlocks(agentId, Scan(view.messages, usage, None, false), blocks);
             if s.raised then UnitResult(view1.(messages := s.messages), s.events, true)
             else Finish(agentId, view1.(messages := s.messages), s.events, s.interrupt, Obj(data), raw)
           case None => UnitResult(view1, usage, true))
        case _ => UnitResult(view1, usage, true)
      else Finish(agentId, view1, usage, None, Obj(data), raw)
    case Some(_) => UnitResult(view, [], true)
  }

  // ---------------------------------------------------------------------------------------
  // Reference definitions, block by block, and the lemmas that tie the loop to them.

  /** The text of a text block, or None for any other block. */
  function BlockText(block: Json): Option<Json> {
    match block
    case Obj(b) => if Lookup(b, "type", Null) == Str("text") then Some(Lookup(b, "text", Str(""))) else None
    case _ => None
  }

  /** The interrupt a single block signals: a question for question text or for the
      AskUserQuestion and AskHuman tools, a plan for ExitPlanMode. */
  function BlockKind(block: Json): Option<InterruptKind> {
    match block
    case Obj(b) =>
      var blockType := Lookup(b, "type", Null);
      if blockType == Str("text") then
        if QuestionTest(Lookup(b, "text", Str(""))) == Some(true) then Some(Question) else None
      else if blockType == Str("tool_use") then ToolInterrupt(Lookup(b, "name", Str("")))
      else None
    case _ => None
  }

  /** The interrupt of the last block of `blocks` that signals one. */
  function LastKind(blocks: seq<Json>): Option<InterruptKind>
    decreases |blocks|
  {
    if |blocks| == 0 then None
    else if BlockKind(blocks[|blocks| - 1]).Some? then BlockKind(blocks[|blocks| - 1])
    else LastKind(blocks[..|blocks| - 1])
  }

  /** One "tool" notification per tool_use block, in block order. */
  function ToolEvents(agentId: string, blocks: seq<Json>): seq<Notification>
    decreases |blocks|
  {
    if |blocks| == 0 then []
    else
      var last := blocks[|blocks| - 1];
      ToolEvents(agentId, blocks[..|blocks| - 1]) +
      match last
      case Obj(b) =>
        if Lookup(b, "type", Null) == Str("tool_use")
        then [ToolUse(agentId, Lookup(b, "name", Str("")), Lookup(b, "input", EmptyObj))]
        else []
      case _ => []
  }

  /** One assistant message per text block with non-empty text, in block order. */
  function Texts(blocks: seq<Json>): seq<Message>
    decreases |blocks|
  {
    if |blocks| == 0 then []
    else
      var last := BlockText(blocks[|blocks| - 1]);
      Texts(blocks[..|blocks| - 1]) +
      (if last.Some? && Truthy(last.value) then [Message("assistant", last.value)] else [])
  }

  /** Whatever happens, the loop only appends to the message log and to the
      notifications, and once Python raised nothing more happens. */
  lemma {:induction false} ScanBlocksGrows(agentId: string, start: Scan, blocks: seq<Json>)
    ensures var s := ScanBlocks(agentId, start, blocks);
      && start.messages <= s.messages && start.events <= s.events
      && (start.raised ==> s == start)
    decreases |blocks|
  {
    if |blocks| > 0 {
      ScanBlocksGrows(agentId, start, blocks[..|blocks| - 1]);
    }
  }

  /** When no block raised, the loop appended exactly the non-empty texts to the log and
      exactly one tool notification per tool_use block, and the interrupt is the one of
      the last block that signals one, a later block overriding an earlier one. */
  lemma {:induction false} ScanBlocksSpec(agentId: string, start: Scan, blocks: seq<Json>)
    requires !ScanBlocks(agentId, start, blocks).raised
    ensures var s := ScanBlocks(agentId, start, blocks);
      && s.messages == start.messages + Texts(blocks)
      && s.events == start.events + ToolEvents(agentId, blocks)
      && s.interrupt == (if LastKind(blocks).Some? then LastKind(blocks) else start.interrupt)
    decreases |blocks|
  {
    if |blocks| > 0 {
      var init := blocks[..|blocks| - 1];
      var prev := ScanBlocks(agentId, start, init);
      assert !prev.raised;
      ScanBlocksSpec(agentId, start, init);
      var last := blocks[|blocks| - 1];
      if last.Obj? {
        var b := last.fields;
        if Lookup(b, "type", Null) == Str("text") {
          assert QuestionTest(Lookup(b, "text", Str(""))).Some?;
        }
      }
    }
  }

  /** The content blocks of an assistant message; [] for any other unit. */
  function AssistantBlocks(data: map<string, Json>): seq<Json> {
    if Lookup(data, "type", Str("")) == Str("assistant") then
      match Lookup(data, "message", EmptyObj)
      case Obj(message) =>
        (match Blocks(Lookup(message, "content", Arr([])))
         case Some(blocks) => blocks
         case None => [])
      case _ => []
    else []
  }

  /** The "usage" notification of a unit that carries usage. */
  function UsageEvents(agentId: string, data: map<string, Json>): seq<Notification> {
    if "usage" in data then [Usage(agentId, data["usage"])] else []
  }

  /** The classification of one output unit, stated block by block: a line that is not
      JSON is forwarded raw and changes nothing; a JSON value that is not an object makes
      Python raise before anything happens; an object unit that does not raise sends its
      usage (when present), one tool notification per tool_use block, a needs_attention
      status only when interrupted, and then one output or interrupt notification, in that
      order; it appends the non-empty texts to the log, stores the session token of a
      result, and an interrupt sets the status to needs_attention and waiting_on_user. */
  lemma ClassifyUnitSpec(agentId: string, view: AgentView, raw: string, decoded: Option<Json>)
    ensures decoded.None? ==> ClassifyUnit(agentId, view, raw, decoded) == UnitResult(view, [RawOutput(agentId, raw)], false)
    ensures decoded.Some? && !decoded.value.Obj? ==> ClassifyUnit(agentId, view, raw, decoded) == UnitResult(view, [], true)
    ensures decoded.Some? && decoded.value.Obj? && !ClassifyUnit(agentId, view, raw, decoded).raised ==>
      var data := decoded.value.fields;
      var r := ClassifyUnit(agentId, view, raw, decoded);
      var blocks := AssistantBlocks(data);
      var kind := LastKind(blocks);
      && r.events == UsageEvents(agentId, data) + ToolEvents(agentId, blocks)
                     + (if kind.Some? then [StatusChanged(agentId, NeedsAttention), Interrupt(agentId, kind.value, Obj(data), raw)]
                        else [Output(agentId, Obj(data), raw)])
      && r.view.messages == view.messages + Texts(blocks)
      && r.view.sessionId == (if Lookup(data, "type", Str("")) == Str("result") && "session_id" in data
                              then data["session_id"] else view.sessionId)
      && r.view.status == (if kind.Some? then NeedsAttention else view.status)
      && r.view.waitingOnUser == (kind.Some? || view.waitingOnUser)
  {
    if decoded.Some? && decoded.value.Obj? && !ClassifyUnit(agentId, view, raw, decoded).raised {
      var data := decoded.value.fields;
      if Lookup(data, "type", Str("")) == Str("assistant") {
        var message := Lookup(data, "message", EmptyObj);
        var start := Scan(view.messages, UsageEvents(agentId, data), None, false);
        ScanBlocksSpec(agentId, start, AssistantBlocks(data));
      }
    }
  }

  /** Handling a unit never shortens the message log. */
  lemma ClassifyUnitKeepsLog(agentId: string, view: AgentView, raw: string, decoded: Option<Json>)
    ensures view.messages <= ClassifyUnit(agentId, view, raw, decoded).view.messages
  {
    if decoded.Some? && decoded.value.Obj? {
      var data := decoded.value.fields;
      if Lookup(data, "type", Str("")) == Str("assistant") && Lookup(data, "message", EmptyObj).Obj? {
        var content := Lookup(Lookup(data, "message", EmptyObj).fields, "content", Arr([]));
        if Blocks(content).Some? {
          ScanBlocksGrows(agentId, Scan(view.messages, UsageEvents(agentId, data), None, false), Blocks(content).value);
        }
      }
    }
  }

  /** The question test of a text block, with the phrases written out: "?" occurs in the
      text and one of the eight phrases occurs in its lowercase form. */
  lemma QuestionTestSpec(s: string)
    ensures QuestionTest(Str(s)) == Some(true) <==>
      Text.Contains(s, "?") && exists i :: 0 <= i < |QuestionPhrases| && Text.Contains(Text.Lower(s), QuestionPhrases[i])
  {
    AnyPhraseExists(Text.Lower(s), QuestionPhrases);
  }
}

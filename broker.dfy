/** The approval broker of the coordinator: the table of pending approval requests and
    the per-agent "Yes to all" pattern sets, as pure transitions. The coordinator's
    methods perform these transitions on its fields.

    A request that is not auto-approved waits on a future until the browser answers. The
    wait is a three-step state machine here: `Request` files a `Waiting` slot, `Respond`
    fills it with a decision, and `Collect` is the waiter resuming, which takes the
    decision and removes the slot. */
module Broker {
  import opened Wrappers
  import opened JsonValue
  import opened Events
  import opened Patterns

  /** The permission decision handed back to the adapter. */
  datatype Decision = Allow(updatedInput: Json) | Deny(message: string)

  /** The decision as the JSON body of the reply to the adapter. */
  function DecisionJson(d: Decision): (r: Json)
    ensures r.Obj? && "behavior" in r.fields
    ensures r.fields["behavior"] == Str("allow") <==> d.Allow?
    ensures d.Allow? ==> "updatedInput" in r.fields && r.fields["updatedInput"] == d.updatedInput
    ensures d.Deny? ==> "message" in r.fields && r.fields["message"] == Str(d.message)
  {
    match d
    case Allow(input) => Obj(map["behavior" := Str("allow"), "updatedInput" := input])
    case Deny(message) => Obj(map["behavior" := Str("deny"), "message" := Str(message)])
  }

  /** A pending request's future: not done yet, or done with a decision. */
  datatype Slot = Waiting | Ready(decision: Decision)

  /** The broker's state: `pending_approvals` and `auto_approve_patterns`. */
  datatype State = State(pending: map<string, Slot>, patterns: PatternTable)

  /** What the approval endpoint does with a request: approve it from the patterns, queue
      it for the browser under this id, or raise (an input Python cannot take apart). */
  datatype RequestOutcome = AutoApproved(decision: Decision) | Queued(requestId: string) | Raised

  datatype RequestResult = RequestResult(state: State, outcome: RequestOutcome, notices: seq<Notification>)

  /** `handle_approve_request` up to the wait, with `id` the fresh request id. A cache
      miss files the pending slot before it computes the display text and the pattern, so
      an input that makes those raise leaves its slot behind, as the code does. */
  function Request(s: State, agentId: string, toolName: string, toolInput: Json, cwd: Json, id: string)
    : RequestResult
  {
    match ShouldAutoApprove(s.patterns, agentId, toolName, toolInput)
    case None => RequestResult(s, Raised, [])
    case Some(true) => RequestResult(s, AutoApproved(Allow(toolInput)), [])
    case Some(false) =>
      var filed := s.(pending := s.pending[id := Waiting]);
      match CommandDisplay(toolName, toolInput)
      case None => RequestResult(filed, Raised, [])
      case Some(display) =>
        match ExtractCommandPrefix(toolName, toolInput)
        case None => RequestResult(filed, Raised, [])
        case Some(pattern) =>
          RequestResult(filed, Queued(id), [ApprovalRequest(id, agentId, toolName, toolInput, display, cwd, pattern)])
  }

  /** On a cache hit the request is allowed with its own input, nothing is filed and
      nothing is broadcast; on a miss exactly one slot is added, waiting, and exactly one
      approval request is broadcast, carrying the derived pattern and the display text.
      The patterns never change. */
  lemma RequestSpec(s: State, agentId: string, toolName: string, toolInput: Json, cwd: Json, id: string)
    ensures var r := Request(s, agentId, toolName, toolInput, cwd, id);
      && r.state.patterns == s.patterns
      && (ShouldAutoApprove(s.patterns, agentId, toolName, toolInput) == Some(true) ==>
            r.outcome == AutoApproved(Allow(toolInput)) && r.state == s && r.notices == [])
      && (r.outcome.Queued? ==>
            && r.outcome.requestId == id
            && r.state.pending == s.pending[id := Waiting]
            && r.state.pending.Keys == s.pending.Keys + {id}
            && |r.notices| == 1
            && r.notices[0] == ApprovalRequest(id, agentId, toolName, toolInput,
                                               CommandDisplay(toolName, toolInput).value, cwd,
                                               ExtractCommandPrefix(toolName, toolInput).value))
      && (r.outcome.AutoApproved? ==> r.outcome.decision.Allow?)
      && (r.notices != [] <==> r.outcome.Queued?)
  {
  }

  /** A request is queued exactly when the patterns do not cover it and Python can derive
      both its display text and its pattern. */
  lemma RequestQueuedWhen(s: State, agentId: string, toolName: string, toolInput: Json, cwd: Json, id: string)
    ensures Request(s, agentId, toolName, toolInput, cwd, id).outcome.Queued? <==>
      && ShouldAutoApprove(s.patterns, agentId, toolName, toolInput) == Some(false)
      && CommandDisplay(toolName, toolInput).Some?
      && ExtractCommandPrefix(toolName, toolInput).Some?
  {
  }

  /** What a response does with the pattern: `auto_approve_patterns.setdefault(agent_id,
      set()).add(pattern)` when the pattern and the agent id are present and the decision
      is "allow". None: Python raises, because one of them is a list or a dictionary and
      cannot be hashed. */
  function RememberPattern(patterns: PatternTable, msg: map<string, Json>): Option<PatternTable> {
    var pattern := Lookup(msg, "pattern", Null);
    var agentId := Lookup(msg, "agent_id", Null);
    if Truthy(pattern) && Truthy(agentId) && Lookup(msg, "decision", Null) == Str("allow") then
      if pattern.Arr? || pattern.Obj? || agentId.Arr? || agentId.Obj? then None
      else if pattern.Str? && agentId.Str? then Some(AddPattern(patterns, agentId.s, pattern.s))
      else Some(patterns)
    else Some(patterns)
  }

  /** The decision a response carries: allow with the `tool_input` the browser sent back,
      or, for any other decision, deny. */
  function ResponseDecision(msg: map<string, Json>): (d: Decision)
    ensures d.Allow? <==> Lookup(msg, "decision", Null) == Str("allow")
    ensures d.Allow? ==> d.updatedInput == Lookup(msg, "tool_input", Null)
    ensures d.Deny? ==> d.message == "Denied by user"
  {
    if Lookup(msg, "decision", Null) == Str("allow") then Allow(Lookup(msg, "tool_input", Null))
    else Deny("Denied by user")
  }

  datatype RespondResult = RespondResult(state: State, raised: bool)

  /** The `approval_response` branch of the WebSocket handler, with the intended
      semantics of a second response to a request that is already decided: it is
      ignored. A request id that is a list or a dictionary makes Python raise after the
      pattern was stored; an id that is not pending changes nothing. */
  function Respond(s: State, msg: map<string, Json>): RespondResult {
    match RememberPattern(s.patterns, msg)
    case None => RespondResult(s, true)
    case Some(patterns) =>
      var requestId := Lookup(msg, "request_id", Null);
      if requestId.Arr? || requestId.Obj? then RespondResult(s.(patterns := patterns), true)
      else if requestId.Str? && requestId.s in s.pending && s.pending[requestId.s] == Waiting then
        RespondResult(State(s.pending[requestId.s := Ready(ResponseDecision(msg))], patterns), false)
      else RespondResult(s.(patterns := patterns), false)
  }

  /** The waiter resuming: a decided request hands back its decision and its slot is
      removed; anything else leaves the table as it is. */
  function Collect(s: State, id: string): (Option<Decision>, State) {
    if id in s.pending && s.pending[id].Ready? then (Some(s.pending[id].decision), s.(pending := s.pending - {id}))
    else (None, s)
  }

  /** Pattern sets only grow: a response adds at most its own pattern, to its own agent,
      and only for an "allow" decision with a pattern and an agent id present. */
  lemma RespondPatterns(s: State, msg: map<string, Json>)
    ensures Grows(s.patterns, Respond(s, msg).state.patterns)
    ensures Respond(s, msg).state.patterns != s.patterns ==>
      && Lookup(msg, "decision", Null) == Str("allow")
      && Lookup(msg, "pattern", Null).Str? && Lookup(msg, "pattern", Null).s != ""
      && Lookup(msg, "agent_id", Null).Str? && Lookup(msg, "agent_id", Null).s != ""
      && Respond(s, msg).state.patterns ==
           AddPattern(s.patterns, Lookup(msg, "agent_id", Null).s, Lookup(msg, "pattern", Null).s)
    ensures && Lookup(msg, "decision", Null) == Str("allow")
            && Lookup(msg, "pattern", Null).Str? && Lookup(msg, "pattern", Null).s != ""
            && Lookup(msg, "agent_id", Null).Str? && Lookup(msg, "agent_id", Null).s != ""
            ==> Lookup(msg, "pattern", Null).s in PatternsOf(Respond(s, msg).state.patterns, Lookup(msg, "agent_id", Null).s)
  {
    var r := Respond(s, msg).state.patterns;
    match RememberPattern(s.patterns, msg)
    case None =>
    case Some(p) =>
      if p != s.patterns {
        AddPatternGrowsIdempotent(s.patterns, Lookup(msg, "agent_id", Null).s, Lookup(msg, "pattern", Null).s);
      }
  }

  /** A response only ever fills the slot its own id names, only when that slot is
      waiting, and with the decision the response carries; an unknown or already decided
      id leaves the table unchanged. */
  lemma RespondResolves(s: State, msg: map<string, Json>)
    ensures var r := Respond(s, msg);
      var requestId := Lookup(msg, "request_id", Null);
      && r.state.pending.Keys == s.pending.Keys
      && (forall id :: id in s.pending && Str(id) != requestId ==> r.state.pending[id] == s.pending[id])
      && (requestId.Str? && requestId.s in s.pending && s.pending[requestId.s] == Waiting && !r.raised ==>
            r.state.pending[requestId.s] == Ready(ResponseDecision(msg)))
      && (!(requestId.Str? && requestId.s in s.pending && s.pending[requestId.s] == Waiting) ==>
            r.state.pending == s.pending)
  {
  }

  /** A second identical response is ignored. */
  lemma RespondIdempotent(s: State, msg: map<string, Json>)
    ensures Respond(Respond(s, msg).state, msg).state == Respond(s, msg).state
  {
    var once := Respond(s, msg).state;
    match RememberPattern(s.patterns, msg)
    case None =>
    case Some(p) =>
      if p != s.patterns {
        AddPatternGrowsIdempotent(s.patterns, Lookup(msg, "agent_id", Null).s, Lookup(msg, "pattern", Null).s);
      } else if Lookup(msg, "pattern", Null).Str? && Lookup(msg, "agent_id", Null).Str? && Truthy(Lookup(msg, "pattern", Null)) && Truthy(Lookup(msg, "agent_id", Null)) && Lookup(msg, "decision", Null) == Str("allow") {
        AddPatternGrowsIdempotent(s.patterns, Lookup(msg, "agent_id", Null).s, Lookup(msg, "pattern", Null).s);
      }
  }

  /** The whole approval round trip: a request the patterns do not cover is queued, the
      browser answers it, and the waiter resumes with that answer; the pending table is
      back to what it was, and with "Yes to all" the next request with the same pattern
      is approved from the patterns. */
  lemma RoundTrip(s: State, agentId: string, toolName: string, toolInput: Json, cwd: Json, id: string,
                  msg: map<string, Json>)
    requires id !in s.pending
    requires Request(s, agentId, toolName, toolInput, cwd, id).outcome.Queued?
    requires Lookup(msg, "request_id", Null) == Str(id)
    requires RememberPattern(Request(s, agentId, toolName, toolInput, cwd, id).state.patterns, msg).Some?
    ensures var queued := Request(s, agentId, toolName, toolInput, cwd, id).state;
      var answered := Respond(queued, msg);
      var (decision, after) := Collect(answered.state, id);
      && !answered.raised
      && decision == Some(ResponseDecision(msg))
      && after.pending == s.pending
      && Grows(s.patterns, after.patterns)
      && (Lookup(msg, "decision", Null) == Str("allow") && agentId != "" && toolName != ""
          && Lookup(msg, "agent_id", Null) == Str(agentId)
          && Lookup(msg, "pattern", Null) == Str(ExtractCommandPrefix(toolName, toolInput).value) ==>
            ShouldAutoApprove(after.patterns, agentId, toolName, toolInput) == Some(true))
  {
    var queued := Request(s, agentId, toolName, toolInput, cwd, id).state;
    RequestSpec(s, agentId, toolName, toolInput, cwd, id);
    AnswerWaiting(queued, id, msg);
    RespondPatterns(queued, msg);
    var answered := Respond(queued, msg);
    CollectReady(s.pending, answered.state.patterns, id, ResponseDecision(msg));
    var pattern := ExtractCommandPrefix(toolName, toolInput);
    if Lookup(msg, "decision", Null) == Str("allow") && agentId != "" && toolName != ""
       && Lookup(msg, "agent_id", Null) == Str(agentId) && Lookup(msg, "pattern", Null) == Str(pattern.value) {
      BashPatternNonEmpty(toolName, toolInput);
    }
  }

  /** A response to a waiting request fills its slot and stores its pattern. */
  lemma AnswerWaiting(q: State, id: string, msg: map<string, Json>)
    requires id in q.pending && q.pending[id] == Waiting
    requires Lookup(msg, "request_id", Null) == Str(id)
    requires RememberPattern(q.patterns, msg).Some?
    ensures Respond(q, msg)
            == RespondResult(State(q.pending[id := Ready(ResponseDecision(msg))], RememberPattern(q.patterns, msg).value), false)
  {
  }

  /** The waiter resuming on a slot filed under a fresh id gives back the table without it. */
  lemma CollectReady(pending: map<string, Slot>, patterns: PatternTable, id: string, d: Decision)
    requires id !in pending
    ensures Collect(State(pending[id := Ready(d)], patterns), id) == (Some(d), State(pending, patterns))
  {
    assert pending[id := Ready(d)] - {id} == pending;
  }

  /** A derived pattern is never empty, so "Yes to all" always stores it. */
  lemma BashPatternNonEmpty(toolName: string, toolInput: Json)
    requires ExtractCommandPrefix(toolName, toolInput).Some?
    requires toolName != ""
    ensures ExtractCommandPrefix(toolName, toolInput).value != ""
  {
  }

  /** The approval-response branch as written: a response to a request that is already
      decided but whose waiter has not resumed calls `set_result` on a future that is
      done, which raises InvalidStateError and ends the browser's WebSocket handler. */
  function RespondAsWritten(s: State, msg: map<string, Json>): RespondResult {
    var requestId := Lookup(msg, "request_id", Null);
    match RememberPattern(s.patterns, msg)
    case None => RespondResult(s, true)
    case Some(patterns) =>
      if requestId.Str? && requestId.s in s.pending && s.pending[requestId.s].Ready? then
        RespondResult(s.(patterns := patterns), true)
      else Respond(s, msg)
  }

  /** The double answer: two approval responses for one request, both arriving before
      its waiter resumes (a double click, or two open browser tabs). As written the
      second one raises; with the intended semantics it is ignored and the first answer
      stands. */
  lemma DoubleResponse(s: State, id: string, first: map<string, Json>, second: map<string, Json>)
    requires id in s.pending && s.pending[id] == Waiting
    requires Lookup(first, "request_id", Null) == Str(id) && Lookup(second, "request_id", Null) == Str(id)
    requires RememberPattern(s.patterns, first).Some?
    requires RememberPattern(Respond(s, first).state.patterns, second).Some?
    ensures !Respond(s, first).raised
    ensures RespondAsWritten(Respond(s, first).state, second).raised
    ensures var twice := Respond(Respond(s, first).state, second);
      !twice.raised && Collect(twice.state, id).0 == Some(ResponseDecision(first))
  {
  }
}

/** The coordinator's state and the operations that change it: the agent registry, the
    connected observers, the approval broker's tables and the turn runner. */
module Coordinator {
  import opened Wrappers
  import opened JsonValue
  import opened Events
  import opened Patterns
  import opened Classifier
  import opened Broker
  import Cli
  import Text

  // ---------------------------------------------------------------------------------------
  // The observer list.

  /** No observer is connected twice. */
  predicate Distinct(s: seq<ClientId>) {
    forall i, j :: 0 <= i < j < |s| ==> s[i] != s[j]
  }

  /** The elements of `s`. */
  function Elems(s: seq<ClientId>): set<ClientId> {
    set x | x in s
  }

  /** `s` without the observers of `gone`, the rest in their original order. */
  function Without(s: seq<ClientId>, gone: set<ClientId>): seq<ClientId>
    decreases |s|
  {
    if s == [] then [] else (if s[0] in gone then [] else [s[0]]) + Without(s[1..], gone)
  }

  /** `list.remove(x)`: the first occurrence of `x` taken out. */
  function RemoveFirst(s: seq<ClientId>, x: ClientId): seq<ClientId>
    requires x in s
    decreases |s|
  {
    if s[0] == x then s[1..] else [s[0]] + RemoveFirst(s[1..], x)
  }

  /** An observer survives exactly when it was there and is not in `gone`; survivors
      stay distinct. */
  lemma {:induction false} WithoutMembers(s: seq<ClientId>, gone: set<ClientId>)
    ensures forall x :: x in Without(s, gone) <==> x in s && x !in gone
    ensures Distinct(s) ==> Distinct(Without(s, gone))
    decreases |s|
  {
    if s != [] {
      WithoutMembers(s[1..], gone);
      var w := Without(s, gone);
      var rest := Without(s[1..], gone);
      if Distinct(s) {
        assert Distinct(s[1..]) by {
          forall i, j | 0 <= i < j < |s[1..]| ensures s[1..][i] != s[1..][j] {
            assert s[1..][i] == s[i + 1] && s[1..][j] == s[j + 1];
          }
        }
        assert s[0] !in s[1..] by {
          forall k | 0 <= k < |s[1..]| ensures s[1..][k] != s[0] {
            assert s[1..][k] == s[k + 1];
          }
        }
        if s[0] !in gone {
          assert w == [s[0]] + rest;
          forall i, j | 0 <= i < j < |w| ensures w[i] != w[j] {
            if i == 0 {
              assert w[j] == rest[j - 1];
              assert rest[j - 1] in rest;
            } else {
              assert w[i] == rest[i - 1] && w[j] == rest[j - 1];
            }
          }
        } else {
          assert w == rest;
        }
      }
    }
  }

  /** Whether an observer is dropped depends only on whether it is in `gone`. */
  lemma {:induction false} WithoutCongruent(s: seq<ClientId>, a: set<ClientId>, b: set<ClientId>)
    requires forall x :: x in s ==> (x in a <==> x in b)
    ensures Without(s, a) == Without(s, b)
    decreases |s|
  {
    if s != [] {
      assert s[0] in s;
      WithoutCongruent(s[1..], a, b);
    }
  }

  lemma ElemsSnoc(s: seq<ClientId>, y: ClientId)
    ensures Elems(s + [y]) == Elems(s) + {y}
  {
    assert forall x :: x in s + [y] <==> x in s || x == y;
  }

  lemma SeqAssoc<T>(a: seq<T>, b: seq<T>, c: seq<T>)
    ensures a + b + c == a + (b + c)
  {
  }

  /** Removing nobody keeps the list. */
  lemma {:induction false} WithoutNothing(s: seq<ClientId>)
    ensures Without(s, {}) == s
    decreases |s|
  {
    if s != [] {
      WithoutNothing(s[1..]);
    }
  }

  /** Removing the failed observers twice is removing them once. */
  lemma {:induction false} WithoutTwice(s: seq<ClientId>, gone: set<ClientId>)
    ensures Without(Without(s, gone), gone) == Without(s, gone)
    decreases |s|
  {
    if s != [] {
      WithoutTwice(s[1..], gone);
      var w := Without(s[1..], gone);
      if s[0] in gone {
        assert Without(s, gone) == w;
      } else {
        assert Without(s, gone) == [s[0]] + w;
        assert ([s[0]] + w)[1..] == w;
        assert Without([s[0]] + w, gone) == [s[0]] + Without(w, gone);
      }
    }
  }

  /** On a list without repetitions, removing one more observer with `list.remove` is
      filtering it out. */
  lemma {:induction false} RemoveFirstWithout(s: seq<ClientId>, gone: set<ClientId>, x: ClientId)
    requires Distinct(s) && x in s && x !in gone
    ensures x in Without(s, gone)
    ensures RemoveFirst(Without(s, gone), x) == Without(s, gone + {x})
    decreases |s|
  {
    WithoutMembers(s, gone);
    assert Distinct(s[1..]) by {
      forall i, j | 0 <= i < j < |s[1..]| ensures s[1..][i] != s[1..][j] {
        assert s[1..][i] == s[i + 1] && s[1..][j] == s[j + 1];
      }
    }
    if s[0] == x {
      assert x !in s[1..] by {
        forall k | 0 <= k < |s[1..]| ensures s[1..][k] != x {
          assert s[1..][k] == s[k + 1];
        }
      }
      WithoutCongruent(s[1..], gone, gone + {x});
    } else {
      assert x in s[1..];
      RemoveFirstWithout(s[1..], gone, x);
      if s[0] !in gone {
        assert Without(s, gone) == [s[0]] + Without(s[1..], gone);
        assert Without(s, gone + {x}) == [s[0]] + Without(s[1..], gone + {x});
      } else {
        assert Without(s, gone) == Without(s[1..], gone);
        assert Without(s, gone + {x}) == Without(s[1..], gone + {x});
      }
    }
  }

  /** One iteration of the second loop of `broadcast`: with the first `j` failed
      observers filtered out, removing the next one filters it out too. */
  lemma RemoveDeadStep(orig: seq<ClientId>, dead: seq<ClientId>, j: nat)
    requires Distinct(orig) && Distinct(dead) && j < |dead|
    requires forall k :: 0 <= k < |dead| ==> dead[k] in orig
    ensures dead[j] in Without(orig, Elems(dead[..j]))
    ensures RemoveFirst(Without(orig, Elems(dead[..j])), dead[j]) == Without(orig, Elems(dead[..j + 1]))
  {
    assert dead[j] !in Elems(dead[..j]) by {
      forall k | 0 <= k < j ensures dead[..j][k] != dead[j] {
        assert dead[..j][k] == dead[k];
      }
    }
    RemoveFirstWithout(orig, Elems(dead[..j]), dead[j]);
    assert dead[..j + 1] == dead[..j] + [dead[j]];
    ElemsSnoc(dead[..j], dead[j]);
  }

  /** The first loop of `broadcast`: the message is sent to every observer of `clients`,
      in order, and the ones whose send fails are collected, each once. */
  method SendAll(clients: seq<ClientId>, failing: set<ClientId>) returns (attempted: seq<ClientId>, dead: seq<ClientId>)
    requires Distinct(clients)
    ensures attempted == clients
    ensures Elems(dead) == Elems(clients) * failing
    ensures Distinct(dead)
    ensures forall k :: 0 <= k < |dead| ==> dead[k] in clients
  {
    dead := [];
    attempted := [];
    var i := 0;
    while i < |clients|
      invariant 0 <= i <= |clients|
      invariant attempted == clients[..i]
      invariant Elems(dead) == Elems(clients[..i]) * failing
      invariant forall k :: 0 <= k < |dead| ==> dead[k] in clients[..i]
      invariant Distinct(dead)
    {
      attempted := attempted + [clients[i]];
      assert clients[..i + 1] == clients[..i] + [clients[i]];
      ElemsSnoc(clients[..i], clients[i]);
      if clients[i] in failing {
        assert clients[i] !in clients[..i] by {
          forall k | 0 <= k < i ensures clients[..i][k] != clients[i] {
            assert clients[..i][k] == clients[k];
          }
        }
        ElemsSnoc(dead, clients[i]);
        dead := dead + [clients[i]];
      }
      i := i + 1;
    }
    assert clients[..i] == clients;
  }

  // ---------------------------------------------------------------------------------------
  // The specification of a turn.

  /** How starting the agent CLI went: it could not be started, or it started and the
      prompt could or could not be written to it. */
  datatype Launch = SpawnFailed | Spawned(promptDelivered: bool)

  /** The read loop over the output lines `lines`: blank lines are skipped, every other
      line is classified after it was stripped, and the loop ends at the first line whose
      handling raised. */
  function Stream(agentId: string, view: AgentView, lines: seq<string>, loads: string -> Option<Json>): UnitResult
    decreases |lines|
  {
    if lines == [] then UnitResult(view, [], false)
    else StreamStep(agentId, Stream(agentId, view, lines[..|lines| - 1], loads), lines[|lines| - 1], loads)
  }

  /** One iteration of the read loop, after the loop reached `prev`. */
  function StreamStep(agentId: string, prev: UnitResult, line: string, loads: string -> Option<Json>): UnitResult {
    var stripped := Text.Strip(line);
    if prev.raised || stripped == "" then prev
    else
      var unit := ClassifyUnit(agentId, prev.view, stripped, loads(stripped));
      UnitResult(unit.view, prev.events + unit.events, unit.raised)
  }

  /** A step of the read loop appends to the notifications of the loop so far what the
      line alone gives. */
  lemma StepShift(agentId: string, prev: UnitResult, line: string, loads: string -> Option<Json>)
    requires !prev.raised
    ensures var u := StreamStep(agentId, UnitResult(prev.view, [], false), line, loads);
      StreamStep(agentId, prev, line, loads) == UnitResult(u.view, prev.events + u.events, u.raised)
  {
  }

  lemma StreamPrefix(agentId: string, view: AgentView, lines: seq<string>, loads: string -> Option<Json>, i: nat)
    requires i < |lines|
    ensures Stream(agentId, view, lines[..i + 1], loads)
            == StreamStep(agentId, Stream(agentId, view, lines[..i], loads), lines[i], loads)
  {
    assert lines[..i + 1][..i] == lines[..i];
  }

  /** Once a line raised the later lines are never read. */
  lemma {:induction false} StreamStops(agentId: string, view: AgentView, lines: seq<string>,
                                      loads: string -> Option<Json>, i: nat)
    requires i <= |lines|
    requires Stream(agentId, view, lines[..i], loads).raised
    ensures Stream(agentId, view, lines, loads) == Stream(agentId, view, lines[..i], loads)
    decreases |lines|
  {
    if i < |lines| {
      assert lines[..|lines| - 1][..i] == lines[..i];
      StreamStops(agentId, view, lines[..|lines| - 1], loads, i);
    } else {
      assert lines[..i] == lines;
    }
  }

  /** The read loop only ever appends to the message log. */
  lemma {:induction false} StreamKeepsLog(agentId: string, view: AgentView, lines: seq<string>,
                                          loads: string -> Option<Json>)
    ensures view.messages <= Stream(agentId, view, lines, loads).view.messages
    decreases |lines|
  {
    if lines != [] {
      var prev := Stream(agentId, view, lines[..|lines| - 1], loads);
      StreamKeepsLog(agentId, view, lines[..|lines| - 1], loads);
      var line := Text.Strip(lines[|lines| - 1]);
      if !prev.raised && line != "" {
        ClassifyUnitKeepsLog(agentId, prev.view, line, loads(line));
      }
    }
  }

  /** A turn from its start to the cleanup, as one value: the record becomes working and
      not waiting, the prompt is logged once the CLI is running, and then the read loop
      runs if the prompt reached the CLI. `raised` says whether the turn ended in an
      exception. */
  function Turn(agentId: string, view: AgentView, prompt: string, launch: Launch, lines: seq<string>,
                loads: string -> Option<Json>): UnitResult
  {
    var started := view.(status := Working, waitingOnUser := false);
    match launch
    case SpawnFailed => UnitResult(started, [], true)
    case Spawned(delivered) =>
      var prompted := started.(messages := started.messages + [Message("user", Str(prompt))]);
      if delivered then Stream(agentId, prompted, lines, loads) else UnitResult(prompted, [], true)
  }

  /** A turn on a record that is already working is the same turn. */
  lemma TurnRestarts(agentId: string, view: AgentView, prompt: string, launch: Launch, lines: seq<string>,
                     loads: string -> Option<Json>)
    ensures Turn(agentId, view.(status := Working, waitingOnUser := false), prompt, launch, lines, loads)
            == Turn(agentId, view, prompt, launch, lines, loads)
  {
    assert view.(status := Working, waitingOnUser := false).(status := Working, waitingOnUser := false)
           == view.(status := Working, waitingOnUser := false);
  }

  /** The record after the cleanup that ends every turn. */
  function Settled(t: UnitResult): AgentView {
    t.view.(status := Idle, waitingOnUser := true)
  }

  /** A started turn always records the user's prompt before anything the agent said. */
  lemma TurnLogsPrompt(agentId: string, view: AgentView, prompt: string, lines: seq<string>,
                       loads: string -> Option<Json>)
    ensures view.messages + [Message("user", Str(prompt))]
            <= Turn(agentId, view, prompt, Spawned(true), lines, loads).view.messages
  {
    StreamKeepsLog(agentId, view.(status := Working, waitingOnUser := false,
                                  messages := view.messages + [Message("user", Str(prompt))]), lines, loads);
  }

  /** What creating an agent answers. */
  datatype CreateOutcome = ProjectRequired | ProjectNotFound | CreateRaised | Created(agentId: string)

  /** `PROJECTS_DIR / project`: an absolute project name replaces the directory. */
  function ProjectPath(projectsDir: string, project: string): (r: string)
    ensures Text.StartsWith(project, "/") ==> r == project
    ensures !Text.StartsWith(project, "/") ==> r == projectsDir + "/" + project
  {
    if Text.StartsWith(project, "/") then project else projectsDir + "/" + project
  }

  // ---------------------------------------------------------------------------------------
  // The state.

  /** One entry of `agents`. */
  class AgentRecord {
    var project: string
    var projectPath: string
    var sessionId: Json
    var status: Status
    var hasProcess: bool
    var mode: Json
    var messages: seq<Message>
    var waitingOnUser: bool

    /** A new agent: idle, no session, no process, an empty log, not waiting. */
    constructor (project: string, projectPath: string, mode: Json)
      ensures this.project == project && this.projectPath == projectPath && this.mode == mode
      ensures sessionId == Null && status == Idle && !hasProcess && messages == [] && !waitingOnUser
    {
      this.project := project;
      this.projectPath := projectPath;
      this.mode := mode;
      sessionId := Null;
      status := Idle;
      hasProcess := false;
      messages := [];
      waitingOnUser := false;
    }

    /** The fields the output classifier reads and writes. */
    function View(): AgentView
      reads this
    {
      AgentView(sessionId, status, messages, waitingOnUser)
    }

    /** Takes over the fields of `v`. */
    method Apply(v: AgentView)
      modifies this
      ensures View() == v
      ensures project == old(project) && projectPath == old(projectPath) && mode == old(mode)
      ensures hasProcess == old(hasProcess)
    {
      sessionId := v.sessionId;
      status := v.status;
      messages := v.messages;
      waitingOnUser := v.waitingOnUser;
    }
  }

  /** The coordinator's module-level state. `sent` is the log of every notification
      broadcast so far, in order; `liveConfigs` counts the temporary adapter
      configurations that exist. */
  class Server {
    var agents: map<string, AgentRecord>
    var clients: seq<ClientId>
    var pending: map<string, Slot>
    var patterns: PatternTable
    var liveConfigs: nat
    ghost var sent: seq<Notification>

    ghost predicate Valid()
      reads this
    {
      Distinct(clients)
    }

    /** The broker's tables. */
    function BrokerState(): State
      reads this
    {
      State(pending, patterns)
    }

    constructor ()
      ensures Valid()
      ensures agents == map[] && clients == [] && pending == map[] && patterns == map[]
      ensures liveConfigs == 0 && sent == []
    {
      agents := map[];
      clients := [];
      pending := map[];
      patterns := map[];
      liveConfigs := 0;
      sent := [];
    }

    /** `broadcast(message)`: tries every connected observer, in order, then removes the
        ones whose send failed, keeping the order of the rest. */
    method Broadcast(message: Notification, failing: set<ClientId>) returns (attempted: seq<ClientId>)
      requires Valid()
      modifies this
      ensures Valid()
      ensures attempted == old(clients)
      ensures clients == Without(old(clients), failing)
      ensures sent == old(sent) + [message]
      ensures agents == old(agents) && pending == old(pending) && patterns == old(patterns)
      ensures liveConfigs == old(liveConfigs)
    {
      var dead;
      attempted, dead := SendAll(clients, failing);
      sent := sent + [message];
      RemoveDead(dead);
      WithoutCongruent(attempted, Elems(dead), failing);
      WithoutMembers(attempted, failing);
    }

    /** A browser connects: `clients.append(websocket)`. Each connection is a new socket,
        so it is not yet in the list. */
    method Connect(c: ClientId)
      requires Valid() && c !in clients
      modifies this
      ensures Valid()
      ensures clients == old(clients) + [c]
      ensures sent == old(sent)
      ensures agents == old(agents) && pending == old(pending) && patterns == old(patterns)
      ensures liveConfigs == old(liveConfigs)
    {
      clients := clients + [c];
    }

    /** A browser disconnects: `clients.remove(websocket)`, which raises when a failed
        broadcast has already dropped that socket. Either way it is gone afterwards. */
    method Disconnect(c: ClientId) returns (raised: bool)
      requires Valid()
      modifies this
      ensures Valid()
      ensures raised == (c !in old(clients))
      ensures clients == Without(old(clients), {c})
      ensures sent == old(sent)
      ensures agents == old(agents) && pending == old(pending) && patterns == old(patterns)
      ensures liveConfigs == old(liveConfigs)
    {
      WithoutNothing(clients);
      WithoutMembers(clients, {c});
      if c !in clients {
        WithoutCongruent(clients, {c}, {});
        return true;
      }
      RemoveFirstWithout(clients, {}, c);
      assert {} + {c} == {c};
      clients := RemoveFirst(clients, c);
      raised := false;
    }

    /** The second loop of `broadcast`: `clients.remove(client)` for every failed observer. */
    method RemoveDead(dead: seq<ClientId>)
      requires Valid() && Distinct(dead)
      requires forall k :: 0 <= k < |dead| ==> dead[k] in clients
      modifies this
      ensures clients == Without(old(clients), Elems(dead))
      ensures sent == old(sent)
      ensures agents == old(agents) && pending == old(pending) && patterns == old(patterns)
      ensures liveConfigs == old(liveConfigs)
    {
      ghost var orig := clients;
      WithoutNothing(orig);
      assert Elems(dead[..0]) == {} by {
        assert dead[..0] == [];
      }
      var j := 0;
      while j < |dead|
        invariant 0 <= j <= |dead|
        invariant clients == Without(orig, Elems(dead[..j]))
        invariant sent == old(sent)
        invariant agents == old(agents) && pending == old(pending) && patterns == old(patterns)
        invariant liveConfigs == old(liveConfigs)
      {
        RemoveDeadStep(orig, dead, j);
        clients := RemoveFirst(clients, dead[j]);
        j := j + 1;
      }
      assert dead[..j] == dead;
    }

    /** Broadcasts `messages` one after another. */
    method BroadcastAll(messages: seq<Notification>, failing: set<ClientId>)
      requires Valid()
      modifies this
      ensures Valid()
      ensures clients == if messages == [] then old(clients) else Without(old(clients), failing)
      ensures sent == old(sent) + messages
      ensures agents == old(agents) && pending == old(pending) && patterns == old(patterns)
      ensures liveConfigs == old(liveConfigs)
    {
      var i := 0;
      while i < |messages|
        invariant 0 <= i <= |messages|
        invariant Valid()
        invariant clients == if i == 0 then old(clients) else Without(old(clients), failing)
        invariant sent == old(sent) + messages[..i]
        invariant agents == old(agents) && pending == old(pending) && patterns == old(patterns)
        invariant liveConfigs == old(liveConfigs)
      {
        WithoutTwice(old(clients), failing);
        var _ := Broadcast(messages[i], failing);
        assert messages[..i + 1] == messages[..i] + [messages[i]];
        i := i + 1;
      }
      assert messages[..i] == messages;
    }

    /** The request half of `handle_approve_request`, with `id` the fresh request id:
        it performs `Broker.Request` on the broker's tables and broadcasts what it says. */
    method ApproveRequest(agentId: string, toolName: string, toolInput: Json, cwd: Json, id: string,
                          failing: set<ClientId>)
      returns (outcome: RequestOutcome)
      requires Valid()
      modifies this
      ensures Valid()
      ensures var r := Request(old(BrokerState()), agentId, toolName, toolInput, cwd, id);
        && outcome == r.outcome && BrokerState() == r.state && sent == old(sent) + r.notices
        && clients == (if r.notices == [] then old(clients) else Without(old(clients), failing))
      ensures agents == old(agents) && liveConfigs == old(liveConfigs)
    {
      var approve := ShouldAutoApprove(patterns, agentId, toolName, toolInput);
      if approve.None? {
        return Raised;
      }
      if approve.value {
        return AutoApproved(Allow(toolInput));
      }
      pending := pending[id := Waiting];
      var display := CommandDisplay(toolName, toolInput);
      if display.None? {
        return Raised;
      }
      var pattern := ExtractCommandPrefix(toolName, toolInput);
      if pattern.None? {
        return Raised;
      }
      var _ := Broadcast(ApprovalRequest(id, agentId, toolName, toolInput, display.value, cwd, pattern.value), failing);
      outcome := Queued(id);
    }

    /** The wait of `handle_approve_request` ending: the decided request's decision is
        returned and its entry popped; an undecided one is still waited on. */
    method AwaitDecision(id: string) returns (decision: Option<Decision>)
      modifies this
      ensures (decision, BrokerState()) == Collect(old(BrokerState()), id)
      ensures agents == old(agents) && clients == old(clients) && sent == old(sent)
      ensures liveConfigs == old(liveConfigs)
    {
      if id in pending && pending[id].Ready? {
        decision := Some(pending[id].decision);
        pending := pending - {id};
      } else {
        decision := None;
      }
    }

    /** The `approval_response` branch of the WebSocket handler: the pattern is stored
        first, then the request is resolved. `raised` says that Python raised on the
        message's values and the handler ended. A second response to a request that is
        already decided is ignored here, the intended semantics; the code as written
        raises on it instead (`Broker.RespondAsWritten`). */
    method ApprovalResponse(msg: map<string, Json>) returns (raised: bool)
      modifies this
      ensures RespondResult(BrokerState(), raised) == Respond(old(BrokerState()), msg)
      ensures agents == old(agents) && clients == old(clients) && sent == old(sent)
      ensures liveConfigs == old(liveConfigs)
    {
      var requestId := Lookup(msg, "request_id", Null);
      var decision := Lookup(msg, "decision", Null);
      var pattern := Lookup(msg, "pattern", Null);
      var agentId := Lookup(msg, "agent_id", Null);
      if Truthy(pattern) && Truthy(agentId) && decision == Str("allow") {
        if pattern.Arr? || pattern.Obj? || agentId.Arr? || agentId.Obj? {
          return true;
        }
        if pattern.Str? && agentId.Str? {
          patterns := AddPattern(patterns, agentId.s, pattern.s);
        }
      }
      if requestId.Arr? || requestId.Obj? {
        return true;
      }
      raised := false;
      if requestId.Str? && requestId.s in pending && pending[requestId.s] == Waiting {
        if decision == Str("allow") {
          pending := pending[requestId.s := Ready(Allow(Lookup(msg, "tool_input", Null)))];
        } else {
          pending := pending[requestId.s := Ready(Deny("Denied by user"))];
        }
      }
    }

    /** `create_agent(data)`, with `projectExists` whether the project directory exists and
        `id` the fresh agent id. The turn it schedules is a separate `RunTurn`. */
    method CreateAgent(data: map<string, Json>, projectsDir: string, projectExists: bool, id: string,
                       failing: set<ClientId>)
      returns (outcome: CreateOutcome)
      requires Valid()
      modifies this
      ensures Valid()
      ensures var project := Lookup(data, "project", Null);
        && (!Truthy(project) ==> outcome == ProjectRequired)
        && (Truthy(project) && !project.Str? ==> outcome == CreateRaised)
        && (project.Str? && project.s != "" && !projectExists ==> outcome == ProjectNotFound)
        && (project.Str? && project.s != "" && projectExists ==> outcome == Created(id))
      ensures !outcome.Created? ==>
        agents == old(agents) && patterns == old(patterns) && clients == old(clients) && sent == old(sent)
      ensures outcome.Created? ==>
        var project := Lookup(data, "project", Null).s;
        var mode := Lookup(data, "mode", Str("normal"));
        && id in agents && fresh(agents[id])
        && agents == old(agents)[id := agents[id]]
        && agents[id].project == project
        && agents[id].projectPath == ProjectPath(projectsDir, project)
        && agents[id].mode == mode
        && agents[id].View() == AgentView(Null, Idle, [], false) && !agents[id].hasProcess
        && patterns == old(patterns)[id := {}]
        && sent == old(sent) + [Init(id, project, Idle, mode)]
        && clients == Without(old(clients), failing)
      ensures pending == old(pending) && liveConfigs == old(liveConfigs)
    {
      var project := Lookup(data, "project", Null);
      if !Truthy(project) {
        return ProjectRequired;
      }
      if !project.Str? {
        return CreateRaised;
      }
      var path := ProjectPath(projectsDir, project.s);
      if !projectExists {
        return ProjectNotFound;
      }
      var mode := Lookup(data, "mode", Str("normal"));
      var record := new AgentRecord(project.s, path, mode);
      agents := agents[id := record];
      patterns := patterns[id := {}];
      var _ := Broadcast(Init(id, project.s, Idle, mode), failing);
      outcome := Created(id);
    }

    /** `delete_agent(agent_id)`: an unknown id changes nothing; a known one is removed
        with its patterns, its process is signalled if it has one, and the deletion is
        broadcast. Its pending approval requests stay where they are. */
    method DeleteAgent(agentId: string, failing: set<ClientId>) returns (found: bool, terminated: bool)
      requires Valid()
      modifies this
      ensures Valid()
      ensures found == (agentId in old(agents))
      ensures !found ==> !terminated && agents == old(agents) && patterns == old(patterns)
                         && clients == old(clients) && sent == old(sent)
      ensures found ==>
        && terminated == old(agents[agentId].hasProcess)
        && agents == old(agents) - {agentId}
        && patterns == old(patterns) - {agentId}
        && sent == old(sent) + [Deleted(agentId)]
        && clients == Without(old(clients), failing)
      ensures pending == old(pending) && liveConfigs == old(liveConfigs)
    {
      if agentId !in agents {
        return false, false;
      }
      var agent := agents[agentId];
      agents := agents - {agentId};
      found := true;
      terminated := agent.hasProcess;
      patterns := patterns - {agentId};
      var _ := Broadcast(Deleted(agentId), failing);
    }

    /** One line of output, on the record `agent`: a blank line is skipped; any other is
        stripped and classified, the record takes the classification's fields and its
        notifications are broadcast in order. */
    method HandleLine(agent: AgentRecord, agentId: string, line: string, loads: string -> Option<Json>,
                      failing: set<ClientId>)
      returns (raised: bool)
      requires Valid()
      modifies this, agent
      ensures Valid()
      ensures var u := StreamStep(agentId, UnitResult(old(agent.View()), [], false), line, loads);
        && agent.View() == u.view && raised == u.raised && sent == old(sent) + u.events
        && clients == (if u.events == [] then old(clients) else Without(old(clients), failing))
      ensures agent.project == old(agent.project) && agent.projectPath == old(agent.projectPath)
      ensures agent.mode == old(agent.mode) && agent.hasProcess == old(agent.hasProcess)
      ensures agents == old(agents) && pending == old(pending) && patterns == old(patterns)
      ensures liveConfigs == old(liveConfigs)
    {
      ghost var prev := UnitResult(agent.View(), [], false);
      var stripped := Text.Strip(line);
      if stripped == "" {
        assert StreamStep(agentId, prev, line, loads) == prev;
        return false;
      }
      var unit := ClassifyUnit(agentId, agent.View(), stripped, loads(stripped));
      assert StreamStep(agentId, prev, line, loads) == UnitResult(unit.view, [] + unit.events, unit.raised);
      assert [] + unit.events == unit.events;
      agent.Apply(unit.view);
      BroadcastAll(unit.events, failing);
      raised := unit.raised;
    }

    /** The read loop of a turn over the output lines `lines`, on the record `agent`. */
    method ReadOutput(agent: AgentRecord, agentId: string, lines: seq<string>, loads: string -> Option<Json>,
                      failing: set<ClientId>)
      returns (raised: bool)
      requires Valid()
      modifies this, agent
      ensures Valid()
      ensures var t := Stream(agentId, old(agent.View()), lines, loads);
        && agent.View() == t.view && raised == t.raised && sent == old(sent) + t.events
        && clients == (if t.events == [] then old(clients) else Without(old(clients), failing))
      ensures agent.project == old(agent.project) && agent.projectPath == old(agent.projectPath)
      ensures agent.mode == old(agent.mode) && agent.hasProcess == old(agent.hasProcess)
      ensures agents == old(agents) && pending == old(pending) && patterns == old(patterns)
      ensures liveConfigs == old(liveConfigs)
    {
      ghost var start := agent.View();
      ghost var clients0 := clients;
      ghost var t := Stream(agentId, start, [], loads);
      var i := 0;
      raised := false;
      while i < |lines| && !raised
        invariant 0 <= i <= |lines|
        invariant Valid()
        invariant t == Stream(agentId, start, lines[..i], loads)
        invariant agent.View() == t.view && raised == t.raised && sent == old(sent) + t.events
        invariant clients == (if t.events == [] then clients0 else Without(clients0, failing))
        invariant agent.project == old(agent.project) && agent.projectPath == old(agent.projectPath)
        invariant agent.mode == old(agent.mode) && agent.hasProcess == old(agent.hasProcess)
        invariant agents == old(agents) && pending == old(pending) && patterns == old(patterns)
        invariant liveConfigs == old(liveConfigs)
      {
        StreamPrefix(agentId, start, lines, loads, i);
        StepShift(agentId, t, lines[i], loads);
        WithoutTwice(clients0, failing);
        ghost var u := StreamStep(agentId, UnitResult(agent.View(), [], false), lines[i], loads);
        ghost var sent0, clients1 := sent, clients;
        raised := HandleLine(agent, agentId, lines[i], loads, failing);
        assert agent.View() == u.view && raised == u.raised && sent == sent0 + u.events;
        assert clients == (if u.events == [] then clients1 else Without(clients1, failing));
        SeqAssoc(old(sent), t.events, u.events);
        t := UnitResult(u.view, t.events + u.events, u.raised);
        i := i + 1;
      }
      if raised {
        StreamStops(agentId, start, lines, loads, i);
      } else {
        assert lines[..i] == lines;
      }
    }

    /** `run_claude`: one turn of the agent `agentId`, given how starting the CLI went,
        the lines it wrote and the JSON decoder. A turn of an unknown agent does nothing.
        Every other turn starts working and not waiting, builds the command for its mode,
        creates an adapter configuration exactly in the modes that route approvals, and
        writes the command to its log. That log line raises when the command holds a
        session token that is not a string (`Cli.JoinRaisesOnSession`): the turn then
        ends before its `try`, the record stays working and not waiting, the
        configuration is left behind, and nothing more is broadcast. A turn that gets
        into its `try` cleans up however it ends: no process, idle, waiting on the user,
        the configuration removed, and an idle status broadcast. */
    method RunTurn(agentId: string, prompt: string, sessionId: Json, mode: Json, launch: Launch,
                   lines: seq<string>, loads: string -> Option<Json>, failing: set<ClientId>)
      returns (started: bool, command: seq<Cli.Arg>, configCreated: bool, raised: bool)
      requires Valid()
      modifies this, if agentId in agents then {agents[agentId]} else {}
      ensures Valid()
      ensures started == (agentId in old(agents))
      ensures !started ==> clients == old(clients) && sent == old(sent) && !configCreated
      ensures !started ==> liveConfigs == old(liveConfigs)
      ensures started ==>
        var agent := old(agents[agentId]);
        && command == Cli.CommandLine(mode, sessionId)
        && configCreated == Cli.NeedsConfig(mode)
        && clients == Without(old(clients), failing)
        && agent.project == old(agent.project) && agent.projectPath == old(agent.projectPath)
        && agent.mode == old(agent.mode)
      ensures started && Cli.JoinRaises(command) ==>
        var agent := old(agents[agentId]);
        && agent.View() == old(agent.View()).(status := Working, waitingOnUser := false)
        && agent.hasProcess == old(agent.hasProcess)
        && raised
        && sent == old(sent) + [StatusChanged(agentId, Working)]
        && liveConfigs == old(liveConfigs) + (if configCreated then 1 else 0)
      ensures started && !Cli.JoinRaises(command) ==>
        var agent := old(agents[agentId]);
        var t := Turn(agentId, old(agent.View()), prompt, launch, lines, loads);
        && agent.View() == Settled(t) && !agent.hasProcess
        && raised == t.raised
        && sent == old(sent) + [StatusChanged(agentId, Working)] + t.events + [StatusChanged(agentId, Idle)]
        && liveConfigs == old(liveConfigs)
      ensures agents == old(agents) && pending == old(pending) && patterns == old(patterns)
    {
      command, configCreated, raised := [], false, false;
      if agentId !in agents {
        return false, command, configCreated, raised;
      }
      started := true;
      var agent := agents[agentId];
      ghost var t := Turn(agentId, agent.View(), prompt, launch, lines, loads);
      BeginTurn(agent, agentId, failing);
      command := Cli.CommandLine(mode, sessionId);
      if Cli.NeedsConfig(mode) {
        configCreated := true;
        liveConfigs := liveConfigs + 1;
      }
      if Cli.JoinRaises(command) {
        return started, command, configCreated, true;
      }
      TurnRestarts(agentId, old(agent.View()), prompt, launch, lines, loads);
      WithoutTwice(old(clients), failing);
      raised := Converse(agent, agentId, prompt, launch, lines, loads, failing);
      EndTurn(agent, agentId, configCreated, failing);
    }

    /** The body of the `try` of a turn, on a record that is already working: start the
        CLI, log and send the prompt, and run the read loop. */
    method Converse(agent: AgentRecord, agentId: string, prompt: string, launch: Launch,
                    lines: seq<string>, loads: string -> Option<Json>, failing: set<ClientId>)
      returns (raised: bool)
      requires Valid()
      requires agent.status == Working && !agent.waitingOnUser
      modifies this, agent
      ensures Valid()
      ensures var t := Turn(agentId, old(agent.View()), prompt, launch, lines, loads);
        && agent.View() == t.view && raised == t.raised && sent == old(sent) + t.events
        && clients == (if t.events == [] then old(clients) else Without(old(clients), failing))
      ensures agent.project == old(agent.project) && agent.projectPath == old(agent.projectPath)
      ensures agent.mode == old(agent.mode)
      ensures agents == old(agents) && pending == old(pending) && patterns == old(patterns)
      ensures liveConfigs == old(liveConfigs)
    {
      match launch {
        case SpawnFailed =>
          raised := true;
        case Spawned(delivered) =>
          agent.hasProcess := true;
          agent.messages := agent.messages + [Message("user", Str(prompt))];
          if !delivered {
            raised := true;
          } else {
            raised := ReadOutput(agent, agentId, lines, loads, failing);
          }
      }
    }

    /** The start of a turn: the record is working and not waiting, and that is broadcast. */
    method BeginTurn(agent: AgentRecord, agentId: string, failing: set<ClientId>)
      requires Valid()
      modifies this, agent
      ensures Valid()
      ensures agent.View() == old(agent.View()).(status := Working, waitingOnUser := false)
      ensures agent.project == old(agent.project) && agent.projectPath == old(agent.projectPath)
      ensures agent.mode == old(agent.mode) && agent.hasProcess == old(agent.hasProcess)
      ensures sent == old(sent) + [StatusChanged(agentId, Working)]
      ensures clients == Without(old(clients), failing)
      ensures agents == old(agents) && pending == old(pending) && patterns == old(patterns)
      ensures liveConfigs == old(liveConfigs)
    {
      agent.status := Working;
      agent.waitingOnUser := false;
      var _ := Broadcast(StatusChanged(agentId, Working), failing);
    }

    /** The `finally` of a turn: no process, idle, waiting on the user, the adapter
        configuration removed if one was created, and the idle status broadcast. */
    method EndTurn(agent: AgentRecord, agentId: string, configCreated: bool, failing: set<ClientId>)
      requires Valid()
      requires configCreated ==> liveConfigs >= 1
      modifies this, agent
      ensures Valid()
      ensures agent.View() == old(agent.View()).(status := Idle, waitingOnUser := true)
      ensures !agent.hasProcess
      ensures agent.project == old(agent.project) && agent.projectPath == old(agent.projectPath)
      ensures agent.mode == old(agent.mode)
      ensures sent == old(sent) + [StatusChanged(agentId, Idle)]
      ensures clients == Without(old(clients), failing)
      ensures agents == old(agents) && pending == old(pending) && patterns == old(patterns)
      ensures liveConfigs == old(liveConfigs) - (if configCreated then 1 else 0)
    {
      agent.hasProcess := false;
      agent.status := Idle;
      agent.waitingOnUser := true;
      if configCreated {
        liveConfigs := liveConfigs - 1;
      }
      var _ := Broadcast(StatusChanged(agentId, Idle), failing);
    }
  }
}

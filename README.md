# CEO Dashboard approval pipeline, modelled in Dafny

The CEO Dashboard is a web coordinator that runs several agent CLI processes, one per
project. It streams their output to browsers over WebSockets and lets a user approve
or deny the tools an agent wants to use. Approvals travel through a small permission
adapter. The adapter is a Model Context Protocol server that the agent CLI starts. It
offers a single `approve` tool and posts each call to the coordinator.

This project models the decision logic of both pieces and proves what they promise.

On the coordinator side (`main.py`):
- **Patterns**
  - deriving the "Yes to all X" pattern of a tool call (`extract_command_prefix`);
  - checking a call against an agent's patterns (`should_auto_approve`);
  - the display text of an approval prompt.
- **Broker:** the table of pending approval requests together with the per-agent
  pattern sets. It covers the request path of `handle_approve_request`, the
  `approval_response` branch of the WebSocket handler, and the waiter resuming.
  The wait on a future is a three-step state machine:
  - `Request` files a waiting slot;
  - `Respond` fills it;
  - `Collect` takes the decision and removes the slot.
- **Classifier:** the classification of one line of agent output. It yields the
  record's new fields and the ordered notifications.
- **Hub:** the notification hub `broadcast`, which prunes clients whose send failed.
- **Lifecycle:**
  - the mode flags of the CLI command;
  - the start of a turn;
  - the read loop;
  - the unconditional cleanup;
  - creation and deletion of agents.

On the adapter side (`mcp_permission_server.py`):
- the JSON-RPC 2.0 router for `initialize`, `notifications/initialized`, `tools/list`
  and `tools/call`;
- the fail-closed `approve` handler;
- the skip rules of the read loop;
- argument parsing.

## Design

Modules, in dependency order:
- `Wrappers` holds `Option` and `Result`.
- `Text` holds the Python string operations used: `split()`, `split("/")[-1]`,
  `strip()`, `in`, ASCII `lower()` and `str(int)`.
- `JsonValue` models decoded JSON, with Python truthiness and `dict.get`.
- `Events` holds the notification datatype and the agent view.
- `Patterns`, `Classifier` and `Cli` are pure functions with their lemmas.
- `Broker` holds the broker transitions as pure functions.
- `Coordinator` holds the coordinator's module-level state. It is the class `Server`,
  with fields `agents`, `clients`, `pending`, `patterns` and `liveConfigs`, plus the
  class `AgentRecord`. Its methods:
  - perform the broker transitions on its fields;
  - run the broadcast loops;
  - run a whole turn.
- `Mcp` is the adapter router.

Python raising is modelled explicitly where the code raises on unexpected values, with
the exceptions listed under "## Left out":
- `.get` on a value that is not a dictionary;
- a list or a dictionary used as a set element or a dictionary key;
- `/` applied to a project name that is not a string;
- `' '.join(cmd)` on a command that holds a session token that is not a string.

A raise is either an `Option` that is `None` or a `raised` flag. The state left behind
is exactly the state at the point of the raise.

Foreign code and the environment are parameters:
- `loads: string -> Option<Json>` is `json.loads`, with `None` for a decode error.
- `dumps: Json -> string` is `json.dumps`.
- `callback: Json -> Result<Json, string>` is the adapter's HTTP POST and the
  decoding of its reply.
- `failing: set<ClientId>` is the clients whose send fails during one call.
- `Launch` says whether the CLI process could be started and whether the prompt
  reached its stdin.
- `projectExists` stands for `Path.exists()`.
- `lines` in `ReadOutput` and `RunTurn` are the lines the process wrote.
- Fresh request and agent ids are parameters (`id`).

`Server.sent` is a ghost log of every notification broadcast, so each method states
exactly which notifications it emitted and in what order.

## Model

| member | source | states |
|---|---|---|
| Patterns.ExtractCommandPrefix | main.py:105-139 | Any tool name other than "Bash" is returned unchanged. For Bash, the result raises (None) exactly when the input is not a dictionary or its command is not a string; otherwise it is "Bash:" followed by a word without whitespace (the exact rules are the two rows below). |
| Patterns.BashPrefixRule | main.py:126-137 | A blank command gives "Bash:". Any other command gives the pattern of its first maximal run of non-space characters. |
| Patterns.BashPatternRule | main.py:131-137 | A word starting with "./" gives "Bash:./". A word starting with "/" gives "Bash:" followed by the part after its last "/", or "Bash:/" when that part is empty. Any other word w gives "Bash:" + w. |
| Patterns.PrefixExampleNpm | main.py:111-112 | The docstring example: "npm install express" gives "Bash:npm". |
| Patterns.PrefixExampleScript | main.py:131-132 | "./run.sh" gives "Bash:./". |
| Patterns.PrefixExampleOther | main.py:126-139 | A Bash call without a command gives "Bash:", and an Edit call gives "Edit". |
| Patterns.PrefixExampleAbsolute | main.py:133-136 | "/usr/bin/python foo" gives "Bash:python". |
| Patterns.ShouldAutoApprove | main.py:142-162 | A missing or empty pattern set gives false. Otherwise the result is true iff the tool name or its derived prefix is in the set. It raises iff the set is non-empty, the name is not in it, and the prefix derivation raises. |
| Patterns.AddPattern | main.py:765-767 | `setdefault(agent_id, set()).add(pattern)`: the agent's set gains exactly the pattern, every other agent's set is unchanged, and the keys gain the agent. |
| Patterns.AddPatternGrowsIdempotent | main.py:765-767 | Adding a pattern only grows every set. Adding the same pattern twice equals adding it once. |
| Patterns.AddPatternCommutes | main.py:765-767 | Two additions give the same table in either order, and both patterns are present. |
| Patterns.ApprovalSurvivesGrowth | main.py:149-162 | An approval from the patterns stays an approval under any growth of the table. |
| Patterns.YesToAllCovers | main.py:698 | After the pattern shown in a prompt is stored, every call of that tool with the same derived pattern is auto-approved. |
| Patterns.CommandDisplay | main.py:680-686 | The display text is: the command for Bash; `file_path`, or `filePath` when the former is missing or empty, for Edit, Write and MultiEdit; "" for every other tool. The Edit case raises exactly when the input is not a dictionary. |
| Patterns.DisplayAndPattern | main.py:680-698 | The prompt's display and its offered pattern agree. For Bash the display is the command, and the pattern is "Bash:" for a blank command and otherwise is built from the first run of non-space characters of that displayed command. For other tools the pattern is the tool name; the display is a file path for Edit, Write and MultiEdit and "" for the rest. |
| Classifier.QuestionTestSpec | main.py:370-390 | A text block is a question iff it contains "?" and its lower-cased text contains one of the eight fixed phrases. |
| Classifier.ToolInterrupt | main.py:408-414 | AskUserQuestion and AskHuman are question interrupts, ExitPlanMode is a plan interrupt, and no other tool interrupts. |
| Classifier.ScanBlocksSpec | main.py:363-414 | Over the content blocks of an assistant message: the log gains one assistant message per non-empty text, in order; one tool event is emitted per tool_use block; the interrupt type is that of the last interrupting block. |
| Classifier.ScanBlocksGrows | main.py:367-414 | The message log and the notifications of a block scan only grow, and a raised scan changes nothing further. |
| Classifier.ClassifyUnitSpec | main.py:345-447 | An undecodable line gives one raw output event and nothing else. A non-object line raises. A decoded object gives the usage event (iff "usage" is present), then the tool events, then — iff interrupted — a needs_attention status and an interrupt event, otherwise one output event. An interrupt sets needs_attention and waiting_on_user. The session id is captured only from a "result" message that carries one. Texts are appended to the log. |
| Classifier.ClassifyUnitKeepsLog | main.py:373-374 | Classification only appends to the message log. |
| Cli.ModeArgsFlags | main.py:255-287 | Each flag comes with exactly its mode: the MCP config and the approve tool with normal and auto-edit; acceptEdits with auto-edit; plan with plan; skip-permissions with yolo. An unknown mode adds nothing. |
| Cli.CommandLineFlags | main.py:250-290 | The command starts with the six base words. Each mode flag is present iff its mode is selected. "--resume" followed by the session id ends the command iff the session id is truthy. |
| Cli.JoinRaisesOnSession | main.py:289-296 | Joining the command for the log line raises exactly when the session token is truthy and not a string. |
| Cli.PeerArgs | main.py:186-195 | The adapter's arguments are the script, the agent id, the callback URL "http://127.0.0.1:<port>/internal/approve-request" and the project directory. |
| Broker.DecisionJson | main.py:672 | An Allow decision encodes as behavior "allow" with updatedInput. A Deny decision encodes as behavior "deny" with its message. |
| Broker.RequestSpec | main.py:661-700 | A cache hit allows with the call's own input, files nothing and broadcasts nothing. A queued miss adds exactly one waiting slot under the fresh id and emits exactly one approval request, carrying the display text and the derived pattern. The patterns never change. |
| Broker.RequestQueuedWhen | main.py:670-700 | A request is queued iff the patterns give false and both the display text and the pattern can be derived. |
| Broker.ResponseDecision | main.py:775-789 | "allow" yields allow with the message's tool_input. Any other decision yields deny with "Denied by user". |
| Broker.RespondPatterns | main.py:764-767 | Pattern sets only grow. A change is exactly the addition of the message's pattern to its agent, and happens only for a non-empty pattern and agent id with decision "allow". Such a pattern is present afterwards. |
| Broker.RespondResolves | main.py:773-789 | Only the slot named by request_id is touched, only while it is waiting, and it is filled with the message's decision. An unknown id leaves the table unchanged. The table's keys never change. |
| Broker.RespondIdempotent | main.py:753-789 | A second identical response leaves the state as the first left it (intended semantics; see Findings). |
| Broker.RoundTrip | main.py:661-711 | The full round trip, with a fresh id and a response naming it: request queued, response, waiter resumed. The waiter gets the response's decision, the pending table is back to what it was, and the patterns have grown. With "Yes to all" for the shown pattern, the same call is auto-approved next time. |
| Broker.AnswerWaiting | main.py:765-789 | A response naming a waiting slot stores its pattern, fills that slot with its decision and does not raise. |
| Broker.CollectReady | main.py:709-711 | The waiter resuming on a decided slot filed under a fresh id gets that decision back, and the table is as it was before the request. |
| Broker.RespondAsWritten | main.py:774-789 | As written: a response naming a slot that is already decided raises (`set_result` on a done future). |
| Broker.DoubleResponse | main.py:753-789 | Two responses for one request before its waiter resumes: as written the second raises; with the intended semantics the first decision stands. |
| Coordinator.SendAll | main.py:95-100 | Every client is attempted, in order. The dead list holds exactly the attempted clients whose send failed, without repeats. |
| Coordinator.Server.Connect | main.py:731-732 | A new browser socket is appended to the client list, which stays without repeats. Nothing else changes. |
| Coordinator.Server.Disconnect | main.py:858-859 | A disconnecting socket is taken out of the client list. It raises exactly when a failed broadcast had already dropped it. Nothing else changes. |
| Coordinator.Server.RemoveDead | main.py:101-102 | Removing the dead clients one at a time leaves the original list with them filtered out, in order. |
| Coordinator.Server.Broadcast | main.py:93-102 | Every client is attempted. The client list becomes exactly the original minus the failed clients, in original order. The message is logged once and nothing else changes. |
| Coordinator.Server.BroadcastAll | main.py:419-436 | Messages broadcast one after another are logged in order, and the clients are pruned once. |
| Coordinator.StreamStops | main.py:337-447 | Once a line raised, no later line has any effect. |
| Coordinator.StreamKeepsLog | main.py:337-447 | The read loop only appends to the message log. |
| Coordinator.TurnLogsPrompt | main.py:318 | A turn whose CLI started logs the user's prompt before anything the agent says. |
| Coordinator.ProjectPath | main.py:493 | `PROJECTS_DIR / project`: an absolute project name replaces the directory. |
| Coordinator.AgentRecord.Apply | main.py:355-418 | The record takes over exactly the classifier's fields. Project, path, mode and process are unchanged. |
| Coordinator.Server.HandleLine | main.py:337-447 | One output line: a blank line is skipped. Otherwise the record becomes the classification of the stripped line, and its notifications are broadcast in order. |
| Coordinator.Server.ReadOutput | main.py:337-447 | The read loop leaves the record and the notification log exactly as the specification `Stream` of the lines, stopping at the first line that raised. |
| Coordinator.Server.RunTurn | main.py:242-463 | For an unknown agent it does nothing. Otherwise the command is `Cli.CommandLine(mode, session)` and a config is created iff the mode is normal or auto-edit. When the command's log line raises (a truthy non-string session token), the turn stops before its `try`: the record stays working and not waiting with its process flag unchanged, only the working status was broadcast, and the config is left behind. Otherwise the config is removed again; the notifications are working, then the turn's events, then idle; and the record has no process, is idle, is waiting on the user, and holds the turn's log. |
| Coordinator.Server.BeginTurn | main.py:246-248 | The record becomes working and not waiting, and the working status is broadcast. Nothing else of the record changes. |
| Coordinator.Server.Converse | main.py:298-447 | Starting the CLI, logging the prompt and reading its output leave the record and the notification log exactly as the turn specification `Turn` says. |
| Coordinator.Server.EndTurn | main.py:453-463 | The cleanup: no process, idle, waiting on the user, the adapter configuration removed iff one was created, and the idle status broadcast. |
| Coordinator.Server.ApproveRequest | main.py:661-700 | Performs `Broker.Request` on the server's tables and broadcasts exactly its notices. |
| Coordinator.Server.AwaitDecision | main.py:708-711 | A decided request returns its decision and its entry is popped. An undecided one is left waiting. |
| Coordinator.Server.ApprovalResponse | main.py:753-789 | Performs `Broker.Respond`, the intended semantics of the Findings row, on the server's tables: the pattern is stored first, then the request is resolved. |
| Coordinator.Server.CreateAgent | main.py:487-521 | It answers with the outcome of every case: a missing project is rejected, a non-string project raises, a missing directory is "not found", and otherwise the agent is created. A created agent is a fresh idle record with no session, no process, an empty log and not waiting, and it gets an empty pattern set and an init broadcast. In every other case nothing changes. |
| Coordinator.Server.DeleteAgent | main.py:540-555 | An unknown id changes nothing. A known one is removed with its pattern set, its process is terminated iff it has one, and "deleted" is broadcast. Pending requests are untouched. |
| Mcp.ParseArgs | mcp_permission_server.py:316-333 | A configuration is read iff at least three arguments follow the script name. |
| Mcp.ParseArgsOfPeer | mcp_permission_server.py:331-333 | The arguments the coordinator gives the adapter parse back to that agent's id, the callback URL and the directory. |
| Mcp.ServeLineSkips | mcp_permission_server.py:289-313 | Blank lines, undecodable lines, notifications and messages that raise produce no output. Every other message produces exactly its encoded response. |
| Mcp.ResponseEnvelope | mcp_permission_server.py:59-61 | Every response is "jsonrpc": "2.0" with the request's own non-null id, and has exactly one of result and error. |
| Mcp.NotificationsSilent | mcp_permission_server.py:226-240 | A message without an id, or with a null one, is not answered. Neither is notifications/initialized, even when it carries an id. |
| Mcp.InitializeSpec | mcp_permission_server.py:54-72 | initialize answers protocol version "2024-11-05" with tools as its only capability. |
| Mcp.ToolsListSpec | mcp_permission_server.py:75-107 | tools/list answers exactly one tool, "approve", whose schema requires tool_name and input. |
| Mcp.UnknownRequests | mcp_permission_server.py:129-140 | A tool other than "approve" gets error -32601 "Unknown tool: <name>". An unknown method gets error -32601 "Method not found: <method>". |
| Mcp.ApproveForwards | mcp_permission_server.py:143-182 | The post carries the agent id, the tool name (default "unknown"), the input (default {}) and the directory. The coordinator's decision comes back as the single text block. |
| Mcp.FailClosed | mcp_permission_server.py:184-203 | A failed callback still yields a result, not an error. Its text is a deny decision with "Permission server error: <e>". |
| Mcp.ApproveAnswers | mcp_permission_server.py:143-203 | Every answer to an approve call carries either the coordinator's decision or a deny decision. It never allows on its own. |

## Left out

- **Process, network and file I/O:**
  - subprocess spawning;
  - stdin writes and stdout/stderr reading;
  - `terminate` and `wait`;
  - FastAPI routing and HTTP status codes;
  - WebSocket accept and receive;
  - static files;
  - temporary config files and `os.unlink`;
  - every `print`.

  The process is the flag `hasProcess`. The config file is the counter `liveConfigs`.
  The stderr reader task is not modelled.
- **Concurrency:** asyncio interleaving is not modelled. Every operation is an atomic
  step, and a whole turn (`RunTurn`) runs without interleaving. The broker's await is
  the `Request`/`Respond`/`Collect` state machine.
- Coordinator.Server.Broadcast: the set of clients whose send fails is fixed for one
  call. The client list is not re-read between sends.
- Coordinator.Server.RunTurn: one set `failing` holds for the whole turn, and is passed
  on to `Converse`, `ReadOutput`, `HandleLine` and `BroadcastAll`. A client whose send
  starts failing in the middle of a turn, or recovers, cannot be expressed.
- **Request cancellation:** `pending_approvals.pop` in the `finally` of a cancelled
  request is not modelled. An entry is removed only by `Collect`.
- **Endpoints outside the core:** `list_projects`, `execute_plan`, the git diff
  endpoint, the snapshot sent on WebSocket connect, the WebSocket chat and stop
  messages, and the initial summary prompt of `create_agent`. That turn is a separate
  `RunTurn`.
- **JSON:**
  - numbers are integers only, with no floats;
  - object key order is not modelled, since objects are maps;
  - Python's `str()` of a list or dictionary in an f-string is the placeholder "[...]"
    or "{...}" (`JsonValue.Display`).
- Broker.RememberPattern: a truthy `pattern` or `agent_id` that is neither a string nor
  a list or dictionary (a number or `true`) is dropped. Python would store a number
  in the set.
- Broker.RememberPattern: a list or dictionary `pattern` under a string `agent_id`
  makes Python's `setdefault` create an empty set before `add` raises. The model
  leaves the table unchanged. `PatternsOf` treats the empty and the missing set alike.
- Coordinator.Server.ApprovalResponse: performs the intended semantics `Broker.Respond` of the Findings row, so a second response to an already decided request is ignored. As written (main.py:774-789) it raises InvalidStateError, which ends that browser's WebSocket handler and leaves its socket in `clients`; that behaviour is `Broker.RespondAsWritten`.
- Coordinator.Server.ApprovalResponse: the received WebSocket message is taken to be a dictionary. A list or other non-dictionary message, on which `data.get` raises at main.py:753, is not modelled.
- Broker.Request: the request body's `agent_id` and `tool_name` are taken to be strings. A list `tool_name` (TypeError in the `in` test at main.py:154) and a number `tool_name` (compared and broadcast as it is) are not modelled.
- Patterns.ShouldAutoApprove: `agent_id` and `tool_name` are strings; a non-string `tool_name` from the request body is not modelled.
- Patterns.ExtractCommandPrefix: `tool_name` is a string; a non-string one from the request body is not modelled.
- Patterns.CommandDisplay: `tool_name` is a string; a non-string one from the request body is not modelled.
- Coordinator.Server.ApproveRequest: the request body's `agent_id` and `tool_name` are strings; the adapter posts its `tool_name` argument unchanged (`Mcp.ApprovalBody`), so a non-string one reaches main.py:662-663 and is not modelled.
- Coordinator.ProjectPath: `pathlib` normalisation of the joined path (repeated or
  trailing "/", ".") is not modelled.
- Text.Lower: ASCII lower-casing only. Unicode case mapping is not modelled.
- **UTF-8 decoding:** `decode(errors="replace")` on the agent's output is not
  modelled, and neither is the adapter's strict `decode` that can raise. Lines
  arrive as strings.
- **Adapter read loop:** the loop of `run_server` and its end on EOF are not
  modelled. Only its per-line skip rules are.
- **Tests:** `test_core.py`, `test_e2e.py` and `test_browser.py` run a live server,
  the real CLI and a browser, and hold no logic to model.
- **Turn launch:** `if process.stdin:` is always true for a pipe. A failed write or
  drain is `Spawned(false)`, which raises after the prompt was logged.

## Findings

| source | as written | input that shows it | evidently intended | confidence | as-written member | corrected member |
|---|---|---|---|---|---|---|
| main.py:774-789 | `future.set_result(...)` is called for any `request_id` still in `pending_approvals`, including one whose future is already done because an earlier response resolved it and its waiter has not yet resumed and popped it | two `approval_response` messages with the same `request_id` arriving before the waiter resumes (a double click, or two browser tabs) | the second response is a harmless no-op and the first decision stands; instead `set_result` raises InvalidStateError, which ends that browser's WebSocket handler (it only catches WebSocketDisconnect) and leaves the socket in `clients` | medium, not executed | Broker.RespondAsWritten, Broker.DoubleResponse | Broker.Respond, Broker.RespondIdempotent |

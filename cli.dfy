/** The command line the coordinator starts the agent CLI with, and the arguments it
    gives the permission adapter in the adapter's configuration. */
module Cli {
  import opened JsonValue
  import Text

  /** One command-line argument. The path of the temporary adapter configuration and the
      session token are not known until the turn starts. */
  datatype Arg = Word(w: string) | ConfigPath | Session(token: Json)

  /** The flags every turn starts with. */
  const BaseArgs: seq<Arg> :=
    [Word("claude"), Word("--output-format"), Word("stream-json"),
     Word("--input-format"), Word("stream-json"), Word("--verbose")]

  /** The modes whose tool calls are routed to the permission adapter; only these get a
      temporary adapter configuration. */
  predicate NeedsConfig(mode: Json) {
    mode == Str("normal") || mode == Str("auto-edit")
  }

  /** The mode-specific flags; a mode the coordinator does not know adds none. */
  function ModeArgs(mode: Json): seq<Arg> {
    if mode == Str("plan") then [Word("--permission-mode"), Word("plan")]
    else if mode == Str("normal") then
      [Word("--mcp-config"), ConfigPath, Word("--permission-prompt-tool"), Word("mcp__ceo-perms__approve")]
    else if mode == Str("auto-edit") then
      [Word("--mcp-config"), ConfigPath, Word("--permission-prompt-tool"), Word("mcp__ceo-perms__approve"),
       Word("--permission-mode"), Word("acceptEdits")]
    else if mode == Str("yolo") then [Word("--dangerously-skip-permissions")]
    else []
  }

  /** The command of a turn in mode `mode`, resuming `sessionId` when it is truthy. */
  function CommandLine(mode: Json, sessionId: Json): seq<Arg> {
    BaseArgs + ModeArgs(mode) + (if Truthy(sessionId) then [Word("--resume"), Session(sessionId)] else [])
  }

  /** The mode flags by mode: the adapter configuration and the approval tool exactly in
      the normal and auto-edit modes, accepting edits only in auto-edit, the read-only
      plan permission mode only in plan, skipping every check only in yolo, and nothing
      for a mode the coordinator does not know. */
  lemma ModeArgsFlags(mode: Json)
    ensures ConfigPath in ModeArgs(mode) <==> NeedsConfig(mode)
    ensures Word("mcp__ceo-perms__approve") in ModeArgs(mode) <==> NeedsConfig(mode)
    ensures Word("acceptEdits") in ModeArgs(mode) <==> mode == Str("auto-edit")
    ensures Word("plan") in ModeArgs(mode) <==> mode == Str("plan")
    ensures Word("--dangerously-skip-permissions") in ModeArgs(mode) <==> mode == Str("yolo")
    ensures Word("--resume") !in ModeArgs(mode)
    ensures !NeedsConfig(mode) && mode != Str("plan") && mode != Str("yolo") ==> ModeArgs(mode) == []
  {
    var r := ModeArgs(mode);
    if mode == Str("plan") {
      assert r == [Word("--permission-mode"), Word("plan")];
    } else if mode == Str("normal") {
      assert r[1] == ConfigPath && r[3] == Word("mcp__ceo-perms__approve");
    } else if mode == Str("auto-edit") {
      assert r[1] == ConfigPath && r[3] == Word("mcp__ceo-perms__approve") && r[5] == Word("acceptEdits");
    }
  }

  /** None of the flags a mode or a session adds is among the base flags. */
  lemma BaseArgsExclude()
    ensures ConfigPath !in BaseArgs
    ensures Word("mcp__ceo-perms__approve") !in BaseArgs
    ensures Word("acceptEdits") !in BaseArgs
    ensures Word("--dangerously-skip-permissions") !in BaseArgs
    ensures Word("--resume") !in BaseArgs
    ensures Word("plan") !in BaseArgs
  {
    assert "acceptEdits"[0] != "stream-json"[0];
  }

  lemma InConcat<T>(a: T, x: seq<T>, y: seq<T>, z: seq<T>)
    ensures a in x + y + z <==> a in x || a in y || a in z
  {
    if a in x + y + z {
      var i :| 0 <= i < |x + y + z| && (x + y + z)[i] == a;
      if i >= |x| + |y| {
        assert z[i - |x| - |y|] == a;
      } else if i >= |x| {
        assert y[i - |x|] == a;
      }
    }
  }

  /** The command of a turn: the base flags, then the mode flags, then a resumed session
      exactly when there is a session token. */
  lemma CommandLineFlags(mode: Json, sessionId: Json)
    ensures var r := CommandLine(mode, sessionId);
      && r[..|BaseArgs|] == BaseArgs
      && (ConfigPath in r <==> NeedsConfig(mode))
      && (Word("mcp__ceo-perms__approve") in r <==> NeedsConfig(mode))
      && (Word("acceptEdits") in r <==> mode == Str("auto-edit"))
      && (Word("plan") in r <==> mode == Str("plan"))
      && (Word("--dangerously-skip-permissions") in r <==> mode == Str("yolo"))
      && (Word("--resume") in r <==> Truthy(sessionId))
      && (Truthy(sessionId) ==> r[|r| - 2..] == [Word("--resume"), Session(sessionId)])
  {
    ModeArgsFlags(mode);
    BaseArgsExclude();
    var r := CommandLine(mode, sessionId);
    var tail: seq<Arg> := if Truthy(sessionId) then [Word("--resume"), Session(sessionId)] else [];
    assert r == BaseArgs + ModeArgs(mode) + tail;
    InConcat(ConfigPath, BaseArgs, ModeArgs(mode), tail);
    InConcat(Word("mcp__ceo-perms__approve"), BaseArgs, ModeArgs(mode), tail);
    InConcat(Word("acceptEdits"), BaseArgs, ModeArgs(mode), tail);
    InConcat(Word("plan"), BaseArgs, ModeArgs(mode), tail);
    InConcat(Word("--dangerously-skip-permissions"), BaseArgs, ModeArgs(mode), tail);
    InConcat(Word("--resume"), BaseArgs, ModeArgs(mode), tail);
    assert r[..|BaseArgs|] == BaseArgs;
    if Truthy(sessionId) {
      assert r[|r| - 2] == Word("--resume");
    }
  }

  /** An argument the coordinator can write into its log line: every argument is a
      string except a session token that is some other JSON value. */
  predicate Printable(a: Arg) {
    !a.Session? || a.token.Str?
  }

  /** Joining the command with spaces for the log line raises: some argument is not a
      string. */
  predicate JoinRaises(args: seq<Arg>) {
    exists a :: a in args && !Printable(a)
  }

  /** The log line of a turn's command fails exactly when the session token is truthy
      but not a string (a number, a list, a dictionary or `true`). */
  lemma JoinRaisesOnSession(mode: Json, sessionId: Json)
    ensures JoinRaises(CommandLine(mode, sessionId)) <==> Truthy(sessionId) && !sessionId.Str?
  {
    var r := CommandLine(mode, sessionId);
    var head := BaseArgs + ModeArgs(mode);
    var tail: seq<Arg> := if Truthy(sessionId) then [Word("--resume"), Session(sessionId)] else [];
    assert r == head + tail;
    assert forall a :: a in BaseArgs ==> Printable(a);
    assert forall a :: a in ModeArgs(mode) ==> Printable(a);
    if JoinRaises(r) {
      var a :| a in r && !Printable(a);
      assert a !in head;
      assert a in tail;
    }
    if Truthy(sessionId) && !sessionId.Str? {
      assert r[|r| - 1] == Session(sessionId);
      assert Session(sessionId) in r && !Printable(Session(sessionId));
    }
  }

  /** The endpoint of the coordinator that the adapter posts approval requests to. */
  function CallbackUrl(port: int): string {
    "http://127.0.0.1:" + Text.IntToString(port) + "/internal/approve-request"
  }

  /** The adapter's arguments in its configuration: the script, then the agent's id, the
      callback endpoint and the agent's project directory. */
  function PeerArgs(script: string, agentId: string, port: int, cwd: string): (r: seq<string>)
    ensures |r| == 4 && r[0] == script && r[1] == agentId && r[3] == cwd
    ensures Text.StartsWith(r[2], "http://127.0.0.1:")
  {
    [script, agentId, CallbackUrl(port), cwd]
  }
}

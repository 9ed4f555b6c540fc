/** The auto-approval keys of "Yes to all X": how a key is derived from a tool invocation,
    how the per-agent key sets are checked and grown, and the text shown beside an
    approval prompt (main.py, extract_command_prefix, should_auto_approve and the
    command_display computation of handle_approve_request). */
module Patterns {
  import opened Wrappers
  import opened JsonValue
  import opened Text

  /** The per-agent pattern sets, `auto_approve_patterns`. */
  type PatternTable = map<string, set<string>>

  /** The pattern for the first word of a Bash command. */
  function BashPattern(firstWord: string): string {
    if StartsWith(firstWord, "./") then "Bash:./"
    else if StartsWith(firstWord, "/") then
      var name := LastPart(firstWord, '/');
      if name != "" then "Bash:" + name else "Bash:/"
    else "Bash:" + firstWord
  }

  /** A Bash pattern is "Bash:" followed by a single word. */
  lemma BashPatternShape(w: string)
    requires NoSpace(w)
    ensures StartsWith(BashPattern(w), "Bash:") && NoSpace(BashPattern(w)[5..])
  {
    var p := BashPattern(w);
    if StartsWith(w, "/") && !StartsWith(w, "./") && LastPart(w, '/') != "" {
      LastPartIsSuffix(w, '/');
      var name := LastPart(w, '/');
      var head :| w == head + name && (head == "" || head[|head| - 1] == '/');
      assert p[5..] == name;
      forall k | 0 <= k < |name| ensures !IsSpace(name[k]) {
        assert name[k] == w[|head| + k];
      }
    } else if !StartsWith(w, "./") && !StartsWith(w, "/") {
      assert p[5..] == w;
    }
  }

  /** The first word of a command holds no whitespace. */
  lemma FirstWordNoSpace(command: string)
    ensures NoSpace(FirstWord(command))
  {
    SplitTokens(command);
    if Split(command) != [] {
      assert FirstWord(command) in Split(command);
    }
  }

  /** `extract_command_prefix(tool_name, tool_input)`. None: Python raises, because the
      input of a Bash call is not a dictionary or its command is not a string. */
  function ExtractCommandPrefix(toolName: string, toolInput: Json): (r: Option<string>)
    ensures toolName != "Bash" ==> r == Some(toolName)
    ensures toolName == "Bash" ==>
      (r.Some? <==> toolInput.Obj? && Lookup(toolInput.fields, "command", Str("")).Str?)
    ensures toolName == "Bash" && r.Some? ==> StartsWith(r.value, "Bash:") && NoSpace(r.value[5..])
  {
    if toolName == "Bash" then
      match Get(toolInput, "command", Str(""))
      case Some(Str(command)) =>
        FirstWordNoSpace(command);
        BashPatternShape(FirstWord(command));
        Some(BashPattern(FirstWord(command)))
      case _ => None
    else Some(toolName)
  }

  /** The pattern of a Bash call whose command is `command`: "Bash:" for a blank command,
      otherwise the pattern of the first run of non-space characters of the command. */
  lemma BashPrefixRule(toolInput: Json, command: string)
    requires Get(toolInput, "command", Str("")) == Some(Str(command))
    ensures AllSpace(command) ==> ExtractCommandPrefix("Bash", toolInput) == Some("Bash:")
    ensures !AllSpace(command) ==>
      exists j: nat, k: nat :: (LeadingRun(command, j, k)
        && ExtractCommandPrefix("Bash", toolInput) == Some(BashPattern(command[j..k])))
  {
    FirstWordIsLeadingRun(command);
    assert BashPattern("") == "Bash:";
  }

  /** How a first word becomes a pattern: "Bash:./" for a relative script, "Bash:" and
      the part after the last "/" for an absolute path ("Bash:/" when that part is
      empty), and "Bash:" and the word itself otherwise. */
  lemma BashPatternRule(w: string)
    ensures StartsWith(w, "./") ==> BashPattern(w) == "Bash:./"
    ensures StartsWith(w, "/") ==>
      exists head, name :: w == head + name && head != "" && head[|head| - 1] == '/' && '/' !in name
        && BashPattern(w) == (if name == "" then "Bash:/" else "Bash:" + name)
    ensures !StartsWith(w, "./") && !StartsWith(w, "/") ==> BashPattern(w) == "Bash:" + w
  {
    if StartsWith(w, "/") {
      DiffersAtStart(w, "./");
      LastPartIsSuffix(w, '/');
      var name := LastPart(w, '/');
      var head :| w == head + name && (head == "" || head[|head| - 1] == '/');
      assert w != name by {
        assert w[0] == '/' && w[0] in w;
      }
    }
  }

  /** The examples in the docstring of extract_command_prefix. */
  lemma BashCommandPrefix(command: string)
    ensures ExtractCommandPrefix("Bash", Obj(map["command" := Str(command)]))
            == Some(BashPattern(FirstWord(command)))
  {
  }

  lemma PrefixExampleNpm(c: string)
    requires c == "npm install express"
    ensures ExtractCommandPrefix("Bash", Obj(map["command" := Str(c)])) == Some("Bash:npm")
  {
    BashCommandPrefix(c);
    FirstWordNpm(c);
    DiffersAtStart("npm", "./");
    DiffersAtStart("npm", "/");
    assert BashPattern("npm") == "Bash:npm";
  }

  lemma FirstWordNpm(c: string)
    requires c == "npm install express"
    ensures FirstWord(c) == "npm"
  {
    assert c[0..3] == "npm";
    assert NoSpace("npm") by { assert forall k :: 0 <= k < 3 ==> 0x21 <= "npm"[k] as int <= 0x7e; }
    assert IsSpace(c[3]) by { assert c[3] == ' '; }
    FirstWordAt(c, 0, 3);
  }

  lemma PrefixExampleScript(c: string)
    requires c == "./run.sh"
    ensures ExtractCommandPrefix("Bash", Obj(map["command" := Str(c)])) == Some("Bash:./")
  {
    BashCommandPrefix(c);
    FirstWordScript(c);
    assert StartsWith(c, "./") by { assert c[..2] == "./"; }
  }

  lemma FirstWordScript(c: string)
    requires c == "./run.sh"
    ensures FirstWord(c) == c
  {
    assert c[0..8] == c;
    assert NoSpace(c) by { assert forall k :: 0 <= k < 8 ==> 0x21 <= c[k] as int <= 0x7e; }
    FirstWordAt(c, 0, 8);
  }

  lemma PrefixExampleAbsolute(c: string)
    requires c == "/usr/bin/python foo"
    ensures ExtractCommandPrefix("Bash", Obj(map["command" := Str(c)])) == Some("Bash:python")
  {
    BashCommandPrefix(c);
    FirstWordAbsolute(c);
    AbsolutePathPattern("/usr/bin/python");
  }

  lemma FirstWordAbsolute(c: string)
    requires c == "/usr/bin/python foo"
    ensures FirstWord(c) == "/usr/bin/python"
  {
    var w := "/usr/bin/python";
    assert c == w + " foo";
    assert c[0..15] == w;
    assert NoSpace(w) by {
      assert forall k :: 0 <= k < |w| ==> 0x21 <= w[k] as int <= 0x7e;
    }
    assert IsSpace(c[15]) by { assert c[15] == ' '; }
    FirstWordAt(c, 0, 15);
  }

  lemma AbsolutePathPattern(w: string)
    requires w == "/usr/bin/python"
    ensures BashPattern(w) == "Bash:python"
  {
    assert w == "/usr/bin/" + "python";
    DiffersAtStart(w, "./");
    assert StartsWith(w, "/") by { assert w[..1] == "/"; }
    LastPartAfter("/usr/bin/", "python", '/');
  }

  lemma PrefixExampleOther()
    ensures ExtractCommandPrefix("Bash", EmptyObj) == Some("Bash:")
    ensures ExtractCommandPrefix("Edit", EmptyObj) == Some("Edit")
  {
    assert FirstWord("") == "";
    assert BashPattern("") == "Bash:";
  }

  /** The pattern set of `agentId`: `auto_approve_patterns.get(agent_id, set())`. */
  function PatternsOf(table: PatternTable, agentId: string): set<string> {
    if agentId in table then table[agentId] else {}
  }

  /** `should_auto_approve(agent_id, tool_name, tool_input)`. None: Python raises while
      deriving the prefix. */
  function ShouldAutoApprove(table: PatternTable, agentId: string, toolName: string, toolInput: Json)
    : (r: Option<bool>)
    ensures PatternsOf(table, agentId) == {} ==> r == Some(false)
    ensures r == Some(true) <==>
      toolName in PatternsOf(table, agentId)
      || (ExtractCommandPrefix(toolName, toolInput).Some?
          && ExtractCommandPrefix(toolName, toolInput).value in PatternsOf(table, agentId))
    ensures r.None? <==>
      PatternsOf(table, agentId) != {} && toolName !in PatternsOf(table, agentId)
      && ExtractCommandPrefix(toolName, toolInput).None?
  {
    var patterns := PatternsOf(table, agentId);
    if patterns == {} then Some(false)
    else if toolName in patterns then Some(true)
    else
      match ExtractCommandPrefix(toolName, toolInput)
      case Some(prefix) => Some(prefix in patterns)
      case None => None
  }

  /** `auto_approve_patterns.setdefault(agent_id, set()).add(pattern)`. */
  function AddPattern(table: PatternTable, agentId: string, pattern: string): (r: PatternTable)
    ensures r.Keys == table.Keys + {agentId}
    ensures PatternsOf(r, agentId) == PatternsOf(table, agentId) + {pattern}
    ensures forall a :: a != agentId ==> PatternsOf(r, a) == PatternsOf(table, a)
  {
    table[agentId := PatternsOf(table, agentId) + {pattern}]
  }

  /** Every agent's pattern set in `table` is contained in its set in `table'`. */
  predicate Grows(table: PatternTable, table': PatternTable) {
    forall a :: a in table ==> a in table' && table[a] <= table'[a]
  }

  /** Adding a pattern only grows the table, and adding it again changes nothing. */
  lemma AddPatternGrowsIdempotent(table: PatternTable, agentId: string, pattern: string)
    ensures Grows(table, AddPattern(table, agentId, pattern))
    ensures AddPattern(AddPattern(table, agentId, pattern), agentId, pattern)
            == AddPattern(table, agentId, pattern)
  {
    var once := AddPattern(table, agentId, pattern);
    var twice := AddPattern(once, agentId, pattern);
    assert twice.Keys == once.Keys;
    forall a | a in once ensures twice[a] == once[a] {
      assert PatternsOf(twice, a) == PatternsOf(once, a);
    }
  }

  /** Two additions, in either order, give the same table: neither is lost. */
  lemma AddPatternCommutes(table: PatternTable, a1: string, p1: string, a2: string, p2: string)
    ensures AddPattern(AddPattern(table, a1, p1), a2, p2) == AddPattern(AddPattern(table, a2, p2), a1, p1)
    ensures p1 in PatternsOf(AddPattern(AddPattern(table, a1, p1), a2, p2), a1)
    ensures p2 in PatternsOf(AddPattern(AddPattern(table, a1, p1), a2, p2), a2)
  {
    var x := AddPattern(AddPattern(table, a1, p1), a2, p2);
    var y := AddPattern(AddPattern(table, a2, p2), a1, p1);
    assert x.Keys == y.Keys;
    forall a | a in x ensures x[a] == y[a] {
      assert PatternsOf(x, a) == PatternsOf(y, a);
    }
  }

  /** Once a call is auto-approved, it stays so under any growth of the table. */
  lemma ApprovalSurvivesGrowth(table: PatternTable, table': PatternTable, agentId: string,
                               toolName: string, toolInput: Json)
    requires Grows(table, table')
    requires ShouldAutoApprove(table, agentId, toolName, toolInput) == Some(true)
    ensures ShouldAutoApprove(table', agentId, toolName, toolInput) == Some(true)
  {
    assert PatternsOf(table, agentId) <= PatternsOf(table', agentId);
  }

  /** "Yes to all X": storing the pattern an approval prompt showed makes the same call,
      and every call of the same tool with the same derived pattern, auto-approved. */
  lemma YesToAllCovers(table: PatternTable, agentId: string, toolName: string, toolInput: Json,
                       otherInput: Json)
    requires ExtractCommandPrefix(toolName, toolInput).Some?
    requires ExtractCommandPrefix(toolName, otherInput) == ExtractCommandPrefix(toolName, toolInput)
    ensures var p := ExtractCommandPrefix(toolName, toolInput).value;
      ShouldAutoApprove(AddPattern(table, agentId, p), agentId, toolName, otherInput) == Some(true)
  {
  }

  /** `command_display`: the command of a Bash call, the file path of an Edit, Write or
      MultiEdit call (`file_path`, or `filePath` when that is missing or empty), and ""
      for any other tool. None: Python raises, because the input is not a dictionary. */
  function CommandDisplay(toolName: string, toolInput: Json): (r: Option<Json>)
    ensures toolName != "Bash" && toolName != "Edit" && toolName != "Write" && toolName != "MultiEdit"
            ==> r == Some(Str(""))
    ensures toolName == "Bash" ==> r == Get(toolInput, "command", Str(""))
    ensures (toolName == "Edit" || toolName == "Write" || toolName == "MultiEdit") ==>
      (r.Some? <==> toolInput.Obj?)
      && (toolInput.Obj? && Truthy(Lookup(toolInput.fields, "file_path", Str(""))) ==>
            r == Some(toolInput.fields["file_path"]))
      && (toolInput.Obj? && !Truthy(Lookup(toolInput.fields, "file_path", Str(""))) ==>
            r == Some(Lookup(toolInput.fields, "filePath", Str(""))))
  {
    if toolName == "Bash" then Get(toolInput, "command", Str(""))
    else if toolName == "Edit" || toolName == "Write" || toolName == "MultiEdit" then
      match toolInput
      case Obj(d) =>
        var path := Lookup(d, "file_path", Str(""));
        if Truthy(path) then Some(path) else Some(Lookup(d, "filePath", Str("")))
      case _ => None
    else Some(Str(""))
  }
  /** What an approval prompt shows beside the pattern it offers. For a Bash call the
      display is the command itself, and the offered pattern is "Bash:" for a blank
      command and otherwise comes from the first run of non-space characters of that
      displayed command. For an Edit, Write or MultiEdit call the pattern is the tool
      name and the display is a file path taken from the input; for any other tool the
      pattern is the tool name and the display is empty. */
  lemma DisplayAndPattern(toolName: string, toolInput: Json)
    requires CommandDisplay(toolName, toolInput).Some? && ExtractCommandPrefix(toolName, toolInput).Some?
    ensures var display := CommandDisplay(toolName, toolInput).value;
      var pattern := ExtractCommandPrefix(toolName, toolInput).value;
      && (toolName == "Bash" ==>
            && display.Str?
            && (AllSpace(display.s) ==> pattern == "Bash:")
            && (!AllSpace(display.s) ==>
                  exists j: nat, k: nat :: LeadingRun(display.s, j, k) && pattern == BashPattern(display.s[j..k])))
      && (toolName != "Bash" ==> pattern == toolName)
      && ((toolName == "Edit" || toolName == "Write" || toolName == "MultiEdit") ==>
            display == Lookup(toolInput.fields, "file_path", Str(""))
            || display == Lookup(toolInput.fields, "filePath", Str("")))
      && (toolName != "Bash" && toolName != "Edit" && toolName != "Write" && toolName != "MultiEdit" ==>
            display == Str(""))
  {
    if toolName == "Bash" {
      var command := Lookup(toolInput.fields, "command", Str("")).s;
      assert Get(toolInput, "command", Str("")) == Some(Str(command));
      BashPrefixRule(toolInput, command);
    }
  }
}

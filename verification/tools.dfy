/** The tools the API-driven worker executes for the model: reading,
    writing and editing files, running a shell command, and starting and
    stopping the preview server. Files live in an abstract file system, a
    map from path to contents; the shell and the process spawner are
    external, so their outcomes are inputs. */
module Tools {
  import opened Common
  import opened Text

  type FileSystem = map<string, string>

  /** What `subprocess.run(..., timeout=120)` came back with. */
  datatype CommandOutcome =
    | Completed(exitCode: int, stdout: string, stderr: string)
    | TimedOut
    | CommandRaised(detail: string)

  /** Whether `subprocess.Popen` started the preview server. */
  datatype SpawnOutcome = Spawned | SpawnRaised(detail: string)

  /** The shell and the process spawner: the k-th command the worker runs
      and the k-th server it starts have these outcomes. */
  datatype Environment = Environment(command: nat -> CommandOutcome, spawn: nat -> SpawnOutcome)

  /** What the worker owns besides its conversation: the files, the handle
      of the preview server it started last (a spawn number), and how many
      commands and spawns it has used so far. */
  datatype ToolState = ToolState(fs: FileSystem, devProcess: Option<nat>, commandsRun: nat, spawnsTried: nat)

  const OutputLimit: nat := 2000
  const CommandTimeout: nat := 120

  /** The text of the `FileNotFoundError` that `open` raises. */
  function MissingFile(path: string): string
  {
    "[Errno 2] No such file or directory: '" + path + "'"
  }

  /** `read_file`: the contents as a text-mode read sees them, with every
      line end turned into "\n", or the error text for a missing file. */
  function ReadFile(fs: FileSystem, path: string): (r: string)
    ensures path in fs ==> '\r' !in r && |r| <= |fs[path]|
    ensures path in fs && '\r' !in fs[path] ==> r == fs[path]
    ensures path in fs ==> r == Universal(fs[path])
    ensures path !in fs ==> r == "Error reading file: " + MissingFile(path)
  {
    if path in fs then
      assert '\r' !in fs[path] ==> Universal(fs[path]) == fs[path] by {
        if '\r' !in fs[path] {
          UniversalKeeps(fs[path]);
        }
      }
      Universal(fs[path])
    else "Error reading file: " + MissingFile(path)
  }

  /** The outcome of a file tool: the file system afterwards and the text
      returned to the model. */
  datatype FileResult = FileResult(fs: FileSystem, message: string)

  /** `write_file` as written. `os.makedirs(os.path.dirname(path))` is
      called first, and for a path without a '/' the directory name is the
      empty string, which `makedirs` rejects: such a write fails and
      changes nothing. Otherwise the file gets the new contents. */
  function WriteFile(fs: FileSystem, path: string, content: string): (r: FileResult)
    ensures '/' !in path ==> r == FileResult(fs, "Error writing file: " + MissingFile(""))
    ensures '/' in path ==> r.fs.Keys == fs.Keys + {path} && r.fs[path] == content
    ensures '/' in path ==> forall p :: p in fs && p != path ==> r.fs[p] == fs[p]
    ensures '/' in path ==> r.message == "Successfully wrote to " + path
  {
    if '/' !in path then FileResult(fs, "Error writing file: " + MissingFile(""))
    else FileResult(fs[path := content], "Successfully wrote to " + path)
  }

  /** `write_file` as evidently intended: a bare file name is written in
      the working directory like any other path. */
  function WriteFileIntended(fs: FileSystem, path: string, content: string): (r: FileResult)
    ensures r.fs.Keys == fs.Keys + {path} && r.fs[path] == content
    ensures ReadFile(r.fs, path) == Universal(content)
    ensures forall p :: p in fs && p != path ==> r.fs[p] == fs[p]
    ensures r.message == "Successfully wrote to " + path
  {
    FileResult(fs[path := content], "Successfully wrote to " + path)
  }

  /** A bare file name can never be written by the tool as written, while
      the intended tool writes it. */
  lemma BareNameWriteFails(fs: FileSystem, content: string)
    ensures WriteFile(fs, "index.html", content) == FileResult(fs, "Error writing file: " + MissingFile(""))
    ensures ReadFile(WriteFileIntended(fs, "index.html", content).fs, "index.html") == Universal(content)
  {
    assert "index.html"[5] == '.';
    assert forall i :: 0 <= i < |"index.html"| ==> "index.html"[i] != '/';
  }

  /** A successful write is read back with its line ends turned into
      "\n", and so unchanged when it holds no carriage return. Writing
      leaves "\n" as it is (the POSIX line separator). */
  lemma WriteThenRead(fs: FileSystem, path: string, content: string, other: string)
    requires '/' in path
    ensures ReadFile(WriteFile(fs, path, content).fs, path) == Universal(content)
    ensures '\r' !in content ==> ReadFile(WriteFile(fs, path, content).fs, path) == content
    ensures other != path ==> ReadFile(WriteFile(fs, path, content).fs, other) == ReadFile(fs, other)
  {
  }

  /** `edit_file`: a missing file and an absent `old_string` are reported
      and write nothing; otherwise every occurrence is replaced (Python's
      `str.replace`, so an empty `old_string` inserts the new text around
      every character). The file is read in text mode, so the search and
      the replacement work on what `read_file` returns, and the written
      file keeps those "\n" line ends. The tool never creates a file. */
  function EditFile(fs: FileSystem, path: string, pat: string, repl: string): (r: FileResult)
    ensures r.fs.Keys == fs.Keys
    ensures path !in fs ==> r == FileResult(fs, "Error editing file: " + MissingFile(path))
    ensures path in fs && !Contains(ReadFile(fs, path), pat) ==>
              r == FileResult(fs, "Error: old_string not found in " + path)
    ensures path in fs && Contains(ReadFile(fs, path), pat) ==>
              r == FileResult(fs[path := ReplaceAll(ReadFile(fs, path), pat, repl)], "Successfully edited " + path)
    ensures r.fs != fs ==> path in fs && Contains(ReadFile(fs, path), pat)
  {
    if path !in fs then FileResult(fs, "Error editing file: " + MissingFile(path))
    else
      var content := Universal(fs[path]);
      if !Contains(content, pat) then FileResult(fs, "Error: old_string not found in " + path)
      else FileResult(fs[path := ReplaceAll(content, pat, repl)], "Successfully edited " + path)
  }

  /** An `old_string` holding a carriage return is never found: the text
      it is searched in has none. */
  lemma CarriageReturnNeverFound(fs: FileSystem, path: string, pat: string, repl: string)
    requires path in fs && '\r' in pat
    ensures EditFile(fs, path, pat, repl) == FileResult(fs, "Error: old_string not found in " + path)
  {
    if Contains(ReadFile(fs, path), pat) {
      ContainedChar(ReadFile(fs, path), pat, '\r');
      assert false;
    }
  }

  /** The edited file reads back as the old text, as read, split at the
      occurrences and joined with the replacement; exactly so when the
      replacement holds no carriage return. Editing to the same text only
      turns the line ends into "\n", and changes nothing in a file that
      has no carriage return. */
  lemma {:induction false} EditReadBack(fs: FileSystem, path: string, pat: string, repl: string)
    requires path in fs && Contains(ReadFile(fs, path), pat)
    ensures pat != [] ==>
              ReadFile(EditFile(fs, path, pat, repl).fs, path) == Universal(Join(Split(ReadFile(fs, path), pat), repl))
    ensures pat != [] && '\r' !in repl ==>
              ReadFile(EditFile(fs, path, pat, repl).fs, path) == Join(Split(ReadFile(fs, path), pat), repl)
    ensures EditFile(fs, path, pat, pat).fs == fs[path := ReadFile(fs, path)]
    ensures '\r' !in fs[path] ==> EditFile(fs, path, pat, pat).fs == fs
  {
    var text := ReadFile(fs, path);
    if pat != [] {
      ReplaceIsSplitJoin(text, pat, repl);
      if '\r' !in repl {
        ReplaceAvoids(text, pat, repl, '\r');
        UniversalKeeps(ReplaceAll(text, pat, repl));
      }
    }
    ReplaceSelf(text, pat);
  }

  /** Replacing "foo" by "bar" in "xfoox" gives "xbarx". */
  lemma EditExample()
    ensures EditFile(map["f.txt" := "xfoox"], "f.txt", "foo", "bar")
            == FileResult(map["f.txt" := "xbarx"], "Successfully edited f.txt")
  {
    assert ReplaceAll("xfoox", "foo", "bar") == "xbarx" by {
      assert !IsPrefix("foo", "xfoox");
      assert "xfoox"[1..] == "foox";
      assert IsPrefix("foo", "foox");
      assert "foox"[3..] == "x";
      assert !IsPrefix("foo", "x");
      assert "x"[1..] == [];
    }
    assert Contains("xfoox", "foo") by {
      ContainsAt("xfoox", "foo", 1);
    }
    assert forall i :: 0 <= i < |"xfoox"| ==> "xfoox"[i] != '\r';
    UniversalKeeps("xfoox");
  }

  /** An edit rewrites the whole file as read: replacing "a" by "c" in
      "a\r\nb" leaves "c\nb". */
  lemma EditRewritesLineEnds()
    ensures EditFile(map["f.txt" := "a\r\nb"], "f.txt", "a", "c")
            == FileResult(map["f.txt" := "c\nb"], "Successfully edited f.txt")
  {
    assert Universal("a\r\nb") == "a\nb" by {
      assert "a\r\nb"[1..] == "\r\nb";
      assert "\r\nb"[2..] == "b";
      assert "b"[1..] == [];
    }
    assert ReplaceAll("a\nb", "a", "c") == "c\nb" by {
      assert IsPrefix("a", "a\nb");
      assert "a\nb"[1..] == "\nb";
      assert !IsPrefix("a", "\nb");
      assert "\nb"[1..] == "b";
      assert !IsPrefix("a", "b");
      assert "b"[1..] == [];
    }
    ContainsAt("a\nb", "a", 0);
  }

  /** `run_command`: a command that ran, whatever its exit code, yields at
      most the first 2000 characters of stdout followed by stderr; a
      timeout or a failure to start yields an error text that is not
      truncated. */
  function RunCommand(command: string, outcome: CommandOutcome): (r: string)
    ensures outcome.Completed? ==>
              var output := outcome.stdout + outcome.stderr;
              IsPrefix(r, output) && |r| == if |output| <= OutputLimit then |output| else OutputLimit
    ensures outcome.TimedOut? ==>
              r == "Error running command: Command '" + command + "' timed out after " + NatToString(CommandTimeout) + " seconds"
    ensures outcome.CommandRaised? ==> r == "Error running command: " + outcome.detail
  {
    match outcome
    case Completed(_, out, err) => Take(out + err, OutputLimit)
    case TimedOut => "Error running command: Command '" + command + "' timed out after " + NatToString(CommandTimeout) + " seconds"
    case CommandRaised(d) => "Error running command: " + d
  }

  /** The exit code of a command never turns its output into an error. */
  lemma RunCommandIgnoresExitCode(command: string, a: int, b: int, out: string, err: string)
    ensures RunCommand(command, Completed(a, out, err)) == RunCommand(command, Completed(b, out, err))
    ensures |RunCommand(command, Completed(a, out, err))| <= OutputLimit
  {
  }

  /** An error from the shell can be longer than the output bound. */
  lemma {:induction false} RunCommandErrorNotTruncated(command: string, detail: string)
    requires |detail| > OutputLimit
    ensures |RunCommand(command, CommandRaised(detail))| > OutputLimit
  {
  }

  /** The two results of the worker's tool helpers that touch processes. */
  datatype ProcessStep = ProcessStep(state: ToolState, message: string)

  /** `start_dev_server`: the next spawn either starts a server, which
      replaces the handle the worker keeps, or is reported as an error and
      leaves the handle alone. Either way one spawn is used up. */
  function StartDevServer(st: ToolState, env: Environment): (r: ProcessStep)
    ensures r.state.fs == st.fs && r.state.commandsRun == st.commandsRun
    ensures r.state.spawnsTried == st.spawnsTried + 1
    ensures env.spawn(st.spawnsTried).Spawned? ==>
              r.state.devProcess == Some(st.spawnsTried) && r.message == "Dev server started on " + PreviewUrl
    ensures env.spawn(st.spawnsTried).SpawnRaised? ==>
              r.state.devProcess == st.devProcess && r.message == "Error starting dev server: " + env.spawn(st.spawnsTried).detail
  {
    var st' := st.(spawnsTried := st.spawnsTried + 1);
    match env.spawn(st.spawnsTried)
    case Spawned => ProcessStep(st'.(devProcess := Some(st.spawnsTried)), "Dev server started on " + PreviewUrl)
    case SpawnRaised(d) => ProcessStep(st', "Error starting dev server: " + d)
  }

  /** The outcome of a stop: the state afterwards and the process that was
      sent the termination signal, if any. */
  datatype Stopped = Stopped(state: ToolState, terminated: Option<nat>)

  /** `stop_dev_server`: terminates the kept server, if any, and forgets
      it. */
  function StopDevServer(st: ToolState): (r: Stopped)
    ensures r.state == st.(devProcess := None)
    ensures r.terminated == st.devProcess
  {
    Stopped(st.(devProcess := None), st.devProcess)
  }

  /** A second stop finds no server and changes nothing. */
  lemma StopIsIdempotent(st: ToolState)
    ensures StopDevServer(StopDevServer(st).state) == Stopped(StopDevServer(st).state, None)
  {
  }

  /** The five tools the model is offered, and every other name. */
  datatype Tool =
    | ReadFileTool
    | WriteFileTool
    | EditFileTool
    | RunCommandTool
    | StartDevServerTool
    | UnknownTool(name: string)

  function ToolName(t: Tool): string
  {
    match t
    case ReadFileTool => "read_file"
    case WriteFileTool => "write_file"
    case EditFileTool => "edit_file"
    case RunCommandTool => "run_command"
    case StartDevServerTool => "start_dev_server"
    case UnknownTool(n) => n
  }

  /** The closed dispatch: a name is one of the five tools or unknown, and
      the tool's name gives the name back. */
  function ParseTool(name: string): (t: Tool)
    ensures ToolName(t) == name
    ensures t.UnknownTool? <==> name !in {"read_file", "write_file", "edit_file", "run_command", "start_dev_server"}
  {
    if name == "read_file" then ReadFileTool
    else if name == "write_file" then WriteFileTool
    else if name == "edit_file" then EditFileTool
    else if name == "run_command" then RunCommandTool
    else if name == "start_dev_server" then StartDevServerTool
    else UnknownTool(name)
  }

  /** The input keys a tool subscripts, in the order Python evaluates them.
      `cwd` is read with `.get` and is never required. */
  function RequiredKeys(t: Tool): seq<string>
  {
    match t
    case ReadFileTool => ["path"]
    case WriteFileTool => ["path", "content"]
    case EditFileTool => ["path", "old_string", "new_string"]
    case RunCommandTool => ["command"]
    case StartDevServerTool => ["project_path"]
    case UnknownTool(_) => []
  }

  /** The first required key the input lacks, in evaluation order: the one
      whose `KeyError` escapes. */
  function FirstMissing(keys: seq<string>, input: map<string, string>): (r: Option<string>)
    ensures r.None? <==> forall k :: k in keys ==> k in input
    ensures r.Some? ==> r.value in keys && r.value !in input
    ensures r.Some? ==> exists i :: 0 <= i < |keys| && keys[i] == r.value && forall j :: 0 <= j < i ==> keys[j] in input
  {
    if keys == [] then None
    else if keys[0] !in input then Some(keys[0])
    else
      var r := FirstMissing(keys[1..], input);
      assert r.Some? ==> exists i :: 1 <= i < |keys| && keys[i] == r.value && forall j :: 0 <= j < i ==> keys[j] in input by {
        if r.Some? {
          var i :| 0 <= i < |keys[1..]| && keys[1..][i] == r.value && forall j :: 0 <= j < i ==> keys[1..][j] in input;
          assert keys[i + 1] == r.value;
          assert forall j :: 0 < j < i + 1 ==> keys[j] == keys[1..][j - 1];
        }
      }
      r
  }

  /** Through the dispatcher too, a bare file name is not written: the
      model is told the `makedirs('')` error and the files stay as they were. */
  lemma ToolWriteOfBareNameFails(st: ToolState, env: Environment, content: string)
    ensures var r := ExecuteTool("write_file", map["path" := "index.html", "content" := content], st, env);
            r.outcome == Returned("Error writing file: " + MissingFile("")) && r.state == st
  {
    assert ParseTool("write_file") == WriteFileTool;
    BareNameWriteFails(st.fs, content);
  }

  /** A `write_file` call without inputs raises for `path`, the first key
      subscripted, and not for `content`. */
  lemma WriteWithoutInputs(st: ToolState, env: Environment)
    ensures ExecuteTool("write_file", map[], st, env).outcome == KeyMissing("path")
  {
    assert ParseTool("write_file") == WriteFileTool;
  }

  /** What `execute_tool` did: returned a text, or let a `KeyError` out. */
  datatype Outcome = Returned(text: string) | KeyMissing(key: string)

  datatype ToolCall = ToolCall(outcome: Outcome, state: ToolState, logs: seq<string>)

  /** `execute_tool`: logs the call, then dispatches on the name. Every
      failure of a tool comes back as text; only a missing input key
      escapes, before the tool has done anything. */
  function ExecuteTool(name: string, input: map<string, string>, st: ToolState, env: Environment): (r: ToolCall)
    ensures |r.logs| >= 1 && r.logs[0] == "Executing tool: " + name
    ensures ParseTool(name).UnknownTool? ==> r == ToolCall(Returned("Unknown tool: " + name), st, ["Executing tool: " + name])
    ensures FirstMissing(RequiredKeys(ParseTool(name)), input).Some? ==>
              r.outcome == KeyMissing(FirstMissing(RequiredKeys(ParseTool(name)), input).value) && r.state == st
    ensures r.outcome.KeyMissing? <==> FirstMissing(RequiredKeys(ParseTool(name)), input).Some?
    ensures r.outcome.KeyMissing? ==> r.state == st
    ensures r.state.fs != st.fs ==> ParseTool(name) in {WriteFileTool, EditFileTool}
    ensures r.state.devProcess != st.devProcess ==> ParseTool(name) == StartDevServerTool
    ensures ParseTool(name) == EditFileTool && r.outcome.Returned? ==>
              var e := EditFile(st.fs, input["path"], input["old_string"], input["new_string"]);
              r.state == st.(fs := e.fs) && r.outcome.text == e.message
    ensures ParseTool(name) == ReadFileTool && r.outcome.Returned? ==>
              r.outcome.text == ReadFile(st.fs, input["path"]) && r.state == st
    ensures ParseTool(name) == WriteFileTool && r.outcome.Returned? ==>
              var w := WriteFile(st.fs, input["path"], input["content"]);
              r.state == st.(fs := w.fs) && r.outcome.text == w.message
    ensures ParseTool(name) == RunCommandTool && r.outcome.Returned? ==>
              r.outcome.text == RunCommand(input["command"], env.command(st.commandsRun))
              && r.state == st.(commandsRun := st.commandsRun + 1)
    ensures ParseTool(name) == StartDevServerTool && r.outcome.Returned? ==>
              var p := StartDevServer(st, env);
              r.state == p.state && r.outcome.text == p.message
  {
    var header := ["Executing tool: " + name];
    var tool := ParseTool(name);
    var missing := FirstMissing(RequiredKeys(tool), input);
    if missing.Some? then ToolCall(KeyMissing(missing.value), st, header)
    else
      match tool
      case ReadFileTool =>
        ToolCall(Returned(ReadFile(st.fs, input["path"])), st, header)
      case WriteFileTool =>
        var w := WriteFile(st.fs, input["path"], input["content"]);
        ToolCall(Returned(w.message), st.(fs := w.fs), header)
      case EditFileTool =>
        var e := EditFile(st.fs, input["path"], input["old_string"], input["new_string"]);
        ToolCall(Returned(e.message), st.(fs := e.fs), header)
      case RunCommandTool =>
        var command := input["command"];
        ToolCall(Returned(RunCommand(command, env.command(st.commandsRun))),
                 st.(commandsRun := st.commandsRun + 1), header + ["Running: " + command])
      case StartDevServerTool =>
        var p := StartDevServer(st, env);
        ToolCall(Returned(p.message), p.state, header + ["Starting dev server in " + input["project_path"]])
      case UnknownTool(_) =>
        ToolCall(Returned("Unknown tool: " + name), st, header)
  }
}

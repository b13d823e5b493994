/** The command-line worker: it writes the prompt to a file, starts the
    installed assistant CLI through the shell, relays the process output line by line, and decides the
    outcome from the first line that announces the dev server, or, once
    the process has ended, from the preview port and the newest project
    directory. The process output, the exit code of `which`, the workflow
    file, the listing and the port probe are inputs. */
module CliWorker {
  import opened Common
  import opened Text
  import opened Tools

  const CliMissing: string := "Claude CLI not found. Please install Claude Code:\nhttps://docs.anthropic.com/claude/docs/claude-code"
  const NoProjectFound: string := "No project found in demos/"
  const ServerNotStarted: string := "Dev server not started. Check the logs above."

  /** A relayed output line announces the dev server when its lower-case
      form mentions the preview port or a "local:" address. */
  predicate Announces(line: string)
  {
    Contains(Lower(line), "localhost:4321") || Contains(Lower(line), "local:")
  }

  /** The project directories of a listing, in listing order. */
  function ProjectEntries(listing: seq<Entry>): (ps: seq<Entry>)
    ensures forall e :: e in ps <==> e in listing && IsProject(e)
  {
    if listing == [] then []
    else (if IsProject(listing[0]) then [listing[0]] else []) + ProjectEntries(listing[1..])
  }

  /** Index `k` holds the entry `sorted(entries, key=mtime)[-1]` picks:
      its time is the greatest, and, the sort being stable, every later
      entry is strictly older. */
  predicate LastNewest(es: seq<Entry>, k: int)
  {
    && 0 <= k < |es|
    && (forall j :: 0 <= j < |es| ==> es[j].time <= es[k].time)
    && (forall j :: k < j < |es| ==> es[j].time < es[k].time)
  }

  function LatestIndex(es: seq<Entry>): (k: nat)
    requires |es| > 0
    ensures LastNewest(es, k)
  {
    var n := |es|;
    if n == 1 then 0
    else
      var k := LatestIndex(es[..n - 1]);
      assert forall j :: 0 <= j < n - 1 ==> es[..n - 1][j] == es[j];
      if es[n - 1].time >= es[k].time then n - 1 else k
  }

  /** Only one index can be the last newest, so the choice is fixed by
      the listing. */
  lemma LastNewestUnique(es: seq<Entry>, k: int, k': int)
    requires LastNewest(es, k) && LastNewest(es, k')
    ensures k == k'
  {
    assert es[k].time == es[k'].time;
  }

  /** The project the worker reports: a project of greatest modification
      time, or none when there is no project. */
  function LatestProject(listing: seq<Entry>): (r: Option<string>)
    ensures r.None? <==> forall e :: e in listing ==> !IsProject(e)
    ensures r.Some? ==> exists e :: e in listing && IsProject(e) && e.name == r.value
                                      && forall f :: f in listing && IsProject(f) ==> f.time <= e.time
  {
    var ps := ProjectEntries(listing);
    if ps == [] then None
    else
      var e := ps[LatestIndex(ps)];
      assert e in ps;
      Some(e.name)
  }

  /** What relaying the output produced: the log of every line relayed and
      whether a line announced the server (which ends the relaying). */
  datatype Relay = Relay(logs: seq<Signal>, announced: bool)

  /** The read loop. `readline` yields a non-empty string for every line
      (an empty one only at the end), so an empty entry is skipped. Each
      line is relayed without its trailing whitespace; the first line that
      announces the server is the last one relayed. */
  function RelayOutput(lines: seq<string>): (r: Relay)
    ensures AllLogs(r.logs)
    ensures r.announced <==> exists i :: 0 <= i < |lines| && lines[i] != [] && Announces(RStrip(lines[i]))
    ensures r.announced ==> |r.logs| > 0 && Announces(r.logs[|r.logs| - 1].text)
  {
    RelayUntil(lines, Announces)
  }

  /** A line announces for `announces` when it is non-empty and its
      `rstrip`ped form passes the test. */
  predicate Announcing(line: string, announces: string -> bool)
  {
    line != [] && announces(RStrip(line))
  }

  /** The logs of relaying every line: each non-empty line without its
      trailing whitespace, in order. */
  function LogLines(lines: seq<string>): (s: seq<Signal>)
    ensures AllLogs(s) && |s| <= |lines|
  {
    if lines == [] then []
    else (if lines[0] == [] then [] else [Log(RStrip(lines[0]))]) + LogLines(lines[1..])
  }

  /** The relayed logs are exactly the logs of the lines up to the first
      announcing one, that one included, or of all lines when none
      announces. */
  lemma {:induction false} RelayLogs(lines: seq<string>, announces: string -> bool)
    ensures var r := RelayUntil(lines, announces);
            !r.announced ==> r.logs == LogLines(lines)
    ensures var r := RelayUntil(lines, announces);
            r.announced ==> exists i :: 0 <= i < |lines| && Announcing(lines[i], announces)
                                        && (forall j :: 0 <= j < i ==> !Announcing(lines[j], announces))
                                        && r.logs == LogLines(lines[..i + 1])
  {
    if lines != [] {
      var r := RelayUntil(lines, announces);
      var head := if lines[0] == [] then [] else [Log(RStrip(lines[0]))];
      if Announcing(lines[0], announces) {
        LogLinesCons(lines[0], []);
        assert [lines[0]] + [] == lines[..1];
      } else {
        var rest := RelayUntil(lines[1..], announces);
        RelayLogs(lines[1..], announces);
        assert r == Relay(head + rest.logs, rest.announced);
        LogLinesCons(lines[0], lines[1..]);
        assert [lines[0]] + lines[1..] == lines;
        if r.announced {
          var i :| 0 <= i < |lines[1..]| && Announcing(lines[1..][i], announces)
                   && (forall j :: 0 <= j < i ==> !Announcing(lines[1..][j], announces))
                   && rest.logs == LogLines(lines[1..][..i + 1]);
          ShiftedCut(lines, announces, i);
        }
      }
    }
  }

  /** The logs of a line followed by more lines. */
  lemma LogLinesCons(line: string, more: seq<string>)
    ensures LogLines([line] + more) == (if line == [] then [] else [Log(RStrip(line))]) + LogLines(more)
  {
    assert ([line] + more)[1..] == more;
  }

  /** The first announcing line of the tail, one place further on. */
  lemma ShiftedCut(lines: seq<string>, announces: string -> bool, i: nat)
    requires |lines| > 0 && !Announcing(lines[0], announces) && i < |lines| - 1
    requires Announcing(lines[1..][i], announces)
    requires forall j :: 0 <= j < i ==> !Announcing(lines[1..][j], announces)
    ensures Announcing(lines[i + 1], announces)
    ensures forall j :: 0 <= j < i + 1 ==> !Announcing(lines[j], announces)
    ensures LogLines(lines[..i + 2])
            == (if lines[0] == [] then [] else [Log(RStrip(lines[0]))]) + LogLines(lines[1..][..i + 1])
  {
    assert forall j :: 0 < j < i + 1 ==> lines[j] == lines[1..][j - 1];
    LogLinesCons(lines[0], lines[1..][..i + 1]);
    assert [lines[0]] + lines[1..][..i + 1] == lines[..i + 2];
  }

  /** The read loop for any test of announcing lines. */
  function RelayUntil(lines: seq<string>, announces: string -> bool): (r: Relay)
    ensures AllLogs(r.logs)
    ensures r.announced <==> exists i :: 0 <= i < |lines| && lines[i] != [] && announces(RStrip(lines[i]))
    ensures r.announced ==> |r.logs| > 0 && announces(r.logs[|r.logs| - 1].text)
  {
    if lines == [] then Relay([], false)
    else if lines[0] == [] then
      var rest := RelayUntil(lines[1..], announces);
      assert forall i :: 0 < i < |lines| ==> lines[i] == lines[1..][i - 1];
      rest
    else
      var line := RStrip(lines[0]);
      if announces(line) then Relay([Log(line)], true)
      else
        var rest := RelayUntil(lines[1..], announces);
        assert forall i :: 0 < i < |lines| ==> lines[i] == lines[1..][i - 1];
        Relay([Log(line)] + rest.logs, rest.announced)
  }

  /** The worker's relayed logs: every non-empty line up to the first
      announcing one, or every non-empty line when none announces. */
  lemma RelayOutputLogs(lines: seq<string>)
    ensures var r := RelayOutput(lines);
            !r.announced ==> r.logs == LogLines(lines)
    ensures var r := RelayOutput(lines);
            r.announced ==> exists i :: 0 <= i < |lines| && Announcing(lines[i], Announces)
                                        && (forall j :: 0 <= j < i ==> !Announcing(lines[j], Announces))
                                        && r.logs == LogLines(lines[..i + 1])
  {
    RelayLogs(lines, Announces);
  }

  /** Once a line has announced the server, later output changes nothing. */
  lemma OnlyFirstAnnouncementMatters(lines: seq<string>, more: seq<string>)
    requires RelayOutput(lines).announced
    ensures RelayOutput(lines + more) == RelayOutput(lines)
  {
    FirstAnnouncementStops(lines, more, Announces);
  }

  lemma {:induction false} FirstAnnouncementStops(lines: seq<string>, more: seq<string>, announces: string -> bool)
    requires RelayUntil(lines, announces).announced
    ensures RelayUntil(lines + more, announces) == RelayUntil(lines, announces)
  {
    if lines[0] == [] || !announces(RStrip(lines[0])) {
      assert (lines + more)[1..] == lines[1..] + more;
      FirstAnnouncementStops(lines[1..], more, announces);
    }
  }

  const ServerDetected: string := "\U{2705} Dev server detected!"

  /** The outcome after an announcing line: the newest project, or no
      signal at all when there is none. */
  function AnnouncedOutcome(demosDir: string, listing: Option<seq<Entry>>): (s: seq<Signal>)
    ensures |s| <= 1 && forall i :: 0 <= i < |s| ==> s[i].IsTerminal()
    ensures s == [] <==> listing.Some? && forall e :: e in listing.value ==> !IsProject(e)
    ensures s != [] && s[0].Finished? ==>
              listing.Some? && Some(s[0].project) == LatestProject(listing.value) && s[0].url == PreviewUrl
    ensures listing.None? ==> s == [Failed("Error: " + MissingFile(demosDir))]
    ensures listing.Some? && LatestProject(listing.value).Some? ==>
              s == [Finished(LatestProject(listing.value).value, PreviewUrl)]
  {
    match listing
    case None => [Failed("Error: " + MissingFile(demosDir))]
    case Some(l) =>
      match LatestProject(l)
      case Some(name) => [Finished(name, PreviewUrl)]
      case None => []
  }

  /** The outcome after the process has ended without an announcement:
      a bound port with a project reports the newest one, a bound port
      without one and an unbound port are errors. */
  function ExitOutcome(demosDir: string, portBound: bool, listing: Option<seq<Entry>>): (s: Signal)
    ensures s.IsTerminal()
    ensures !portBound ==> s == Failed(ServerNotStarted)
    ensures portBound && listing.Some? ==>
              (s == Failed(NoProjectFound) <==> forall e :: e in listing.value ==> !IsProject(e))
    ensures s.Finished? ==> portBound && listing.Some? && s.url == PreviewUrl
                            && Some(s.project) == LatestProject(listing.value)
    ensures portBound && listing.Some? && LatestProject(listing.value).Some? ==>
              s == Finished(LatestProject(listing.value).value, PreviewUrl)
    ensures portBound && listing.None? ==> s == Failed("Error: " + MissingFile(demosDir))
  {
    if !portBound then Failed(ServerNotStarted)
    else
      match listing
      case None => Failed("Error: " + MissingFile(demosDir))
      case Some(l) =>
        match LatestProject(l)
        case Some(name) => Finished(name, PreviewUrl)
        case None => Failed(NoProjectFound)
  }

  /** Everything the worker depends on: the exit code of `which claude`,
      the workflow file (absent when it cannot be read), the output lines
      of the CLI process, the listing of the demos directory when it is
      consulted (absent when the directory does not exist) and whether the
      preview port is bound once the process has ended. */
  datatype CliWorld = CliWorld(
    whichExit: int,
    workflow: Option<string>,
    output: seq<string>,
    listing: Option<seq<Entry>>,
    portBound: bool)

  /** The signals of a run and the prompt written to the prompt file, if
      any. */
  datatype CliRun = CliRun(signals: seq<Signal>, prompt: Option<Prompt>)

  function Repeat(c: char, n: nat): (s: string)
    ensures |s| == n && forall i :: 0 <= i < n ==> s[i] == c
  {
    if n == 0 then [] else [c] + Repeat(c, n - 1)
  }

  function Banner(demosDir: string): (s: seq<Signal>)
    ensures AllLogs(s)
  {
    [Log("Starting Claude Code..."), Log("Working directory: " + demosDir), Log(""),
     Log("Executing Claude with prompt..."), Log(Repeat('=', 60))]
  }

  /** Log lines followed by at most one outcome: the outcome is the only
      terminal signal, and the last one. */
  function Conclude(logs: seq<Signal>, outcome: seq<Signal>): (s: seq<Signal>)
    requires AllLogs(logs) && |outcome| <= 1
    ensures |s| == |logs| + |outcome| && s[..|logs|] == logs
    ensures TerminalCount(s) == (if outcome != [] && outcome[0].IsTerminal() then 1 else 0)
    ensures outcome != [] ==> s[|s| - 1] == outcome[0]
  {
    LogsThenAtMostOne(logs, outcome);
    logs + outcome
  }

  /** The banner and every relayed line, all of them logs. */
  function Relayed(demosDir: string, lines: seq<string>): (s: seq<Signal>)
    ensures AllLogs(s)
    ensures var relay := RelayOutput(lines);
            |s| == 5 + |relay.logs| && s[5..] == relay.logs
  {
    var banner := Banner(demosDir);
    var relay := RelayOutput(lines);
    RelayCounts(banner, relay.logs);
    banner + relay.logs
  }

  /** The end of a run after an announcing line: the newest project, or
      nothing when there is none. */
  function AfterAnnouncement(demosDir: string, world: CliWorld): (s: seq<Signal>)
    ensures var n := |Relayed(demosDir, world.output)|;
            |s| >= n + 2 && s[..n] == Relayed(demosDir, world.output)
    ensures TerminalCount(s) == (if AnnouncedOutcome(demosDir, world.listing) != [] then 1 else 0)
    ensures AnnouncedOutcome(demosDir, world.listing) != [] ==> s[|s| - 1] == AnnouncedOutcome(demosDir, world.listing)[0]
  {
    var logs := Relayed(demosDir, world.output);
    var s := Conclude(logs + [Log(""), Log(ServerDetected)], AnnouncedOutcome(demosDir, world.listing));
    assert s[..|logs|] == logs;
    s
  }

  /** The end of a run once the process has ended without announcing the
      server: the three-way outcome of the port probe and the listing. */
  function AfterExit(demosDir: string, world: CliWorld): (s: seq<Signal>)
    ensures var n := |Relayed(demosDir, world.output)|;
            |s| == n + 3 && s[..n] == Relayed(demosDir, world.output)
    ensures TerminalCount(s) == 1 && s[|s| - 1] == ExitOutcome(demosDir, world.portBound, world.listing)
  {
    var logs := Relayed(demosDir, world.output);
    var s := Conclude(logs + [Log(""), Log("Claude finished. Checking for dev server...")],
                      [ExitOutcome(demosDir, world.portBound, world.listing)]);
    assert s[..|logs|] == logs;
    s
  }

  /** The part of a run after the prompt is written and the CLI started. */
  function Supervise(demosDir: string, world: CliWorld): seq<Signal>
  {
    if RelayOutput(world.output).announced then AfterAnnouncement(demosDir, world) else AfterExit(demosDir, world)
  }

  /** `ClaudeWorker.run`. A missing CLI ends the run with its error before
      anything else; a workflow that cannot be read, or a change request
      without a project name, ends it with the exception's text. Otherwise
      the prompt is chosen and written to the prompt file, and the CLI
      process, started as `LaunchAsWritten` shows, is supervised. */
  function Run(demosDir: string, req: Request, world: CliWorld): (r: CliRun)
    ensures world.whichExit != 0 ==> r == CliRun([Failed(CliMissing)], None)
    ensures world.whichExit == 0 && world.workflow.None? ==>
              r == CliRun([Failed("Error: " + MissingFile(WorkflowPath(demosDir)))], None)
    ensures r.prompt.None? ==> |r.signals| == 1 && r.signals[0].Failed?
    ensures r.prompt.Some? <==>
              world.whichExit == 0 && world.workflow.Some?
              && ChoosePrompt(req, demosDir, world.workflow.value).Chosen?
    ensures r.prompt.Some? ==>
              && Chosen(r.prompt.value) == ChoosePrompt(req, demosDir, world.workflow.value)
              && r.signals == Supervise(demosDir, world)
  {
    if world.whichExit != 0 then CliRun([Failed(CliMissing)], None)
    else
      match world.workflow
      case None => CliRun([Failed("Error: " + MissingFile(WorkflowPath(demosDir)))], None)
      case Some(workflow) =>
        match ChoosePrompt(req, demosDir, workflow)
        case PromptRaised(msg) => CliRun([Failed("Error: " + msg)], None)
        case Chosen(p) => CliRun(Supervise(demosDir, world), Some(p))
  }

  function PromptFile(demosDir: string): string
  {
    demosDir + "/.demo_builder_prompt.txt"
  }

  /** The list handed to `subprocess.Popen`: the program, "--" and a
      command substitution that reads the prompt file. */
  function LaunchArgs(demosDir: string): seq<string>
  {
    ["claude", "--", "$(cat " + PromptFile(demosDir) + ")"]
  }

  /** `/bin/sh -c script p0 p1 ...`: the script the shell runs, and the
      items after it, which only become the script's `$0`, `$1`, ... */
  datatype ShellCall = ShellCall(script: string, parameters: seq<string>)

  /** `subprocess.Popen(args, shell=True)` on POSIX: the first item is the
      script, every other item a parameter of the shell. */
  function PopenShell(args: seq<string>): (c: ShellCall)
    requires args != []
    ensures [c.script] + c.parameters == args
  {
    ShellCall(args[0], args[1..])
  }

  /** The program and arguments a script of blank-separated plain words
      runs. Without a `$` the script never reads its parameters. */
  function ScriptWords(script: string): (argv: seq<string>)
    requires '$' !in script && '"' !in script && '\'' !in script
    ensures forall w :: w in argv ==> ' ' !in w
  {
    SplitPiecesFree(script, ' ');
    Split(script, " ")
  }

  /** How the CLI process starts, as written: the list goes to the shell,
      whose script is the single word "claude"; "--" and the command
      substitution only become unused parameters, so the CLI gets no
      argument and the prompt file is never read. */
  function LaunchAsWritten(demosDir: string): (argv: seq<string>)
    ensures argv == ["claude"]
    ensures PopenShell(LaunchArgs(demosDir)).parameters[1] == "$(cat " + PromptFile(demosDir) + ")"
  {
    var script := PopenShell(LaunchArgs(demosDir)).script;
    assert forall i :: 0 <= i < |script| ==> script[i] != ' ' && script[i] != '$' && script[i] != '"' && script[i] != '\'';
    SplitWithout(script, ' ');
    ScriptWords(script)
  }

  /** The command substitution of the prompt file, as the shell would
      expand it: the file's contents in its place, every other word kept. */
  function Expand(arg: string, demosDir: string, contents: string): string
  {
    if arg == "$(cat " + PromptFile(demosDir) + ")" then contents else arg
  }

  /** How the CLI process was evidently meant to start: with the launch
      list's command substitution expanded to the prompt file's contents,
      so the prompt is the CLI's argument after "--". */
  function LaunchIntended(demosDir: string, contents: string): (argv: seq<string>)
    ensures argv == ["claude", "--", contents]
  {
    var args := LaunchArgs(demosDir);
    var sub := "$(cat " + PromptFile(demosDir) + ")";
    assert "claude" != sub && "--" != sub by {
      assert "claude"[0] != sub[0] && "--"[0] != sub[0];
    }
    seq(|args|, i requires 0 <= i < |args| => Expand(args[i], demosDir, contents))
  }

  /** Every run emits at most one terminal signal, and then as its last;
      exactly one unless an announcing line came with no project. */
  lemma AtMostOneOutcome(demosDir: string, req: Request, world: CliWorld)
    ensures var r := Run(demosDir, req, world);
            && TerminalCount(r.signals) <= 1
            && (TerminalCount(r.signals) == 1 ==> r.signals[|r.signals| - 1].IsTerminal())
            && (TerminalCount(r.signals) == 0 <==>
                  r.prompt.Some? && RelayOutput(world.output).announced && AnnouncedOutcome(demosDir, world.listing) == [])
  {
    var r := Run(demosDir, req, world);
    if r.prompt.None? {
      assert r.signals[1..] == [];
    }
  }

  /** After the process ends without an announcement, the last signal is
      the three-way outcome, and every relayed line was logged before it. */
  lemma ExitDecides(demosDir: string, req: Request, world: CliWorld)
    requires Run(demosDir, req, world).prompt.Some? && !RelayOutput(world.output).announced
    ensures var s := Run(demosDir, req, world).signals;
            var logs := RelayOutput(world.output).logs;
            && s[|s| - 1] == ExitOutcome(demosDir, world.portBound, world.listing)
            && |s| > 5 + |logs| && s[5..5 + |logs|] == logs
  {
    var s := Run(demosDir, req, world).signals;
    var n := |Relayed(demosDir, world.output)|;
    assert s[..n][5..] == s[5..n];
  }

  lemma RelayCounts(a: seq<Signal>, b: seq<Signal>)
    requires AllLogs(a) && AllLogs(b)
    ensures AllLogs(a + b)
  {
  }

  /** Logs followed by at most one terminal signal hold exactly as many
      terminal signals as the tail has, and it comes last. */
  lemma LogsThenAtMostOne(logs: seq<Signal>, tail: seq<Signal>)
    requires AllLogs(logs) && |tail| <= 1
    ensures TerminalCount(logs + tail) == (if tail != [] && tail[0].IsTerminal() then 1 else 0)
  {
    TerminalCountAppend(logs, tail);
    AllLogsNoTerminal(logs);
    if tail != [] {
      assert tail[1..] == [];
    }
  }

  /** `stop`: terminates the CLI process if there is one and forgets it. */
  datatype StopResult = StopResult(process: Option<nat>, terminated: Option<nat>)

  function Stop(process: Option<nat>): (r: StopResult)
    ensures r.process.None?
    ensures r.terminated == process
  {
    StopResult(None, process)
  }

  /** A second `stop` finds no process and terminates nothing. */
  lemma StopTwice(process: Option<nat>)
    ensures Stop(Stop(process).process) == StopResult(None, None)
  {
  }
}

# Demo-website builder: a Dafny model of its decision logic

The demo-website builder is a set of desktop front ends that rebuild an
existing website as a local demo project. The assistant writes the project
into a `demos/` directory and serves a preview on `http://localhost:4321`.
When the user approves it, the project is built and published to the
hosting service. There are four front ends:

- `demo_builder.py` drives the model through the API with a tool loop;
- `demo_builder_auto.py` opens a terminal running the assistant CLI and
  watches the directory for the finished project;
- `demo_builder_simple.py` only shows the prompt and watches the directory;
- `demo_builder_cli.py` runs the assistant CLI as a child process and reads
  its output.

This project models the decision logic inside them as pure functions over
immutable data. It then proves what that logic promises.

- `common.dfy` (`Common`): signals sent to the window, directory listings,
  the reserved `template` directory, the preview address, and the choice
  between the new-site prompt and the change prompt.
- `text.dfy` (`Text`): the Python string operations the code relies on,
  and the universal-newline translation of a text-mode read.
  - `in` (substring test) and `str.replace`, including an empty pattern,
    which inserts the replacement around every character.
  - `split`, `strip`, `rstrip` and `lower`.
  - Code-point lexicographic order, which `sorted` uses on strings.
- `keys.dfy` (`KeyRegistry`): the API-key registry and its in-range
  invariant.
- `tools.dfy` (`Tools`): the five tools of the API worker over an abstract
  file system (a map from path to contents). It also has their closed
  dispatch and the `KeyError` that a missing input key raises.
- `agent.dfy` (`AgentLoop`): the conversation loop of at most 50 requests.
  Each tool call is answered by its id, in order. At most one terminal
  signal is sent, and none at all when the requests run out.
- `monitor.dfy` (`Monitor`): the completion monitor of the two watching
  front ends, as a step function over ticks and stop requests.
- `cli.dfy` (`CliWorker`): the CLI worker. It covers how the shell starts
  the CLI, the line that announces the dev server, the choice of the
  newest project, the outcome once the process has ended, and `stop`.
- `deploy.dfy` (`Deploy`): approve-and-deploy with its address filter.
  The automated front end aborts on a failed build. The others build with
  `check=True`.
- `launch.dfy` (`Launch`): the start action of the automated front end,
  with its failure classification. Also the prompt action of the manual
  front end.

External effects are inputs:

- model responses, indexed by request number;
- shell and spawner outcomes, indexed by call number;
- directory listings with abstract integer time stamps;
- port probes, exit codes and output text;
- the user's answer in the confirmation dialog.

## Model

| member | source | states |
|---|---|---|
| KeyRegistry.DefaultConfig | automation/demo_builder.py:45-53 | With no config file there is one "Default" entry exactly when the environment key is non-empty. The active index is 0. The registry invariant holds, and the active key is the environment key when there is one. |
| KeyRegistry.GetActiveKey | automation/demo_builder.py:65-71 | A key is returned exactly when the active index (0 when absent) lies inside the list, and it is that entry's key. Under the invariant, a key is returned exactly when the list is non-empty. |
| KeyRegistry.GetActiveKeyName | automation/demo_builder.py:73-79 | A name is returned exactly when a key is returned, and name and key form the active entry. |
| KeyRegistry.SetActiveKey | automation/demo_builder.py:81-85 | An in-range index becomes active and its key becomes the active key. Any other index changes nothing. The key list never changes, and the invariant is preserved. |
| KeyRegistry.AddKey | automation/demo_builder.py:87-92 | The entry is appended at the end. Earlier entries and the active index are untouched. The invariant is preserved and an existing active key stays active. |
| KeyRegistry.RemoveKey | automation/demo_builder.py:94-103 | An out-of-range index is a no-op. Otherwise exactly that entry goes and the others keep their order. The active index is kept when it is below the new length and reset to max(0, len-1) otherwise. An absent index raises `KeyError` after the pop. The invariant is preserved. |
| KeyRegistry.RemoveBelowActiveShiftsActiveKey | automation/demo_builder.py:94-103 | In a valid three-key registry whose active key is "kb", removing entry 0 makes "kc" the active key. |
| KeyRegistry.RemoveKeyKeepingActive | automation/demo_builder.py:94-103 | Corrected removal: the same entries go and the same exception is raised. The invariant is kept, and removing any entry other than the active one keeps the same entry active. |
| Common.ChoosePrompt | automation/demo_builder_cli.py:66-102 | A truthy change request selects the change prompt naming `demos/<project>`, and fails with the `TypeError` text when there is no project name. Anything else selects the new-site prompt with the address and workflow. |
| Common.ProjectNames | automation/demo_builder_simple.py:40-42 | The names are exactly those of the listed directories other than `template`. |
| Tools.ReadFile | automation/demo_builder.py:204-210 | A present file yields its contents as a text-mode read sees them: no carriage return is left, every line end reads as "\n", and a file without a carriage return reads as stored. A missing one yields "Error reading file: " and the `FileNotFoundError` text. |
| Tools.WriteFile | automation/demo_builder.py:212-220 | A path without '/' fails with the `makedirs('')` error and changes nothing. Any other path gets the new contents, only that file changes, and the success text names the path. |
| Tools.WriteFileIntended | automation/demo_builder.py:212-220 | Corrected write: every path, a bare name included, is written and reads back as written, line ends turned into "\n". Other files are untouched. |
| Tools.BareNameWriteFails | automation/demo_builder.py:212-220 | Writing "index.html" fails and leaves the files as they were, while the corrected write stores it and it reads back. |
| Tools.WriteThenRead | automation/demo_builder.py:204-220 | After a successful write the file reads back as the new contents with "\r\n" and lone "\r" read as "\n", so exactly as written when they hold no carriage return. Every other path reads as before. |
| Tools.EditFile | automation/demo_builder.py:222-238 | The pattern is searched in the text `read_file` returns. A missing file or an absent `old_string` is reported and writes nothing. Otherwise every occurrence in that text is replaced, the result is stored, and "Successfully edited <path>" is returned. No file is ever created, and a change implies the pattern was present in the text as read. |
| Tools.CarriageReturnNeverFound | automation/demo_builder.py:225-229 | An `old_string` holding "\r" is never found in an existing file, so the edit is reported as not found and writes nothing. |
| Tools.EditReadBack | automation/demo_builder.py:204-238 | A non-empty pattern's edit reads back as the text as read, split at the pattern and joined with the replacement, line ends read as "\n"; exactly that join when the replacement holds no "\r". Replacing a present text by itself stores the file as read, so it changes nothing in a file without "\r". |
| Tools.EditExample | automation/demo_builder.py:222-238 | Replacing "foo" by "bar" in "xfoox" stores "xbarx" and reports success. |
| Tools.EditRewritesLineEnds | automation/demo_builder.py:225-234 | Replacing "a" by "c" in "a\r\nb" stores "c\nb": the whole file is rewritten as read. |
| Tools.RunCommand | automation/demo_builder.py:240-255 | A command that ran yields a prefix of stdout+stderr of length min(len, 2000). A timeout and a failure to start yield their error texts in full. |
| Tools.RunCommandIgnoresExitCode | automation/demo_builder.py:240-253 | The exit code never changes the result, and that result is at most 2000 characters long. |
| Tools.RunCommandErrorNotTruncated | automation/demo_builder.py:254-255 | An exception text longer than 2000 characters makes the result longer than 2000 characters. |
| Tools.StartDevServer | automation/demo_builder.py:257-271 | Each call uses one spawn. A started server replaces the kept handle and reports the preview address. A failed spawn keeps the handle and reports the error. |
| Tools.StopDevServer | automation/demo_builder.py:273-277 | The kept server, if any, is terminated and the handle cleared. Nothing else changes. |
| Tools.StopIsIdempotent | automation/demo_builder.py:273-277 | A second stop terminates nothing and changes nothing. |
| Tools.ParseTool | automation/demo_builder.py:279-301 | A name is unknown exactly when it is none of the five tool names, and the parsed tool gives its name back. |
| Tools.FirstMissing | automation/demo_builder.py:279-301 | There is no missing key exactly when every required key is present. A reported key is the first absent one in evaluation order: every key before it is present. |
| Tools.ExecuteTool | automation/demo_builder.py:279-301 | Every call logs its name first. An unknown name returns "Unknown tool: <name>" and changes nothing. A `KeyError` escapes exactly when a required key is missing, before any effect. Each of the five tools returns its own function's text and state change: read changes nothing; write and edit change only the files; run uses one command; start changes the server handle. |
| Tools.WriteWithoutInputs | automation/demo_builder.py:285-286 | A `write_file` call with no inputs raises `KeyError` for "path", the first key subscripted. |
| Tools.ToolWriteOfBareNameFails | automation/demo_builder.py:212-220 | Through the dispatcher, writing "index.html" returns the `makedirs('')` error and changes nothing. |
| Text.Universal | automation/demo_builder.py:207-208 | A text-mode read leaves no carriage return and never makes a text longer. |
| Text.UniversalKeeps | automation/demo_builder.py:207-208 | A text without a carriage return reads as it is. |
| Text.UniversalIdempotent | automation/demo_builder.py:207-208 | Reading a text that was already read changes nothing. |
| Text.CrLfReadsAsLf | automation/demo_builder.py:207-208 | "x\r\ny" reads as "x\ny". |
| Text.ReplaceAvoids | automation/demo_builder.py:231 | Replacing never introduces a character that neither the text nor the replacement holds. |
| Text.ReplaceIsSplitJoin | automation/demo_builder.py:231 | For a non-empty pattern, replace-all equals splitting at the pattern and joining with the replacement. |
| Text.ReplaceSelf | automation/demo_builder.py:231 | Replacing any pattern, the empty one included, by itself leaves the text unchanged. |
| Text.ReplaceAbsent | automation/demo_builder.py:231 | A pattern that does not occur leaves the text unchanged. |
| Text.ReplaceLength | automation/demo_builder.py:231 | The result's length is the old length plus the occurrence count times the length difference. |
| Text.InsertLength | automation/demo_builder.py:231 | An empty pattern inserts the replacement len+1 times. |
| Text.JoinSplit | automation/demo_builder_auto.py:471 | Splitting at a separator and joining with it gives back the text. |
| Text.SplitAtSeparator | automation/demo_builder_auto.py:471 | Splitting at a one-character separator distributes over a concatenation around that character. |
| Text.StripSlice | automation/demo_builder_auto.py:473 | `strip()` removes a whitespace-only prefix and suffix and keeps the slice between them. |
| Text.StripPadded | automation/demo_builder_auto.py:473 | Stripping whitespace padding around a core that starts and ends with non-space gives the core back. |
| Text.StripKeeps | automation/demo_builder_auto.py:473 | Stripping keeps every occurrence of a text that starts and ends with non-space. |
| Text.LexTotal | automation/demo_builder.py:427 | Any two strings are comparable in code-point order. |
| Text.LexTransitive | automation/demo_builder.py:427 | Code-point order is transitive. |
| Text.LexAntisymmetric | automation/demo_builder.py:427 | Two strings that are each at most the other are equal. |
| AgentLoop.RunTools | automation/demo_builder.py:433-448 | When every call returns, there is exactly one result per tool-use block, in block order, each carrying its block's id. A response without tool use yields no results and no change. |
| AgentLoop.RunToolsFirstUse | automation/demo_builder.py:433-448 | Text blocks before the first tool call are skipped. That call runs on the turn's starting state. Its `KeyError` ends the turn with the call's state and logs. Otherwise its text answers its id, and the remaining blocks run on the state it left. |
| AgentLoop.Projects | automation/demo_builder.py:425-427 | The names are exactly those of the listed directories other than `template`. |
| AgentLoop.GreatestName | automation/demo_builder.py:427 | The name `sorted(...)[-1]` picks is one of the names and is at least every name in code-point order. |
| AgentLoop.GreatestNameOrderFree | automation/demo_builder.py:425-428 | Two listings with the same names give the same greatest name. |
| AgentLoop.EndTurnSignal | automation/demo_builder.py:415-431 | `end_turn` sends a terminal signal. A missing directory gives its error and no project gives "No project created". Otherwise it is `finished` with a listed project that is greatest in code-point order, and the preview address. |
| AgentLoop.Step | automation/demo_builder.py:404-452 | One request per iteration. `tool_use` appends the assistant turn and then one user turn whose results pair with its calls. Other outcomes leave the conversation as it was and end with exactly one terminal signal after log lines. That signal is the client's exception text, the `end_turn` signal, or "Unexpected stop reason: X". A `tool_use` response continues with the calls' results and tool state when no `KeyError` escapes, and ends with `Failed("'<key>'")` when one does. |
| AgentLoop.ToolTurn | automation/demo_builder.py:433-448 | A `KeyError` from the calls ends the run with `Failed("'<key>'")` as the last signal and keeps the tool state the calls left. Otherwise the run continues: the assistant turn and then the results of the calls are appended, the tool state is the one they left, and only log signals are added. |
| AgentLoop.Loop | automation/demo_builder.py:404-452 | At most 50 requests are made. Exactly one terminal signal, as the last one, when the loop ends early. None when the 50 requests run out. The conversation keeps one assistant/user pair per continuing request. |
| AgentLoop.StepKeeps | automation/demo_builder.py:404-452 | A continuing step keeps the loop invariant. An ending step leaves exactly one terminal signal, as the last, and the conversation unchanged. |
| AgentLoop.Run | automation/demo_builder.py:303-455 | The whole run: at most 50 requests and at most one terminal signal, which is the last. The conversation opens with the prompt `ChoosePrompt` picks for the workflow the read tool returns. |
| AgentLoop.PromptStays | automation/demo_builder.py:401-452 | The loop never replaces the opening prompt. |
| AgentLoop.ExhaustionIsSilent | automation/demo_builder.py:404-452 | A model that always asks for a tool call makes exactly 50 requests, and the run ends with no terminal signal. |
| Monitor.Snapshot | automation/demo_builder_auto.py:39-41 | The snapshot holds exactly the listed directories other than `template`, and is empty when the directory is missing. |
| Monitor.Begin | automation/demo_builder_auto.py:31-46 | The thread starts running with the snapshot ignored, no project adopted, no waiting notice, and the banner naming the snapshot. |
| Monitor.FirstAdoptable | automation/demo_builder_auto.py:57-73 | Nothing is found exactly when no entry is adoptable: a new project directory changed after the start. Anything found is such an entry. |
| Monitor.Poll | automation/demo_builder_auto.py:54-93 | A missing directory skips the pass. Without an adopted project, one is adopted exactly when an adoptable entry exists; its name is ignored from then on and "new project" is reported first. An adopted project is kept. A report names the adopted project with the preview address, comes last and stops the thread. A bound port after adoption is reported. The waiting flag is set exactly when the probe fails. |
| Monitor.Run | automation/demo_builder_auto.py:51-96 | A stopped thread does nothing. At most one report, after which the thread is stopped. At most one waiting notice over the thread's life. An adopted project is never replaced, and without adoption nothing is emitted. |
| Monitor.RunReports | automation/demo_builder_auto.py:75-88 | Every report in a run names the adopted project with the preview address and is the last event. |
| Monitor.FeedCounts | automation/demo_builder_auto.py:51-96 | One input yields at most one report, which stops the thread, and a waiting notice only if none was given before. |
| Monitor.ProbeCounts | automation/demo_builder_auto.py:75-93 | A probe reports exactly when the port is bound. It gives the waiting notice exactly when the port is not bound and the notice was not yet given. |
| Monitor.RunKeepsFaithful | automation/demo_builder_simple.py:60-76 | Over any run the snapshot stays ignored, and an adopted project is outside the snapshot and ignored. |
| Monitor.NeverReportsExisting | automation/demo_builder_simple.py:40-91 | A project present at the start is never reported, and every report carries the preview address. |
| Monitor.StopSilences | automation/demo_builder_simple.py:54-99 | After `stop()` at a loop head, nothing more is emitted. |
| Monitor.StopDuringSleep | automation/demo_builder_auto.py:51-96 | A stop while a tick sleeps still lets that tick complete with its events, and then nothing more. |
| Monitor.AnyNewProjectMayBeAdopted | automation/demo_builder_simple.py:60-76 | Every adoptable entry is the one adopted under some order of the same entries (the set's iteration order is not fixed). |
| Monitor.StaleNeverAdopted | automation/demo_builder_simple.py:60-76 | When every project is ignored or changed no later than the start, a tick adopts nothing and emits nothing. |
| Monitor.ThirdProjectScenario | automation/demo_builder_auto.py:37-93 | Projects "a" and "b" exist at the start and "c" appears later. The ticks report "new project c", the waiting notice, then the server and `found(c)`, and nothing after. |
| CliWorker.ProjectEntries | automation/demo_builder_cli.py:147-148 | The entries kept are exactly the listed directories other than `template`. |
| CliWorker.LatestIndex | automation/demo_builder_cli.py:150-152 | The index `sorted(key=mtime)[-1]` picks has the greatest time, and every later entry is strictly older (stable sort). |
| CliWorker.LastNewestUnique | automation/demo_builder_cli.py:150-152 | Only one index has that property, so the listing fixes the choice. |
| CliWorker.LatestProject | automation/demo_builder_cli.py:147-153 | There is no project exactly when no listed entry is a project. Otherwise the result is a project whose time is maximal. |
| CliWorker.RelayOutput | automation/demo_builder_cli.py:129-139 | Only logs are relayed. Relaying stops at an announcement exactly when some non-empty line, once `rstrip`ped, announces the server, and that line is the last relayed. |
| CliWorker.RelayLogs | automation/demo_builder_cli.py:129-139 | For any announcement test, the relayed logs are exactly the `rstrip`ped non-empty lines, in order, up to and including the first announcing line, or all of them when none announces. |
| CliWorker.RelayOutputLogs | automation/demo_builder_cli.py:129-139 | The same for the worker's own test: a line mentioning "localhost:4321" or "local:" in lower case. |
| CliWorker.OnlyFirstAnnouncementMatters | automation/demo_builder_cli.py:134-153 | Once a line has announced the server, further output changes nothing. |
| CliWorker.AnnouncedOutcome | automation/demo_builder_cli.py:139-153 | After an announcement there is at most one signal. There is none exactly when the directory has no project. Whenever the listing has a project, it is `finished` with the newest project and the preview address. A missing directory gives its error. |
| CliWorker.ExitOutcome | automation/demo_builder_cli.py:155-177 | After the process ends, an unbound port gives "Dev server not started...". A bound port gives "No project found in demos/" exactly when there is no project, `finished` with the newest project and the preview address whenever there is one, and the missing directory's error when the directory is absent. |
| CliWorker.Run | automation/demo_builder_cli.py:45-180 | A failed `which` gives only the "CLI not found" error, with no prompt. An unreadable workflow gives its error. A prompt is written to the prompt file and the CLI started exactly when both succeed and the prompt choice does not fail; it is the chosen prompt, and the output is then supervised. |
| CliWorker.LaunchAsWritten | automation/demo_builder_cli.py:118-126 | The list goes to `/bin/sh -c` with "claude" as the whole script, so the CLI starts with no argument; the command substitution of the prompt file is only an unused shell parameter. |
| CliWorker.LaunchIntended | automation/demo_builder_cli.py:108-126 | Corrected launch: with the substitution expanded to the prompt file's contents, the CLI gets "--" and the prompt as its arguments. |
| CliWorker.AtMostOneOutcome | automation/demo_builder_cli.py:45-180 | Every run sends at most one terminal signal, as the last. It sends none exactly when an announcement came and no project exists. |
| CliWorker.ExitDecides | automation/demo_builder_cli.py:155-177 | Without an announcement, the last signal is the post-exit outcome and every relayed line was logged before it. |
| CliWorker.Stop | automation/demo_builder_cli.py:182-186 | `stop` terminates the process, if any, and clears the handle. |
| CliWorker.StopTwice | automation/demo_builder_cli.py:182-186 | A second `stop` terminates nothing. |
| Deploy.UrlsAreAddressLines | automation/demo_builder_auto.py:471-473 | A text is reported exactly when it is the stripped form of an output line that contains both "https://" and "vercel.app". |
| Deploy.UrlsMentionBoth | automation/demo_builder_simple.py:366-368 | Every reported address still contains both markers after stripping. |
| Deploy.OutputConcat | automation/demo_builder_cli.py:393-395 | Output joined at a line break reports the addresses of both parts, in order. |
| Deploy.AutoDeploy | automation/demo_builder_auto.py:422-486 | No current project or a declined dialog does nothing. A non-zero build exit fails with "Build failed: <stderr>" before publishing. Addresses are reported exactly when build and publish both ran and the build succeeded, and they are the filtered publish output. |
| Deploy.CheckedDeploy | automation/demo_builder_simple.py:332-374 | The same decisions with `check=True`: a non-zero build fails with the `CalledProcessError` text before publishing. |
| Deploy.BuildFailureSkipsPublish | automation/demo_builder_auto.py:448-468 | When the build fails, the publish step's outcome never matters and nothing is deployed, in either front end. |
| Deploy.FrontEndsAgree | automation/demo_builder_cli.py:359-401 | Unless the build exits non-zero, the checked and unchecked front ends decide alike. |
| Launch.StartBuild | automation/demo_builder_auto.py:215-391 | An empty stripped address only warns. Otherwise the address is kept and the review widgets hidden. A non-zero exit takes the permission branch exactly when the lower-case stderr says "not allowed" or "permission", and the generic branch shows the first 200 characters. Both re-enable Start and start no monitor. Success and timeout start exactly one monitor. |
| Launch.PermissionCaseBlind | automation/demo_builder_auto.py:312-314 | The classification gives the same answer for an error text and its lower-case form. |
| Launch.NeverStuck | automation/demo_builder_auto.py:310-376 | With a readable workflow, either Start is enabled again or a monitor was started. |
| Launch.GeneratePrompt | automation/demo_builder_simple.py:224-276 | An empty stripped address only warns and changes nothing. Otherwise the stripped address is kept. With a readable workflow, the new-site prompt is shown and both buttons are enabled. |
| Launch.GenerateIdempotent | automation/demo_builder_simple.py:224-266 | Generating twice from the same field ends in the same window as generating once. |
| Launch.SameValidation | automation/demo_builder_simple.py:226-229 | Both front ends reject the same address fields and keep the same stripped address. |

## Left out

- The Qt widgets, dialogs, web views, timers and signal mechanism. Signals are returned values, and widget effects are record fields.
- The network and the Anthropic client: responses are an input indexed by request number. `fetch_usage` is a placeholder and is not modelled.
- Real processes (npm, the hosting CLI, lsof, osascript, `which`, the assistant CLI): only their outcomes are inputs. Prompt, banner and log texts are modelled only where a decision depends on them.
- JSON persistence of the key config, and the "active" field written into the default entry: the config is an in-memory record, and reading the file is not modelled.
- Threads: `stop()` is an input interleaved between ticks, and a stop during a tick's sleep comes after that tick. The two-second sleep is not modelled.
- Time stamps (`st_ctime`, `st_mtime`, `time.time()`) are abstract integers compared with `>`. Floating point is not modelled.
- Set iteration order in the monitor is the listing order, which is an arbitrary input.
- `Lower` folds ASCII letters only. Unicode case mapping is not modelled.
- Tool inputs are strings, and the `cwd` argument of `run_command` is ignored. Paths are plain texts without normalisation.
- The CLI worker's prompt-file write is modelled only by the prompt it records; a failure of that write or of `Popen` itself is not modelled: the process is assumed to start. Its output lines are an input, whatever the launch passed.
- The prompt-file write and the AppleScript text of the automated start action are not modelled. So are `copy_prompt`, `start_monitoring`, `request_changes` and the windows' `closeEvent`.
- Monitor.Begin: the banner's exact lines are not modelled; it carries the ignored names.
- Deploy.CheckedBuildError: a build killed by a signal is described by the signal's number. Python prints the enum name of the signal there.
- Tools.MissingFile: the error text always quotes the path with single quotes. Python prints the path's `repr`, which uses double quotes when the path contains a single quote.
- Tools.WriteFile: the file system has no directories. A path ending in '/' is written here, while Python raises `IsADirectoryError`. Writing under a path that names a file is not modelled either.
- Tools.ReadFile: files hold text. Bytes that are not valid UTF-8, and the `UnicodeDecodeError` that reading them raises, are not modelled; neither is a file that cannot be opened for another reason.
- Tools.WriteFile: writing leaves "\n" as it is, as on POSIX. The Windows line separator, which text mode would write for "\n", is not modelled.
- Tools.EditFile: decoding errors are left out as for `Tools.ReadFile`, and the write keeps "\n" as on POSIX.
- Launch.StartBuild: only the timeout outcome of the ten-second limit is modelled, not the clock.

## Findings

| source | as written | input that shows it | evidently intended | confidence | as-written member | corrected member |
|---|---|---|---|---|---|---|
| automation/demo_builder.py:212-220 | `write_file` calls `os.makedirs(os.path.dirname(path))`, which raises for a bare file name whose directory name is empty | `write_file("index.html", ...)` returns "Error writing file: ..." and writes nothing | a bare file name is written in the working directory | not executed | Tools.BareNameWriteFails | Tools.WriteFileIntended |
| automation/demo_builder_cli.py:118-126 | `subprocess.Popen(["claude", "--", "$(cat <prompt file>)"], shell=True)` hands the list to `/bin/sh -c`, which takes only "claude" as the script; the other items become `$0` and `$1` | any run that reaches the launch: the CLI starts with no argument and never sees the prompt written to the file | the CLI gets the prompt file's contents as its argument after "--" | not executed | CliWorker.LaunchAsWritten | CliWorker.LaunchIntended |
| automation/demo_builder.py:94-103 | `remove_key` keeps the stored active index when an entry below it is removed | keys a, b, c with b active; removing index 0 makes c active | the active key stays the same entry | not executed | KeyRegistry.RemoveBelowActiveShiftsActiveKey | KeyRegistry.RemoveKeyKeepingActive |

The rest of the model keeps the code as written: `Tools.ExecuteTool`, and so the tool loop, writes through `Tools.WriteFile` (see `Tools.ToolWriteOfBareNameFails`), the registry removes keys with `KeyRegistry.RemoveKey`, and the CLI worker's output is an input whatever the process was started with. The corrected twins are stated and proved beside them.

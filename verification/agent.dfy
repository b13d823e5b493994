/** The API-driven worker: a conversation with the model of at most 50
    requests. A `tool_use` response has its tool calls executed in order
    and answered, each by id, in one user message; an `end_turn` response
    ends the run by naming the greatest project directory; anything else
    ends it with an error. The model's responses, the shell, the process
    spawner and the project listing are inputs. */
module AgentLoop {
  import opened Common
  import opened Text
  import opened Tools

  const MaxIterations: nat := 50

  /** A content block of a model response: text, or a request to run a
      tool with an id, a name and string-valued inputs. */
  datatype Block = TextBlock(text: string) | ToolUseBlock(id: string, name: string, input: map<string, string>)

  /** One round trip to the model: its stop reason and content, or the
      text of the exception the client raised. */
  datatype Response = Response(stopReason: string, content: seq<Block>) | RequestRaised(detail: string)

  datatype ToolResult = ToolResult(toolUseId: string, content: string)

  /** The conversation: the opening prompt, the assistant's turns, and the
      user turns that carry the tool results. */
  datatype Message = UserPrompt(prompt: Prompt) | AssistantTurn(content: seq<Block>) | ToolResults(results: seq<ToolResult>)

  /** Everything outside the worker: the response to the k-th request, the
      shell and spawner, and the listing of the demos directory when the
      model ends its turn (absent when the directory does not exist). */
  datatype World = World(responses: nat -> Response, env: Environment, demos: Option<seq<Entry>>)

  /** The tool-use blocks of a response, in order. */
  function ToolUses(blocks: seq<Block>): (uses: seq<Block>)
    ensures forall i :: 0 <= i < |uses| ==> uses[i].ToolUseBlock?
  {
    if blocks == [] then []
    else (if blocks[0].ToolUseBlock? then [blocks[0]] else []) + ToolUses(blocks[1..])
  }

  /** One result per tool-use block, in block order, answering its id. */
  predicate Paired(blocks: seq<Block>, results: seq<ToolResult>)
  {
    var uses := ToolUses(blocks);
    |results| == |uses| && forall i :: 0 <= i < |results| ==> results[i].toolUseId == uses[i].id
  }

  /** The outcome of executing one response's tool calls: all of them
      answered, or a `KeyError` that escaped part way. */
  datatype Turn =
    | TurnDone(results: seq<ToolResult>, state: ToolState, logs: seq<string>)
    | TurnRaised(key: string, state: ToolState, logs: seq<string>)

  /** Executes the tool-use blocks one after the other, threading the
      tool state through, and pairs each result with its block's id. */
  function RunTools(blocks: seq<Block>, st: ToolState, env: Environment): (r: Turn)
    ensures r.TurnDone? ==> Paired(blocks, r.results)
    ensures ToolUses(blocks) == [] ==> r == TurnDone([], st, [])
    decreases |blocks|, 1
  {
    if blocks == [] then TurnDone([], st, [])
    else
      match blocks[0]
      case TextBlock(_) => RunTools(blocks[1..], st, env)
      case ToolUseBlock(_, name, input) => AfterCall(blocks, ExecuteTool(name, input, st, env), env)
  }

  /** The rest of the blocks once the first one's call returned `call`: a
      `KeyError` stops the turn, a result is answered under the block's id. */
  function AfterCall(blocks: seq<Block>, call: ToolCall, env: Environment): (r: Turn)
    requires blocks != [] && blocks[0].ToolUseBlock?
    ensures r.TurnDone? ==> Paired(blocks, r.results)
    decreases |blocks|, 0
  {
    match call.outcome
    case KeyMissing(k) => TurnRaised(k, call.state, call.logs)
    case Returned(text) =>
      var rest := RunTools(blocks[1..], call.state, env);
      AnswerPaired(blocks, text, call.logs, rest);
      Answer(blocks[0].id, text, call.logs, rest)
  }

  /** Answering the first block ahead of paired results for the others
      pairs the results with all the blocks. */
  lemma AnswerPaired(blocks: seq<Block>, text: string, logs: seq<string>, rest: Turn)
    requires blocks != [] && blocks[0].ToolUseBlock?
    requires rest.TurnDone? ==> Paired(blocks[1..], rest.results)
    ensures var r := Answer(blocks[0].id, text, logs, rest);
            r.TurnDone? ==> Paired(blocks, r.results)
  {
    if rest.TurnDone? {
      var rs := [ToolResult(blocks[0].id, text)] + rest.results;
      var uses := ToolUses(blocks);
      assert uses == [blocks[0]] + ToolUses(blocks[1..]);
      assert forall i :: 0 < i < |rs| ==> rs[i] == rest.results[i - 1] && uses[i] == ToolUses(blocks[1..])[i - 1];
    }
  }

  /** A call answered with `text` under `id`, ahead of what the later calls
      did; its logs come first. */
  function Answer(id: string, text: string, logs: seq<string>, rest: Turn): Turn
  {
    match rest
    case TurnDone(rs, st', more) => TurnDone([ToolResult(id, text)] + rs, st', logs + more)
    case TurnRaised(k, st', more) => TurnRaised(k, st', logs + more)
  }

  /** The position of the first tool-use block; only text comes before it. */
  function FirstUse(blocks: seq<Block>): (i: nat)
    requires ToolUses(blocks) != []
    ensures i < |blocks| && blocks[i].ToolUseBlock?
    ensures forall j :: 0 <= j < i ==> blocks[j].TextBlock?
  {
    if blocks[0].ToolUseBlock? then 0 else 1 + FirstUse(blocks[1..])
  }

  /** What the turn does, stated by its first call: text blocks before it
      are skipped; the call runs on the state the turn started with; a
      `KeyError` from it ends the turn with the call's state and logs;
      otherwise its text answers its id and the rest of the blocks run on
      the state the call left. */
  lemma {:induction false} RunToolsFirstUse(blocks: seq<Block>, st: ToolState, env: Environment)
    requires ToolUses(blocks) != []
    ensures var i := FirstUse(blocks);
            var u := blocks[i];
            var c := ExecuteTool(u.name, u.input, st, env);
            && (c.outcome.KeyMissing? ==> RunTools(blocks, st, env) == TurnRaised(c.outcome.key, c.state, c.logs))
            && (c.outcome.Returned? ==>
                  RunTools(blocks, st, env) == Answer(u.id, c.outcome.text, c.logs, RunTools(blocks[i + 1..], c.state, env)))
  {
    if blocks[0].TextBlock? {
      var i := FirstUse(blocks[1..]);
      assert FirstUse(blocks) == i + 1;
      assert blocks[1..][i] == blocks[i + 1];
      assert blocks[1..][i + 1..] == blocks[i + 2..];
      RunToolsFirstUse(blocks[1..], st, env);
    }
  }

  /** The conversation shape the loop keeps: the prompt, then pairs of an
      assistant turn and the user turn answering its tool calls. */
  predicate WellPaired(ms: seq<Message>)
  {
    && |ms| % 2 == 1
    && ms[0].UserPrompt?
    && forall j :: 0 < j < |ms| - 1 && j % 2 == 1 ==>
         ms[j].AssistantTurn? && ms[j + 1].ToolResults? && Paired(ms[j].content, ms[j + 1].results)
  }

  function AsLogs(lines: seq<string>): (s: seq<Signal>)
    ensures |s| == |lines| && AllLogs(s)
  {
    seq(|lines|, i requires 0 <= i < |lines| => Log(lines[i]))
  }

  /** The "Claude: ..." log of every text block. */
  function TextLogs(content: seq<Block>): (s: seq<Signal>)
    ensures AllLogs(s)
  {
    if content == [] then []
    else (if content[0].TextBlock? then [Log("Claude: " + content[0].text)] else []) + TextLogs(content[1..])
  }

  /** The names of the listed directories other than the reserved one, in
      listing order. */
  function Projects(listing: seq<Entry>): (names: seq<string>)
    ensures forall n :: n in names <==> exists e :: e in listing && IsProject(e) && e.name == n
  {
    if listing == [] then []
    else (if IsProject(listing[0]) then [listing[0].name] else []) + Projects(listing[1..])
  }

  /** `sorted(names)[-1]`: the greatest name in code-point order. */
  function GreatestName(names: seq<string>): (m: string)
    requires |names| > 0
    ensures m in names
    ensures forall n :: n in names ==> LexLe(n, m)
  {
    LexReflexive(names[0]);
    if |names| == 1 then names[0]
    else
      var rest := GreatestName(names[1..]);
      LexTotal(names[0], rest);
      assert forall n :: n in names[1..] && LexLe(rest, names[0]) ==> LexLe(n, names[0]) by {
        forall n | n in names[1..] && LexLe(rest, names[0]) {
          LexTransitive(n, rest, names[0]);
        }
      }
      assert forall n :: n in names ==> n == names[0] || n in names[1..];
      if LexLe(names[0], rest) then rest else names[0]
  }

  /** The greatest name does not depend on the order of the listing: any
      two listings with the same names give the same project. */
  lemma {:induction false} GreatestNameOrderFree(a: seq<string>, b: seq<string>)
    requires |a| > 0 && |b| > 0 && (forall n :: n in a <==> n in b)
    ensures GreatestName(a) == GreatestName(b)
  {
    var x, y := GreatestName(a), GreatestName(b);
    assert LexLe(x, y) && LexLe(y, x);
    LexAntisymmetric(x, y);
  }

  /** The terminal signal of an `end_turn`: the greatest project with the
      preview address, "No project created" when there is none, or the
      error of listing a missing directory. */
  function EndTurnSignal(demosDir: string, demos: Option<seq<Entry>>): (s: Signal)
    ensures s.IsTerminal()
    ensures demos.None? ==> s == Failed(MissingFile(demosDir))
    ensures demos.Some? && Projects(demos.value) == [] ==> s == Failed("No project created")
    ensures demos.Some? && Projects(demos.value) != [] ==>
              && s.Finished? && s.url == PreviewUrl
              && (exists e :: e in demos.value && IsProject(e) && e.name == s.project)
              && forall e :: e in demos.value && IsProject(e) ==> LexLe(e.name, s.project)
  {
    match demos
    case None => Failed(MissingFile(demosDir))
    case Some(listing) =>
      var names := Projects(listing);
      if names == [] then Failed("No project created")
      else Finished(GreatestName(names), PreviewUrl)
  }

  /** The state of a run between two requests. */
  datatype LoopState = LoopState(messages: seq<Message>, tools: ToolState, signals: seq<Signal>, requests: nat)

  datatype Progress = Continue(state: LoopState) | Ended(state: LoopState)

  function IterationLog(i: nat): Signal
  {
    Log("Iteration " + NatToString(i + 1) + "/" + NatToString(MaxIterations))
  }

  predicate Extends(s: seq<Signal>, t: seq<Signal>)
  {
    |s| <= |t| && t[..|s|] == s
  }

  /** One iteration of the loop: one request to the model and what its
      response leads to. */
  function Step(demosDir: string, world: World, st: LoopState): (r: Progress)
    ensures r.state.requests == st.requests + 1
    ensures Extends(st.signals, r.state.signals)
    ensures r.Continue? ==>
              && world.responses(st.requests).Response?
              && world.responses(st.requests).stopReason == "tool_use"
              && AllLogs(r.state.signals[|st.signals|..])
              && |r.state.messages| == |st.messages| + 2
              && r.state.messages[..|st.messages|] == st.messages
              && r.state.messages[|st.messages|] == AssistantTurn(world.responses(st.requests).content)
              && r.state.messages[|st.messages| + 1].ToolResults?
              && Paired(world.responses(st.requests).content, r.state.messages[|st.messages| + 1].results)
    ensures r.Ended? ==>
              && r.state.messages == st.messages
              && |r.state.signals| > |st.signals|
              && AllLogs(r.state.signals[|st.signals|..|r.state.signals| - 1])
              && r.state.signals[|r.state.signals| - 1].IsTerminal()
    ensures world.responses(st.requests).RequestRaised? ==>
              r.Ended? && r.state.signals[|r.state.signals| - 1] == Failed(world.responses(st.requests).detail)
    ensures world.responses(st.requests).Response? && world.responses(st.requests).stopReason == "end_turn" ==>
              r.Ended? && r.state.signals[|r.state.signals| - 1] == EndTurnSignal(demosDir, world.demos)
    ensures world.responses(st.requests).Response? && world.responses(st.requests).stopReason !in {"end_turn", "tool_use"} ==>
              r.Ended? && r.state.signals[|r.state.signals| - 1] == Failed("Unexpected stop reason: " + world.responses(st.requests).stopReason)
    ensures world.responses(st.requests).Response? && world.responses(st.requests).stopReason == "tool_use" ==>
              var t := RunTools(world.responses(st.requests).content, st.tools, world.env);
              && (t.TurnRaised? ==> r.Ended? && r.state.signals[|r.state.signals| - 1] == Failed("'" + t.key + "'"))
              && (t.TurnDone? ==> r.Continue? && r.state.tools == t.state
                                  && r.state.messages[|st.messages| + 1] == ToolResults(t.results))
  {
    var i := st.requests;
    match world.responses(i)
    case RequestRaised(d) => Finish(st, st.tools, [], Failed(d))
    case Response(reason, content) =>
      if reason == "end_turn" then Finish(st, st.tools, TextLogs(content), EndTurnSignal(demosDir, world.demos))
      else if reason == "tool_use" then ToolTurn(st, content, world.env)
      else Finish(st, st.tools, [], Failed("Unexpected stop reason: " + reason))
  }

  /** An iteration that ends the run: its iteration log, the logs `logs`,
      then the terminal signal `last`; the conversation is unchanged. */
  function Finish(st: LoopState, tools: ToolState, logs: seq<Signal>, last: Signal): (r: Progress)
    requires AllLogs(logs) && last.IsTerminal()
    ensures r.Ended? && r.state.requests == st.requests + 1 && r.state.messages == st.messages
    ensures Extends(st.signals, r.state.signals) && |r.state.signals| > |st.signals|
    ensures AllLogs(r.state.signals[|st.signals|..|r.state.signals| - 1])
    ensures r.state.signals[|r.state.signals| - 1] == last
  {
    var tail := [IterationLog(st.requests)] + logs;
    LogCons(IterationLog(st.requests), logs);
    LogsThenLast(st.signals, tail, last);
    Ended(st.(requests := st.requests + 1, tools := tools, signals := st.signals + tail + [last]))
  }

  /** A `tool_use` iteration: the calls run in order; a `KeyError` ends
      the run, otherwise the assistant turn and the answering results are
      appended to the conversation. */
  function ToolTurn(st: LoopState, content: seq<Block>, env: Environment): (r: Progress)
    ensures r.state.requests == st.requests + 1
    ensures Extends(st.signals, r.state.signals)
    ensures r.Continue? ==>
              && AllLogs(r.state.signals[|st.signals|..])
              && |r.state.messages| == |st.messages| + 2
              && r.state.messages[..|st.messages|] == st.messages
              && r.state.messages[|st.messages|] == AssistantTurn(content)
              && r.state.messages[|st.messages| + 1].ToolResults?
              && Paired(content, r.state.messages[|st.messages| + 1].results)
    ensures r.Ended? ==>
              && r.state.messages == st.messages
              && |r.state.signals| > |st.signals|
              && AllLogs(r.state.signals[|st.signals|..|r.state.signals| - 1])
              && r.state.signals[|r.state.signals| - 1].IsTerminal()
    ensures RunTools(content, st.tools, env).TurnRaised? ==>
              && r.Ended?
              && r.state.signals[|r.state.signals| - 1] == Failed("'" + RunTools(content, st.tools, env).key + "'")
              && r.state.tools == RunTools(content, st.tools, env).state
    ensures RunTools(content, st.tools, env).TurnDone? ==>
              && r.Continue?
              && r.state.messages[|st.messages| + 1] == ToolResults(RunTools(content, st.tools, env).results)
              && r.state.tools == RunTools(content, st.tools, env).state
  {
    match RunTools(content, st.tools, env)
    case TurnRaised(k, t, logs) => Finish(st, t, AsLogs(logs), Failed("'" + k + "'"))
    case TurnDone(rs, t, logs) =>
      var tail := [IterationLog(st.requests)] + AsLogs(logs);
      LogCons(IterationLog(st.requests), AsLogs(logs));
      LogsThenLast(st.signals, tail, Log(""));
      var ms := st.messages + [AssistantTurn(content), ToolResults(rs)];
      assert ms[..|st.messages|] == st.messages;
      Continue(st.(requests := st.requests + 1, tools := t, signals := st.signals + tail, messages := ms))
  }

  lemma LogCons(x: Signal, logs: seq<Signal>)
    requires x.Log? && AllLogs(logs)
    ensures AllLogs([x] + logs)
  {
    forall i | 0 <= i < |logs| + 1
      ensures ([x] + logs)[i].Log?
    {
      if i > 0 {
        assert ([x] + logs)[i] == logs[i - 1];
      }
    }
  }

  /** Where the parts of `pre + logs + [last]` sit. */
  lemma LogsThenLast(pre: seq<Signal>, logs: seq<Signal>, last: Signal)
    ensures var t := pre + logs + [last];
            && (pre + logs)[..|pre|] == pre && (pre + logs)[|pre|..] == logs
            && t[..|pre|] == pre && t[|pre|..|t| - 1] == logs && t[|t| - 1] == last
  {
    var t := pre + logs + [last];
    assert t[..|pre|] == pre;
    assert t[|pre|..|t| - 1] == logs;
  }

  /** The end of a run: the final state, and whether a terminal signal
      ended it (otherwise the 50 requests ran out). */
  datatype RunResult = RunResult(state: LoopState, ended: bool)

  /** The `for iteration in range(50)` loop. It makes at most 50 requests;
      it emits exactly one terminal signal, as its last signal, when it
      ends early, and none at all when the requests run out; the
      conversation keeps its shape throughout. */
  function Loop(demosDir: string, world: World, st: LoopState): (r: RunResult)
    requires LoopInvariant(st)
    ensures st.requests <= r.state.requests <= MaxIterations
    ensures TerminalCount(r.state.signals) == if r.ended then 1 else 0
    ensures r.ended ==> r.state.signals[|r.state.signals| - 1].IsTerminal()
    ensures !r.ended ==> r.state.requests == MaxIterations
    ensures WellPaired(r.state.messages)
    ensures |r.state.messages| == 1 + 2 * (if r.ended then r.state.requests - 1 else r.state.requests)
    decreases MaxIterations - st.requests
  {
    if st.requests == MaxIterations then RunResult(st, false)
    else
      var step := Step(demosDir, world, st);
      StepKeeps(demosDir, world, st);
      match step
      case Continue(s) => Loop(demosDir, world, s)
      case Ended(s) => RunResult(s, true)
  }

  /** What holds between two requests: no terminal signal yet, at most 50
      requests so far, and a conversation of the right shape with one
      pair of turns per request. */
  predicate LoopInvariant(st: LoopState)
  {
    && st.requests <= MaxIterations
    && TerminalCount(st.signals) == 0
    && WellPaired(st.messages)
    && |st.messages| == 1 + 2 * st.requests
  }

  /** A step that continues keeps the invariant; a step that ends adds
      exactly one terminal signal, as the last one. */
  lemma StepKeeps(demosDir: string, world: World, st: LoopState)
    requires LoopInvariant(st) && st.requests < MaxIterations
    ensures var step := Step(demosDir, world, st);
            && step.state.requests == st.requests + 1
            && (step.Continue? ==> LoopInvariant(step.state))
            && (step.Ended? ==> TerminalCount(step.state.signals) == 1 && step.state.messages == st.messages)
            && (step.Ended? ==> |step.state.signals| > 0 && step.state.signals[|step.state.signals| - 1].IsTerminal())
  {
    var step := Step(demosDir, world, st);
    if step.Continue? {
      ContinueKeeps(st, step.state, world.responses(st.requests).content);
    } else {
      EndedCounts(st.signals, step.state.signals);
    }
  }

  lemma ContinueKeeps(st: LoopState, s: LoopState, content: seq<Block>)
    requires LoopInvariant(st) && s.requests == st.requests + 1 <= MaxIterations
    requires Extends(st.signals, s.signals) && AllLogs(s.signals[|st.signals|..])
    requires |s.messages| == |st.messages| + 2
    requires s.messages[..|st.messages|] == st.messages
    requires s.messages[|st.messages|] == AssistantTurn(content)
    requires s.messages[|st.messages| + 1].ToolResults?
    requires Paired(content, s.messages[|st.messages| + 1].results)
    ensures LoopInvariant(s)
  {
    var added := s.signals[|st.signals|..];
    assert s.signals == st.signals + added;
    TerminalCountAppend(st.signals, added);
    AllLogsNoTerminal(added);
    assert s.messages == st.messages + [AssistantTurn(content), ToolResults(s.messages[|st.messages| + 1].results)];
    PairedAppend(st.messages, content, s.messages[|st.messages| + 1].results, s.messages);
  }

  lemma EndedCounts(before: seq<Signal>, after: seq<Signal>)
    requires TerminalCount(before) == 0 && Extends(before, after) && |after| > |before|
    requires AllLogs(after[|before|..|after| - 1]) && after[|after| - 1].IsTerminal()
    ensures TerminalCount(after) == 1
  {
    var mid, last := after[|before|..|after| - 1], after[|after| - 1];
    assert after == before + mid + [last];
    TerminalCountAppend(before, mid);
    AllLogsNoTerminal(mid);
    TerminalCountAppend(before + mid, [last]);
  }

  lemma PairedAppend(ms: seq<Message>, content: seq<Block>, results: seq<ToolResult>, ms': seq<Message>)
    requires WellPaired(ms)
    requires Paired(content, results)
    requires ms' == ms + [AssistantTurn(content), ToolResults(results)]
    ensures WellPaired(ms')
  {
    forall j | 0 < j < |ms'| - 1 && j % 2 == 1
      ensures ms'[j].AssistantTurn? && ms'[j + 1].ToolResults? && Paired(ms'[j].content, ms'[j + 1].results)
    {
      if j < |ms| - 1 {
        assert ms'[j] == ms[j] && ms'[j + 1] == ms[j + 1];
      } else {
        assert j == |ms|;
      }
    }
  }

  /** `ClaudeWorker.run`: reads the workflow with the tool (so a missing
      file only yields error text), builds the prompt, and runs the loop.
      A prompt that cannot be built ends the run with its exception's text
      before any request. */
  function Run(demosDir: string, req: Request, world: World, fs: FileSystem): (r: RunResult)
    ensures r.state.requests <= MaxIterations
    ensures TerminalCount(r.state.signals) == if r.ended then 1 else 0
    ensures r.ended ==> r.state.signals[|r.state.signals| - 1].IsTerminal()
    ensures !r.ended ==> r.state.requests == MaxIterations
    ensures r.state.requests > 0 ==> WellPaired(r.state.messages)
    ensures r.state.requests > 0 ==>
              var choice := ChoosePrompt(req, demosDir, ReadFile(fs, WorkflowPath(demosDir)));
              choice.Chosen? && r.state.messages[0] == UserPrompt(choice.prompt)
  {
    var workflow := ReadFile(fs, WorkflowPath(demosDir));
    var tools := ToolState(fs, None, 0, 0);
    match ChoosePrompt(req, demosDir, workflow)
    case PromptRaised(msg) =>
      RunResult(LoopState([], tools, [Failed(msg)], 0), true)
    case Chosen(p) =>
      var st := LoopState([UserPrompt(p)], tools, [Log("Sending request to Claude...")], 0);
      var r := Loop(demosDir, world, st);
      assert r.state.messages[0] == UserPrompt(p) by {
        PromptStays(demosDir, world, st);
      }
      r
  }

  /** The opening prompt is never replaced: the loop only appends. */
  lemma {:induction false} PromptStays(demosDir: string, world: World, st: LoopState)
    requires LoopInvariant(st)
    ensures Loop(demosDir, world, st).state.messages[0] == st.messages[0]
    decreases MaxIterations - st.requests
  {
    if st.requests < MaxIterations {
      var step := Step(demosDir, world, st);
      StepKeeps(demosDir, world, st);
      if step.Continue? {
        PromptStays(demosDir, world, step.state);
      }
    }
  }

  /** A model that asks for the same tool call forever makes the run stop
      after exactly 50 requests without any terminal signal. */
  lemma {:induction false} ExhaustionIsSilent(demosDir: string, req: Request, world: World, fs: FileSystem)
    requires forall k :: world.responses(k) == Response("tool_use", [ToolUseBlock("t", "read_file", map["path" := "x"])])
    requires ChoosePrompt(req, demosDir, ReadFile(fs, WorkflowPath(demosDir))).Chosen?
    ensures !Run(demosDir, req, world, fs).ended
    ensures Run(demosDir, req, world, fs).state.requests == MaxIterations
    ensures TerminalCount(Run(demosDir, req, world, fs).state.signals) == 0
  {
    var workflow := ReadFile(fs, WorkflowPath(demosDir));
    var p := ChoosePrompt(req, demosDir, workflow).prompt;
    var st := LoopState([UserPrompt(p)], ToolState(fs, None, 0, 0), [Log("Sending request to Claude...")], 0);
    NeverEnds(demosDir, world, st);
  }

  lemma {:induction false} NeverEnds(demosDir: string, world: World, st: LoopState)
    requires forall k :: world.responses(k) == Response("tool_use", [ToolUseBlock("t", "read_file", map["path" := "x"])])
    requires LoopInvariant(st)
    ensures !Loop(demosDir, world, st).ended
    decreases MaxIterations - st.requests
  {
    if st.requests < MaxIterations {
      var blocks := [ToolUseBlock("t", "read_file", map["path" := "x"])];
      assert blocks[1..] == [];
      assert FirstMissing(["path"], map["path" := "x"]) == None by {
        assert ["path"][1..] == [];
      }
      assert RunTools(blocks, st.tools, world.env).TurnDone?;
      var step := Step(demosDir, world, st);
      assert step.Continue?;
      StepKeeps(demosDir, world, st);
      NeverEnds(demosDir, world, step.state);
    }
  }
}

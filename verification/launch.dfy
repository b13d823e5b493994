/** How the two window front ends start a build. The automated one opens
    a terminal with the assistant through an AppleScript and starts the
    completion monitor; the manual one only shows the prompt and enables
    its buttons. The address field's text, the workflow file and the
    outcome of the script are inputs; widget effects are state fields. */
module Launch {
  import opened Common
  import opened Text
  import opened Tools

  /** How long the script may run, in seconds. */
  const ScriptTimeout: nat := 10

  /** The widget state the automated front end's start action touches. */
  datatype AutoWindow = AutoWindow(
    originalUrl: Option<string>,
    startEnabled: bool,
    previewVisible: bool,
    reviewVisible: bool,
    monitorsStarted: nat)

  /** What the script run ended with: an exit status and its error text,
      the ten-second timeout, or another exception's text. */
  datatype ScriptOutcome = ScriptExited(code: int, stderr: string) | ScriptTimedOut | ScriptRaised(detail: string)

  /** What the user is told. An unreadable workflow raises out of the
      action, after the window was already changed. */
  datatype StartNotice =
    | UrlMissing
    | WorkflowUnreadable(error: string)
    | PermissionDenied
    | AutomationFailed(logged: string, shown: string)
    | Launched
    | LaunchTimedOut
    | LaunchRaised(detail: string)

  datatype StartResult = StartResult(window: AutoWindow, notice: StartNotice)

  /** A script failure counts as a missing permission when its lower-case
      error text says something is not allowed or mentions permission. */
  predicate PermissionProblem(stderr: string)
  {
    Contains(Lower(stderr), "not allowed") || Contains(Lower(stderr), "permission")
  }

  /** `start_build`. An address that is empty once stripped only warns.
      Otherwise the address is kept, Start is disabled and the review
      widgets hidden before the workflow is read. A failed script run
      re-enables Start and starts no monitor; a run that succeeds or times
      out starts one. */
  function StartBuild(w: AutoWindow, field: string, demosDir: string, workflow: Option<string>, script: ScriptOutcome): (r: StartResult)
    ensures Strip(field) == [] <==> r.notice == UrlMissing
    ensures r.notice == UrlMissing ==> r.window == w
    ensures r.notice != UrlMissing ==> r.window.originalUrl == Some(Strip(field))
                                        && !r.window.previewVisible && !r.window.reviewVisible
    ensures r.notice.WorkflowUnreadable? <==> Strip(field) != [] && workflow.None?
    ensures r.notice.WorkflowUnreadable? ==>
              r.notice.error == MissingFile(WorkflowPath(demosDir)) && !r.window.startEnabled
              && r.window.monitorsStarted == w.monitorsStarted
    ensures r.window.monitorsStarted == w.monitorsStarted + (if r.notice == Launched || r.notice == LaunchTimedOut then 1 else 0)
    ensures r.notice == PermissionDenied || r.notice.AutomationFailed? || r.notice.LaunchRaised? ==> r.window.startEnabled
    ensures r.notice == Launched || r.notice == LaunchTimedOut ==> !r.window.startEnabled
    ensures Strip(field) != [] && workflow.Some? ==>
              && (script.ScriptExited? && script.code != 0 ==>
                    (r.notice == PermissionDenied <==> PermissionProblem(script.stderr)))
              && (script.ScriptExited? && script.code != 0 && !PermissionProblem(script.stderr) ==>
                    r.notice == AutomationFailed(script.stderr, Take(script.stderr, 200)))
              && (r.notice == Launched <==> script.ScriptExited? && script.code == 0)
              && (r.notice == LaunchTimedOut <==> script.ScriptTimedOut?)
  {
    var url := Strip(field);
    if url == [] then StartResult(w, UrlMissing)
    else
      var w1 := w.(originalUrl := Some(url), startEnabled := false, previewVisible := false, reviewVisible := false);
      match workflow
      case None => StartResult(w1, WorkflowUnreadable(MissingFile(WorkflowPath(demosDir))))
      case Some(_) =>
        match script
        case ScriptExited(code, stderr) =>
          if code != 0 then
            var notice := if PermissionProblem(stderr) then PermissionDenied else AutomationFailed(stderr, Take(stderr, 200));
            StartResult(w1.(startEnabled := true), notice)
          else StartResult(w1.(monitorsStarted := w.monitorsStarted + 1), Launched)
        case ScriptTimedOut => StartResult(w1.(monitorsStarted := w.monitorsStarted + 1), LaunchTimedOut)
        case ScriptRaised(d) => StartResult(w1.(startEnabled := true), LaunchRaised(d))
  }

  /** The classification ignores letter case: an error text and its
      lower-case form are classified alike. */
  lemma PermissionCaseBlind(stderr: string)
    ensures PermissionProblem(Lower(stderr)) == PermissionProblem(stderr)
  {
    LowerIdempotent(stderr);
  }

  /** A failure never leaves the window stuck: whatever the script did,
      either a monitor runs or Start can be pressed again, unless the
      workflow could not be read. */
  lemma NeverStuck(w: AutoWindow, field: string, demosDir: string, workflow: string, script: ScriptOutcome)
    requires Strip(field) != []
    ensures var r := StartBuild(w, field, demosDir, Some(workflow), script);
            r.window.startEnabled || r.window.monitorsStarted == w.monitorsStarted + 1
  {
  }

  /** The widget state the manual front end's prompt action touches. */
  datatype ManualWindow = ManualWindow(
    originalUrl: Option<string>,
    prompt: Option<Prompt>,
    copyEnabled: bool,
    monitorEnabled: bool)

  datatype PromptNotice = PromptUrlMissing | PromptWorkflowUnreadable(error: string) | PromptShown

  datatype PromptResult = PromptResult(window: ManualWindow, notice: PromptNotice)

  /** `generate_prompt`. An address that is empty once stripped only warns
      and changes nothing. Otherwise the stripped address is kept; when the
      workflow can be read, the new-site prompt is shown and the copy and
      monitor buttons are enabled. */
  function GeneratePrompt(w: ManualWindow, field: string, demosDir: string, workflow: Option<string>): (r: PromptResult)
    ensures Strip(field) == [] <==> r.notice == PromptUrlMissing
    ensures r.notice == PromptUrlMissing ==> r.window == w
    ensures r.notice != PromptUrlMissing ==> r.window.originalUrl == Some(Strip(field))
    ensures r.notice.PromptWorkflowUnreadable? ==>
              r.window == w.(originalUrl := Some(Strip(field))) && r.notice.error == MissingFile(WorkflowPath(demosDir))
    ensures r.notice == PromptShown <==> Strip(field) != [] && workflow.Some?
    ensures r.notice == PromptShown ==>
              r.window == ManualWindow(Some(Strip(field)), Some(NewSitePrompt(Strip(field), workflow.value)), true, true)
  {
    var url := Strip(field);
    if url == [] then PromptResult(w, PromptUrlMissing)
    else
      var w1 := w.(originalUrl := Some(url));
      match workflow
      case None => PromptResult(w1, PromptWorkflowUnreadable(MissingFile(WorkflowPath(demosDir))))
      case Some(text) =>
        PromptResult(w1.(prompt := Some(NewSitePrompt(url, text)), copyEnabled := true, monitorEnabled := true), PromptShown)
  }

  /** Generating twice from the same field and workflow ends in the same
      window as generating once. */
  lemma GenerateIdempotent(w: ManualWindow, field: string, demosDir: string, workflow: Option<string>)
    ensures var once := GeneratePrompt(w, field, demosDir, workflow);
            GeneratePrompt(once.window, field, demosDir, workflow) == once
  {
  }

  /** Both front ends accept exactly the same address fields and keep the
      same address. */
  lemma SameValidation(aw: AutoWindow, mw: ManualWindow, field: string, demosDir: string, workflow: Option<string>, script: ScriptOutcome)
    ensures var a := StartBuild(aw, field, demosDir, workflow, script);
            var m := GeneratePrompt(mw, field, demosDir, workflow);
            && (a.notice == UrlMissing <==> m.notice == PromptUrlMissing)
            && (a.notice != UrlMissing ==> a.window.originalUrl == m.window.originalUrl)
  {
  }
}

/** Shared vocabulary of the demo-website builder model: optional values,
    the signals a worker sends to the window, directory listings, and the
    fixed constants the four front ends agree on. */
module Common {

  datatype Option<+T> = None | Some(value: T) {
    function GetOr(default: T): T {
      match this
      case Some(v) => v
      case None => default
    }
  }

  /** What a worker thread reports to the window: a log line, the
      finished(project, url) signal, or the error(message) signal. */
  datatype Signal = Log(text: string) | Finished(project: string, url: string) | Failed(message: string)
  {
    predicate IsTerminal() { Finished? || Failed? }
  }

  /** Number of terminal signals (finished or error) in a stream. */
  function TerminalCount(s: seq<Signal>): nat
  {
    if s == [] then 0
    else (if s[0].IsTerminal() then 1 else 0) + TerminalCount(s[1..])
  }

  lemma {:induction false} TerminalCountAppend(a: seq<Signal>, b: seq<Signal>)
    ensures TerminalCount(a + b) == TerminalCount(a) + TerminalCount(b)
  {
    if a == [] {
      assert a + b == b;
    } else {
      assert (a + b)[1..] == a[1..] + b;
      TerminalCountAppend(a[1..], b);
    }
  }

  /** A stream of log lines only has no terminal signal. */
  predicate AllLogs(s: seq<Signal>) { forall i :: 0 <= i < |s| ==> s[i].Log? }

  lemma {:induction false} AllLogsNoTerminal(s: seq<Signal>)
    requires AllLogs(s)
    ensures TerminalCount(s) == 0
  {
    if s != [] {
      assert AllLogs(s[1..]);
      AllLogsNoTerminal(s[1..]);
    }
  }

  /** One entry of a directory listing: its name, whether it is a
      directory, and the time stamp the caller asks for (change time in the
      monitor, modification time in the command-line front end). Time
      stamps are abstract integers compared with `>`. */
  datatype Entry = Entry(name: string, isDir: bool, time: int)

  /** The directory every front end keeps out of the project list. */
  const Reserved: string := "template"

  /** Where the site-building workflow lives, inside the reserved
      directory. */
  function WorkflowPath(demosDir: string): string
  {
    demosDir + "/" + Reserved + "/WORKFLOW.md"
  }

  /** The preview address every front end reports. */
  const PreviewUrl: string := "http://localhost:4321"

  /** A listed entry counts as a project when it is a directory other than
      the reserved one. */
  predicate IsProject(e: Entry) { e.isDir && e.name != Reserved }

  function ProjectNames(listing: seq<Entry>): (names: set<string>)
    ensures forall e :: e in listing && IsProject(e) ==> e.name in names
    ensures forall n :: n in names ==> exists e :: e in listing && IsProject(e) && e.name == n
    ensures Reserved !in names
  {
    set e | e in listing && IsProject(e) :: e.name
  }

  /** What a build is asked to do: the original site's address, and for a
      follow-up the change request and the project it applies to. */
  datatype Request = Request(url: string, changeRequest: Option<string>, projectName: Option<string>)

  /** Which opening prompt a run sends: a new site built from the address
      and the workflow text, or a change to the project at a path. The
      prompt texts themselves are not modelled. */
  datatype Prompt = NewSitePrompt(url: string, workflow: string) | ChangePrompt(request: string, projectPath: string)

  /** Python truthiness of an optional string: present and non-empty. */
  predicate Truthy(s: Option<string>)
  {
    s.Some? && s.value != []
  }

  /** `Path(dir) / name` rendered as text: an absolute name replaces the
      directory and an empty name leaves it as it is. */
  function JoinPath(dir: string, name: string): string
  {
    if name == [] then dir
    else if name[0] == '/' then name
    else dir + "/" + name
  }

  datatype PromptChoice = Chosen(prompt: Prompt) | PromptRaised(message: string)

  /** The `TypeError` of `Path / None`. */
  const PathNoneError: string := "unsupported operand type(s) for /: 'PosixPath' and 'NoneType'"

  /** The prompt variant: a truthy change request selects the change
      prompt naming the project's directory (and fails when there is no
      project name); anything else selects the new-site prompt. */
  function ChoosePrompt(req: Request, demosDir: string, workflow: string): (r: PromptChoice)
    ensures r.PromptRaised? <==> Truthy(req.changeRequest) && req.projectName.None?
    ensures r.PromptRaised? ==> r.message == PathNoneError
    ensures r.Chosen? ==> (r.prompt.ChangePrompt? <==> Truthy(req.changeRequest))
    ensures r.Chosen? && r.prompt.ChangePrompt? ==>
              r.prompt == ChangePrompt(req.changeRequest.value, JoinPath(demosDir, req.projectName.value))
    ensures !Truthy(req.changeRequest) ==> r == Chosen(NewSitePrompt(req.url, workflow))
  {
    if Truthy(req.changeRequest) then
      match req.projectName
      case None => PromptRaised(PathNoneError)
      case Some(name) => Chosen(ChangePrompt(req.changeRequest.value, JoinPath(demosDir, name)))
    else Chosen(NewSitePrompt(req.url, workflow))
  }
}

/** Approve-and-deploy, as the four front ends do it (the automated one
    without checking the build's status, the other three with
    `check=True`): build the current project, then publish it to the
    hosting service and report the production addresses found in the
    publisher's output. The confirmation dialog's answer and the outcomes
    of the two commands are inputs. */
module Deploy {
  import opened Common
  import opened Text

  /** An output line that names a production address: it mentions both a
      secure scheme and the hosting service's domain. */
  predicate IsUrlLine(line: string)
  {
    Contains(line, "https://") && Contains(line, "vercel.app")
  }

  /** What one output line contributes: the line stripped, when it names
      an address. */
  function UrlOf(line: string): (u: Option<string>)
  {
    if IsUrlLine(line) then Some(Strip(line)) else None
  }

  /** The values `pick` yields for `lines`, in order, skipping the lines
      it yields nothing for. */
  function Keep(lines: seq<string>, pick: string -> Option<string>): (kept: seq<string>)
    ensures |kept| <= |lines|
  {
    if lines == [] then []
    else (match pick(lines[0]) case Some(u) => [u] case None => []) + Keep(lines[1..], pick)
  }

  lemma {:induction false} KeepMembership(lines: seq<string>, pick: string -> Option<string>, u: string)
    ensures u in Keep(lines, pick) <==> exists l :: l in lines && pick(l) == Some(u)
  {
    if lines != [] {
      KeepMembership(lines[1..], pick, u);
      assert forall l :: l in lines <==> l == lines[0] || l in lines[1..];
    }
  }

  lemma {:induction false} KeepAppend(a: seq<string>, b: seq<string>, pick: string -> Option<string>)
    ensures Keep(a + b, pick) == Keep(a, pick) + Keep(b, pick)
  {
    if a == [] {
      assert a + b == b;
    } else {
      assert (a + b)[1..] == a[1..] + b;
      KeepAppend(a[1..], b, pick);
    }
  }

  /** The addresses reported for a publisher's standard output: every line
      of `stdout.split('\n')` that names one, stripped, in order. */
  function DeployUrls(stdout: string): (urls: seq<string>)
  {
    Keep(Split(stdout, "\n"), UrlOf)
  }

  /** A text is reported exactly when it is the stripped form of an
      address line of the output. */
  lemma UrlsAreAddressLines(stdout: string, u: string)
    ensures u in DeployUrls(stdout) <==> exists l :: l in Split(stdout, "\n") && IsUrlLine(l) && Strip(l) == u
  {
    KeepMembership(Split(stdout, "\n"), UrlOf, u);
  }

  /** Every reported address still names the address: neither marker
      starts or ends with whitespace, so stripping keeps both. */
  lemma UrlsMentionBoth(stdout: string)
    ensures forall u :: u in DeployUrls(stdout) ==> Contains(u, "https://") && Contains(u, "vercel.app")
  {
    forall u | u in DeployUrls(stdout)
      ensures Contains(u, "https://") && Contains(u, "vercel.app")
    {
      KeepMembership(Split(stdout, "\n"), UrlOf, u);
      var l :| l in Split(stdout, "\n") && UrlOf(l) == Some(u);
      StripKeepsMarkers(l);
    }
  }

  lemma StripKeepsMarkers(l: string)
    requires IsUrlLine(l)
    ensures Contains(Strip(l), "https://") && Contains(Strip(l), "vercel.app")
  {
    StripKeepsMarker(l, "https://");
    StripKeepsMarker(l, "vercel.app");
  }

  /** Stripping keeps either marker: each starts and ends with a
      non-space character. */
  lemma StripKeepsMarker(l: string, marker: string)
    requires marker == "https://" || marker == "vercel.app"
    requires Contains(l, marker)
    ensures Contains(Strip(l), marker)
  {
    if marker == "https://" {
      StripKeeps(l, marker);
    } else {
      StripKeeps(l, marker);
    }
  }

  /** Output joined at a line break reports the addresses of both parts,
      in order. */
  lemma OutputConcat(s1: string, s2: string)
    ensures DeployUrls(s1 + "\n" + s2) == DeployUrls(s1) + DeployUrls(s2)
  {
    SplitAtSeparator(s1, '\n', s2);
    KeepAppend(Split(s1, "\n"), Split(s2, "\n"), UrlOf);
  }

  /** What a command ended with: its exit status and output, or the text
      of the exception raised while starting it. */
  datatype CommandResult = Exited(code: int, stdout: string, stderr: string) | Raised(detail: string)

  /** What a deploy request leads to: nothing without a current project,
      nothing when the dialog is declined, the reported addresses, or the
      error shown, with whether the publish step was started. */
  datatype DeployResult =
    | NoProject
    | Declined
    | Deployed(urls: seq<string>)
    | DeployFailed(message: string, publishStarted: bool)

  /** The automated front end: a non-zero build status raises
      "Build failed: <stderr>" before the publish step; the publish step's
      own status is not checked. */
  function AutoDeploy(current: Option<string>, confirmed: bool, build: CommandResult, publish: CommandResult): (r: DeployResult)
    ensures !Truthy(current) <==> r == NoProject
    ensures Truthy(current) && !confirmed <==> r == Declined
    ensures build.Exited? && build.code != 0 && Truthy(current) && confirmed ==>
              r == DeployFailed("Build failed: " + build.stderr, false)
    ensures r.Deployed? <==>
              Truthy(current) && confirmed && build.Exited? && build.code == 0 && publish.Exited?
    ensures r.Deployed? ==> r.urls == DeployUrls(publish.stdout)
    ensures r.DeployFailed? && r.publishStarted ==> build.Exited? && build.code == 0 && publish.Raised?
  {
    if !Truthy(current) then NoProject
    else if !confirmed then Declined
    else
      match build
      case Raised(d) => DeployFailed(d, false)
      case Exited(code, _, stderr) =>
        if code != 0 then DeployFailed("Build failed: " + stderr, false)
        else
          match publish
          case Raised(d) => DeployFailed(d, true)
          case Exited(_, stdout, _) => Deployed(DeployUrls(stdout))
  }

  /** The text of the `CalledProcessError` a checked build raises. A build
      killed by a signal is described by the signal's number. */
  function CheckedBuildError(code: int): string
  {
    if code >= 0 then "Command '['npm', 'run', 'build']' returned non-zero exit status " + NatToString(code) + "."
    else "Command '['npm', 'run', 'build']' died with signal " + NatToString(-code) + "."
  }

  /** The manual and command-line front ends: the build runs with
      `check=True`, so a non-zero status raises `CalledProcessError`
      before the publish step. */
  function CheckedDeploy(current: Option<string>, confirmed: bool, build: CommandResult, publish: CommandResult): (r: DeployResult)
    ensures !Truthy(current) <==> r == NoProject
    ensures Truthy(current) && !confirmed <==> r == Declined
    ensures build.Exited? && build.code != 0 && Truthy(current) && confirmed ==>
              r == DeployFailed(CheckedBuildError(build.code), false)
    ensures r.Deployed? <==>
              Truthy(current) && confirmed && build.Exited? && build.code == 0 && publish.Exited?
    ensures r.Deployed? ==> r.urls == DeployUrls(publish.stdout)
  {
    if !Truthy(current) then NoProject
    else if !confirmed then Declined
    else
      match build
      case Raised(d) => DeployFailed(d, false)
      case Exited(code, _, _) =>
        if code != 0 then DeployFailed(CheckedBuildError(code), false)
        else
          match publish
          case Raised(d) => DeployFailed(d, true)
          case Exited(_, stdout, _) => Deployed(DeployUrls(stdout))
  }

  /** A failed build never reaches the publisher: the result is the same
      whatever the publish step would have done. */
  lemma BuildFailureSkipsPublish(current: Option<string>, confirmed: bool, build: CommandResult, p1: CommandResult, p2: CommandResult)
    requires build.Raised? || build.code != 0
    ensures AutoDeploy(current, confirmed, build, p1) == AutoDeploy(current, confirmed, build, p2)
    ensures CheckedDeploy(current, confirmed, build, p1) == CheckedDeploy(current, confirmed, build, p2)
    ensures !AutoDeploy(current, confirmed, build, p1).Deployed? && !CheckedDeploy(current, confirmed, build, p1).Deployed?
  {
  }

  /** The two front ends differ only in the text of a failed build. */
  lemma FrontEndsAgree(current: Option<string>, confirmed: bool, build: CommandResult, publish: CommandResult)
    requires build.Raised? || build.code == 0
    ensures AutoDeploy(current, confirmed, build, publish) == CheckedDeploy(current, confirmed, build, publish)
  {
  }
}

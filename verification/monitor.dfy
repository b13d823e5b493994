/** The completion monitor of the two window front ends: a thread that
    snapshots the demos directory, then every two seconds looks for a
    project directory that is new and was created after it started, and
    once it has one, probes the preview port until a server answers. The
    directory listings, the time stamps and the port probe are inputs; a
    run is a sequence of ticks and stop requests. */
module Monitor {
  import opened Common

  /** What the thread reports: its opening banner (naming the ignored
      projects), a newly detected project, the start of its dev server,
      the one-time waiting notice, and the found(project, url) signal. */
  datatype MonitorEvent =
    | Banner(ignored: set<string>)
    | NewProjectDetected(name: string)
    | DevServerStarted(name: string)
    | WaitingForDevServer
    | ProjectFound(name: string, url: string)

  /** The thread's state: the names it ignores (the snapshot plus the
      project it adopted), its start time, the adopted project, the
      `running` flag and whether the waiting notice was given. */
  datatype MonitorState = MonitorState(
    initial: set<string>,
    startTime: int,
    adopted: Option<string>,
    running: bool,
    waitingLogged: bool)

  /** What one tick sees: the listing of the demos directory (absent when
      the directory does not exist) and whether the preview port is bound. */
  datatype Observation = Observation(listing: Option<seq<Entry>>, portBound: bool)

  /** A tick of the polling loop, or a call to `stop()` from the window.
      A stop that arrives while a tick sleeps comes after that tick here:
      the tick has already passed the `running` check and completes. */
  datatype MonitorInput = Tick(obs: Observation) | Stop

  datatype Outcome = Outcome(state: MonitorState, events: seq<MonitorEvent>)

  /** The project names of a listing, or none when the directory is
      missing. */
  function Snapshot(listing: Option<seq<Entry>>): (names: set<string>)
    ensures listing.None? ==> names == {}
    ensures listing.Some? ==> forall n :: n in names <==> exists e :: e in listing.value && IsProject(e) && e.name == n
  {
    match listing
    case None => {}
    case Some(l) => ProjectNames(l)
  }

  /** `run` up to its loop: the snapshot taken at `startTime` (the time
      the thread object was created) and the banner. */
  function Begin(startTime: int, listing: Option<seq<Entry>>): (r: Outcome)
    ensures r.state == MonitorState(Snapshot(listing), startTime, None, true, false)
    ensures r.events == [Banner(Snapshot(listing))]
  {
    var snapshot := Snapshot(listing);
    Outcome(MonitorState(snapshot, startTime, None, true, false), [Banner(snapshot)])
  }

  /** An entry the thread may adopt: a project directory it does not
      ignore, changed after the thread started. */
  predicate Adoptable(st: MonitorState, e: Entry)
  {
    IsProject(e) && e.name !in st.initial && e.time > st.startTime
  }

  /** The project the search loop stops at: the first adoptable entry in
      iteration order. The listing order stands for the iteration order of
      the set of new names, which Python does not fix. */
  function FirstAdoptable(st: MonitorState, listing: seq<Entry>): (r: Option<Entry>)
    ensures r.None? <==> forall e :: e in listing ==> !Adoptable(st, e)
    ensures r.Some? ==> r.value in listing && Adoptable(st, r.value)
  {
    if listing == [] then None
    else if Adoptable(st, listing[0]) then Some(listing[0])
    else FirstAdoptable(st, listing[1..])
  }

  /** The port probe once a project is adopted: a bound port reports the
      project and ends the thread; otherwise the waiting notice is given
      the first time only. */
  function Probe(st: MonitorState, name: string, portBound: bool): (r: Outcome)
  {
    if portBound then
      Outcome(st.(running := false), [DevServerStarted(name), ProjectFound(name, PreviewUrl)])
    else if st.waitingLogged then Outcome(st, [])
    else Outcome(st.(waitingLogged := true), [WaitingForDevServer])
  }

  /** One pass of the loop body after the sleep. A missing directory skips
      the pass, probe included. Without an adopted project it adopts the
      first adoptable entry, if any, and ignores its name from then on;
      with one it probes the port. */
  function Poll(st: MonitorState, obs: Observation): (r: Outcome)
    ensures obs.listing.None? ==> r == Outcome(st, [])
    ensures r.state.startTime == st.startTime
    ensures st.adopted.Some? ==> r.state.adopted == st.adopted && r.state.initial == st.initial
    ensures st.adopted.None? && r.state.adopted.Some? ==>
              && obs.listing.Some?
              && (exists e :: e in obs.listing.value && Adoptable(st, e) && e.name == r.state.adopted.value)
              && r.state.initial == st.initial + {r.state.adopted.value}
              && |r.events| > 0 && r.events[0] == NewProjectDetected(r.state.adopted.value)
    ensures st.adopted.None? && obs.listing.Some? ==>
              (r.state.adopted.Some? <==> exists e :: e in obs.listing.value && Adoptable(st, e))
    ensures r.state.adopted.None? ==> r.events == [] && r.state == st
    ensures forall i :: 0 <= i < |r.events| && r.events[i].ProjectFound? ==>
              r.state.adopted.Some? && r.events[i] == ProjectFound(r.state.adopted.value, PreviewUrl) && !r.state.running
              && i == |r.events| - 1
    ensures r.state.adopted.Some? && obs.listing.Some? && obs.portBound ==>
              |r.events| > 0 && r.events[|r.events| - 1] == ProjectFound(r.state.adopted.value, PreviewUrl)
    ensures r.state.running == (st.running && !(r.state.adopted.Some? && obs.listing.Some? && obs.portBound))
    ensures r.state.waitingLogged == (st.waitingLogged || (r.state.adopted.Some? && obs.listing.Some? && !obs.portBound))
  {
    match obs.listing
    case None => Outcome(st, [])
    case Some(listing) =>
      match st.adopted
      case Some(name) => Probe(st, name, obs.portBound)
      case None =>
        match FirstAdoptable(st, listing)
        case None => Outcome(st, [])
        case Some(e) =>
          var st' := st.(adopted := Some(e.name), initial := st.initial + {e.name});
          var probe := Probe(st', e.name, obs.portBound);
          Outcome(probe.state, [NewProjectDetected(e.name)] + probe.events)
  }

  /** Feeds one input to the thread: a tick runs only while the thread is
      running; `stop()` clears the flag. */
  function Feed(st: MonitorState, input: MonitorInput): Outcome
  {
    match input
    case Stop => Outcome(st.(running := false), [])
    case Tick(obs) => if st.running then Poll(st, obs) else Outcome(st, [])
  }

  /** Number of found signals in a stream of events. */
  function FoundCount(events: seq<MonitorEvent>): nat
  {
    if events == [] then 0
    else (if events[0].ProjectFound? then 1 else 0) + FoundCount(events[1..])
  }

  /** Number of waiting notices in a stream of events. */
  function WaitingCount(events: seq<MonitorEvent>): nat
  {
    if events == [] then 0
    else (if events[0].WaitingForDevServer? then 1 else 0) + WaitingCount(events[1..])
  }

  lemma {:induction false} CountsAppend(a: seq<MonitorEvent>, b: seq<MonitorEvent>)
    ensures FoundCount(a + b) == FoundCount(a) + FoundCount(b)
    ensures WaitingCount(a + b) == WaitingCount(a) + WaitingCount(b)
  {
    if a == [] {
      assert a + b == b;
    } else {
      assert (a + b)[1..] == a[1..] + b;
      CountsAppend(a[1..], b);
    }
  }

  /** The thread over a sequence of inputs. A stopped thread produces
      nothing more; a project is reported at most once, and only as the
      last event; the waiting notice appears at most once over the
      thread's life; an adopted project is never replaced. */
  function Run(st: MonitorState, inputs: seq<MonitorInput>): (r: Outcome)
    ensures !st.running ==> r == Outcome(st, [])
    ensures r.state.startTime == st.startTime
    ensures st.adopted.Some? ==> r.state.adopted == st.adopted && r.state.initial == st.initial
    ensures FoundCount(r.events) <= 1
    ensures FoundCount(r.events) == 1 ==> !r.state.running
    ensures WaitingCount(r.events) <= (if st.waitingLogged then 0 else 1)
    ensures r.state.adopted.None? ==> r.events == [] && r.state.initial == st.initial
    decreases |inputs|
  {
    if inputs == [] then Outcome(st, [])
    else
      var first := Feed(st, inputs[0]);
      var rest := Run(first.state, inputs[1..]);
      CountsAppend(first.events, rest.events);
      FeedCounts(st, inputs[0]);
      Outcome(rest.state, first.events + rest.events)
  }

  /** Every report names the adopted project with the preview address and
      is the last event. */
  predicate ReportsAdopted(r: Outcome)
  {
    forall i :: 0 <= i < |r.events| && r.events[i].ProjectFound? ==>
      && r.state.adopted.Some?
      && r.events[i] == ProjectFound(r.state.adopted.value, PreviewUrl)
      && i == |r.events| - 1
  }

  lemma {:induction false} RunReports(st: MonitorState, inputs: seq<MonitorInput>)
    ensures ReportsAdopted(Run(st, inputs))
    decreases |inputs|
  {
    if inputs != [] {
      var first := Feed(st, inputs[0]);
      var rest := Run(first.state, inputs[1..]);
      RunReports(first.state, inputs[1..]);
      var events := first.events + rest.events;
      assert Run(st, inputs) == Outcome(rest.state, events);
      forall i | 0 <= i < |events| && events[i].ProjectFound?
        ensures rest.state.adopted.Some? && events[i] == ProjectFound(rest.state.adopted.value, PreviewUrl)
        ensures i == |events| - 1
      {
        if i < |first.events| {
          assert inputs[0].Tick? && st.running;
          assert first == Poll(st, inputs[0].obs);
          assert rest == Outcome(first.state, []);
          assert events == first.events;
        } else {
          assert rest.events[i - |first.events|] == events[i];
        }
      }
    }
  }

  /** The counts of a single input: at most one report, after which the
      thread is stopped, and a waiting notice only when none was given. */
  lemma FeedCounts(st: MonitorState, input: MonitorInput)
    ensures var f := Feed(st, input);
            && FoundCount(f.events) <= 1
            && (FoundCount(f.events) == 1 ==> !f.state.running)
            && WaitingCount(f.events) <= (if st.waitingLogged then 0 else 1)
            && (WaitingCount(f.events) == 1 ==> f.state.waitingLogged)
            && (st.waitingLogged ==> f.state.waitingLogged)
  {
    match input
    case Stop =>
    case Tick(obs) =>
      if st.running && obs.listing.Some? {
        match st.adopted
        case Some(name) =>
          ProbeCounts(st, name, obs.portBound);
        case None =>
          match FirstAdoptable(st, obs.listing.value)
          case None =>
          case Some(e) =>
            var st' := st.(adopted := Some(e.name), initial := st.initial + {e.name});
            ProbeCounts(st', e.name, obs.portBound);
            CountsAppend([NewProjectDetected(e.name)], Probe(st', e.name, obs.portBound).events);
      }
  }

  /** The counts of a probe: a report exactly when the port is bound, a
      waiting notice exactly when it is not and none was given. */
  lemma ProbeCounts(st: MonitorState, name: string, portBound: bool)
    ensures var p := Probe(st, name, portBound);
            && FoundCount(p.events) == (if portBound then 1 else 0)
            && WaitingCount(p.events) == (if !portBound && !st.waitingLogged then 1 else 0)
            && p.state.running == (st.running && !portBound)
            && p.state.waitingLogged == (st.waitingLogged || !portBound)
  {
    var p := Probe(st, name, portBound);
    if portBound {
      assert p.events[1..] == [ProjectFound(name, PreviewUrl)];
      assert p.events[1..][1..] == [];
      assert FoundCount(p.events[1..]) == 1 && WaitingCount(p.events[1..]) == 0;
    } else if !st.waitingLogged {
      assert p.events[1..] == [];
      assert WaitingCount(p.events[1..]) == 0 && FoundCount(p.events[1..]) == 0;
    }
  }

  /** What the two front ends' monitor reports: every reported project is
      the adopted one, which was new when adopted: it was neither in the
      snapshot taken at the start nor ignored later. */
  predicate Faithful(snapshot: set<string>, st: MonitorState)
  {
    && snapshot <= st.initial
    && (st.adopted.Some? ==> st.adopted.value !in snapshot && st.adopted.value in st.initial)
  }

  lemma {:induction false} RunKeepsFaithful(snapshot: set<string>, st: MonitorState, inputs: seq<MonitorInput>)
    requires Faithful(snapshot, st)
    ensures Faithful(snapshot, Run(st, inputs).state)
    decreases |inputs|
  {
    if inputs != [] {
      RunKeepsFaithful(snapshot, Feed(st, inputs[0]).state, inputs[1..]);
    }
  }

  /** A project present when the thread started is never reported, and a
      report always carries the preview address. */
  lemma NeverReportsExisting(startTime: int, listing: Option<seq<Entry>>, inputs: seq<MonitorInput>)
    ensures var begin := Begin(startTime, listing);
            var r := Run(begin.state, inputs);
            forall i :: 0 <= i < |r.events| && r.events[i].ProjectFound? ==>
              r.events[i].name !in Snapshot(listing) && r.events[i].url == PreviewUrl
  {
    var begin := Begin(startTime, listing);
    RunKeepsFaithful(Snapshot(listing), begin.state, inputs);
    RunReports(begin.state, inputs);
  }

  /** After `stop()` at a loop head no tick runs and nothing is reported. */
  lemma StopSilences(st: MonitorState, rest: seq<MonitorInput>)
    ensures Run(st, [Stop] + rest).events == []
  {
    assert ([Stop] + rest)[1..] == rest;
  }

  /** A stop that arrives while a tick sleeps does not cancel that tick:
      it still completes, and can still report its project. */
  lemma StopDuringSleep(st: MonitorState, obs: Observation, rest: seq<MonitorInput>)
    requires st.running
    ensures Run(st, [Tick(obs), Stop] + rest).events == Poll(st, obs).events
  {
    var ins := [Tick(obs), Stop] + rest;
    assert ins[1..] == [Stop] + rest;
    StopSilences(Poll(st, obs).state, rest);
  }

  /** The search loop depends on the set's iteration order: any adoptable
      entry of a listing is the one adopted under some order of the same
      entries. */
  lemma AnyNewProjectMayBeAdopted(st: MonitorState, listing: seq<Entry>, i: int)
    requires st.running && st.adopted.None?
    requires 0 <= i < |listing| && Adoptable(st, listing[i])
    ensures var reordered := [listing[i]] + listing[..i] + listing[i + 1..];
            && multiset(reordered) == multiset(listing)
            && Poll(st, Observation(Some(reordered), false)).state.adopted == Some(listing[i].name)
  {
    var reordered := [listing[i]] + listing[..i] + listing[i + 1..];
    assert listing == listing[..i] + [listing[i]] + listing[i + 1..];
  }

  /** Entries changed no later than the start, or ignored, are never
      adopted, whatever the port does. */
  lemma StaleNeverAdopted(st: MonitorState, listing: seq<Entry>, portBound: bool)
    requires st.adopted.None?
    requires forall e :: e in listing && IsProject(e) ==> e.name in st.initial || e.time <= st.startTime
    ensures Poll(st, Observation(Some(listing), portBound)) == Outcome(st, [])
  {
  }

  /** Two projects exist when the thread starts; a third is created later.
      The first tick adopts it while its server is not up yet, the second
      reports it, and the thread has ended before the third. */
  lemma ThirdProjectScenario()
    ensures var a, b, t := Entry("a", true, 0), Entry("b", true, 0), Entry("template", true, 0);
            var c := Entry("c", true, 5);
            var begin := Begin(1, Some([a, t, b]));
            var r := Run(begin.state, [Tick(Observation(Some([a, b, c, t]), false)),
                                       Tick(Observation(Some([a, b, c, t]), true)),
                                       Tick(Observation(Some([a, b, c, t]), true))]);
            && begin.events == [Banner({"a", "b"})]
            && r.events == [NewProjectDetected("c"), WaitingForDevServer,
                            DevServerStarted("c"), ProjectFound("c", PreviewUrl)]
  {
    var a, b, t := Entry("a", true, 0), Entry("b", true, 0), Entry("template", true, 0);
    var c := Entry("c", true, 5);
    var listing := [a, b, c, t];
    var s0 := ScenarioStart(a, b, t);
    var s1 := ScenarioAdopts(s0, listing, a, b, c, t);
    ScenarioFinds(s1, listing);
    ThreeTicks(s0, s1, Observation(Some(listing), false), Observation(Some(listing), true),
               [NewProjectDetected("c"), WaitingForDevServer], [DevServerStarted("c"), ProjectFound("c", PreviewUrl)]);
  }

  lemma ScenarioFinds(s1: MonitorState, listing: seq<Entry>)
    requires s1 == MonitorState({"a", "b", "c"}, 1, Some("c"), true, true)
    ensures Poll(s1, Observation(Some(listing), true)) == Outcome(s1.(running := false), [DevServerStarted("c"), ProjectFound("c", PreviewUrl)])
  {
  }

  /** Three ticks where the first leaves the thread running and the second
      stops it: the third does nothing. */
  lemma ThreeTicks(s0: MonitorState, s1: MonitorState, o1: Observation, o2: Observation, e1: seq<MonitorEvent>, e2: seq<MonitorEvent>)
    requires s0.running && s1.running
    requires Poll(s0, o1) == Outcome(s1, e1) && Poll(s1, o2) == Outcome(s1.(running := false), e2)
    ensures Run(s0, [Tick(o1), Tick(o2), Tick(o2)]).events == e1 + e2
  {
    var s2 := s1.(running := false);
    RunCons(s2, Tick(o2), []);
    RunCons(s1, Tick(o2), [Tick(o2)]);
    RunCons(s0, Tick(o1), [Tick(o2), Tick(o2)]);
    assert e2 + [] == e2;
  }

  lemma ScenarioStart(a: Entry, b: Entry, t: Entry) returns (s0: MonitorState)
    requires a == Entry("a", true, 0) && b == Entry("b", true, 0) && t == Entry("template", true, 0)
    ensures Begin(1, Some([a, t, b])) == Outcome(s0, [Banner({"a", "b"})])
    ensures s0 == MonitorState({"a", "b"}, 1, None, true, false)
  {
    assert IsProject(a) && IsProject(b) && !IsProject(t);
    assert Snapshot(Some([a, t, b])) == {"a", "b"};
    s0 := MonitorState({"a", "b"}, 1, None, true, false);
  }

  lemma ScenarioAdopts(s0: MonitorState, listing: seq<Entry>, a: Entry, b: Entry, c: Entry, t: Entry) returns (s1: MonitorState)
    requires a == Entry("a", true, 0) && b == Entry("b", true, 0) && t == Entry("template", true, 0)
    requires c == Entry("c", true, 5) && listing == [a, b, c, t]
    requires s0 == MonitorState({"a", "b"}, 1, None, true, false)
    ensures s1 == MonitorState({"a", "b", "c"}, 1, Some("c"), true, true)
    ensures Poll(s0, Observation(Some(listing), false)) == Outcome(s1, [NewProjectDetected("c"), WaitingForDevServer])
  {
    assert !Adoptable(s0, a) && !Adoptable(s0, b) && Adoptable(s0, c);
    assert FirstAdoptable(s0, listing) == Some(c) by {
      assert listing[1..][1..] == [c, t];
    }
    s1 := MonitorState({"a", "b", "c"}, 1, Some("c"), true, true);
  }

  lemma RunCons(st: MonitorState, input: MonitorInput, rest: seq<MonitorInput>)
    ensures Run(st, [input] + rest).events == Feed(st, input).events + Run(Feed(st, input).state, rest).events
    ensures Run(st, [input] + rest).state == Run(Feed(st, input).state, rest).state
  {
    assert ([input] + rest)[1..] == rest;
  }
}

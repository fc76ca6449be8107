/** FlatMapRunner: registers named stages, then runs them once, in
    registration order, between the overwrite check and the sort/write
    phase. The file system and the collaborators (readers, node store,
    feature sort, mbtiles writer) are abstracted: whether the output exists
    is a parameter of Run, and every effect is an event appended to `trace`. */
module Runner {
  import opened Wrappers

  type Path = string

  /** Path.resolve. */
  function Resolve(dir: Path, name: string): Path {
    dir + "/" + name
  }

  /** The parsed arguments as far as the runner reads them: file arguments by
      key, and the force flag that CommonParams derives from them. */
  datatype Arguments = Arguments(files: map<string, Path>, forceOverwrite: bool)

  /** Arguments.file / Arguments.inputFile: the argument if given, else the default. */
  function FileArgument(args: Arguments, key: string, default: Path): Path {
    if key in args.files then args.files[key] else default
  }

  datatype CommonParams = CommonParams(forceOverwrite: bool)

  datatype Profile = Profile(caresAboutSource: string -> bool)

  /** The body of a stage: a reader, or caller-supplied work. */
  datatype Work =
    | Custom(id: string)
    | OsmReader(name: string, path: Path)
    | ShapefileReader(projection: Option<string>, name: string, path: Path)
    | NaturalEarthReader(name: string, path: Path, tmpDb: Path)

  /** A registered task: run as is, or guarded by ifSourceUsed (the body runs
      only if the profile cares about the source). */
  datatype Task = Plain(work: Work) | SourceGuarded(source: string, body: Work)

  datatype Stage = Stage(name: string, task: Task)

  /** One line of the phase listing: a sub-stage name and its description. */
  datatype PhaseLine = PhaseLine(substage: string, description: string)

  datatype Event =
    | DeleteOutput(path: Path)
    | AnnouncePhases(lines: seq<PhaseLine>)
    | CreateDirectories(dir: Path)
    | OpenNodeDb(path: Path)
    | OpenFeatureDb(path: Path)
    | Performed(work: Work)
    | OsmPass1(name: string)
    | OsmPass2(name: string)
    | ReleaseProfile
    | DeleteNodeDb(path: Path)
    | SortFeatures
    | WriteOutput(path: Path)

  datatype RunError =
    | DuplicateStageName(name: string)
    | NoProfile
    | NoOutput
    | NoSources
    | AlreadyRan
    | OutputExists(path: Path)
    | StageFailed(name: string)

  datatype ExceptionKind = IllegalArgument | IllegalState | ThrownByStage

  /** The exception class and message the source throws for each error. */
  function ExceptionOf(e: RunError): (r: (ExceptionKind, string))
    ensures r.0 == IllegalArgument <==> e.DuplicateStageName? || e.OutputExists?
    ensures r.0 == IllegalState <==> e.NoProfile? || e.NoOutput? || e.NoSources? || e.AlreadyRan?
  {
    match e
    case DuplicateStageName(name) => (IllegalArgument, "Duplicate stage name: " + name)
    case NoProfile => (IllegalState, "No profile specified")
    case NoOutput => (IllegalState, "No output specified")
    case NoSources => (IllegalState, "No sources specified")
    case AlreadyRan => (IllegalState, "Can only run once")
    case OutputExists(path) => (IllegalArgument, path + " already exists, use force to overwrite.")
    case StageFailed(_) => (ThrownByStage, "")
  }

  const OsmPass1Description := "Pre-process OpenStreetMap input (store node locations then relation members)"
  const OsmPass2Description := "Process OpenStreetMap nodes, ways, then relations"
  const SortDescription := "Sort rendered features by tile ID"

  function OsmSubStages(name: string): seq<string> {
    [name + "_pass1", name + "_pass2"]
  }

  // ---- Stage registry ----

  function StageNames(ss: seq<Stage>): (names: seq<string>)
    ensures |names| == |ss| && forall i :: 0 <= i < |ss| ==> names[i] == ss[i].name
  {
    seq(|ss|, i requires 0 <= i < |ss| => ss[i].name)
  }

  predicate DistinctNames(ss: seq<Stage>) {
    forall i, j :: 0 <= i < j < |ss| ==> ss[i].name != ss[j].name
  }

  // ---- Phase listing ----

  /** subStages.getOrDefault(stage, List.of(stage)). */
  function SubStagesOf(subStages: map<string, seq<string>>, stage: string): seq<string> {
    if stage in subStages then subStages[stage] else [stage]
  }

  function SubStageLines(subs: seq<string>, descriptions: map<string, string>): (lines: seq<PhaseLine>)
    ensures |lines| == |subs|
    decreases |subs|
  {
    if subs == [] then []
    else
      var last := subs[|subs| - 1];
      SubStageLines(subs[..|subs| - 1], descriptions)
        + [PhaseLine(last, if last in descriptions then descriptions[last] else "")]
  }

  function PhaseLines(ss: seq<Stage>, subStages: map<string, seq<string>>, descriptions: map<string, string>): seq<PhaseLine>
    decreases |ss|
  {
    if ss == [] then []
    else
      PhaseLines(ss[..|ss| - 1], subStages, descriptions)
        + SubStageLines(SubStagesOf(subStages, ss[|ss| - 1].name), descriptions)
  }

  lemma {:induction false} SubStageLinesAt(subs: seq<string>, descriptions: map<string, string>, j: nat)
    requires j < |subs|
    ensures SubStageLines(subs, descriptions)[j]
         == PhaseLine(subs[j], if subs[j] in descriptions then descriptions[subs[j]] else "")
    decreases |subs|
  {
    if j < |subs| - 1 {
      SubStageLinesAt(subs[..|subs| - 1], descriptions, j);
    }
  }

  /** For every registered stage, each entry of SubStagesOf (the sub-stages
      recorded under its name, or the name itself when none are) is listed
      with its description, empty when it has none. */
  lemma {:induction false} PhaseLinesListEverySubStage(ss: seq<Stage>, subStages: map<string, seq<string>>,
                                                      descriptions: map<string, string>, k: nat, j: nat)
    requires k < |ss| && j < |SubStagesOf(subStages, ss[k].name)|
    ensures var sub := SubStagesOf(subStages, ss[k].name)[j];
      PhaseLine(sub, if sub in descriptions then descriptions[sub] else "") in PhaseLines(ss, subStages, descriptions)
    decreases |ss|
  {
    var last := SubStagesOf(subStages, ss[|ss| - 1].name);
    if k == |ss| - 1 {
      SubStageLinesAt(last, descriptions, j);
      assert SubStageLines(last, descriptions)[j] in SubStageLines(last, descriptions);
    } else {
      assert ss[..|ss| - 1][k] == ss[k];
      PhaseLinesListEverySubStage(ss[..|ss| - 1], subStages, descriptions, k, j);
    }
  }

  // ---- Running stages ----

  /** The events of one unit of work. */
  function WorkEvents(w: Work): seq<Event> {
    match w
    case OsmReader(name, _) => [OsmPass1(name), OsmPass2(name)]
    case _ => [Performed(w)]
  }

  predicate IsWorkEvent(e: Event) {
    e.Performed? || e.OsmPass1? || e.OsmPass2?
  }

  datatype TaskRun = TaskRun(events: seq<Event>, ok: bool)

  /** The unit of work a task runs, guarded or not. */
  function BodyOf(t: Task): Work {
    match t
    case Plain(w) => w
    case SourceGuarded(_, w) => w
  }

  /** Performs the events of a unit of work in order. `failing` holds the
      events that throw: the first of them is the last event performed, it
      fails the work, and no later event starts. */
  function PerformEvents(es: seq<Event>, failing: set<Event>): TaskRun
    decreases |es|
  {
    if es == [] then TaskRun([], true)
    else if es[0] in failing then TaskRun([es[0]], false)
    else
      var rest := PerformEvents(es[1..], failing);
      TaskRun([es[0]] + rest.events, rest.ok)
  }

  /** The events performed are a prefix of the work's events. The work
      succeeds exactly when none of them throws, and then all are performed;
      otherwise the last one performed is the first that throws. */
  lemma {:induction false} PerformEventsPrefix(es: seq<Event>, failing: set<Event>)
    ensures var r := PerformEvents(es, failing);
      && |r.events| <= |es| && r.events == es[..|r.events|]
      && (r.ok <==> forall i :: 0 <= i < |es| ==> es[i] !in failing)
      && (r.ok ==> r.events == es)
      && (!r.ok ==>
            && |r.events| > 0
            && r.events[|r.events| - 1] in failing
            && forall i :: 0 <= i < |r.events| - 1 ==> r.events[i] !in failing)
    decreases |es|
  {
    if es != [] && es[0] !in failing {
      var rest := es[1..];
      PerformEventsPrefix(rest, failing);
      var r := PerformEvents(rest, failing);
      assert forall i :: 0 < i < |es| ==> es[i] == rest[i - 1];
      assert forall i :: 0 < i < |r.events| + 1 ==> ([es[0]] + r.events)[i] == r.events[i - 1];
    }
  }

  /** Runs a task, as RunTaskEvents states. */
  function RunTask(t: Task, p: Profile, failing: set<Event>): TaskRun {
    match t
    case Plain(w) => PerformEvents(WorkEvents(w), failing)
    case SourceGuarded(source, w) =>
      if p.caresAboutSource(source) then PerformEvents(WorkEvents(w), failing) else TaskRun([], true)
  }

  /** A guarded task whose source the profile does not care about does
      nothing and succeeds; any other task performs the events of its work,
      stopping at the first one that throws. Either way it performs only
      work events. */
  lemma RunTaskEvents(t: Task, p: Profile, failing: set<Event>)
    ensures var r := RunTask(t, p, failing);
      && (forall i :: 0 <= i < |r.events| ==> IsWorkEvent(r.events[i]))
      && (t.SourceGuarded? && !p.caresAboutSource(t.source) ==> r == TaskRun([], true))
      && (t.Plain? || p.caresAboutSource(t.source) ==> r == PerformEvents(WorkEvents(BodyOf(t)), failing))
  {
    var r := RunTask(t, p, failing);
    if t.Plain? || p.caresAboutSource(t.source) {
      var es := WorkEvents(BodyOf(t));
      PerformEventsPrefix(es, failing);
      assert r == PerformEvents(es, failing);
      assert forall i :: 0 <= i < |r.events| ==> r.events[i] == es[i];
    }
  }

  /** The two passes over an OpenStreetMap file run in order, and the second
      starts only when the first has not thrown. */
  lemma OsmPassesInOrder(name: string, path: Path, p: Profile, failing: set<Event>)
    requires p.caresAboutSource(name)
    ensures var r := RunTask(SourceGuarded(name, OsmReader(name, path)), p, failing);
      && (OsmPass1(name) in failing ==> r == TaskRun([OsmPass1(name)], false))
      && (OsmPass1(name) !in failing ==>
            r == TaskRun([OsmPass1(name), OsmPass2(name)], OsmPass2(name) !in failing))
  {
    var r := RunTask(SourceGuarded(name, OsmReader(name, path)), p, failing);
    RunTaskEvents(SourceGuarded(name, OsmReader(name, path)), p, failing);
    var es := [OsmPass1(name), OsmPass2(name)];
    assert r == PerformEvents(es, failing);
    if OsmPass1(name) !in failing {
      assert es[1..] == [OsmPass2(name)];
      assert PerformEvents([OsmPass2(name)][1..], failing) == TaskRun([], true);
    }
  }

  datatype StagesRun = StagesRun(events: seq<Event>, failed: Option<string>)

  /** Runs the stages in order and stops at the first that throws. */
  function RunStages(ss: seq<Stage>, p: Profile, failing: set<Event>): StagesRun
    decreases |ss|
  {
    if ss == [] then StagesRun([], None)
    else
      var prev := RunStages(ss[..|ss| - 1], p, failing);
      if prev.failed.Some? then prev
      else
        var t := RunTask(ss[|ss| - 1].task, p, failing);
        StagesRun(prev.events + t.events, if t.ok then None else Some(ss[|ss| - 1].name))
  }

  /** Once a stage has failed, later stages change nothing. */
  lemma {:induction false} StageFailureIsFinal(ss: seq<Stage>, p: Profile, failing: set<Event>, k: nat)
    requires k <= |ss| && RunStages(ss[..k], p, failing).failed.Some?
    ensures RunStages(ss, p, failing) == RunStages(ss[..k], p, failing)
    decreases |ss| - k
  {
    if k < |ss| {
      var init := ss[..|ss| - 1];
      assert init[..k] == ss[..k];
      StageFailureIsFinal(init, p, failing, k);
    } else {
      assert ss[..k] == ss;
    }
  }

  /** Concatenation, front to back. */
  function Flatten(xs: seq<seq<Event>>): seq<Event>
    decreases |xs|
  {
    if xs == [] then [] else xs[0] + Flatten(xs[1..])
  }

  lemma {:induction false} FlattenAppend(xs: seq<seq<Event>>, x: seq<Event>)
    ensures Flatten(xs + [x]) == Flatten(xs) + x
    decreases |xs|
  {
    if xs != [] {
      assert (xs + [x])[1..] == xs[1..] + [x];
      FlattenAppend(xs[1..], x);
    }
  }

  /** Each stage's task events, one entry per stage, in registration order. */
  function TaskEventSeqs(ss: seq<Stage>, p: Profile, failing: set<Event>): seq<seq<Event>> {
    seq(|ss|, i requires 0 <= i < |ss| => RunTask(ss[i].task, p, failing).events)
  }

  predicate AllSucceed(ss: seq<Stage>, p: Profile, failing: set<Event>, k: nat)
    requires k <= |ss|
  {
    forall j :: 0 <= j < k ==> RunTask(ss[j].task, p, failing).ok
  }

  /** No stage reports a failure exactly when every stage succeeds. */
  lemma {:induction false} StagesSucceedIff(ss: seq<Stage>, p: Profile, failing: set<Event>)
    ensures RunStages(ss, p, failing).failed.None? <==> AllSucceed(ss, p, failing, |ss|)
    decreases |ss|
  {
    if ss != [] {
      var init := ss[..|ss| - 1];
      StagesSucceedIff(init, p, failing);
      var last := RunTask(ss[|ss| - 1].task, p, failing).ok;
      assert AllSucceed(ss, p, failing, |ss|) <==> AllSucceed(init, p, failing, |init|) && last by {
        assert forall j :: 0 <= j < |init| ==> init[j] == ss[j];
      }
    }
  }

  /** When no stage fails, every stage ran exactly once, in registration
      order, and the events are theirs concatenated. */
  lemma {:induction false} StagesRunInOrder(ss: seq<Stage>, p: Profile, failing: set<Event>)
    requires RunStages(ss, p, failing).failed.None?
    ensures RunStages(ss, p, failing).events == Flatten(TaskEventSeqs(ss, p, failing))
    decreases |ss|
  {
    if ss != [] {
      var init := ss[..|ss| - 1];
      StagesRunInOrder(init, p, failing);
      var t := RunTask(ss[|ss| - 1].task, p, failing);
      assert TaskEventSeqs(ss, p, failing) == TaskEventSeqs(init, p, failing) + [t.events];
      FlattenAppend(TaskEventSeqs(init, p, failing), t.events);
    }
  }

  /** When a stage fails, it is the first stage k that throws: the stages
      before it succeeded, their events and k's are all that happened, and
      no stage after k ran. */
  lemma {:induction false} FirstFailureStops(ss: seq<Stage>, p: Profile, failing: set<Event>, k: nat)
    requires k < |ss| && AllSucceed(ss, p, failing, k) && !RunTask(ss[k].task, p, failing).ok
    ensures RunStages(ss, p, failing).failed == Some(ss[k].name)
    ensures RunStages(ss, p, failing).events
         == Flatten(TaskEventSeqs(ss[..k], p, failing)) + RunTask(ss[k].task, p, failing).events
  {
    var pre := ss[..k];
    assert ss[..k + 1][..k] == pre;
    assert AllSucceed(pre, p, failing, k) by {
      assert forall j :: 0 <= j < k ==> pre[j] == ss[j];
    }
    StagesSucceedIff(pre, p, failing);
    StagesRunInOrder(pre, p, failing);
    StageFailureIsFinal(ss, p, failing, k + 1);
  }

  /** With distinct stage names, which Valid keeps for a runner's stages, the
      name the run reports identifies the one stage that threw. */
  lemma FailedNameIdentifiesStage(ss: seq<Stage>, p: Profile, failing: set<Event>, k: nat)
    requires DistinctNames(ss)
    requires k < |ss| && AllSucceed(ss, p, failing, k) && !RunTask(ss[k].task, p, failing).ok
    ensures forall j :: 0 <= j < |ss| && RunStages(ss, p, failing).failed == Some(ss[j].name) ==> j == k
  {
    FirstFailureStops(ss, p, failing, k);
  }

  /** `n` is the name of exactly one of the stages. */
  predicate NamesOneStage(ss: seq<Stage>, n: string) {
    exists k :: 0 <= k < |ss| && ss[k].name == n && forall j :: 0 <= j < |ss| && ss[j].name == n ==> j == k
  }

  /** When not every stage succeeds, some stage is the first to throw. */
  lemma {:induction false} FirstFailingStage(ss: seq<Stage>, p: Profile, failing: set<Event>)
    requires !AllSucceed(ss, p, failing, |ss|)
    ensures exists k :: 0 <= k < |ss| && AllSucceed(ss, p, failing, k) && !RunTask(ss[k].task, p, failing).ok
    decreases |ss|
  {
    var init := ss[..|ss| - 1];
    assert forall j :: 0 <= j < |init| ==> init[j] == ss[j];
    if AllSucceed(init, p, failing, |init|) {
      assert AllSucceed(ss, p, failing, |ss| - 1);
    } else {
      FirstFailingStage(init, p, failing);
      var k :| 0 <= k < |init| && AllSucceed(init, p, failing, k) && !RunTask(init[k].task, p, failing).ok;
      assert AllSucceed(ss, p, failing, k);
    }
  }

  /** With distinct stage names, a failed stage loop reports the name of
      exactly one stage. */
  lemma StageFailureNamesOneStage(ss: seq<Stage>, p: Profile, failing: set<Event>)
    requires DistinctNames(ss) && RunStages(ss, p, failing).failed.Some?
    ensures NamesOneStage(ss, RunStages(ss, p, failing).failed.value)
  {
    StagesSucceedIff(ss, p, failing);
    FirstFailingStage(ss, p, failing);
    var k :| 0 <= k < |ss| && AllSucceed(ss, p, failing, k) && !RunTask(ss[k].task, p, failing).ok;
    FirstFailureStops(ss, p, failing, k);
    FailedNameIdentifiesStage(ss, p, failing, k);
  }

  /** Everything that run() does once its guards have passed. */
  datatype Execution = Execution(events: seq<Event>, outcome: Outcome<RunError>)

  /** The phases run() announces: the stages' sub-stages, then sort and write. */
  function AnnouncedPhases(ss: seq<Stage>, subStages: map<string, seq<string>>, descriptions: map<string, string>,
                           output: Path): seq<PhaseLine>
  {
    PhaseLines(ss, subStages, descriptions)
      + [PhaseLine("sort", SortDescription), PhaseLine("mbtiles", "Encode each tile and write to " + output)]
  }

  /** What run() does before the first stage; `delete` is overwrite || force. */
  function SetupEvents(ss: seq<Stage>, subStages: map<string, seq<string>>, descriptions: map<string, string>,
                       output: Path, tmpDir: Path, delete: bool): seq<Event>
  {
    (if delete then [DeleteOutput(output)] else [])
      + [AnnouncePhases(AnnouncedPhases(ss, subStages, descriptions, output)), CreateDirectories(tmpDir),
         OpenNodeDb(Resolve(tmpDir, "node.db")), OpenFeatureDb(Resolve(tmpDir, "feature.db"))]
  }

  /** What run() does after the last stage. */
  function FinishEvents(output: Path, tmpDir: Path): seq<Event> {
    [ReleaseProfile, DeleteNodeDb(Resolve(tmpDir, "node.db")), SortFeatures, WriteOutput(output)]
  }

  function Execute(ss: seq<Stage>, subStages: map<string, seq<string>>, descriptions: map<string, string>,
                   p: Profile, output: Path, tmpDir: Path, overwrite: bool, force: bool,
                   outputExists: bool, failing: set<Event>): Execution
  {
    if !(overwrite || force) && outputExists then Execution([], Fail(OutputExists(output)))
    else
      var setup := SetupEvents(ss, subStages, descriptions, output, tmpDir, overwrite || force);
      var st := RunStages(ss, p, failing);
      if st.failed.Some? then Execution(setup + st.events, Fail(StageFailed(st.failed.value)))
      else Execution(setup + st.events + FinishEvents(output, tmpDir), Pass)
  }

  lemma AppendAssociative(a: seq<Event>, b: seq<Event>, c: seq<Event>)
    ensures a + (b + c) == a + b + c
  {
  }

  /** Execute by cases, in the terms run() works with. */
  lemma ExecuteCases(ss: seq<Stage>, subStages: map<string, seq<string>>, descriptions: map<string, string>,
                     p: Profile, output: Path, tmpDir: Path, overwrite: bool, force: bool,
                     outputExists: bool, failing: set<Event>)
    ensures var ex := Execute(ss, subStages, descriptions, p, output, tmpDir, overwrite, force, outputExists, failing);
      var delete := overwrite || force;
      var st := RunStages(ss, p, failing);
      var setup := SetupEvents(ss, subStages, descriptions, output, tmpDir, delete);
      if !delete && outputExists then ex == Execution([], Fail(OutputExists(output)))
      else if st.failed.Some? then ex == Execution(setup + st.events, Fail(StageFailed(st.failed.value)))
      else ex == Execution(setup + st.events + FinishEvents(output, tmpDir), Pass)
  {
  }

  lemma {:induction false} StageEventsAreWork(ss: seq<Stage>, p: Profile, failing: set<Event>)
    ensures forall i :: 0 <= i < |RunStages(ss, p, failing).events| ==> IsWorkEvent(RunStages(ss, p, failing).events[i])
    decreases |ss|
  {
    if ss != [] {
      StageEventsAreWork(ss[..|ss| - 1], p, failing);
      RunTaskEvents(ss[|ss| - 1].task, p, failing);
    }
  }

  /** Overwrite policy: the output is deleted exactly when overwriting is
      asked for or forced; otherwise an existing output stops the run before
      any other effect, and a missing one lets it go on. */
  lemma OverwritePolicy(ss: seq<Stage>, subStages: map<string, seq<string>>, descriptions: map<string, string>,
                        p: Profile, output: Path, tmpDir: Path, overwrite: bool, force: bool,
                        outputExists: bool, failing: set<Event>)
    ensures var ex := Execute(ss, subStages, descriptions, p, output, tmpDir, overwrite, force, outputExists, failing);
      && (DeleteOutput(output) in ex.events <==> overwrite || force)
      && ((overwrite || force) ==> ex.events[0] == DeleteOutput(output))
      && (!(overwrite || force) && outputExists ==> ex == Execution([], Fail(OutputExists(output))))
      && (!(overwrite || force) && !outputExists ==> ex.outcome != Fail(OutputExists(output)))
  {
    var ex := Execute(ss, subStages, descriptions, p, output, tmpDir, overwrite, force, outputExists, failing);
    StageEventsAreWork(ss, p, failing);
    var st := RunStages(ss, p, failing).events;
    if !(overwrite || force) && !outputExists {
      forall i | 0 <= i < |ex.events| ensures ex.events[i] != DeleteOutput(output) {
        if 4 <= i < 4 + |st| {
          assert ex.events[i] == st[i - 4];
        }
      }
    }
  }

  /** A run that completes executes the setup, then every stage once in
      registration order, then, in this order: releases the profile,
      deletes node.db, sorts the features and writes the output. */
  lemma SuccessfulRunOrder(ss: seq<Stage>, subStages: map<string, seq<string>>, descriptions: map<string, string>,
                           p: Profile, output: Path, tmpDir: Path, overwrite: bool, force: bool,
                           outputExists: bool, failing: set<Event>)
    requires Execute(ss, subStages, descriptions, p, output, tmpDir, overwrite, force, outputExists, failing).outcome == Pass
    ensures AllSucceed(ss, p, failing, |ss|)
    ensures var ex := Execute(ss, subStages, descriptions, p, output, tmpDir, overwrite, force, outputExists, failing);
      var n := |ex.events|;
      && n >= 4 + |Flatten(TaskEventSeqs(ss, p, failing))|
      && ex.events[n - 4 - |Flatten(TaskEventSeqs(ss, p, failing))|..n - 4] == Flatten(TaskEventSeqs(ss, p, failing))
      && ex.events[n - 4..] == [ReleaseProfile, DeleteNodeDb(Resolve(tmpDir, "node.db")), SortFeatures, WriteOutput(output)]
  {
    StagesSucceedIff(ss, p, failing);
    StagesRunInOrder(ss, p, failing);
  }

  /** A run that fails in a stage never sorts the features and never writes an archive. */
  lemma FailedRunWritesNoArchive(ss: seq<Stage>, subStages: map<string, seq<string>>, descriptions: map<string, string>,
                                 p: Profile, output: Path, tmpDir: Path, overwrite: bool, force: bool,
                                 outputExists: bool, failing: set<Event>)
    requires Execute(ss, subStages, descriptions, p, output, tmpDir, overwrite, force, outputExists, failing).outcome.Fail?
    ensures var ex := Execute(ss, subStages, descriptions, p, output, tmpDir, overwrite, force, outputExists, failing);
      SortFeatures !in ex.events && WriteOutput(output) !in ex.events && ReleaseProfile !in ex.events
  {
    var ex := Execute(ss, subStages, descriptions, p, output, tmpDir, overwrite, force, outputExists, failing);
    StageEventsAreWork(ss, p, failing);
    var st := RunStages(ss, p, failing).events;
    if ex.events != [] {
      var s := |ex.events| - |st|;
      forall i | 0 <= i < |ex.events| ensures !ex.events[i].SortFeatures? && !ex.events[i].WriteOutput? && !ex.events[i].ReleaseProfile? {
        if s <= i {
          assert ex.events[i] == st[i - s];
        }
      }
    }
  }

  class FlatMapRunner {
    const arguments: Arguments
    const tmpDir: Path
    /** The LinkedHashMap of stages: registration order, unique names. */
    var stages: seq<Stage>
    var subStages: map<string, seq<string>>
    var stageDescriptions: map<string, string>
    var profile: Option<Profile>
    var config: Option<CommonParams>
    var nodeLocations: Option<Path>
    var featureDb: Option<Path>
    var osmInputFile: Option<Path>
    var output: Option<Path>
    var overwrite: bool
    var ran: bool
    /** Effects on the file system and the collaborators, oldest first. */
    var trace: seq<Event>

    ghost predicate Valid()
      reads this
    {
      DistinctNames(stages)
    }

    /** The first guard of run() that fails, in the source's order: profile,
        output, sources, then the run-once flag. */
    function Guard(): (g: Option<RunError>)
      reads this
      ensures profile.None? ==> g == Some(NoProfile)
      ensures profile.Some? && output.None? ==> g == Some(NoOutput)
      ensures profile.Some? && output.Some? && |stages| == 0 ==> g == Some(NoSources)
      ensures profile.Some? && output.Some? && |stages| > 0 && ran ==> g == Some(AlreadyRan)
      ensures g == None <==> profile.Some? && output.Some? && |stages| > 0 && !ran
      ensures g.Some? ==> ExceptionOf(g.value).0 == IllegalState
    {
      if profile.None? then Some(NoProfile)
      else if output.None? then Some(NoOutput)
      else if |stages| == 0 then Some(NoSources)
      else if ran then Some(AlreadyRan)
      else None
    }

    constructor (arguments: Arguments)
      ensures Valid()
      ensures this.arguments == arguments && tmpDir == FileArgument(arguments, "tmpdir", "data/tmp")
      ensures stages == [] && subStages == map[] && stageDescriptions == map[]
      ensures profile == None && output == None && osmInputFile == None && config == None
      ensures nodeLocations == None && featureDb == None
      ensures !overwrite && !ran && trace == []
    {
      this.arguments := arguments;
      tmpDir := FileArgument(arguments, "tmpdir", "data/tmp");
      stages, subStages, stageDescriptions := [], map[], map[];
      profile, config, nodeLocations, featureDb, osmInputFile, output := None, None, None, None, None, None;
      overwrite, ran := false, false;
      trace := [];
    }

    /** The public addStage: a fresh name is appended with its description;
        a name already registered fails and changes nothing. */
    method AddStage(name: string, description: string, task: Task) returns (r: Outcome<RunError>)
      requires Valid()
      modifies this`stages, this`stageDescriptions
      ensures Valid()
      ensures r == (if name in StageNames(old(stages)) then Fail(DuplicateStageName(name)) else Pass)
      ensures r.Fail? ==> stages == old(stages) && stageDescriptions == old(stageDescriptions)
      ensures r.Pass? ==>
        && stages == old(stages) + [Stage(name, task)]
        && stageDescriptions == old(stageDescriptions)[name := description]
    {
      if name in StageNames(stages) {
        return Fail(DuplicateStageName(name));
      }
      stageDescriptions := stageDescriptions[name := description];
      stages := stages + [Stage(name, task)];
      r := Pass;
    }

    /** The private addStage: the same check, but no description is recorded. */
    method AddStageWithoutDescription(name: string, task: Task) returns (r: Outcome<RunError>)
      requires Valid()
      modifies this`stages
      ensures Valid()
      ensures r == (if name in StageNames(old(stages)) then Fail(DuplicateStageName(name)) else Pass)
      ensures stages == if r.Pass? then old(stages) + [Stage(name, task)] else old(stages)
    {
      if name in StageNames(stages) {
        return Fail(DuplicateStageName(name));
      }
      stages := stages + [Stage(name, task)];
      r := Pass;
    }

    /** addOsmSource: records the input file, the two sub-stages and their
        descriptions before registering; a duplicate name still fails at
        registration, after those three updates. */
    method AddOsmSource(name: string, defaultPath: Path) returns (r: Outcome<RunError>)
      requires Valid()
      modifies this`stages, this`subStages, this`stageDescriptions, this`osmInputFile
      ensures Valid()
      ensures osmInputFile == Some(FileArgument(arguments, name, defaultPath))
      ensures subStages == old(subStages)[name := OsmSubStages(name)]
      ensures stageDescriptions == old(stageDescriptions)[name + "_pass1" := OsmPass1Description][name + "_pass2" := OsmPass2Description]
      ensures r == (if name in StageNames(old(stages)) then Fail(DuplicateStageName(name)) else Pass)
      ensures stages == if r.Pass?
        then old(stages) + [Stage(name, SourceGuarded(name, OsmReader(name, FileArgument(arguments, name, defaultPath))))]
        else old(stages)
    {
      var path := FileArgument(arguments, name, defaultPath);
      osmInputFile := Some(path);
      subStages := subStages[name := OsmSubStages(name)];
      stageDescriptions := stageDescriptions[name + "_pass1" := OsmPass1Description];
      stageDescriptions := stageDescriptions[name + "_pass2" := OsmPass2Description];
      r := AddStageWithoutDescription(name, SourceGuarded(name, OsmReader(name, path)));
    }

    /** addOsmSource with the duplicate check first: a duplicate name fails
        and changes nothing, as addStage does; otherwise the same updates as
        AddOsmSource. */
    method AddOsmSourceChecked(name: string, defaultPath: Path) returns (r: Outcome<RunError>)
      requires Valid()
      modifies this`stages, this`subStages, this`stageDescriptions, this`osmInputFile
      ensures Valid()
      ensures r == (if name in StageNames(old(stages)) then Fail(DuplicateStageName(name)) else Pass)
      ensures r.Fail? ==>
        && stages == old(stages) && subStages == old(subStages)
        && stageDescriptions == old(stageDescriptions) && osmInputFile == old(osmInputFile)
      ensures r.Pass? ==>
        && osmInputFile == Some(FileArgument(arguments, name, defaultPath))
        && subStages == old(subStages)[name := OsmSubStages(name)]
        && stageDescriptions == old(stageDescriptions)[name + "_pass1" := OsmPass1Description][name + "_pass2" := OsmPass2Description]
        && stages == old(stages) + [Stage(name, SourceGuarded(name, OsmReader(name, FileArgument(arguments, name, defaultPath))))]
    {
      if name in StageNames(stages) {
        return Fail(DuplicateStageName(name));
      }
      r := AddOsmSource(name, defaultPath);
    }

    method AddShapefileSource(name: string, defaultPath: Path) returns (r: Outcome<RunError>)
      requires Valid()
      modifies this`stages, this`stageDescriptions
      ensures Valid()
      ensures r == (if name in StageNames(old(stages)) then Fail(DuplicateStageName(name)) else Pass)
      ensures r.Fail? ==> stages == old(stages) && stageDescriptions == old(stageDescriptions)
      ensures r.Pass? ==>
        var path := FileArgument(arguments, name, defaultPath);
        && stages == old(stages) + [Stage(name, SourceGuarded(name, ShapefileReader(None, name, path)))]
        && stageDescriptions == old(stageDescriptions)[name := "Process features in " + path]
    {
      var path := FileArgument(arguments, name, defaultPath);
      r := AddStage(name, "Process features in " + path, SourceGuarded(name, ShapefileReader(None, name, path)));
    }

    method AddShapefileSourceWithProjection(projection: string, name: string, defaultPath: Path) returns (r: Outcome<RunError>)
      requires Valid()
      modifies this`stages, this`stageDescriptions
      ensures Valid()
      ensures r == (if name in StageNames(old(stages)) then Fail(DuplicateStageName(name)) else Pass)
      ensures r.Fail? ==> stages == old(stages) && stageDescriptions == old(stageDescriptions)
      ensures r.Pass? ==>
        var path := FileArgument(arguments, name, defaultPath);
        && stages == old(stages) + [Stage(name, SourceGuarded(name, ShapefileReader(Some(projection), name, path)))]
        && stageDescriptions == old(stageDescriptions)[name := "Process features in " + path]
    {
      var path := FileArgument(arguments, name, defaultPath);
      r := AddStage(name, "Process features in " + path, SourceGuarded(name, ShapefileReader(Some(projection), name, path)));
    }

    method AddNaturalEarthSource(name: string, defaultPath: Path) returns (r: Outcome<RunError>)
      requires Valid()
      modifies this`stages, this`stageDescriptions
      ensures Valid()
      ensures r == (if name in StageNames(old(stages)) then Fail(DuplicateStageName(name)) else Pass)
      ensures r.Fail? ==> stages == old(stages) && stageDescriptions == old(stageDescriptions)
      ensures r.Pass? ==>
        var path := FileArgument(arguments, name, defaultPath);
        && stages == old(stages) + [Stage(name, SourceGuarded(name, NaturalEarthReader(name, path, Resolve(tmpDir, "natearth.sqlite"))))]
        && stageDescriptions == old(stageDescriptions)[name := "Process features in " + path]
    {
      var path := FileArgument(arguments, name, defaultPath);
      r := AddStage(name, "Process features in " + path,
        SourceGuarded(name, NaturalEarthReader(name, path, Resolve(tmpDir, "natearth.sqlite"))));
    }

    method SetProfile(profile: Profile)
      modifies this`profile
      ensures this.profile == Some(profile)
    {
      this.profile := Some(profile);
    }

    method SetOutput(argument: string, mbtiles: Path)
      modifies this`output
      ensures output == Some(FileArgument(arguments, argument, mbtiles))
    {
      output := Some(FileArgument(arguments, argument, mbtiles));
    }

    method OverwriteOutput(argument: string, mbtiles: Path)
      modifies this`output, this`overwrite
      ensures overwrite
      ensures output == Some(FileArgument(arguments, argument, mbtiles))
    {
      overwrite := true;
      SetOutput(argument, mbtiles);
    }

    /** The phases run() lists: for each stage in registration order, its
        sub-stages with their descriptions. */
    method PhaseListing() returns (lines: seq<PhaseLine>)
      ensures lines == PhaseLines(stages, subStages, stageDescriptions)
    {
      lines := [];
      for i := 0 to |stages|
        invariant lines == PhaseLines(stages[..i], subStages, stageDescriptions)
      {
        var subs := SubStagesOf(subStages, stages[i].name);
        ghost var outer := lines;
        for j := 0 to |subs|
          invariant lines == outer + SubStageLines(subs[..j], stageDescriptions)
        {
          var description := if subs[j] in stageDescriptions then stageDescriptions[subs[j]] else "";
          lines := lines + [PhaseLine(subs[j], description)];
          assert subs[..j + 1][..j] == subs[..j];
        }
        assert subs[..|subs|] == subs;
        assert stages[..i + 1][..i] == stages[..i];
      }
      assert stages[..|stages|] == stages;
    }

    /** The stage loop of run(): each stage in registration order, stopping
        at the first that throws. */
    method RunAllStages(p: Profile, failing: set<Event>) returns (failed: Option<string>)
      modifies this`trace
      ensures failed == RunStages(stages, p, failing).failed
      ensures trace == old(trace) + RunStages(stages, p, failing).events
    {
      for i := 0 to |stages|
        invariant RunStages(stages[..i], p, failing).failed.None?
        invariant trace == old(trace) + RunStages(stages[..i], p, failing).events
      {
        var run := RunTask(stages[i].task, p, failing);
        ghost var before := RunStages(stages[..i], p, failing).events;
        assert stages[..i + 1][..i] == stages[..i];
        assert RunStages(stages[..i + 1], p, failing).events == before + run.events;
        AppendAssociative(old(trace), before, run.events);
        trace := trace + run.events;
        if !run.ok {
          StageFailureIsFinal(stages, p, failing, i + 1);
          return Some(stages[i].name);
        }
      }
      assert stages[..|stages|] == stages;
      failed := None;
    }

    /** What run() does once its guards pass, from the registered state. */
    function Expected(outputExists: bool, failing: set<Event>): Execution
      requires profile.Some? && output.Some?
      reads this`stages, this`subStages, this`stageDescriptions, this`profile, this`output, this`overwrite
    {
      Execute(stages, subStages, stageDescriptions, profile.value, output.value, tmpDir,
              overwrite, arguments.forceOverwrite, outputExists, failing)
    }

    /** The setup of run(): deleting the output when asked to, announcing
        the phases, creating the temporary directory and opening node.db and
        feature.db there. */
    method Prepare(delete: bool)
      requires output.Some?
      modifies this`nodeLocations, this`featureDb, this`trace
      ensures trace == old(trace) + SetupEvents(stages, subStages, stageDescriptions, output.value, tmpDir, delete)
      ensures nodeLocations == Some(Resolve(tmpDir, "node.db")) && featureDb == Some(Resolve(tmpDir, "feature.db"))
    {
      var out := output.value;
      var events := if delete then [DeleteOutput(out)] else [];
      var lines := PhaseListing();
      events := events + [AnnouncePhases(lines + [PhaseLine("sort", SortDescription),
                                                  PhaseLine("mbtiles", "Encode each tile and write to " + out)])];
      events := events + [CreateDirectories(tmpDir)];
      var nodeDbPath := Resolve(tmpDir, "node.db");
      nodeLocations := Some(nodeDbPath);
      events := events + [OpenNodeDb(nodeDbPath)];
      featureDb := Some(Resolve(tmpDir, "feature.db"));
      events := events + [OpenFeatureDb(Resolve(tmpDir, "feature.db"))];
      trace := trace + events;
    }

    /** run() once its guards have passed and it is marked as run: `failing` names the events
        that throw, `outputExists` is Files.exists(output). */
    method Launch(outputExists: bool, failing: set<Event>) returns (r: Outcome<RunError>)
      requires Valid() && profile.Some? && output.Some?
      modifies this`nodeLocations, this`featureDb, this`trace
      ensures trace == old(trace) + Expected(outputExists, failing).events
      ensures r == Expected(outputExists, failing).outcome
      ensures r != Fail(OutputExists(output.value)) ==>
        nodeLocations == Some(Resolve(tmpDir, "node.db")) && featureDb == Some(Resolve(tmpDir, "feature.db"))
      ensures r == Fail(OutputExists(output.value)) ==>
        nodeLocations == old(nodeLocations) && featureDb == old(featureDb)
      ensures r.Fail? && r.error.StageFailed? ==> NamesOneStage(stages, r.error.name)
    {
      ExecuteCases(stages, subStages, stageDescriptions, profile.value, output.value, tmpDir,
                   overwrite, arguments.forceOverwrite, outputExists, failing);
      ghost var setup := SetupEvents(stages, subStages, stageDescriptions, output.value, tmpDir,
                                     overwrite || arguments.forceOverwrite);
      ghost var st := RunStages(stages, profile.value, failing);
      var delete := overwrite || arguments.forceOverwrite;
      if !delete && outputExists {
        return Fail(OutputExists(output.value));
      }
      Prepare(delete);
      var failed := RunAllStages(profile.value, failing);
      AppendAssociative(old(trace), setup, st.events);
      if failed.Some? {
        StageFailureNamesOneStage(stages, profile.value, failing);
        return Fail(StageFailed(failed.value));
      }
      AppendAssociative(old(trace), setup + st.events, FinishEvents(output.value, tmpDir));
      trace := trace + FinishEvents(output.value, tmpDir);
      r := Pass;
    }

    /** run(): the four guards of Guard, each failing before any change;
        then the run is marked as done and Launch does the rest. */
    method Run(outputExists: bool, failing: set<Event>) returns (r: Outcome<RunError>)
      requires Valid()
      modifies this`ran, this`config, this`nodeLocations, this`featureDb, this`trace
      ensures Valid()
      ensures old(Guard()).Some? ==>
        && r == Fail(old(Guard()).value)
        && ran == old(ran) && config == old(config) && trace == old(trace)
        && nodeLocations == old(nodeLocations) && featureDb == old(featureDb)
      ensures old(Guard()).None? ==>
        && ran && config == Some(CommonParams(arguments.forceOverwrite))
        && trace == old(trace) + Expected(outputExists, failing).events
        && r == Expected(outputExists, failing).outcome
        && (r != Fail(OutputExists(output.value)) ==>
              nodeLocations == Some(Resolve(tmpDir, "node.db")) && featureDb == Some(Resolve(tmpDir, "feature.db")))
        && (r == Fail(OutputExists(output.value)) ==>
              nodeLocations == old(nodeLocations) && featureDb == old(featureDb))
        && (r.Fail? && r.error.StageFailed? ==> NamesOneStage(stages, r.error.name))
    {
      var g := Guard();
      if g.Some? {
        return Fail(g.value);
      }
      ran := true;
      config := Some(CommonParams(arguments.forceOverwrite));
      r := Launch(outputExists, failing);
    }
  }

  /** Registering one name twice: the second registration fails and leaves
      the registry as the first left it. */
  method RegisterTwice(runner: FlatMapRunner, name: string, d1: string, d2: string, t1: Task, t2: Task)
    returns (first: Outcome<RunError>, second: Outcome<RunError>)
    requires runner.Valid()
    modifies runner
    ensures second == Fail(DuplicateStageName(name))
    ensures ExceptionOf(second.error) == (IllegalArgument, "Duplicate stage name: " + name)
    ensures first.Pass? ==>
      && runner.stages == old(runner.stages) + [Stage(name, t1)]
      && runner.stageDescriptions == old(runner.stageDescriptions)[name := d1]
  {
    first := runner.AddStage(name, d1, t1);
    if first.Pass? {
      assert StageNames(runner.stages)[|runner.stages| - 1] == name;
    }
    second := runner.AddStage(name, d2, t2);
  }

  /** The phase listing of a runner holding one stage: its sub-stages, each
      with its description. */
  lemma OneStagePhaseLines(st: Stage, subStages: map<string, seq<string>>, descriptions: map<string, string>)
    ensures PhaseLines([st], subStages, descriptions) == SubStageLines(SubStagesOf(subStages, st.name), descriptions)
  {
    assert [st][..0] == [];
  }

  /** The listing of an OpenStreetMap source's two passes. */
  lemma OsmSubStageLines(name: string, descriptions: map<string, string>)
    requires name + "_pass1" in descriptions && descriptions[name + "_pass1"] == OsmPass1Description
    requires name + "_pass2" in descriptions && descriptions[name + "_pass2"] == OsmPass2Description
    ensures SubStageLines(OsmSubStages(name), descriptions)
         == [PhaseLine(name + "_pass1", OsmPass1Description), PhaseLine(name + "_pass2", OsmPass2Description)]
  {
    assert OsmSubStages(name)[..1] == [name + "_pass1"];
    assert OsmSubStages(name)[..1][..0] == [];
  }

  /** An OpenStreetMap source registered under the name of an existing stage
      fails, yet that stage is now announced as the two OpenStreetMap passes
      with their descriptions instead of under its own name. */
  method DuplicateOsmSourceAsWritten(arguments: Arguments, name: string, description: string, task: Task, defaultPath: Path)
    returns (runner: FlatMapRunner, first: Outcome<RunError>, second: Outcome<RunError>)
    ensures first == Pass && second == Fail(DuplicateStageName(name))
    ensures runner.stages == [Stage(name, task)]
    ensures PhaseLines(runner.stages, runner.subStages, runner.stageDescriptions)
         == [PhaseLine(name + "_pass1", OsmPass1Description), PhaseLine(name + "_pass2", OsmPass2Description)]
  {
    runner := new FlatMapRunner(arguments);
    first := runner.AddStage(name, description, task);
    assert StageNames(runner.stages)[0] == name;
    second := runner.AddOsmSource(name, defaultPath);
    assert (name + "_pass1")[|name| + 5] != (name + "_pass2")[|name| + 5];
    OsmSubStageLines(name, runner.stageDescriptions);
    OneStagePhaseLines(Stage(name, task), runner.subStages, runner.stageDescriptions);
  }

  /** The same registrations with the checked addOsmSource: the second fails
      and the stage is still announced under its own name and description. */
  method DuplicateOsmSourceChecked(arguments: Arguments, name: string, description: string, task: Task, defaultPath: Path)
    returns (runner: FlatMapRunner, first: Outcome<RunError>, second: Outcome<RunError>)
    ensures first == Pass && second == Fail(DuplicateStageName(name))
    ensures runner.stages == [Stage(name, task)]
    ensures PhaseLines(runner.stages, runner.subStages, runner.stageDescriptions) == [PhaseLine(name, description)]
  {
    runner := new FlatMapRunner(arguments);
    first := runner.AddStage(name, description, task);
    assert StageNames(runner.stages)[0] == name;
    second := runner.AddOsmSourceChecked(name, defaultPath);
    OneStagePhaseLines(Stage(name, task), runner.subStages, runner.stageDescriptions);
    assert [name][..0] == [];
  }

  /** A second run always fails: with "Can only run once" when the first
      passed its guards, and with the first's own error otherwise. */
  method RunTwice(runner: FlatMapRunner, outputExists: bool, failing: set<Event>)
    returns (first: Outcome<RunError>, second: Outcome<RunError>)
    requires runner.Valid()
    modifies runner
    ensures old(runner.Guard()).None? ==>
      second == Fail(AlreadyRan) && ExceptionOf(second.error) == (IllegalState, "Can only run once")
    ensures old(runner.Guard()).Some? ==> first == second == Fail(old(runner.Guard()).value)
  {
    first := runner.Run(outputExists, failing);
    second := runner.Run(outputExists, failing);
  }
}

/**
 * The Gradle task that runs instrumentation tests
 * (com.github.grishberg.tests.InstrumentationTestTask): its configuration
 * fields, the lazily defaulted output directories, the fallback to default
 * providers in `init`, the step order of `runTask` and the decision that
 * turns a failed run into a build failure.
 *
 * The Gradle project is reduced to its build directory and name, the
 * device bridge, folder cleaning, the commands runner and the report
 * renderer to events appended to `trace`, and the runner's verdict to a
 * `RunnerResult` parameter.
 */
module InstrumentationTests {
  import opened Nullable
  import opened OutputPaths

  /** The values of `InstrumentalExtension` that the task reads. */
  datatype Extension = Extension(
    androidSdkPath: Option<string>,
    flavorName: Option<string>,
    htmlReportsEnabled: bool)

  /** Pluggable collaborators: one supplied by the build script (`Custom…`) or the built-in default. */
  datatype AnnotationCommands = CustomCommandsForAnnotation(id: nat) | DefaultCommandsForAnnotation
  datatype DeviceTypes = CustomDeviceTypeAdapter(id: nat) | DefaultDeviceTypeAdapter
  datatype ArgsProvider =
    | CustomArgsProvider(id: nat)
      /** The default args provider shards by the device-type adapter it was built with. */
    | DefaultArgsProvider(info: Extension, shardAdapter: DeviceTypes)
  datatype CommandProvider =
    | CustomCommandProvider(id: nat)
    | DefaultCommandProvider(projectName: string, args: ArgsProvider, annotations: AnnotationCommands)
  datatype CrashHandler = CrashHandler(id: nat)

  /** The four provider fields that `init` fills in. */
  datatype Providers = Providers(
    annotations: Option<AnnotationCommands>,
    adapter: Option<DeviceTypes>,
    args: Option<ArgsProvider>,
    commands: Option<CommandProvider>)

  /** Paths handed to the runner. */
  datatype Environment = Environment(resultsDir: string, reportsDir: string, coverageDir: string)

  /** The run-scoped `TestRunnerContext`; `crashHandler == None` leaves the context's own default. */
  datatype RunContext = RunContext(info: Extension, environment: Environment, crashHandler: Option<CrashHandler>)

  /** Calls into code outside the task, in the order they happen. */
  datatype Event =
    | InitBridgeIfNeeded
    | AdbInit(sdkPath: Option<string>)
    | CleanFolder(path: string)
    | WaitForAdb
      /** `getDeviceList()`, evaluated inside the `try` as the runner's argument. */
    | ProvideDevices
    | RunCommands(provider: CommandProvider, context: RunContext)
    | GenerateReport(resultsDir: string, reportsDir: string)

  /** What `DeviceCommandsRunner.runCommands` did: returned a verdict or threw. */
  datatype RunnerResult = Returned(success: bool) | Threw(exception: string)

  datatype TaskError =
    | MissingInstrumentationInfo
      /** `runTask` dereferences a null extension before `init` can check it. */
    | NullInstrumentationInfo
    | FailingTests(reportIndex: string)
    | RunnerException(message: string)

  datatype Outcome = Completed | Failed(error: TaskError)

  const FailingTestsText: string := "There were failing tests. See the report at: "

  /** `ConsoleRenderer.asClickableFileUrl` for an absolute path that needs no escaping. */
  function ClickableFileUrl(path: string): string
  {
    "file://" + path
  }

  /**
   * The message of the exception the task raises; the failing-tests message
   * names the report. The message of the null dereference is not modelled.
   */
  function Message(e: TaskError): (m: Option<string>)
    ensures e.MissingInstrumentationInfo? ==> m == Some("Need to set InstrumentationInfo")
    ensures e.FailingTests? ==>
      m.Some? && FailingTestsText <= m.value && |m.value| >= |e.reportIndex|
      && m.value[|m.value| - |e.reportIndex|..] == e.reportIndex
    ensures e.RunnerException? ==> m == Some(e.message)
  {
    match e
    case MissingInstrumentationInfo => Some("Need to set InstrumentationInfo")
    case NullInstrumentationInfo => None
    case FailingTests(index) =>
      var m := FailingTestsText + ClickableFileUrl(index);
      assert m == (FailingTestsText + "file://") + index;
      Some(m)
    case RunnerException(message) => Some(message)
  }

  /** The value a directory getter returns: the field if set, otherwise the default location. */
  function ResolveDir(field: Option<string>, buildDir: string, kind: DirKind, flavorName: Option<string>): string
  {
    match field
    case Some(dir) => dir
    case None => DefaultDir(buildDir, kind, flavorName)
  }

  /** The provider fields after a successful `init`: each null provider replaced by its default. */
  function FillDefaults(p: Providers, info: Extension, projectName: string): (r: Providers)
    ensures r.annotations.Some? && r.args.Some? && r.commands.Some?
    ensures p.annotations.Some? ==> r.annotations == p.annotations
    ensures p.args.Some? ==> r.args == p.args
    ensures p.commands.Some? ==> r.commands == p.commands
    ensures p.adapter.Some? ==> r.adapter == p.adapter
    ensures r.adapter.Some? <==> p.adapter.Some? || p.args.None?
    ensures p.annotations.None? ==> r.annotations == Some(DefaultCommandsForAnnotation)
    ensures p.adapter.None? && p.args.None? ==> r.adapter == Some(DefaultDeviceTypeAdapter)
    ensures p.args.None? ==> r.args == Some(DefaultArgsProvider(info, r.adapter.value))
    ensures p.commands.None? ==>
      r.commands == Some(DefaultCommandProvider(projectName, r.args.value, r.annotations.value))
  {
    var annotations := if p.annotations.None? then DefaultCommandsForAnnotation else p.annotations.value;
    var adapter := if p.args.None? && p.adapter.None? then Some(DefaultDeviceTypeAdapter) else p.adapter;
    var args := if p.args.None? then DefaultArgsProvider(info, adapter.value) else p.args.value;
    var commands :=
      if p.commands.None? then DefaultCommandProvider(projectName, args, annotations) else p.commands.value;
    Providers(Some(annotations), adapter, Some(args), Some(commands))
  }

  /** Running `init` a second time changes no provider. */
  lemma FillDefaultsIdempotent(p: Providers, info: Extension, info': Extension, projectName: string)
    ensures FillDefaults(FillDefaults(p, info, projectName), info', projectName) == FillDefaults(p, info, projectName)
  {
  }

  /** The calls `runTask` makes once the extension is known, in order. */
  function RunEvents(sdkPath: Option<string>, provider: CommandProvider, context: RunContext): seq<Event>
  {
    var env := context.environment;
    [InitBridgeIfNeeded, AdbInit(sdkPath),
     CleanFolder(env.reportsDir), CleanFolder(env.resultsDir), CleanFolder(env.coverageDir),
     WaitForAdb, ProvideDevices, RunCommands(provider, context)]
    + (if context.info.htmlReportsEnabled then [GenerateReport(env.resultsDir, env.reportsDir)] else [])
  }

  /** `a` happens before `b` in `trace`. */
  ghost predicate Before(trace: seq<Event>, a: Event, b: Event)
  {
    exists i, j :: 0 <= i < j < |trace| && trace[i] == a && trace[j] == b
  }

  /**
   * `runTask` cleans reports, results and coverage folders in that order,
   * all before waiting for the bridge, then asks for the devices and
   * invokes the runner;
   * the report is generated, after the runner, exactly when HTML reports
   * are enabled.
   */
  lemma {:induction false} RunStepOrder(sdkPath: Option<string>, provider: CommandProvider, context: RunContext)
    ensures var t, env := RunEvents(sdkPath, provider, context), context.environment;
      && Before(t, CleanFolder(env.reportsDir), CleanFolder(env.resultsDir))
      && Before(t, CleanFolder(env.resultsDir), CleanFolder(env.coverageDir))
      && Before(t, CleanFolder(env.coverageDir), WaitForAdb)
      && Before(t, WaitForAdb, ProvideDevices)
      && Before(t, ProvideDevices, RunCommands(provider, context))
      && (context.info.htmlReportsEnabled <==> exists i :: 0 <= i < |t| && t[i].GenerateReport?)
      && (context.info.htmlReportsEnabled ==>
            Before(t, RunCommands(provider, context), GenerateReport(env.resultsDir, env.reportsDir)))
  {
    var t, env := RunEvents(sdkPath, provider, context), context.environment;
    assert t[2] == CleanFolder(env.reportsDir) && t[3] == CleanFolder(env.resultsDir);
    assert t[4] == CleanFolder(env.coverageDir) && t[5] == WaitForAdb;
    assert t[6] == ProvideDevices && t[7] == RunCommands(provider, context);
    if context.info.htmlReportsEnabled {
      assert t[8] == GenerateReport(env.resultsDir, env.reportsDir);
    } else {
      assert |t| == 8;
      forall i | 0 <= i < |t| ensures !t[i].GenerateReport? {
      }
    }
  }

  /**
   * How `runTask` ends, given whether HTML reports are enabled and what the
   * runner did. The `finally` block generates the report; a failure it
   * raises replaces an exception the runner threw.
   */
  function RunOutcome(htmlReportsEnabled: bool, result: RunnerResult, reportsDir: string): (o: Outcome)
    ensures o == Completed <==> result == Returned(true) || (!htmlReportsEnabled && result == Returned(false))
    ensures htmlReportsEnabled && o.Failed? ==> o.error == FailingTests(Child(reportsDir, "index.html"))
    ensures !htmlReportsEnabled && result.Threw? ==> o == Failed(RunnerException(result.exception))
  {
    var success := result.Returned? && result.success;
    var reportFailure :=
      if htmlReportsEnabled && !success then Some(FailingTests(Child(reportsDir, "index.html"))) else None;
    if reportFailure.Some? then Failed(reportFailure.value)
    else if result.Threw? then Failed(RunnerException(result.exception))
    else Completed
  }

  class InstrumentationTestTask {
    /** `getProject().getBuildDir()` and `getProject().getName()`. */
    const buildDir: string
    const projectName: string

    var androidSdkPath: Option<string>
    var coverageDir: Option<string>
    var resultsDir: Option<string>
    var reportsDir: Option<string>
    var commandProvider: Option<CommandProvider>
    var instrumentationArgsProvider: Option<ArgsProvider>
    var instrumentationInfo: Option<Extension>
    var commandsForAnnotationProvider: Option<AnnotationCommands>
    var deviceTypeAdapter: Option<DeviceTypes>
    var processCrashHandler: Option<CrashHandler>
    /** Calls made into the bridge, the file system, the runner and the renderer. */
    var trace: seq<Event>

    function ProviderFields(): Providers
      reads this
    {
      Providers(commandsForAnnotationProvider, deviceTypeAdapter, instrumentationArgsProvider, commandProvider)
    }

    /** The task picks up the project's extension, which may be absent. */
    constructor (buildDir: string, projectName: string, extension: Option<Extension>)
      ensures this.buildDir == buildDir && this.projectName == projectName
      ensures instrumentationInfo == extension
      ensures androidSdkPath.None? && coverageDir.None? && resultsDir.None? && reportsDir.None?
      ensures ProviderFields() == Providers(None, None, None, None) && processCrashHandler.None?
      ensures trace == []
    {
      this.buildDir := buildDir;
      this.projectName := projectName;
      instrumentationInfo := extension;
      androidSdkPath, coverageDir, resultsDir, reportsDir := None, None, None, None;
      commandProvider, instrumentationArgsProvider := None, None;
      commandsForAnnotationProvider, deviceTypeAdapter, processCrashHandler := None, None, None;
      trace := [];
    }

    method SetInstrumentationInfo(info: Option<Extension>)
      modifies this`instrumentationInfo
      ensures instrumentationInfo == info
    {
      instrumentationInfo := info;
    }

    method SetInstrumentationArgsProvider(provider: Option<ArgsProvider>)
      modifies this`instrumentationArgsProvider
      ensures instrumentationArgsProvider == provider
    {
      instrumentationArgsProvider := provider;
    }

    method SetCommandsForAnnotationProvider(provider: Option<AnnotationCommands>)
      modifies this`commandsForAnnotationProvider
      ensures commandsForAnnotationProvider == provider
    {
      commandsForAnnotationProvider := provider;
    }

    method SetCommandProvider(provider: Option<CommandProvider>)
      modifies this`commandProvider
      ensures commandProvider == provider
    {
      commandProvider := provider;
    }

    method SetCoverageDir(dir: Option<string>)
      modifies this`coverageDir
      ensures coverageDir == dir
    {
      coverageDir := dir;
    }

    method SetResultsDir(dir: Option<string>)
      modifies this`resultsDir
      ensures resultsDir == dir
    {
      resultsDir := dir;
    }

    method SetReportsDir(dir: Option<string>)
      modifies this`reportsDir
      ensures reportsDir == dir
    {
      reportsDir := dir;
    }

    method SetDeviceTypeAdapter(adapter: Option<DeviceTypes>)
      modifies this`deviceTypeAdapter
      ensures deviceTypeAdapter == adapter
    {
      deviceTypeAdapter := adapter;
    }

    method SetProcessCrashHandler(handler: Option<CrashHandler>)
      modifies this`processCrashHandler
      ensures processCrashHandler == handler
    {
      processCrashHandler := handler;
    }

    /** A set directory is returned as is; otherwise the default is generated once and kept. */
    method GetCoverageDir() returns (dir: string)
      requires coverageDir.Some? || instrumentationInfo.Some?
      modifies this`coverageDir
      ensures old(coverageDir).Some? ==> dir == old(coverageDir).value
      ensures old(coverageDir).None? ==> dir == DefaultDir(buildDir, Coverage, instrumentationInfo.value.flavorName)
      ensures coverageDir == Some(dir)
    {
      if coverageDir.None? {
        coverageDir := Some(DefaultDir(buildDir, Coverage, instrumentationInfo.value.flavorName));
      }
      dir := coverageDir.value;
    }

    method GetResultsDir() returns (dir: string)
      requires resultsDir.Some? || instrumentationInfo.Some?
      modifies this`resultsDir
      ensures old(resultsDir).Some? ==> dir == old(resultsDir).value
      ensures old(resultsDir).None? ==> dir == DefaultDir(buildDir, Results, instrumentationInfo.value.flavorName)
      ensures resultsDir == Some(dir)
    {
      if resultsDir.None? {
        resultsDir := Some(DefaultDir(buildDir, Results, instrumentationInfo.value.flavorName));
      }
      dir := resultsDir.value;
    }

    method GetReportsDir() returns (dir: string)
      requires reportsDir.Some? || instrumentationInfo.Some?
      modifies this`reportsDir
      ensures old(reportsDir).Some? ==> dir == old(reportsDir).value
      ensures old(reportsDir).None? ==> dir == DefaultDir(buildDir, Reports, instrumentationInfo.value.flavorName)
      ensures reportsDir == Some(dir)
    {
      if reportsDir.None? {
        reportsDir := Some(DefaultDir(buildDir, Reports, instrumentationInfo.value.flavorName));
      }
      dir := reportsDir.value;
    }

    /**
     * Falls back to `androidHome` (the ANDROID_HOME variable) for a null SDK
     * path, fails without a extension, and otherwise replaces every null
     * provider by its default.
     */
    method Init(androidHome: Option<string>) returns (err: Option<TaskError>)
      modifies this`trace, this`androidSdkPath, this`commandsForAnnotationProvider,
               this`deviceTypeAdapter, this`instrumentationArgsProvider, this`commandProvider
      ensures trace == old(trace) + [InitBridgeIfNeeded]
      ensures androidSdkPath == if old(androidSdkPath).None? then androidHome else old(androidSdkPath)
      ensures err.Some? <==> instrumentationInfo.None?
      ensures err.Some? ==> err.value == MissingInstrumentationInfo && ProviderFields() == old(ProviderFields())
      ensures err.None? ==>
        ProviderFields() == FillDefaults(old(ProviderFields()), instrumentationInfo.value, projectName)
    {
      trace := trace + [InitBridgeIfNeeded];
      if androidSdkPath.None? {
        androidSdkPath := androidHome;
      }
      if instrumentationInfo.None? {
        return Some(MissingInstrumentationInfo);
      }
      if commandsForAnnotationProvider.None? {
        commandsForAnnotationProvider := Some(DefaultCommandsForAnnotation);
      }
      if instrumentationArgsProvider.None? {
        if deviceTypeAdapter.None? {
          deviceTypeAdapter := Some(DefaultDeviceTypeAdapter);
        }
        instrumentationArgsProvider := Some(DefaultArgsProvider(instrumentationInfo.value, deviceTypeAdapter.value));
      }
      if commandProvider.None? {
        commandProvider := Some(DefaultCommandProvider(projectName, instrumentationArgsProvider.value,
                                                       commandsForAnnotationProvider.value));
      }
      err := None;
    }

    /** Cleans the reports, results and coverage folders, in that order, fixing all three paths. */
    method PrepareOutputFolders()
      requires instrumentationInfo.Some?
      modifies this`trace, this`coverageDir, this`resultsDir, this`reportsDir
      ensures var flavorName := instrumentationInfo.value.flavorName;
        && reportsDir == Some(ResolveDir(old(reportsDir), buildDir, Reports, flavorName))
        && resultsDir == Some(ResolveDir(old(resultsDir), buildDir, Results, flavorName))
        && coverageDir == Some(ResolveDir(old(coverageDir), buildDir, Coverage, flavorName))
      ensures trace == old(trace) + [CleanFolder(reportsDir.value), CleanFolder(resultsDir.value),
                                     CleanFolder(coverageDir.value)]
    {
      var reports := GetReportsDir();
      trace := trace + [CleanFolder(reports)];
      var results := GetResultsDir();
      trace := trace + [CleanFolder(results)];
      var coverage := GetCoverageDir();
      trace := trace + [CleanFolder(coverage)];
    }

    /** Renders the report, then fails pointing at its index page unless the run succeeded. */
    method GenerateHtmlReport(success: bool) returns (outcome: Outcome)
      requires resultsDir.Some? || instrumentationInfo.Some?
      requires reportsDir.Some? || instrumentationInfo.Some?
      modifies this`trace, this`resultsDir, this`reportsDir
      ensures resultsDir.Some? && reportsDir.Some?
      ensures old(resultsDir).Some? ==> resultsDir == old(resultsDir)
      ensures old(reportsDir).Some? ==> reportsDir == old(reportsDir)
      ensures old(resultsDir).None? ==>
        resultsDir == Some(DefaultDir(buildDir, Results, instrumentationInfo.value.flavorName))
      ensures old(reportsDir).None? ==>
        reportsDir == Some(DefaultDir(buildDir, Reports, instrumentationInfo.value.flavorName))
      ensures trace == old(trace) + [GenerateReport(resultsDir.value, reportsDir.value)]
      ensures success <==> outcome == Completed
      ensures !success ==> outcome == Failed(FailingTests(Child(reportsDir.value, "index.html")))
      ensures !success ==> Message(outcome.error).Some? && FailingTestsText <= Message(outcome.error).value
    {
      var results := GetResultsDir();
      var reports := GetReportsDir();
      trace := trace + [GenerateReport(results, reports)];
      if !success {
        var reportsAgain := GetReportsDir();
        return Failed(FailingTests(Child(reportsAgain, "index.html")));
      }
      outcome := Completed;
    }

    /** The steps of `runTask` before the runner: SDK path, `init`, the bridge and the output folders. */
    method PrepareRun(androidHome: Option<string>)
      requires instrumentationInfo.Some?
      modifies this`trace, this`androidSdkPath, this`commandsForAnnotationProvider,
               this`deviceTypeAdapter, this`instrumentationArgsProvider, this`commandProvider,
               this`coverageDir, this`resultsDir, this`reportsDir
      ensures var info := instrumentationInfo.value;
        && androidSdkPath == (if info.androidSdkPath.Some? then info.androidSdkPath else androidHome)
        && ProviderFields() == FillDefaults(old(ProviderFields()), info, projectName)
        && reportsDir == Some(ResolveDir(old(reportsDir), buildDir, Reports, info.flavorName))
        && resultsDir == Some(ResolveDir(old(resultsDir), buildDir, Results, info.flavorName))
        && coverageDir == Some(ResolveDir(old(coverageDir), buildDir, Coverage, info.flavorName))
      ensures trace == old(trace) + [InitBridgeIfNeeded, AdbInit(androidSdkPath), CleanFolder(reportsDir.value),
                                     CleanFolder(resultsDir.value), CleanFolder(coverageDir.value), WaitForAdb]
    {
      androidSdkPath := instrumentationInfo.value.androidSdkPath;
      var initError := Init(androidHome);
      assert initError.None?;
      trace := trace + [AdbInit(androidSdkPath)];
      PrepareOutputFolders();
      trace := trace + [WaitForAdb];
    }

    /**
     * The steps of `runTask` from the runner on: the runner gets the output
     * paths and, if one is set, the crash handler; the `finally` block
     * generates the report when HTML reports are enabled.
     */
    method RunAndReport(runner: RunnerResult) returns (outcome: Outcome)
      requires instrumentationInfo.Some? && commandProvider.Some?
      requires coverageDir.Some? && resultsDir.Some? && reportsDir.Some?
      modifies this`trace, this`coverageDir, this`resultsDir, this`reportsDir
      ensures coverageDir == old(coverageDir) && resultsDir == old(resultsDir) && reportsDir == old(reportsDir)
      ensures var info := instrumentationInfo.value;
        var context := RunContext(info, Environment(resultsDir.value, reportsDir.value, coverageDir.value),
                                  processCrashHandler);
        && trace == old(trace) + [ProvideDevices, RunCommands(commandProvider.value, context)]
                    + (if info.htmlReportsEnabled then [GenerateReport(resultsDir.value, reportsDir.value)] else [])
        && outcome == RunOutcome(info.htmlReportsEnabled, runner, reportsDir.value)
    {
      var info := instrumentationInfo.value;
      var results := GetResultsDir();
      var reports := GetReportsDir();
      var coverage := GetCoverageDir();
      var context := RunContext(info, Environment(results, reports, coverage), None);
      if processCrashHandler.Some? {
        context := context.(crashHandler := processCrashHandler);
      }
      assert context.crashHandler == processCrashHandler;
      trace := trace + [ProvideDevices];
      trace := trace + [RunCommands(commandProvider.value, context)];
      var success := false;
      var thrown: Option<string> := None;
      match runner {
        case Returned(s) => success := s;
        case Threw(e) => thrown := Some(e);
      }
      // the `finally` block: a failure raised here replaces the runner's exception
      var reportOutcome := Completed;
      if info.htmlReportsEnabled {
        reportOutcome := GenerateHtmlReport(success);
      }
      if reportOutcome.Failed? {
        outcome := reportOutcome;
      } else if thrown.Some? {
        outcome := Failed(RunnerException(thrown.value));
      } else {
        outcome := Completed;
      }
    }

    /**
     * The task action. `androidHome` is the ANDROID_HOME variable and
     * `runner` what the devices run produced.
     */
    method RunTask(androidHome: Option<string>, runner: RunnerResult) returns (outcome: Outcome)
      modifies this`trace, this`androidSdkPath, this`commandsForAnnotationProvider,
               this`deviceTypeAdapter, this`instrumentationArgsProvider, this`commandProvider,
               this`coverageDir, this`resultsDir, this`reportsDir
      ensures old(instrumentationInfo).None? ==> outcome == Failed(NullInstrumentationInfo)
      ensures old(instrumentationInfo).None? ==>
        androidSdkPath == old(androidSdkPath) && trace == old(trace)
        && ProviderFields() == old(ProviderFields())
        && coverageDir == old(coverageDir) && resultsDir == old(resultsDir) && reportsDir == old(reportsDir)
      ensures old(instrumentationInfo).Some? ==>
        var info := old(instrumentationInfo).value;
        && androidSdkPath == (if info.androidSdkPath.Some? then info.androidSdkPath else androidHome)
        && ProviderFields() == FillDefaults(old(ProviderFields()), info, projectName)
        && reportsDir == Some(ResolveDir(old(reportsDir), buildDir, Reports, info.flavorName))
        && resultsDir == Some(ResolveDir(old(resultsDir), buildDir, Results, info.flavorName))
        && coverageDir == Some(ResolveDir(old(coverageDir), buildDir, Coverage, info.flavorName))
        && trace == old(trace) + RunEvents(androidSdkPath, commandProvider.value,
             RunContext(info, Environment(resultsDir.value, reportsDir.value, coverageDir.value),
                        processCrashHandler))
        && outcome == RunOutcome(info.htmlReportsEnabled, runner, reportsDir.value)
    {
      if instrumentationInfo.None? {
        return Failed(NullInstrumentationInfo);
      }
      PrepareRun(androidHome);
      outcome := RunAndReport(runner);
    }
  }

  /**
   * The integration test's configuration (flavour "TEST_FLAVOR", no custom
   * providers, no crash handler) run through `runTask`: the folders cleaned
   * and the paths handed to the runner are the flavour's default
   * directories, and the runner gets the default command provider.
   */
  method IntegrationScenario(buildDir: string, androidHome: Option<string>, htmlReportsEnabled: bool,
                             runner: RunnerResult)
    returns (trace: seq<Event>, outcome: Outcome)
    ensures var reports := buildDir + "/" + "outputs/reports/androidTest/" + "TEST_FLAVOR";
      var results := buildDir + "/" + "outputs/androidTest/" + "TEST_FLAVOR";
      var coverage := buildDir + "/" + "outputs/androidTest/coverage/" + "TEST_FLAVOR";
      var ext := Extension(None, Some("TEST_FLAVOR"), htmlReportsEnabled);
      && |trace| >= 8
      && trace[..7] == [InitBridgeIfNeeded, AdbInit(androidHome), CleanFolder(reports), CleanFolder(results),
                        CleanFolder(coverage), WaitForAdb, ProvideDevices]
      && trace[7] == RunCommands(
           DefaultCommandProvider("sample", DefaultArgsProvider(ext, DefaultDeviceTypeAdapter),
                                  DefaultCommandsForAnnotation),
           RunContext(ext, Environment(results, reports, coverage), None))
      && outcome == RunOutcome(htmlReportsEnabled, runner, reports)
  {
    var ext := Extension(None, Some("TEST_FLAVOR"), htmlReportsEnabled);
    var task := new InstrumentationTestTask(buildDir, "sample", Some(ext));
    outcome := task.RunTask(androidHome, runner);
    trace := task.trace;
  }
}

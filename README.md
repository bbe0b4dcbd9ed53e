# InstrumentationTestTask, modelled in Dafny

This project models the Gradle task `InstrumentationTestTask` of the
android-instrumental-test-runner plugin. The task is the entry point that
runs Android instrumentation tests on connected devices. The model covers
four things:

- **Output directories.** The coverage, results and reports directories are
  optional fields. A value set through a setter wins. Otherwise the first
  call to a getter generates `<buildDir>/outputs/androidTest/coverage/<flavor>`,
  `<buildDir>/outputs/androidTest/<flavor>` or
  `<buildDir>/outputs/reports/androidTest/<flavor>` and stores it. The flavour
  falls back to `default_flavor` when the extension names none.
- **`init`.** A null SDK path is replaced by the `ANDROID_HOME` value. Without
  an extension, `init` fails with "Need to set InstrumentationInfo". Otherwise
  each null provider is replaced by its default. The device-type adapter is
  defaulted only when the default arguments provider is being built.
- **`runTask`.** The steps run in a fixed order: bridge start-up, cleaning the
  reports, results and coverage folders, waiting for the bridge, asking the
  bridge for the devices, then the runner. The report is generated in a `finally` block.
- **The verdict.** A run that did not succeed fails the build with a message
  that points at `<reportsDir>/index.html`. This happens only when HTML reports
  are enabled.

Files:

- `nullable.dfy`: `Option`, which stands for a Java reference that may be null.
- `output_paths.dfy`: the default directory paths as pure functions, plus
  lemmas about them. One lemma gives their inverse. Others show that the three
  directories are distinct, that the reports directory never lies inside the
  other two, and that the flavour `coverage` puts the default coverage
  directory inside the default results directory. A last lemma shows that,
  for a plain flavour name, the generated path is already in the normal form
  `java.io.File` keeps.
- `instrumentation_task.dfy`: the task as a class with nullable fields. Calls
  into outside code are appended as events to a `trace` field. Pure
  specification functions (`FillDefaults`, `RunEvents`, `RunOutcome`) carry the
  properties, and the methods are proved against them.

Some behaviour, as written, is worth knowing:

- With HTML reports disabled, a run whose result is `false` completes without
  any error. Failing tests are reported only through the HTML report.
- With HTML reports enabled and a runner that throws, the report is still
  generated. The `GradleException` raised in the `finally` block then
  replaces the runner's exception.
- `runTask` reads the extension before `init` checks it for null. A task
  without an extension therefore fails with a null dereference
  (`NullInstrumentationInfo`), not with the "Need to set InstrumentationInfo"
  message.

## Model

| member | source | states |
|---|---|---|
| `OutputPaths.NoFlavorSharesDefaultFlavorDirs` | src/main/java/com/github/grishberg/tests/InstrumentationTestTask.java:196-228 | a task whose extension names no flavour gets the same three default directories as one whose flavour is `default_flavor` (line 35) |
| `OutputPaths.DefaultDir` | src/main/java/com/github/grishberg/tests/InstrumentationTestTask.java:196-228 | the generated directory is the build directory, `/`, the kind's `outputs/...` prefix and the defaulted flavour; parsing it back yields exactly that flavour |
| `OutputPaths.ParseDefaultDirSound` | src/main/java/com/github/grishberg/tests/InstrumentationTestTask.java:196-228 | every path the inverse accepts is the default directory of the flavour it returns, so default directories are exactly prefix-plus-flavour |
| `OutputPaths.DefaultDirInjective` | src/main/java/com/github/grishberg/tests/InstrumentationTestTask.java:196-228 | as path strings, two default directories of one kind coincide only when their defaulted flavours are equal; for plain flavour names (see `DefaultDirNormalised`) this holds of the paths `java.io.File` denotes too |
| `OutputPaths.DefaultDirsDistinct` | src/main/java/com/github/grishberg/tests/InstrumentationTestTask.java:196-228 | for one flavour the default coverage, results and reports directories are pairwise different |
| `OutputPaths.ReportsDirApart` | src/main/java/com/github/grishberg/tests/InstrumentationTestTask.java:102-106 | for any flavours the default reports path string neither equals nor has as a `/`-prefix the default results or coverage path string, and the other way round; for plain flavour names the paths are normalised, so cleaning one never removes the other's files |
| `OutputPaths.CoverageInsideResultsForFlavorCoverage` | src/main/java/com/github/grishberg/tests/InstrumentationTestTask.java:196-216 | with flavour `coverage` the default coverage directory lies inside the default results directory |
| `OutputPaths.DefaultDirNormalised` | src/main/java/com/github/grishberg/tests/InstrumentationTestTask.java:196-228 | with a normalised build directory and a flavour that is a plain name (non-empty, no `/`, not `.` or `..`), the generated path has no doubled or trailing separator, so it is already the path `new File(buildDir, ...)` keeps |
| `InstrumentationTests.Message` | src/main/java/com/github/grishberg/tests/InstrumentationTestTask.java:112-117 | the missing-extension failure reads "Need to set InstrumentationInfo"; the failing-tests message starts with "There were failing tests. See the report at: " and ends with the report index path; a runner exception keeps its own message; the null dereference's message is left unspecified |
| `InstrumentationTests.FillDefaults` | src/main/java/com/github/grishberg/tests/InstrumentationTestTask.java:131-148 | afterwards the annotation-commands, args and command providers are all non-null; a provider already set is kept; the adapter is non-null iff it was set or the args provider was null; each default is built from the values `init` hands it |
| `InstrumentationTests.FillDefaultsIdempotent` | src/main/java/com/github/grishberg/tests/InstrumentationTestTask.java:131-148 | filling defaults a second time, even with another extension, changes no provider |
| `InstrumentationTests.RunStepOrder` | src/main/java/com/github/grishberg/tests/InstrumentationTestTask.java:66-93 | the folders are cleaned reports, then results, then coverage; all before the wait for the bridge, which precedes the device query, which precedes the runner; a report is generated iff HTML reports are enabled, and then after the runner |
| `InstrumentationTests.RunOutcome` | src/main/java/com/github/grishberg/tests/InstrumentationTestTask.java:85-92 | the task completes iff the runner returned true, or returned false with HTML reports disabled; with reports enabled every failure points at `<reportsDir>/index.html`; with reports disabled a runner exception propagates unchanged |
| `InstrumentationTests.InstrumentationTestTask.constructor` | src/main/java/com/github/grishberg/tests/InstrumentationTestTask.java:52-55 | the task starts with the project's extension (possibly absent) and every other field null |
| `InstrumentationTests.InstrumentationTestTask.SetInstrumentationInfo` | src/main/java/com/github/grishberg/tests/InstrumentationTestTask.java:151-154 | sets the extension and no other field |
| `InstrumentationTests.InstrumentationTestTask.SetInstrumentationArgsProvider` | src/main/java/com/github/grishberg/tests/InstrumentationTestTask.java:156-159 | sets the args provider and no other field |
| `InstrumentationTests.InstrumentationTestTask.SetCommandsForAnnotationProvider` | src/main/java/com/github/grishberg/tests/InstrumentationTestTask.java:161-164 | sets the annotation-commands provider and no other field |
| `InstrumentationTests.InstrumentationTestTask.SetCommandProvider` | src/main/java/com/github/grishberg/tests/InstrumentationTestTask.java:166-169 | sets the command provider and no other field |
| `InstrumentationTests.InstrumentationTestTask.SetCoverageDir` | src/main/java/com/github/grishberg/tests/InstrumentationTestTask.java:171-174 | sets the coverage directory and no other field |
| `InstrumentationTests.InstrumentationTestTask.SetResultsDir` | src/main/java/com/github/grishberg/tests/InstrumentationTestTask.java:176-179 | sets the results directory and no other field |
| `InstrumentationTests.InstrumentationTestTask.SetReportsDir` | src/main/java/com/github/grishberg/tests/InstrumentationTestTask.java:181-184 | sets the reports directory and no other field |
| `InstrumentationTests.InstrumentationTestTask.SetDeviceTypeAdapter` | src/main/java/com/github/grishberg/tests/InstrumentationTestTask.java:186-194 | sets the device-type adapter and no other field |
| `InstrumentationTests.InstrumentationTestTask.SetProcessCrashHandler` | src/main/java/com/github/grishberg/tests/InstrumentationTestTask.java:234-237 | sets the crash handler and no other field |
| `InstrumentationTests.InstrumentationTestTask.GetCoverageDir` | src/main/java/com/github/grishberg/tests/InstrumentationTestTask.java:196-205 | a set coverage directory is returned unchanged; otherwise the default for the current flavour is returned and stored, so later calls return it whatever the flavour becomes; only the coverage field changes |
| `InstrumentationTests.InstrumentationTestTask.GetResultsDir` | src/main/java/com/github/grishberg/tests/InstrumentationTestTask.java:207-216 | the same for the results directory, `outputs/androidTest/<flavor>` |
| `InstrumentationTests.InstrumentationTestTask.GetReportsDir` | src/main/java/com/github/grishberg/tests/InstrumentationTestTask.java:218-228 | the same for the reports directory, `outputs/reports/androidTest/<flavor>` |
| `InstrumentationTests.InstrumentationTestTask.Init` | src/main/java/com/github/grishberg/tests/InstrumentationTestTask.java:121-149 | starts the bridge; a null SDK path becomes the `ANDROID_HOME` value even when it then fails; fails with the missing-extension error exactly when the extension is null, leaving the providers alone; otherwise the providers become `FillDefaults` of the old ones |
| `InstrumentationTests.InstrumentationTestTask.PrepareOutputFolders` | src/main/java/com/github/grishberg/tests/InstrumentationTestTask.java:102-106 | resolves and cleans the reports, results and coverage folders in that order, fixing all three directory fields |
| `InstrumentationTests.InstrumentationTestTask.GenerateHtmlReport` | src/main/java/com/github/grishberg/tests/InstrumentationTestTask.java:108-119 | the report is rendered from the results and reports directories; the result is a failure pointing at `<reportsDir>/index.html` iff `success` is false, and its message then starts with "There were failing tests. See the report at: " |
| `InstrumentationTests.InstrumentationTestTask.PrepareRun` | src/main/java/com/github/grishberg/tests/InstrumentationTestTask.java:69-73 | the SDK path comes from the extension, else `ANDROID_HOME`; providers are defaulted; the bridge is started and initialised, the folders cleaned and the bridge awaited, in that order |
| `InstrumentationTests.InstrumentationTestTask.RunAndReport` | src/main/java/com/github/grishberg/tests/InstrumentationTestTask.java:75-92 | the devices are queried, then the runner gets the command provider and a context with the three directories and the task's crash handler (none if unset); the report follows iff HTML reports are enabled; the outcome is `RunOutcome` |
| `InstrumentationTests.InstrumentationTestTask.RunTask` | src/main/java/com/github/grishberg/tests/InstrumentationTestTask.java:66-93 | without an extension it fails on the null dereference and changes nothing; otherwise the SDK path, providers and directories end as stated, the calls made are exactly `RunEvents` and the outcome is `RunOutcome` |
| `InstrumentationTests.IntegrationScenario` | src/test/integration/java/com/github/grishberg/tests/InstrumentalTaskTest.java:19-30 | a task of a project whose extension names flavour `TEST_FLAVOR` runs end to end: the folders cleaned and the directories handed to the runner are `<buildDir>/outputs/reports/androidTest/TEST_FLAVOR`, `<buildDir>/outputs/androidTest/TEST_FLAVOR` and `<buildDir>/outputs/androidTest/coverage/TEST_FLAVOR`, the runner gets the default command provider built from the default args provider, and the outcome is `RunOutcome` |

## Left out

- Gradle plumbing: `DefaultTask`, `getProject()`, the task annotations and `initAfterApply`. The build directory and project name are constants of the task. The extension is a value holding the SDK path, flavour name and HTML-reports flag.
- Device bridge (`AndroidDebugBridge.initIfNeeded`, `AdbWrapper.init`, `waitForAdb`, `provideDevices`), `cleanFolder` and report rendering: each is recorded as an event and assumed to return normally. The device list `provideDevices` returns is not a value of the model; it only feeds the runner, whose result is a parameter. Their `IOException` and `InterruptedException` paths are not modelled.
- `DeviceCommandsRunner.runCommands`, the runner factory and the device list: the run's result is a parameter, either a boolean or a thrown exception. Its code is not part of this model.
- `ShardArgumentsImpl`, `DefaultCommandProvider`, `DefaultInstrumentationArgsProvider`, `DefaultDeviceTypeAdapter` and the crash handler: their code is not part of this model. They appear only as the values the task builds and passes on.
- The screenshot-relations map: it is filled by the runner and read by the renderer, so neither is modelled.
- Logging, and `System.getenv("ANDROID_HOME")`, which is a parameter.
- `new File(parent, child)` becomes `parent + "/" + child`. `java.io.File`'s normalisation of the child (dropping a trailing or doubled separator, so an empty flavour or `a/` would collapse onto another path) is not modelled, and `..` is not resolved. The path properties therefore speak of path strings; `DefaultDirNormalised` shows they are the paths `java.io.File` keeps when the build directory is normalised and the flavour is a plain name (non-empty, no `/`, not `.` or `..`). `ConsoleRenderer.asClickableFileUrl` becomes `"file://" + path`, which assumes an absolute path that needs no escaping.
- InstrumentationTests.InstrumentationTestTask.GetCoverageDir: requires a set field or a non-null extension. Without either, Java raises a `NullPointerException`, which the model does not represent.
- InstrumentationTests.InstrumentationTestTask.GetResultsDir: the same requirement, for the same reason.
- InstrumentationTests.InstrumentationTestTask.GetReportsDir: the same requirement, for the same reason.

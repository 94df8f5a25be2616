/**
 * The Replay reporter for Playwright: it reads its own entry out of the
 * Playwright reporter configuration, decides whether to embed each test's
 * source file, and turns every finished, non-skipped test into one payload
 * for the Replay metadata writer. That writer (`ReplayReporter`) is not
 * part of this model: what the reporter hands it is recorded in fields.
 */
module PlaywrightReporter {

  import opened Wrappers
  import opened Builtins
  import opened PlaywrightSteps

  const CaptureTestFileVariable: string := "PLAYWRIGHT_REPLAY_CAPTURE_TEST_FILE"

  /**
   * The initial `captureTestFile`: the lower-cased variable, or `"true"` when
   * it is unset or empty, must be `"1"` or `"true"`.
   */
  function CaptureTestFileFromEnv(env: Env): (r: bool)
    ensures r <==> CaptureTestFileVariable !in env || env[CaptureTestFileVariable] == "" ||
                   ToLower(env[CaptureTestFileVariable]) in {"1", "true"}
  {
    var lowered := if CaptureTestFileVariable in env then Some(ToLower(env[CaptureTestFileVariable])) else None;
    var value := if lowered.Some? && lowered.value != "" then lowered.value else "true";
    value in ["1", "true"]
  }

  /** `ReplayPlaywrightConfig`: `captureTestFile` and the `ReplayReporterConfig` options, passed on unread. */
  datatype PluginConfig = PluginConfig(captureTestFile: Option<bool>, reporterOptions: map<string, string>)

  const DefaultConfig: PluginConfig := PluginConfig(None, map[])

  /** The second element of a Playwright reporter description, as a JavaScript value. */
  datatype ConfigValue =
    | Undefined
    | Null
    | Boolean(b: bool)
    | Number(n: int)
    | Str(s: string)
    | BigInt(big: int)
    | Symbol
    | Function
    | Object(config: PluginConfig)

  predicate Truthy(v: ConfigValue) {
    match v
    case Undefined => false
    case Null => false
    case Boolean(b) => b
    case Number(n) => n != 0
    case Str(s) => s != ""
    case BigInt(big) => big != 0
    case Symbol => true
    case Function => true
    case Object(_) => true
  }

  function TypeOf(v: ConfigValue): string {
    match v
    case Undefined => "undefined"
    case Null => "object"
    case Boolean(_) => "boolean"
    case Number(_) => "number"
    case Str(_) => "string"
    case BigInt(_) => "bigint"
    case Symbol => "symbol"
    case Function => "function"
    case Object(_) => "object"
  }

  /** The falsy values are `undefined`, `null`, `false`, `0`, `0n` and `""`; `null` is falsy although its `typeof` is `"object"`. */
  lemma TruthyValues(v: ConfigValue)
    ensures !Truthy(v) <==>
      v == Undefined || v == Null || v == Boolean(false) || v == Number(0) || v == BigInt(0) || v == Str("")
    ensures !Truthy(Null) && TypeOf(Null) == "object"
  {
  }

  /** A truthy value that is not an object has `typeof` `boolean`, `number`, `bigint`, `string`, `symbol` or `function`, never `object`. */
  lemma WarnedTypeNames(v: ConfigValue)
    requires Truthy(v) && !v.Object?
    ensures TypeOf(v) in {"boolean", "number", "bigint", "string", "symbol", "function"}
  {
  }

  /** `[name, options]` from `config.reporter`. */
  datatype ReporterEntry = ReporterEntry(name: string, options: ConfigValue)

  datatype FullConfig = FullConfig(reporter: seq<ReporterEntry>, version: string)

  /** The entry names this plugin: its path starts with the plugin's directory. */
  predicate IsOwnEntry(entry: ReporterEntry, pluginDir: string) {
    StartsWith(entry.name, pluginDir)
  }

  predicate IsOwnObjectEntry(entry: ReporterEntry, pluginDir: string) {
    IsOwnEntry(entry, pluginDir) && entry.options.Object?
  }

  const ConfigWarningText: string := "Expected an object for @replayio/playwright/reporter configuration but received"

  /** What `parseConfig` returns after the first `n` entries. */
  function ParsedConfig(entries: seq<ReporterEntry>, pluginDir: string): (r: PluginConfig)
    ensures r == DefaultConfig ||
      exists j :: 0 <= j < |entries| && IsOwnObjectEntry(entries[j], pluginDir) && r == entries[j].options.config
  {
    if |entries| == 0 then DefaultConfig
    else
      var last := entries[|entries| - 1];
      if IsOwnObjectEntry(last, pluginDir) then last.options.config
      else ParsedConfig(entries[..|entries| - 1], pluginDir)
  }

  /** An own entry whose options are truthy but not an object: `parseConfig` warns about it. */
  predicate WarnsFor(entry: ReporterEntry, pluginDir: string) {
    IsOwnEntry(entry, pluginDir) && Truthy(entry.options) && !entry.options.Object?
  }

  /** The warning logged for such an entry, naming `typeof` its options. */
  function WarningFor(entry: ReporterEntry): string {
    ConfigWarningText + " " + TypeOf(entry.options)
  }

  /** The warnings `parseConfig` logs: one per own entry whose options are truthy but not an object. */
  function ConfigWarnings(entries: seq<ReporterEntry>, pluginDir: string): (r: seq<string>)
    ensures |r| <= |entries|
    ensures forall k :: 0 <= k < |r| ==> StartsWith(r[k], ConfigWarningText + " ")
  {
    if |entries| == 0 then []
    else
      var last := entries[|entries| - 1];
      ConfigWarnings(entries[..|entries| - 1], pluginDir) +
      (if WarnsFor(last, pluginDir) then [WarningFor(last)] else [])
  }

  /** Without an own entry holding an object, `parseConfig` returns `{}`. */
  lemma {:induction false} NoObjectEntryGivesDefault(entries: seq<ReporterEntry>, pluginDir: string)
    requires forall j :: 0 <= j < |entries| ==> !IsOwnObjectEntry(entries[j], pluginDir)
    ensures ParsedConfig(entries, pluginDir) == DefaultConfig
  {
    if |entries| > 0 {
      var prefix := entries[..|entries| - 1];
      assert forall j :: 0 <= j < |prefix| ==> prefix[j] == entries[j];
      NoObjectEntryGivesDefault(prefix, pluginDir);
    }
  }

  /** The last own entry holding an object wins. */
  lemma {:induction false} LastObjectEntryWins(entries: seq<ReporterEntry>, pluginDir: string, j: nat)
    requires j < |entries| && IsOwnObjectEntry(entries[j], pluginDir)
    requires forall k :: j < k < |entries| ==> !IsOwnObjectEntry(entries[k], pluginDir)
    ensures ParsedConfig(entries, pluginDir) == entries[j].options.config
  {
    if j < |entries| - 1 {
      var prefix := entries[..|entries| - 1];
      assert prefix[j] == entries[j];
      assert forall k :: j < k < |prefix| ==> prefix[k] == entries[k];
      LastObjectEntryWins(prefix, pluginDir, j);
    }
  }

  /** A warning is logged exactly when some own entry has truthy options that are not an object. */
  lemma {:induction false} ConfigWarningsExactly(entries: seq<ReporterEntry>, pluginDir: string)
    ensures ConfigWarnings(entries, pluginDir) == [] <==>
      forall j :: 0 <= j < |entries| ==>
        !WarnsFor(entries[j], pluginDir)
  {
    if |entries| > 0 {
      var prefix := entries[..|entries| - 1];
      ConfigWarningsExactly(prefix, pluginDir);
      assert forall j :: 0 <= j < |prefix| ==> prefix[j] == entries[j];
    }
  }

  /** The positions of the entries `parseConfig` warns about, in order. */
  function WarnedIndices(entries: seq<ReporterEntry>, pluginDir: string): seq<nat> {
    if |entries| == 0 then []
    else
      WarnedIndices(entries[..|entries| - 1], pluginDir) +
      (if WarnsFor(entries[|entries| - 1], pluginDir) then [|entries| - 1] else [])
  }

  /** The positions warned about rise strictly and are exactly the entries `WarnsFor` holds of. */
  lemma {:induction false} WarnedIndicesFacts(entries: seq<ReporterEntry>, pluginDir: string)
    ensures var idx := WarnedIndices(entries, pluginDir);
      && (forall j :: 0 <= j < |idx| ==> idx[j] < |entries|)
      && (forall j, k :: 0 <= j < k < |idx| ==> idx[j] < idx[k])
      && (forall i :: 0 <= i < |entries| ==> (i in idx <==> WarnsFor(entries[i], pluginDir)))
  {
    if |entries| > 0 {
      var prefix := entries[..|entries| - 1];
      WarnedIndicesFacts(prefix, pluginDir);
      assert forall i :: 0 <= i < |prefix| ==> prefix[i] == entries[i];
    }
  }

  /**
   * The j-th warning is about the j-th entry warned about, in entry order,
   * and names the `typeof` of that entry's options.
   */
  lemma {:induction false} ConfigWarningsPerEntry(entries: seq<ReporterEntry>, pluginDir: string)
    ensures var idx := WarnedIndices(entries, pluginDir);
      var w := ConfigWarnings(entries, pluginDir);
      && |w| == |idx|
      && (forall j :: 0 <= j < |idx| ==>
            idx[j] < |entries| && WarnsFor(entries[idx[j]], pluginDir) && w[j] == WarningFor(entries[idx[j]]))
  {
    if |entries| > 0 {
      var prefix := entries[..|entries| - 1];
      ConfigWarningsPerEntry(prefix, pluginDir);
      var idx0 := WarnedIndices(prefix, pluginDir);
      assert forall j :: 0 <= j < |idx0| ==> entries[idx0[j]] == prefix[idx0[j]];
    }
  }

  /** Which entries `parseConfig` warns about, position by position. */
  function WarnFlags(entries: seq<ReporterEntry>, pluginDir: string): (r: seq<bool>)
    ensures |r| == |entries|
  {
    seq(|entries|, i requires 0 <= i < |entries| => WarnsFor(entries[i], pluginDir))
  }

  /** Counting the set positions below `n` adds the last one's flag to the count below `n - 1`. */
  lemma FlagCountStep(flags: seq<bool>, n: nat)
    requires 0 < n <= |flags|
    ensures |set j | 0 <= j < n && flags[j]| == |set j | 0 <= j < n - 1 && flags[j]| + (if flags[n - 1] then 1 else 0)
  {
    var before := set j | 0 <= j < n - 1 && flags[j];
    var all := set j | 0 <= j < n && flags[j];
    if flags[n - 1] {
      assert all == before + {n - 1};
    } else {
      assert all == before;
    }
  }

  /** The first `n` entries give as many warnings as they hold entries warned about. */
  lemma {:induction false} ConfigWarningsCountUpTo(entries: seq<ReporterEntry>, pluginDir: string, n: nat)
    requires n <= |entries|
    ensures |ConfigWarnings(entries[..n], pluginDir)| == |set j | 0 <= j < n && WarnFlags(entries, pluginDir)[j]|
  {
    if n > 0 {
      ConfigWarningsCountUpTo(entries, pluginDir, n - 1);
      ParseConfigStep(entries, pluginDir, n - 1);
      FlagCountStep(WarnFlags(entries, pluginDir), n);
    }
  }

  /** There are as many warnings as own entries with truthy options that are not an object. */
  lemma ConfigWarningsCount(entries: seq<ReporterEntry>, pluginDir: string)
    ensures |ConfigWarnings(entries, pluginDir)| == |set j | 0 <= j < |entries| && WarnsFor(entries[j], pluginDir)|
  {
    ConfigWarningsCountUpTo(entries, pluginDir, |entries|);
    assert entries[..|entries|] == entries;
    var flags := WarnFlags(entries, pluginDir);
    assert (set j | 0 <= j < |entries| && flags[j]) == (set j | 0 <= j < |entries| && WarnsFor(entries[j], pluginDir));
  }

  /** One more entry: the configuration and the warnings after it. */
  lemma ParseConfigStep(entries: seq<ReporterEntry>, pluginDir: string, i: nat)
    requires i < |entries|
    ensures ParsedConfig(entries[..i + 1], pluginDir) ==
      if IsOwnObjectEntry(entries[i], pluginDir) then entries[i].options.config else ParsedConfig(entries[..i], pluginDir)
    ensures ConfigWarnings(entries[..i + 1], pluginDir) ==
      ConfigWarnings(entries[..i], pluginDir) + (if WarnsFor(entries[i], pluginDir) then [WarningFor(entries[i])] else [])
  {
    assert entries[..i + 1][..i] == entries[..i];
  }

  /**
   * `parseConfig(config)`: the `forEach` over `config.reporter` that
   * reassigns `cfg` for every own entry with object options and warns for
   * every own entry with truthy options of another type.
   */
  method ParseConfig(config: FullConfig, pluginDir: string) returns (cfg: PluginConfig, warnings: seq<string>)
    ensures cfg == ParsedConfig(config.reporter, pluginDir)
    ensures warnings == ConfigWarnings(config.reporter, pluginDir)
  {
    cfg := DefaultConfig;
    warnings := [];
    var i := 0;
    while i < |config.reporter|
      invariant 0 <= i <= |config.reporter|
      invariant cfg == ParsedConfig(config.reporter[..i], pluginDir)
      invariant warnings == ConfigWarnings(config.reporter[..i], pluginDir)
    {
      var r := config.reporter[i];
      ParseConfigStep(config.reporter, pluginDir, i);
      if IsOwnEntry(r, pluginDir) {
        if Truthy(r.options) {
          if r.options.Object? {
            cfg := r.options.config;
          } else {
            warnings := warnings + [ConfigWarningText + " " + TypeOf(r.options)];
          }
        }
      }
      i := i + 1;
    }
    assert config.reporter[..i] == config.reporter;
  }

  datatype TestStatus = Passed | Failed | TimedOut | Skipped | Interrupted

  /** A Playwright `TestResult` of the attempt that just ended. */
  datatype TestResult = TestResult(status: TestStatus, steps: seq<TestStep>, workerIndex: nat)

  datatype TestEvents = TestEvents(
    beforeAll: seq<UserActionEvent>,
    afterAll: seq<UserActionEvent>,
    beforeEach: seq<UserActionEvent>,
    afterEach: seq<UserActionEvent>,
    main: seq<UserActionEvent>)

  datatype TestRecord = TestRecord(
    id: int,
    attempt: int,
    approximateDuration: nat,
    source: Source,
    result: TestStatus,
    error: Option<EventError>,
    events: TestEvents)

  /** `{"x-replay-playwright": {sources: {...}}}`: the test files, keyed by spec path. */
  datatype ExtraMetadata = PlaywrightSources(sources: map<string, string>)

  /** What `onTestEnd` hands to `ReplayReporter.onTestEnd`. */
  datatype Payload = Payload(tests: seq<TestRecord>, specFile: Option<string>, replayTitle: string, extraMetadata: Option<ExtraMetadata>)

  /** A computed property key: `undefined` becomes the key `"undefined"`. */
  function PropertyKey(key: Option<string>): string {
    if key.Some? then key.value else "undefined"
  }

  /** A present path is its own key; an absent one is `"undefined"`, the same key as a path spelt `undefined`. */
  lemma PropertyKeyFacts(a: string, b: string)
    ensures PropertyKey(Some(a)) == PropertyKey(Some(b)) <==> a == b
    ensures PropertyKey(None) == "undefined" && PropertyKey(None) == PropertyKey(Some("undefined"))
  {
  }

  /**
   * The embedded test source: only when capture is on and the file could be
   * read (`fileContents` is what `readFileSync(test.location.file)` gives,
   * `None` when it throws).
   */
  function SourceMetadata(captureTestFile: bool, relativePath: Option<string>, fileContents: Option<string>): (r: Option<ExtraMetadata>)
    ensures r.Some? <==> captureTestFile && fileContents.Some?
    ensures r.Some? ==> r.value.sources.Keys == {PropertyKey(relativePath)} &&
                        r.value.sources[PropertyKey(relativePath)] == fileContents.value
  {
    if captureTestFile && fileContents.Some? then Some(PlaywrightSources(map[PropertyKey(relativePath) := fileContents.value]))
    else None
  }

  /** The payload `onTestEnd` builds for a finished test; none for a skipped one. */
  function TestEndPayload(test: TestCase, result: TestResult, captureTestFile: bool, fileContents: Option<string>,
                          strip: string -> string): (r: Option<Payload>)
    ensures r.None? <==> result.status == Skipped
    ensures r.Some? ==> |r.value.tests| == 1 && r.value.replayTitle == test.title && r.value.specFile == At(test.titlePath, 2)
    ensures r.Some? ==> r.value.extraMetadata == SourceMetadata(captureTestFile, At(test.titlePath, 2), fileContents)
  {
    if result.status == Skipped then None
    else
      var steps := result.steps;
      var events := TestEvents([], [], BucketEvents(steps, strip, Some(BeforeEach)),
                               BucketEvents(steps, strip, Some(AfterEach)),
                               BucketEvents(steps, strip, None));
      var record := TestRecord(0, 1, TotalDuration(test.results), GetSource(test), result.status,
                               TopLevelError(steps, strip), events);
      Some(Payload([record], At(test.titlePath, 2), test.title,
                   SourceMetadata(captureTestFile, At(test.titlePath, 2), fileContents)))
  }

  const ReadWarningText: string := "Failed to read playwright test source from "

  /** The warning `onTestEnd` logs when capture is on and the test file cannot be read. */
  function TestEndWarnings(test: TestCase, result: TestResult, captureTestFile: bool, fileContents: Option<string>): (r: seq<string>)
    ensures |r| <= 1
    ensures r == [] <==> result.status == Skipped || !captureTestFile || fileContents.Some?
    ensures r != [] ==> r[0] == ReadWarningText + test.file
  {
    if result.status != Skipped && captureTestFile && fileContents.None? then [ReadWarningText + test.file] else []
  }

  /**
   * A finished test gives exactly one record; its events split the steps
   * among `beforeEach`, `afterEach` and `main` and its error is the first
   * errored step's; a skipped test gives nothing.
   */
  lemma TestEndPayloadFacts(test: TestCase, result: TestResult, captureTestFile: bool, fileContents: Option<string>,
                            strip: string -> string)
    ensures var p := TestEndPayload(test, result, captureTestFile, fileContents, strip);
      && (p.None? <==> result.status == Skipped)
      && (p.Some? ==>
            && |p.value.tests| == 1
            && var record := p.value.tests[0];
            && record.events.beforeAll == [] && record.events.afterAll == []
            && record.events.beforeEach == BucketEvents(result.steps, strip, Some(BeforeEach))
            && record.events.afterEach == BucketEvents(result.steps, strip, Some(AfterEach))
            && record.events.main == BucketEvents(result.steps, strip, None)
            && |record.events.beforeEach| + |record.events.afterEach| + |record.events.main| == |result.steps|
            && record.id == 0 && record.attempt == 1
            && record.source == GetSource(test) && record.result == result.status
            && record.approximateDuration == TotalDuration(test.results)
            && record.source.scope == Slice(test.titlePath, 3, -1)
            && p.value.specFile == At(test.titlePath, 2)
            && p.value.replayTitle == test.title
            && record.error == TopLevelError(result.steps, strip)
            && var k := FindIndex(result.steps, HasErrorMessage);
            && (k == -1 ==> record.error.None?)
            && (k >= 0 ==>
                  record.error == match MapStep(result.steps[k], k, strip).error
                                  case None => None
                                  case Some(e) => Some(e.(name := "Error"))))
  {
    BucketEventsPartition(result.steps, strip);
    TopLevelErrorOfFirstErroredStep(result.steps, strip);
  }

  /**
   * The `for` loop over `result.steps.entries()`: each step's event goes to
   * its hook's list in `hookMap`, or to `steps` (the main list) when it has
   * no hook.
   */
  method CollectStepEvents(steps: seq<TestStep>, strip: string -> string)
    returns (beforeEach: seq<UserActionEvent>, afterEach: seq<UserActionEvent>, main: seq<UserActionEvent>)
    ensures beforeEach == BucketEvents(steps, strip, Some(BeforeEach))
    ensures afterEach == BucketEvents(steps, strip, Some(AfterEach))
    ensures main == BucketEvents(steps, strip, None)
  {
    ghost var events := StepEvents(steps, strip);
    ghost var hooks := StepHooks(steps);
    var hookMap: map<Hook, seq<UserActionEvent>> := map[];
    main := [];
    var i := 0;
    while i < |steps|
      invariant 0 <= i <= |steps|
      invariant BeforeEach in hookMap ==> hookMap[BeforeEach] == Bucket(events, hooks, Some(BeforeEach), i)
      invariant BeforeEach !in hookMap ==> Bucket(events, hooks, Some(BeforeEach), i) == []
      invariant AfterEach in hookMap ==> hookMap[AfterEach] == Bucket(events, hooks, Some(AfterEach), i)
      invariant AfterEach !in hookMap ==> Bucket(events, hooks, Some(AfterEach), i) == []
      invariant main == Bucket(events, hooks, None, i)
    {
      var s := steps[i];
      var hook := MapTestStepHook(s);
      var step := MapStep(s, i, strip);
      StepAt(steps, strip, i);
      BucketStep(events, hooks, Some(BeforeEach), i);
      BucketStep(events, hooks, Some(AfterEach), i);
      BucketStep(events, hooks, None, i);
      if hook.Some? {
        var hookSteps := if hook.value in hookMap then hookMap[hook.value] else [];
        hookSteps := hookSteps + [step];
        hookMap := hookMap[hook.value := hookSteps];
      } else {
        main := main + [step];
      }
      i := i + 1;
    }
    beforeEach := if BeforeEach in hookMap then hookMap[BeforeEach] else [];
    afterEach := if AfterEach in hookMap then hookMap[AfterEach] else [];
  }

  /** The `ReplayReporter` that `onBegin` creates, with what it passes to its constructor and `onTestSuiteBegin`. */
  datatype ReporterSession = ReporterSession(
    runner: string,
    runnerVersion: string,
    pluginVersion: string,
    schemaVersion: string,
    suiteConfig: PluginConfig,
    metadataKey: string)

  /** The metadata file of a worker: `getMetadataFilePathBase("PLAYWRIGHT", workerIndex)`. */
  datatype MetadataFile = MetadataFile(runner: string, workerIndex: nat)

  /** A call of `ReplayReporter.onTestBegin`. */
  datatype TestBeginCall = TestBeginCall(source: Source, metadataFile: MetadataFile)

  class ReplayPlaywrightReporter {
    /** The version read from the plugin's `package.json`. */
    const pluginVersion: string
    var captureTestFile: bool
    /** `this.reporter`: none before `onBegin`. */
    var session: Option<ReporterSession>
    /** Everything handed to the `ReplayReporter`, in order. */
    var testBegins: seq<TestBeginCall>
    var payloads: seq<Payload>
    /** Everything logged with `console.warn`, in order. */
    var warnings: seq<string>

    constructor (env: Env, pluginVersion: string)
      ensures this.pluginVersion == pluginVersion
      ensures captureTestFile == CaptureTestFileFromEnv(env)
      ensures session == None && testBegins == [] && payloads == [] && warnings == []
    {
      this.pluginVersion := pluginVersion;
      captureTestFile := CaptureTestFileFromEnv(env);
      session := None;
      testBegins := [];
      payloads := [];
      warnings := [];
    }

    /**
     * `onBegin(config)`: parse the configuration, open a `ReplayReporter`
     * session with it, and turn capture off when the configuration says
     * `captureTestFile: false`; capture is never turned back on.
     */
    method OnBegin(config: FullConfig, pluginDir: string)
      modifies this
      ensures session == Some(ReporterSession("playwright", config.version, pluginVersion, "2.1.0",
                                              ParsedConfig(config.reporter, pluginDir), "PLAYWRIGHT_REPLAY_METADATA"))
      ensures captureTestFile == (old(captureTestFile) && ParsedConfig(config.reporter, pluginDir).captureTestFile != Some(false))
      ensures warnings == old(warnings) + ConfigWarnings(config.reporter, pluginDir)
      ensures testBegins == old(testBegins) && payloads == old(payloads)
    {
      var cfg, logged := ParseConfig(config, pluginDir);
      warnings := warnings + logged;
      session := Some(ReporterSession("playwright", config.version, pluginVersion, "2.1.0", cfg, "PLAYWRIGHT_REPLAY_METADATA"));
      if cfg.captureTestFile == Some(false) {
        captureTestFile := false;
      }
    }

    /** `onTestBegin(test, testResult)`: tell the session, if there is one, which test starts in which worker file. */
    method OnTestBegin(test: TestCase, result: TestResult)
      modifies this`testBegins
      ensures testBegins == old(testBegins) +
        (if session.Some? then [TestBeginCall(GetSource(test), MetadataFile("PLAYWRIGHT", result.workerIndex))] else [])
    {
      if session.Some? {
        testBegins := testBegins + [TestBeginCall(GetSource(test), MetadataFile("PLAYWRIGHT", result.workerIndex))];
      }
    }

    /**
     * `onTestEnd(test, result)`: nothing for a skipped test; otherwise read
     * the test file when capture is on (warning when that fails), build the
     * payload and hand it to the session, if there is one.
     */
    method OnTestEnd(test: TestCase, result: TestResult, fileContents: Option<string>, strip: string -> string)
      modifies this`payloads, this`warnings
      ensures var p := TestEndPayload(test, result, captureTestFile, fileContents, strip);
        payloads == old(payloads) + (if session.Some? && p.Some? then [p.value] else [])
      ensures warnings == old(warnings) + TestEndWarnings(test, result, captureTestFile, fileContents)
    {
      var status := result.status;
      if status == Skipped {
        return;
      }
      var errorStep := Find(result.steps, HasErrorMessage);
      var errorMessage := ExtractErrorMessage(errorStep, strip);
      var relativePath := At(test.titlePath, 2);
      var playwrightMetadata: Option<ExtraMetadata> := None;
      if captureTestFile {
        if fileContents.Some? {
          playwrightMetadata := Some(PlaywrightSources(map[PropertyKey(relativePath) := fileContents.value]));
        } else {
          warnings := warnings + [ReadWarningText + test.file];
        }
      }
      var beforeEach, afterEach, main := CollectStepEvents(result.steps, strip);
      var error := if errorMessage.Some? && errorMessage.value != "" then
        Some(EventError("Error", errorMessage.value, LineOf(errorStep.value.location), ColumnOf(errorStep.value.location)))
        else None;
      var record := TestRecord(0, 1, TotalDuration(test.results), GetSource(test), status, error,
                               TestEvents([], [], beforeEach, afterEach, main));
      if session.Some? {
        payloads := payloads + [Payload([record], relativePath, test.title, playwrightMetadata)];
      }
    }
  }
}

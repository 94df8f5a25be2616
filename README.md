# Replay test-runner integrations: a Dafny model

This project models the sequential core of the Replay command-line tools and
test-runner plugins:

- the Playwright reporter (`packages/playwright/src/reporter.ts`), which reads
  its own entry from the Playwright reporter configuration, decides whether to
  embed test sources, and turns every finished test into one payload of
  user-action events split into `beforeEach`, `afterEach` and `main`, with a
  cut-down error message per step and one top-level error per test;
- the replay utilities (`packages/replay/src/utils.ts`): the recording
  directory fallback, the recording-id check, the geometric backoff and the
  five-attempt retry loop;
- the Puppeteer integration (`packages/puppeteer/src/index.ts`): the
  per-worker metadata path and the launch environment;
- the recording and sourcemap shapes of `packages/replay/src/types.ts`, as
  datatypes (`RecordingTypes`), with no operations, since none are defined
  beside them.

Modules: `Wrappers` (Option, Result), `Builtins` (JavaScript `startsWith`,
`split`/`join` on one character, `findIndex`/`find`, `slice`, `String(n)`,
ASCII `toLowerCase`, and `process.env` with its `||` lookup), `ReplayUtils`, `Puppeteer`, `PlaywrightSteps` (the pure
step mapping), `PlaywrightReporter` (configuration, the `onTestEnd` loop and
the reporter class), `RecordingTypes`.

Side effects become data. `process.env` is a `map<string, string>` parameter.
`removeAnsiCodes` is a parameter `strip: string -> string`, so every property
holds for any stripping function. The test file's contents are an
`Option<string>` parameter, with `None` standing for a `readFileSync` that
throws. `fn` in the retry loop is a function from call number to outcome.
What the reporter hands to `ReplayReporter` and what it logs with
`console.warn` are appended to sequence fields of the reporter object.

## Behaviour worth knowing

- The test's top-level error comes from the first step whose error message is non-empty (`result.steps.find`, reporter.ts:127). When that step's extracted message is empty, the test has no top-level error, even if a later step has a message (reporter.ts:191-198).
- A `Call log:` line at index 0 gives an empty extracted message (reporter.ts:30-32). An empty message is falsy, so that step's event has no error (reporter.ts:162).
- A step's command name is `step.title` as it is, with no fallback for an empty title (reporter.ts:158).
- Every record is sent with `id: 0` and `attempt: 1` (reporter.ts:186-187), even when Playwright retries the test, and `result` is the attempt's own status (reporter.ts:190).
- The retry loop starts `waitForTime(backoff(currentAttempt))` without awaiting it (utils.ts:76), so consecutive attempts are not spaced out.
- `return fn()` is not awaited (utils.ts:68): only a synchronous throw from `fn` is caught and retried. A promise that `fn` returns and that rejects later is returned as it is, and is not retried; `Outcome` models exactly the synchronous result.

## Model

| member | source | states |
|---|---|---|
| `PlaywrightSteps.MapTestStepCategory` | packages/playwright/src/reporter.ts:35-45 | `expect` maps to assertion, `step` and `pw:api` to command, and every other category to other, each as an if-and-only-if |
| `PlaywrightSteps.MapTestStepHook` | packages/playwright/src/reporter.ts:47-56 | only a `hook` step gets a bucket: `Before Hooks` gives beforeEach and `After Hooks` gives afterEach, both as if-and-only-if; any other step gets none, whatever its title |
| `PlaywrightSteps.KeptLineCount` | packages/playwright/src/reporter.ts:29-32 | the number of kept lines is at most 10 and at most the line count; no kept line starts with `Call log:`; the cut falls at 10 lines, at the first `Call log:` line, or at the end |
| `PlaywrightSteps.KeptPrefixUnique` | packages/playwright/src/reporter.ts:30-31 | that description of the kept lines admits exactly one count |
| `PlaywrightSteps.ExtractErrorMessage` | packages/playwright/src/reporter.ts:28-33 | no result without a step or a message; otherwise the kept lines of the stripped message, joined by newlines |
| `PlaywrightSteps.ExtractedMessageLines` | packages/playwright/src/reporter.ts:28-33 | the extracted message has at most 10 lines; it is empty when no line is kept, and otherwise splits back into exactly the kept lines |
| `PlaywrightSteps.CallLogOnFirstLine` | packages/playwright/src/reporter.ts:30-32 | a `Call log:` on the first stripped line gives the empty message |
| `PlaywrightSteps.SplitThreeLines` | packages/playwright/src/reporter.ts:29 | three newline-free lines joined by newlines split back into those three lines |
| `PlaywrightSteps.CallLogOnSecondLine` | packages/playwright/src/reporter.ts:28-33 | a message of one text line followed by a `Call log:` line extracts to the text line, and the step's event gets it as its error message |
| `PlaywrightSteps.StepErrorPresent` | packages/playwright/src/reporter.ts:152-169 | a step's event has an error exactly when the step has a message whose kept lines are not none and not a single empty line; that error is named `AssertionError` and carries the extracted message |
| `PlaywrightSteps.EventIdsDistinct` | packages/playwright/src/reporter.ts:150-155 | events built for different step indices have different ids (the id is the decimal index) |
| `PlaywrightSteps.BucketIndicesFacts` | packages/playwright/src/reporter.ts:150-181 | the indices of a bucket rise strictly, stay below the step count, and are exactly the positions whose hook is that bucket |
| `PlaywrightSteps.BucketAtIndices` | packages/playwright/src/reporter.ts:150-181 | a bucket has one element per index, and its j-th element is the element at its j-th index, so each bucket keeps its elements in order |
| `PlaywrightSteps.BucketsPartition` | packages/playwright/src/reporter.ts:154-180 | every position goes to exactly one of the `BeforeEach`, `AfterEach` and main buckets, so their sizes add up to the count |
| `PlaywrightSteps.BucketEventsAreSteps` | packages/playwright/src/reporter.ts:148-181 | the events of a bucket are, in step order, exactly the steps whose hook is that bucket, each mapped with its own position as id |
| `PlaywrightSteps.BucketEventsPartition` | packages/playwright/src/reporter.ts:148-181 | the sizes of `beforeEach`, `afterEach` and `main` add up to the number of steps |
| `PlaywrightSteps.MapStepFields` | packages/playwright/src/reporter.ts:153-172 | a step's event has an id that parses back to the step's index, no parent, the step's title as command name with no arguments, the step's title path as scope, the step's error and the step's category |
| `PlaywrightSteps.StepError` | packages/playwright/src/reporter.ts:162-169 | a step without a message has no error; an error is named `AssertionError`, has a non-empty message, and carries the step's line and column |
| `PlaywrightSteps.HasErrorMessageCases` | packages/playwright/src/reporter.ts:127 | `find` skips a step without a message or with the empty message, and a step it picks yields an extracted message |
| `PlaywrightSteps.TopLevelError` | packages/playwright/src/reporter.ts:191-198 | no step with a non-empty message means no top-level error; a top-level error is named `Error` and has a non-empty message |
| `PlaywrightSteps.TotalDuration` | packages/playwright/src/reporter.ts:188 | the summed duration is 0 exactly when every attempt lasted 0 |
| `PlaywrightSteps.GetTestId` | packages/playwright/src/reporter.ts:68-70 | an empty title path gives the empty id; otherwise the id starts with the first title |
| `PlaywrightSteps.TopLevelErrorOfFirstErroredStep` | packages/playwright/src/reporter.ts:127-128 | no top-level error without a step with a non-empty message; otherwise it is the first such step's event error renamed `Error`, and none when that step's event has none |
| `PlaywrightSteps.TotalDurationAppend` | packages/playwright/src/reporter.ts:188 | the summed duration of two runs of attempts is the sum of their sums |
| `PlaywrightSteps.TotalDurationBound` | packages/playwright/src/reporter.ts:188 | no attempt's duration exceeds the sum |
| `PlaywrightSteps.GetSource` | packages/playwright/src/reporter.ts:94-99 | the title is kept; the scope is the title path from index 3 without its last element, and empty for paths of length 4 or less |
| `PlaywrightSteps.GetTestIdSplits` | packages/playwright/src/reporter.ts:68-70 | a title path without `-` in its titles can be read back from the id by splitting on `-` |
| `PlaywrightReporter.CaptureTestFileFromEnv` | packages/playwright/src/reporter.ts:64-66 | capture is on exactly when the variable is unset or empty, or its lower-cased value is `1` or `true` |
| `PlaywrightReporter.ParsedConfig` | packages/playwright/src/reporter.ts:72-92 | the parsed configuration is `{}` or the object of some own entry |
| `PlaywrightReporter.ConfigWarnings` | packages/playwright/src/reporter.ts:78-86 | at most one warning per entry, each starting with the fixed warning text followed by a space (before the `typeof` name) |
| `PlaywrightReporter.ConfigWarningsPerEntry` | packages/playwright/src/reporter.ts:74-89 | one warning per entry warned about, in entry order, the j-th naming the `typeof` of the j-th such entry's options |
| `PlaywrightReporter.WarnedIndicesFacts` | packages/playwright/src/reporter.ts:77-86 | the entries warned about, in strictly rising order, are exactly the own entries with truthy options that are not an object |
| `PlaywrightReporter.ConfigWarningsCount` | packages/playwright/src/reporter.ts:74-89 | the number of warnings is the number of own entries with truthy options that are not an object |
| `PlaywrightReporter.TruthyValues` | packages/playwright/src/reporter.ts:78 | `if (r[1])` skips exactly `undefined`, `null`, `false`, `0`, `0n` and `""`; `null` is skipped although its `typeof` is `object` |
| `PlaywrightReporter.WarnedTypeNames` | packages/playwright/src/reporter.ts:79-85 | a warning names `boolean`, `number`, `bigint`, `string`, `symbol` or `function`, never `object` |
| `PlaywrightReporter.NoObjectEntryGivesDefault` | packages/playwright/src/reporter.ts:72-92 | without an own entry holding an object, the parsed configuration is `{}` |
| `PlaywrightReporter.LastObjectEntryWins` | packages/playwright/src/reporter.ts:72-92 | when entry j is the last own entry holding an object, the parsed configuration is that object |
| `PlaywrightReporter.ConfigWarningsExactly` | packages/playwright/src/reporter.ts:78-86 | a warning is logged exactly when some own entry holds truthy options that are not an object |
| `PlaywrightReporter.ParseConfig` | packages/playwright/src/reporter.ts:72-92 | the loop's configuration and warnings are those of the whole entry list under the specification functions above |
| `PlaywrightReporter.PropertyKeyFacts` | packages/playwright/src/reporter.ts:138 | the computed key `[relativePath]` is the path itself, different paths give different keys, and an undefined path gives the key `"undefined"` |
| `PlaywrightReporter.SourceMetadata` | packages/playwright/src/reporter.ts:133-146 | test sources are embedded exactly when capture is on and the file could be read, under the single key `titlePath()[2]` (`"undefined"` when absent) with the file's contents |
| `PlaywrightReporter.TestEndPayload` | packages/playwright/src/reporter.ts:122-211 | no payload exactly for a skipped test; otherwise one record, `replayTitle` = title, `specFile` = title path element 2, and the embedded sources above |
| `PlaywrightReporter.TestEndWarnings` | packages/playwright/src/reporter.ts:133-146 | at most one warning; there is one exactly when the test is not skipped, capture is on and the file could not be read, and it names the test file |
| `PlaywrightReporter.TestEndPayloadFacts` | packages/playwright/src/reporter.ts:122-211 | a skipped test gives no payload; any other gives one record with `id` 0, `attempt` 1, `source` = `getSource(test)`, `result` = the status, empty `beforeAll`/`afterAll`, the three buckets given by the bucket functions (their sizes adding up to the step count), the summed duration, the title-path scope, `specFile` = title path element 2, `replayTitle` = title, and as top-level error exactly the first errored step's event error renamed `Error` (none when there is no such step or its event has no error) |
| `PlaywrightReporter.CollectStepEvents` | packages/playwright/src/reporter.ts:148-181 | the loop's `beforeEach`, `afterEach` and `main` lists equal the bucket specification functions over all steps |
| `PlaywrightReporter.ReplayPlaywrightReporter.constructor` | packages/playwright/src/reporter.ts:62-66 | capture starts from the environment rule; no session, nothing sent, nothing logged |
| `PlaywrightReporter.ReplayPlaywrightReporter.OnBegin` | packages/playwright/src/reporter.ts:101-116 | the session holds runner `playwright`, the Playwright and plugin versions, schema `2.1.0` and the parsed configuration; capture is turned off by `captureTestFile: false` and never turned on; configuration warnings are appended |
| `PlaywrightReporter.ReplayPlaywrightReporter.OnTestBegin` | packages/playwright/src/reporter.ts:118-120 | with a session, one test-begin call with the test's source and its worker's metadata file is appended; without one, nothing |
| `PlaywrightReporter.ReplayPlaywrightReporter.OnTestEnd` | packages/playwright/src/reporter.ts:122-212 | with a session, the test's payload (if any) is appended to what was sent; the read warning for an unreadable test file is appended to the log |
| `ReplayUtils.Home` | packages/replay/src/utils.ts:26 | the home directory is a non-empty `HOME`, else `USERPROFILE` when set (even empty), and is missing exactly when neither applies |
| `ReplayUtils.PathJoin` | packages/replay/src/utils.ts:28 | the joined path starts with the directory, and is the name alone after an empty directory, or the two with exactly one `/` between them |
| `ReplayUtils.PathJoinInjective` | packages/puppeteer/src/index.ts:24 | joining two different names onto the same directory gives two different paths |
| `ReplayUtils.GetDirectory` | packages/replay/src/utils.ts:25-30 | a non-empty `opts.directory`, else a non-empty `RECORD_REPLAY_DIRECTORY`, else `.replay` under `HOME` or `USERPROFILE`, else the error `path.join` raises; a directory found is never empty |
| `ReplayUtils.GetDirectoryFails` | packages/replay/src/utils.ts:25-30 | the lookup fails exactly when no option, no override, no non-empty `HOME` and no `USERPROFILE` is present |
| `ReplayUtils.IsValidUUID` | packages/replay/src/utils.ts:32-42 | true exactly for strings of length 36 whose every character is one of `0123456789abcdef-`; non-strings and upper-case hex are rejected |
| `ReplayUtils.BackoffBase` | packages/replay/src/utils.ts:55 | the deterministic delay is at least 100 ms |
| `ReplayUtils.BackoffDoubles` | packages/replay/src/utils.ts:53-56 | the base delay is 100 ms at iteration 0 and doubles with each iteration, so it is `2 ** n * 100` |
| `ReplayUtils.BackoffMonotone` | packages/replay/src/utils.ts:53-56 | the base delay never shrinks as the iteration grows |
| `ReplayUtils.Backoff` | packages/replay/src/utils.ts:48-56 | with jitter in [0, 100) the delay lies in [base, base + 100) |
| `ReplayUtils.RetryFrom` | packages/replay/src/utils.ts:64-79 | from a loop-head value below 5, `fn` is called at least once and at most the remaining attempts, one backoff fewer is started than calls made, `ShouldBeUnreachable` is not thrown, and `onFail` sees at most one error per call and none without `onFail` |
| `ReplayUtils.Retry` | packages/replay/src/utils.ts:60-80 | the run from the first iteration fits the description of a retry run: calls until the first return or the fifth failure, errors to `onFail`, a backoff after every failure but the fifth |
| `ReplayUtils.RetryFromFacts` | packages/replay/src/utils.ts:64-79 | from any loop-head value of `currentAttempt`, `fn` is called until it returns or the fifth call throws, every error goes to `onFail` when given, and a backoff follows each failure but the fifth |
| `ReplayUtils.RetryRunUnique` | packages/replay/src/utils.ts:64-79 | at most one run fits that description |
| `ReplayUtils.RetryNeverUnreachable` | packages/replay/src/utils.ts:65-79 | the final `ShouldBeUnreachable` error is never thrown |
| `ReplayUtils.RetryAlwaysFailing` | packages/replay/src/utils.ts:58-80 | an `fn` that always throws is called 5 times, `onFail` receives all 5 errors, backoffs 1 to 4 are started, and the fifth error is rethrown |
| `ReplayUtils.RetryFirstSuccess` | packages/replay/src/utils.ts:65-72 | when call j is the first to return, `fn` is called j times, `onFail` j - 1 times, and call j's value is returned |
| `ReplayUtils.ExponentialBackoffRetry` | packages/replay/src/utils.ts:58-80 | the `while` loop produces exactly the run described above and equal to the recursive specification |
| `Puppeteer.GetMetadataFilePath` | packages/puppeteer/src/index.ts:23-25 | fails exactly when the directory lookup fails; otherwise the path is `PUPPETEER_METADATA_<n>` joined onto the directory, which it starts with |
| `Puppeteer.DefaultWorkerIsZero` | packages/puppeteer/src/index.ts:23 | no worker index is the same as worker 0 |
| `Puppeteer.DistinctWorkersDistinctPaths` | packages/puppeteer/src/index.ts:24 | different worker indices give different metadata paths |
| `Puppeteer.GetDeviceConfig` | packages/puppeteer/src/index.ts:6-21 | the launch environment has exactly the inherited keys plus `RECORD_ALL_CONTENT`, that key holds the number 1, every other key keeps its value, and the browser type is `chromium` |
| `Builtins.EnvValue` | packages/replay/src/utils.ts:26-28 | an environment lookup under `||` is present exactly when the variable is set and non-empty, with its value |
| `Builtins.Split` | packages/playwright/src/reporter.ts:29 | a split has at least one piece |
| `Builtins.SplitCount` | packages/playwright/src/reporter.ts:29 | a split has exactly one more piece than the string has separators |
| `Builtins.JoinShape` | packages/playwright/src/reporter.ts:32 | joining no pieces gives the empty string; otherwise the result starts with the first piece and holds at least one separator per further piece |
| `Builtins.FindIndex` | packages/playwright/src/reporter.ts:30 | the index is -1 or in range; the element there satisfies the test; no earlier element does (no element at all for -1) |
| `Builtins.Find` | packages/playwright/src/reporter.ts:127 | `find` gives nothing exactly when `findIndex` gives -1, and otherwise the element at that index |
| `Builtins.At` | packages/playwright/src/reporter.ts:130 | `titlePath()[2]` is present exactly when the path has more than two titles, and is then that title |
| `Builtins.ToLower` | packages/playwright/src/reporter.ts:65 | lower-casing keeps the length and maps each character by itself (ASCII `A`-`Z` to `a`-`z`) |
| `Builtins.Slice` | packages/playwright/src/reporter.ts:97 | a slice is never longer than the sequence; in-range bounds give that subsequence; a negative end counts from the end, and crossed bounds give the empty sequence |
| `Builtins.Decimal` | packages/playwright/src/reporter.ts:155 | `String(n)` is a non-empty string of decimal digits with no leading zero above 9 |
| `Builtins.ParseDecimalOfDecimal` | packages/playwright/src/reporter.ts:155 | reading back the decimal rendering of a number gives the number |
| `Builtins.DecimalInjective` | packages/playwright/src/reporter.ts:155 | different numbers render to different decimal strings, which makes step ids and worker paths unique |

## Left out

- `removeAnsiCodes`, `ReplayReporter` and the base `getMetadataFilePath` of the test-utils package are not part of this model. Stripping is an arbitrary parameter, assumed to leave an absent message absent. What the reporter hands to `ReplayReporter` is recorded instead of written. The Playwright metadata file is kept as the pair (`PLAYWRIGHT`, worker index), because its path comes from the base function, defined in `@replayio/test-utils`, which this model does not include.
- Reading the test file (`readFileSync`, reporter.ts:133-146) is an optional parameter. The error object logged by the second `console.warn` is not modelled; only the message line is.
- The reporter's own-entry test `r[0].startsWith(path.resolve(__dirname, ".."))` takes the resolved directory as the parameter `pluginDir`. Path resolution is not modelled.
- `ReplayReporterConfig` is defined in `@replayio/test-utils`, which this model does not include, so its fields are an opaque string map carried to the session unread. A `captureTestFile` that is not a boolean behaves like an absent one, because only `=== false` is tested.
- JavaScript values in reporter options: `NaN` and non-integer numbers are not modelled. BigInt and Symbol values are modelled (`0n` is falsy; their `typeof` is `bigint` and `symbol`).
- `ExponentialBackoffRetry`, `RetryFrom`: `onFail` is assumed to return normally. A throw from `onFail` (utils.ts:70-71) would end the retry at once with that error, with no further call of `fn` and no backoff; the model does not capture that exit, so `Retry`, `IsRetryRunFrom`, `RetryAlwaysFailing` and `RetryFirstSuccess` describe runs with a normally returning `onFail`.
- `toLowerCase` is modelled for ASCII letters only. No non-ASCII character lower-cases into the letters of `true`, so the capture rule keeps the same outcome.
- `path.join` is modelled as joining with one `/` and no normalisation of `.`, `..` or repeated separators. Windows separators are not modelled.
- `TotalDuration`: durations are whole milliseconds (`nat`). Floating-point sums are not modelled.
- `Backoff`: the jitter (`Math.random() * 100`) is a parameter and the arithmetic is exact real arithmetic, not floating point.
- `waitForTime` and `setTimeout`: the backoff timer is not awaited in the retry loop, so the model only records which backoffs are started.
- `defer`, `maybeLog`/`debug`, `getExecutablePath`/`getPuppeteerBrowserPath` (the executable path is a parameter) and the `devices` getter are foreign or I/O calls.
- `packages/replay/src/bin.ts` is command-line wiring over operations (`main.ts`) that are not part of this model. The recording registry, its status transitions, upload, the batch size cap and removal are implemented there, so the status enum is modelled without transitions.
- `isValidUUID` receives Dafny strings of Unicode scalar values, while JavaScript counts UTF-16 code units. The verdict is the same, because any character outside the basic plane is rejected by the character check anyway.

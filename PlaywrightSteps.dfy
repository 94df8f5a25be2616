/**
 * The pure part of the Playwright reporter: how one Playwright test step
 * becomes a Replay user-action event, which hook bucket it belongs to, how
 * an error message is cut down, and how a test's title path and attempts
 * become the source and duration of its result record.
 */
module PlaywrightSteps {

  import opened Wrappers
  import opened Builtins

  datatype Location = Location(line: int, column: int)

  /** A Playwright `TestStep`: `errorMessage` is `step.error?.message`. */
  datatype TestStep = TestStep(
    title: string,
    category: string,
    errorMessage: Option<string>,
    location: Option<Location>,
    titlePath: seq<string>)

  /** One attempt of a test (`TestCase.results[i]`); the duration is in whole milliseconds. */
  datatype AttemptResult = AttemptResult(duration: nat)

  /** A Playwright `TestCase`: `titlePath` is `test.titlePath()`, `file` is `test.location.file`. */
  datatype TestCase = TestCase(title: string, titlePath: seq<string>, file: string, results: seq<AttemptResult>)

  datatype Category = Assertion | Command | Other

  datatype Hook = BeforeEach | AfterEach

  datatype EventError = EventError(name: string, message: string, line: Option<int>, column: Option<int>)

  datatype CommandInfo = CommandInfo(name: string, arguments: seq<string>)

  /** `UserActionEvent["data"]` */
  datatype UserActionEvent = UserActionEvent(
    id: string,
    parentId: Option<string>,
    command: CommandInfo,
    scope: seq<string>,
    error: Option<EventError>,
    category: Category)

  datatype Source = Source(title: string, scope: seq<string>)

  /** `mapTestStepCategory(step)` */
  function MapTestStepCategory(step: TestStep): (r: Category)
    ensures r == Assertion <==> step.category == "expect"
    ensures r == Command <==> step.category == "step" || step.category == "pw:api"
    ensures r == Other <==> step.category !in {"expect", "step", "pw:api"}
  {
    match step.category
    case "expect" => Assertion
    case "step" => Command
    case "pw:api" => Command
    case _ => Other
  }

  /** `mapTestStepHook(step)`: only a `hook` step has a bucket, and only for the two hook titles. */
  function MapTestStepHook(step: TestStep): (r: Option<Hook>)
    ensures r.Some? ==> step.category == "hook"
    ensures r == Some(BeforeEach) <==> step.category == "hook" && step.title == "Before Hooks"
    ensures r == Some(AfterEach) <==> step.category == "hook" && step.title == "After Hooks"
  {
    if step.category != "hook" then None
    else if step.title == "Before Hooks" then Some(BeforeEach)
    else if step.title == "After Hooks" then Some(AfterEach)
    else None
  }

  const CallLogMarker: string := "Call log:"

  const MaxErrorLines: nat := 10

  predicate IsCallLog(line: string) {
    StartsWith(line, CallLogMarker)
  }

  /** The kept lines are exactly the first `n`: none of them is a call log, and the cut is at 10 lines, at the first call log, or at the end. */
  ghost predicate IsKeptPrefix(lines: seq<string>, n: nat) {
    && n <= MaxErrorLines && n <= |lines|
    && (forall j :: 0 <= j < n ==> !IsCallLog(lines[j]))
    && (n < MaxErrorLines && n < |lines| ==> IsCallLog(lines[n]))
  }

  /** How many lines `extractErrorMessage` keeps: `slice(0, min(findIndex(callLog), 10))`, or 10 without a call log. */
  function KeptLineCount(lines: seq<string>): (n: nat)
    ensures IsKeptPrefix(lines, n)
  {
    var callLog := FindIndex(lines, IsCallLog);
    var stackStart := if callLog == -1 then MaxErrorLines else if callLog < MaxErrorLines then callLog else MaxErrorLines;
    |Slice(lines, 0, stackStart)|
  }

  /** The description of the kept lines fixes their number. */
  lemma KeptPrefixUnique(lines: seq<string>, n: nat, m: nat)
    requires IsKeptPrefix(lines, n) && IsKeptPrefix(lines, m)
    ensures n == m
  {
  }

  /** The lines of an error message once `removeAnsiCodes` (the parameter `strip`) has run. */
  function ErrorLines(message: string, strip: string -> string): (lines: seq<string>)
    ensures |lines| >= 1
  {
    Split(strip(message), '\n')
  }

  /**
   * `extractErrorMessage(errorStep)`: nothing without a step or a message;
   * otherwise the kept lines of the stripped message joined by newlines.
   */
  function ExtractErrorMessage(errorStep: Option<TestStep>, strip: string -> string): (r: Option<string>)
    ensures r.None? <==> errorStep.None? || errorStep.value.errorMessage.None?
    ensures r.Some? ==>
      var lines := ErrorLines(errorStep.value.errorMessage.value, strip);
      r.value == Join(lines[..KeptLineCount(lines)], '\n')
  {
    if errorStep.None? || errorStep.value.errorMessage.None? then None
    else
      var lines := ErrorLines(errorStep.value.errorMessage.value, strip);
      Some(Join(Slice(lines, 0, KeptLineCount(lines)), '\n'))
  }

  /**
   * The extracted message has at most 10 lines, and when any line is kept
   * its lines are exactly the kept ones.
   */
  lemma ExtractedMessageLines(step: TestStep, strip: string -> string)
    requires step.errorMessage.Some?
    ensures var lines := ErrorLines(step.errorMessage.value, strip);
      var r := ExtractErrorMessage(Some(step), strip).value;
      var n := KeptLineCount(lines);
      && |Split(r, '\n')| <= MaxErrorLines
      && (n == 0 ==> r == "")
      && (n > 0 ==> Split(r, '\n') == lines[..n])
  {
    var lines := ErrorLines(step.errorMessage.value, strip);
    var n := KeptLineCount(lines);
    SplitPiecesFree(strip(step.errorMessage.value), '\n');
    if n > 0 {
      SplitJoin(lines[..n], '\n');
    }
  }

  /** A message whose first stripped line is a call log extracts to the empty string. */
  lemma CallLogOnFirstLine(step: TestStep, strip: string -> string)
    requires step.errorMessage.Some?
    requires IsCallLog(ErrorLines(step.errorMessage.value, strip)[0])
    ensures ExtractErrorMessage(Some(step), strip) == Some("")
  {
    var lines := ErrorLines(step.errorMessage.value, strip);
    assert !IsKeptPrefix(lines, 1);
    KeptPrefixUnique(lines, KeptLineCount(lines), 0);
  }

  /** Three separator-free lines joined by newlines split back into those lines. */
  lemma SplitThreeLines(first: string, second: string, third: string)
    requires '\n' !in first && '\n' !in second && '\n' !in third
    ensures Split(first + "\n" + second + "\n" + third, '\n') == [first, second, third]
  {
    SplitAfterPiece(second, third, '\n');
    SplitWithoutSeparator(third, '\n');
    SplitAfterPiece(first, second + "\n" + third, '\n');
    assert first + "\n" + second + "\n" + third == first + "\n" + (second + "\n" + third);
  }

  /**
   * A message such as `"expected true\nCall log:\n  - foo"`, text on the
   * first line and a call log on the second, extracts to its first line,
   * and the step's event carries that as its error.
   */
  lemma CallLogOnSecondLine(step: TestStep, strip: string -> string, first: string, marker: string, rest: string)
    requires step.errorMessage.Some?
    requires strip(step.errorMessage.value) == first + "\n" + marker + "\n" + rest
    requires '\n' !in first && '\n' !in marker && '\n' !in rest
    requires first != "" && !IsCallLog(first) && IsCallLog(marker)
    ensures ExtractErrorMessage(Some(step), strip) == Some(first)
    ensures StepError(step, strip).Some? && StepError(step, strip).value.message == first
  {
    SplitThreeLines(first, marker, rest);
    var lines := ErrorLines(step.errorMessage.value, strip);
    assert lines == [first, marker, rest];
    KeptPrefixUnique(lines, KeptLineCount(lines), 1);
    assert lines[..1] == [first];
  }

  function LineOf(location: Option<Location>): Option<int> {
    if location.Some? then Some(location.value.line) else None
  }

  function ColumnOf(location: Option<Location>): Option<int> {
    if location.Some? then Some(location.value.column) else None
  }

  /** The error attached to a step's event: a truthy extracted message, named `AssertionError`. */
  function StepError(step: TestStep, strip: string -> string): (r: Option<EventError>)
    ensures step.errorMessage.None? ==> r.None?
    ensures r.Some? ==> r.value.name == "AssertionError" && r.value.message != ""
    ensures r.Some? ==> r.value.line == LineOf(step.location) && r.value.column == ColumnOf(step.location)
  {
    var message := ExtractErrorMessage(Some(step), strip);
    if message.Some? && message.value != "" then
      Some(EventError("AssertionError", message.value, LineOf(step.location), ColumnOf(step.location)))
    else None
  }

  /** The event built for the step at index `i` of `result.steps`. */
  function MapStep(step: TestStep, i: nat, strip: string -> string): UserActionEvent {
    UserActionEvent(Decimal(i), None, CommandInfo(step.title, []), step.titlePath,
                    StepError(step, strip), MapTestStepCategory(step))
  }

  /**
   * A step's event: its id reads back as the step's index, it has no
   * parent, its command is the step's title with no arguments, its scope is
   * the step's title path, and its error and category are the step's.
   */
  lemma MapStepFields(step: TestStep, i: nat, strip: string -> string)
    ensures var e := MapStep(step, i, strip);
      && ParseDecimal(e.id) == i && e.parentId.None?
      && e.command.name == step.title && e.command.arguments == [] && e.scope == step.titlePath
      && e.error == StepError(step, strip) && e.category == MapTestStepCategory(step)
  {
    ParseDecimalOfDecimal(i);
  }

  /**
   * A step's event has an error exactly when the step has a message whose
   * kept lines are not none and not a single empty line.
   */
  lemma StepErrorPresent(step: TestStep, i: nat, strip: string -> string)
    ensures var e := MapStep(step, i, strip).error;
      e.Some? <==>
        step.errorMessage.Some? &&
        var lines := ErrorLines(step.errorMessage.value, strip);
        var n := KeptLineCount(lines);
        n >= 1 && !(n == 1 && lines[0] == "")
    ensures var e := MapStep(step, i, strip).error;
      e.Some? ==> e.value.name == "AssertionError" && e.value.message == ExtractErrorMessage(Some(step), strip).value
  {
    if step.errorMessage.Some? {
      var lines := ErrorLines(step.errorMessage.value, strip);
      var n := KeptLineCount(lines);
      JoinEmpty(lines[..n], '\n');
      if n >= 1 {
        assert lines[..n][0] == lines[0];
      }
    }
  }

  /** Events of different steps of one test never share an id. */
  lemma EventIdsDistinct(s: TestStep, t: TestStep, i: nat, j: nat, strip: string -> string)
    requires i != j
    ensures MapStep(s, i, strip).id != MapStep(t, j, strip).id
  {
    DecimalInjective(i, j);
  }

  /** Each step's event, with the step's position as its id. */
  function StepEvents(steps: seq<TestStep>, strip: string -> string): (r: seq<UserActionEvent>)
    ensures |r| == |steps|
  {
    seq(|steps|, i requires 0 <= i < |steps| => MapStep(steps[i], i, strip))
  }

  /** Each step's hook bucket (`None` is the main list). */
  function StepHooks(steps: seq<TestStep>): (r: seq<Option<Hook>>)
    ensures |r| == |steps|
  {
    seq(|steps|, i requires 0 <= i < |steps| => MapTestStepHook(steps[i]))
  }

  /** The event and hook recorded for position `i`. */
  lemma StepAt(steps: seq<TestStep>, strip: string -> string, i: nat)
    requires i < |steps|
    ensures StepEvents(steps, strip)[i] == MapStep(steps[i], i, strip)
    ensures StepHooks(steps)[i] == MapTestStepHook(steps[i])
  {
  }

  /** The positions, below `n`, whose hook is `bucket`. */
  function BucketIndices(hooks: seq<Option<Hook>>, bucket: Option<Hook>, n: nat): seq<nat>
    requires n <= |hooks|
  {
    if n == 0 then []
    else BucketIndices(hooks, bucket, n - 1) + (if hooks[n - 1] == bucket then [n - 1] else [])
  }

  /** The elements of the first `n` positions whose hook is `bucket`, in order. */
  function Bucket<X>(xs: seq<X>, hooks: seq<Option<Hook>>, bucket: Option<Hook>, n: nat): seq<X>
    requires n <= |xs| && n <= |hooks|
  {
    if n == 0 then []
    else Bucket(xs, hooks, bucket, n - 1) + (if hooks[n - 1] == bucket then [xs[n - 1]] else [])
  }

  /** The events of a test's steps that go to `bucket`, in step order. */
  function BucketEvents(steps: seq<TestStep>, strip: string -> string, bucket: Option<Hook>): seq<UserActionEvent> {
    Bucket(StepEvents(steps, strip), StepHooks(steps), bucket, |steps|)
  }

  /** One more position extends exactly the bucket it belongs to. */
  lemma BucketStep<X>(xs: seq<X>, hooks: seq<Option<Hook>>, bucket: Option<Hook>, i: nat)
    requires i < |xs| && i < |hooks|
    ensures Bucket(xs, hooks, bucket, i + 1) == Bucket(xs, hooks, bucket, i) + (if hooks[i] == bucket then [xs[i]] else [])
  {
  }

  /** A bucket's indices rise strictly and are exactly the positions of that bucket. */
  lemma {:induction false} BucketIndicesFacts(hooks: seq<Option<Hook>>, bucket: Option<Hook>, n: nat)
    requires n <= |hooks|
    ensures var idx := BucketIndices(hooks, bucket, n);
      && (forall j :: 0 <= j < |idx| ==> idx[j] < n)
      && (forall j, k :: 0 <= j < k < |idx| ==> idx[j] < idx[k])
      && (forall i :: 0 <= i < n ==> (i in idx <==> hooks[i] == bucket))
  {
    if n > 0 {
      BucketIndicesFacts(hooks, bucket, n - 1);
    }
  }

  /** A bucket holds the elements at its indices. */
  lemma {:induction false} BucketAtIndices<X>(xs: seq<X>, hooks: seq<Option<Hook>>, bucket: Option<Hook>, n: nat)
    requires n <= |xs| && n <= |hooks|
    ensures var idx := BucketIndices(hooks, bucket, n);
      var b := Bucket(xs, hooks, bucket, n);
      && |b| == |idx|
      && forall j :: 0 <= j < |idx| ==> idx[j] < n && b[j] == xs[idx[j]]
  {
    if n > 0 {
      BucketAtIndices(xs, hooks, bucket, n - 1);
    }
  }

  /** Every position goes to exactly one of the `BeforeEach`, `AfterEach` and main buckets. */
  lemma {:induction false} BucketsPartition<X>(xs: seq<X>, hooks: seq<Option<Hook>>, n: nat)
    requires n <= |xs| && n <= |hooks|
    ensures |Bucket(xs, hooks, Some(BeforeEach), n)| + |Bucket(xs, hooks, Some(AfterEach), n)|
          + |Bucket(xs, hooks, None, n)| == n
  {
    if n > 0 {
      BucketsPartition(xs, hooks, n - 1);
      BucketStep(xs, hooks, Some(BeforeEach), n - 1);
      BucketStep(xs, hooks, Some(AfterEach), n - 1);
      BucketStep(xs, hooks, None, n - 1);
      assert hooks[n - 1].None? || hooks[n - 1].value.BeforeEach? || hooks[n - 1].value.AfterEach?;
    }
  }

  /**
   * A bucket's events are, in step order, exactly the steps whose hook is
   * that bucket, each mapped with its own position as id.
   */
  lemma BucketEventsAreSteps(steps: seq<TestStep>, strip: string -> string, bucket: Option<Hook>)
    ensures var idx := BucketIndices(StepHooks(steps), bucket, |steps|);
      var events := BucketEvents(steps, strip, bucket);
      && |events| == |idx|
      && (forall j :: 0 <= j < |idx| ==> idx[j] < |steps| && events[j] == MapStep(steps[idx[j]], idx[j], strip))
      && (forall j, k :: 0 <= j < k < |idx| ==> idx[j] < idx[k])
      && (forall i :: 0 <= i < |steps| ==> (i in idx <==> MapTestStepHook(steps[i]) == bucket))
  {
    BucketAtIndices(StepEvents(steps, strip), StepHooks(steps), bucket, |steps|);
    BucketIndicesFacts(StepHooks(steps), bucket, |steps|);
  }

  /** The sizes of the three buckets add up to the number of steps. */
  lemma BucketEventsPartition(steps: seq<TestStep>, strip: string -> string)
    ensures |BucketEvents(steps, strip, Some(BeforeEach))| + |BucketEvents(steps, strip, Some(AfterEach))|
          + |BucketEvents(steps, strip, None)| == |steps|
  {
    BucketsPartition(StepEvents(steps, strip), StepHooks(steps), |steps|);
  }

  /** The step whose error becomes the test's error: `result.steps.find(step => step.error?.message)`. */
  predicate HasErrorMessage(step: TestStep) {
    step.errorMessage.Some? && step.errorMessage.value != ""
  }

  /**
   * `step.error?.message` must be truthy: `find` skips a step without a
   * message or with an empty one, and a step it picks has an extracted message.
   */
  lemma HasErrorMessageCases(step: TestStep, strip: string -> string)
    ensures step.errorMessage.None? ==> !HasErrorMessage(step)
    ensures step.errorMessage == Some("") ==> !HasErrorMessage(step)
    ensures HasErrorMessage(step) ==> ExtractErrorMessage(Some(step), strip).Some?
  {
  }

  /** The test's top-level error: from the first step with a message, named `Error`, when its extracted message is truthy. */
  function TopLevelError(steps: seq<TestStep>, strip: string -> string): (r: Option<EventError>)
    ensures FindIndex(steps, HasErrorMessage) == -1 ==> r.None?
    ensures r.Some? ==> r.value.name == "Error" && r.value.message != ""
  {
    var errorStep := Find(steps, HasErrorMessage);
    var message := ExtractErrorMessage(errorStep, strip);
    if message.Some? && message.value != "" then
      Some(EventError("Error", message.value, LineOf(errorStep.value.location), ColumnOf(errorStep.value.location)))
    else None
  }

  /**
   * The top-level error is the error of the first step with a non-empty
   * message, renamed `Error`; with no such step there is none.
   */
  lemma TopLevelErrorOfFirstErroredStep(steps: seq<TestStep>, strip: string -> string)
    ensures var k := FindIndex(steps, HasErrorMessage);
      && (k == -1 ==> TopLevelError(steps, strip).None?)
      && (k >= 0 ==>
            && (forall j :: 0 <= j < k ==> !HasErrorMessage(steps[j]))
            && TopLevelError(steps, strip) ==
                 match MapStep(steps[k], k, strip).error
                 case None => None
                 case Some(e) => Some(e.(name := "Error")))
  {
  }

  /** `test.results.reduce((acc, r) => acc + r.duration, 0)` */
  function TotalDuration(results: seq<AttemptResult>): (r: nat)
    ensures r == 0 <==> forall i :: 0 <= i < |results| ==> results[i].duration == 0
  {
    if |results| == 0 then 0 else TotalDuration(results[..|results| - 1]) + results[|results| - 1].duration
  }

  /** The total over two runs of attempts is the sum of their totals. */
  lemma {:induction false} TotalDurationAppend(a: seq<AttemptResult>, b: seq<AttemptResult>)
    ensures TotalDuration(a + b) == TotalDuration(a) + TotalDuration(b)
    decreases |b|
  {
    if |b| == 0 {
      assert a + b == a;
    } else {
      assert (a + b)[..|a + b| - 1] == a + b[..|b| - 1];
      TotalDurationAppend(a, b[..|b| - 1]);
    }
  }

  /** No attempt lasts longer than the total. */
  lemma {:induction false} TotalDurationBound(results: seq<AttemptResult>, i: nat)
    requires i < |results|
    ensures results[i].duration <= TotalDuration(results)
    decreases |results|
  {
    if i < |results| - 1 {
      TotalDurationBound(results[..|results| - 1], i);
    }
  }

  /** `getSource(test)`: the title, and the title path from index 3 without its last element. */
  function GetSource(test: TestCase): (r: Source)
    ensures r.title == test.title
    ensures |test.titlePath| > 4 ==> r.scope == test.titlePath[3..|test.titlePath| - 1]
    ensures |test.titlePath| <= 4 ==> r.scope == []
  {
    Source(test.title, Slice(test.titlePath, 3, -1))
  }

  /** `getTestId(test)`: the title path joined with `-`. */
  function GetTestId(test: TestCase): (r: string)
    ensures |test.titlePath| == 0 ==> r == ""
    ensures |test.titlePath| >= 1 ==> StartsWith(r, test.titlePath[0])
  {
    JoinShape(test.titlePath, '-');
    Join(test.titlePath, '-')
  }

  /** Titles without `-` can be read back from the id. */
  lemma GetTestIdSplits(test: TestCase)
    requires |test.titlePath| >= 1
    requires forall k :: 0 <= k < |test.titlePath| ==> '-' !in test.titlePath[k]
    ensures Split(GetTestId(test), '-') == test.titlePath
  {
    SplitJoin(test.titlePath, '-');
  }
}

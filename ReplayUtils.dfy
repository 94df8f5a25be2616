/**
 * The command-line helpers of the replay package: where recordings live,
 * what counts as a recording id, and the bounded retry with exponential
 * backoff used around network operations.
 */
module ReplayUtils {

  import opened Wrappers
  import opened Builtins

  /** `Pick<CommandLineOptions, "directory">` */
  datatype DirectoryOptions = DirectoryOptions(directory: Option<string>)

  /** `path.join` would throw when the home-directory argument is undefined. */
  datatype DirectoryError = HomeUndefined

  /** Posix `path.join(a, b)`, without normalisation of `.` and `..` segments. */
  function PathJoin(a: string, b: string): (r: string)
    ensures StartsWith(r, a)
    ensures a == "" ==> r == b
    ensures a != "" ==> r == if a[|a| - 1] == '/' then a + b else a + "/" + b
  {
    if a == "" then b else if a[|a| - 1] == '/' then a + b else a + "/" + b
  }

  /** Joining onto the same directory never merges two different names. */
  lemma PathJoinInjective(dir: string, x: string, y: string)
    requires x != y
    ensures PathJoin(dir, x) != PathJoin(dir, y)
  {
    var px, py := PathJoin(dir, x), PathJoin(dir, y);
    var k := |px| - |x|;
    assert |py| - |y| == k;
    assert px[k..] == x && py[k..] == y;
  }

  /** The home directory: `HOME`, or else `USERPROFILE` (which may be empty but set). */
  function Home(env: Env): (r: Option<string>)
    ensures r.Some? <==> EnvValue(env, "HOME").Some? || "USERPROFILE" in env
    ensures EnvValue(env, "HOME").Some? ==> r == Some(env["HOME"])
    ensures EnvValue(env, "HOME").None? && "USERPROFILE" in env ==> r == Some(env["USERPROFILE"])
  {
    if EnvValue(env, "HOME").Some? then EnvValue(env, "HOME")
    else if "USERPROFILE" in env then Some(env["USERPROFILE"])
    else None
  }

  /**
   * `getDirectory(opts)`: a non-empty `opts.directory`, else a non-empty
   * `RECORD_REPLAY_DIRECTORY`, else `.replay` under the home directory.
   */
  function GetDirectory(opts: Option<DirectoryOptions>, env: Env): (r: Result<string, DirectoryError>)
    ensures opts.Some? && opts.value.directory.Some? && opts.value.directory.value != "" ==>
      r == Ok(opts.value.directory.value)
    ensures !(opts.Some? && opts.value.directory.Some? && opts.value.directory.value != "") ==>
      if EnvValue(env, "RECORD_REPLAY_DIRECTORY").Some? then r == Ok(env["RECORD_REPLAY_DIRECTORY"])
      else if Home(env).Some? then r == Ok(PathJoin(Home(env).value, ".replay"))
      else r == Err(HomeUndefined)
    ensures r.Ok? ==> r.value != ""
  {
    var home := Home(env);
    if opts.Some? && opts.value.directory.Some? && opts.value.directory.value != "" then
      Ok(opts.value.directory.value)
    else if EnvValue(env, "RECORD_REPLAY_DIRECTORY").Some? then
      Ok(env["RECORD_REPLAY_DIRECTORY"])
    else if home.Some? then
      Ok(PathJoin(home.value, ".replay"))
    else
      Err(HomeUndefined)
  }

  /** The directory fails only when no option, override or home directory is available. */
  lemma GetDirectoryFails(opts: Option<DirectoryOptions>, env: Env)
    ensures GetDirectory(opts, env).Err? <==>
      (opts.None? || opts.value.directory.None? || opts.value.directory.value == "") &&
      EnvValue(env, "RECORD_REPLAY_DIRECTORY").None? &&
      EnvValue(env, "HOME").None? && "USERPROFILE" !in env
  {
  }

  /** An `unknown` argument: a string or some other JavaScript value. */
  datatype Unknown = JsString(s: string) | NonString

  const UuidAlphabet: string := "0123456789abcdef-"

  /** `isValidUUID(str)`: a string of exactly 36 characters, each a lower-case hex digit or `-`. */
  method IsValidUUID(str: Unknown) returns (ok: bool)
    ensures ok <==> str.JsString? && |str.s| == 36 &&
                    forall i :: 0 <= i < |str.s| ==> str.s[i] in UuidAlphabet
  {
    if !str.JsString? || |str.s| != 36 {
      return false;
    }
    var i := 0;
    while i < |str.s|
      invariant 0 <= i <= |str.s|
      invariant forall j :: 0 <= j < i ==> str.s[j] in UuidAlphabet
    {
      if str.s[i] !in UuidAlphabet {
        return false;
      }
      i := i + 1;
    }
    return true;
  }

  function Pow2(n: nat): (r: nat)
    ensures r >= 1
  {
    if n == 0 then 1 else 2 * Pow2(n - 1)
  }

  /** The deterministic part of `backoff(iteration)`: `2 ** iteration * 100` milliseconds. */
  function BackoffBase(iteration: nat): (r: nat)
    ensures r >= 100
  {
    Pow2(iteration) * 100
  }

  /** Each further iteration doubles the base delay. */
  lemma BackoffDoubles(iteration: nat)
    ensures BackoffBase(0) == 100
    ensures BackoffBase(iteration + 1) == 2 * BackoffBase(iteration)
  {
  }

  /** The base delay grows with the iteration. */
  lemma {:induction false} BackoffMonotone(a: nat, b: nat)
    requires a <= b
    ensures BackoffBase(a) <= BackoffBase(b)
    decreases b - a
  {
    if a < b {
      BackoffMonotone(a, b - 1);
      assert Pow2(b) == 2 * Pow2(b - 1);
    }
  }

  /** `backoff(iteration)` with the jitter `Math.random() * 100` given as a parameter. */
  function Backoff(iteration: nat, jitter: real): (r: real)
    requires 0.0 <= jitter < 100.0
    ensures BackoffBase(iteration) as real <= r < BackoffBase(iteration) as real + 100.0
  {
    BackoffBase(iteration) as real + jitter
  }

  const MaxAttempts: nat := 5

  /** What one call of `fn` does: return a value or throw an error. */
  datatype Outcome<T, E> = Returns(value: T) | Throws(error: E)

  /** What the retry rethrows: the error of `fn`, or the final `Error("ShouldBeUnreachable")`. */
  datatype Thrown<E> = FnError(error: E) | ShouldBeUnreachable

  datatype RetryResult<T, E> = Returned(value: T) | Threw(thrown: Thrown<E>)

  /**
   * One run of `exponentialBackoffRetry`: its result, how often `fn` was
   * called, the errors handed to `onFail` in order, and the iterations whose
   * `waitForTime(backoff(iteration))` was started.
   */
  datatype RetryRun<T, E> = RetryRun(result: RetryResult<T, E>, fnCalls: nat, onFailArgs: seq<E>, backoffs: seq<nat>)

  /**
   * The loop of `exponentialBackoffRetry` from a given value of
   * `currentAttempt`; `fn(k)` is what the k-th call of `fn` does.
   */
  function RetryFrom<T, E>(fn: nat -> Outcome<T, E>, hasOnFail: bool, currentAttempt: nat): (r: RetryRun<T, E>)
    ensures currentAttempt < MaxAttempts ==> 1 <= r.fnCalls <= MaxAttempts - currentAttempt
    ensures currentAttempt < MaxAttempts ==> |r.backoffs| == r.fnCalls - 1
    ensures currentAttempt < MaxAttempts ==> r.result != Threw(ShouldBeUnreachable)
    ensures |r.onFailArgs| <= r.fnCalls && (!hasOnFail ==> r.onFailArgs == [])
    decreases MaxAttempts + 1 - currentAttempt
  {
    if currentAttempt > MaxAttempts then RetryRun(Threw(ShouldBeUnreachable), 0, [], [])
    else
      var attempt := currentAttempt + 1;
      match fn(attempt)
      case Returns(v) => RetryRun(Returned(v), 1, [], [])
      case Throws(e) =>
        var logged := if hasOnFail then [e] else [];
        if attempt == MaxAttempts then RetryRun(Threw(FnError(e)), 1, logged, [])
        else
          var rest := RetryFrom(fn, hasOnFail, attempt);
          RetryRun(rest.result, rest.fnCalls + 1, logged + rest.onFailArgs, [attempt] + rest.backoffs)
  }

  /** The run of `exponentialBackoffRetry(fn, onFail)`, from the loop's first iteration. */
  function Retry<T, E>(fn: nat -> Outcome<T, E>, hasOnFail: bool): (r: RetryRun<T, E>)
    ensures IsRetryRunFrom(fn, hasOnFail, 0, r)
  {
    RetryFromFacts(fn, hasOnFail, 0);
    RetryFrom(fn, hasOnFail, 0)
  }

  /** The errors of calls `from + 1` .. `from + n` of `fn`, all of which threw. */
  function ErrorsOf<T, E>(fn: nat -> Outcome<T, E>, from: nat, n: nat): (r: seq<E>)
    requires forall k :: from < k <= from + n ==> fn(k).Throws?
    ensures |r| == n
  {
    seq(n, i requires 0 <= i < n => fn(from + 1 + i).error)
  }

  /**
   * What a run of the retry loop from `currentAttempt` looks like: `fn` is
   * called until it returns or the fifth call throws, every error goes to
   * `onFail` when one is given, and a backoff is started after every failed
   * call but the fifth.
   */
  ghost predicate IsRetryRunFrom<T, E>(fn: nat -> Outcome<T, E>, hasOnFail: bool, currentAttempt: nat, run: RetryRun<T, E>) {
    var last := currentAttempt + run.fnCalls;
    && 1 <= run.fnCalls && last <= MaxAttempts
    && (forall k :: currentAttempt < k < last ==> fn(k).Throws?)
    && (run.result.Returned? <==> fn(last).Returns?)
    && (run.result.Returned? ==> run.result.value == fn(last).value)
    && (run.result.Threw? ==> last == MaxAttempts && run.result.thrown == FnError(fn(last).error))
    && run.onFailArgs == (if !hasOnFail then []
                          else if run.result.Returned? then ErrorsOf(fn, currentAttempt, run.fnCalls - 1)
                          else ErrorsOf(fn, currentAttempt, run.fnCalls))
    && run.backoffs == seq(run.fnCalls - 1, i => currentAttempt + 1 + i)
  }

  /** One failed call before the fifth: the run is that failure followed by the rest of the loop. */
  lemma RetryThrowStep<T, E>(fn: nat -> Outcome<T, E>, hasOnFail: bool, currentAttempt: nat)
    requires currentAttempt + 1 < MaxAttempts && fn(currentAttempt + 1).Throws?
    ensures var rest := RetryFrom(fn, hasOnFail, currentAttempt + 1);
      RetryFrom(fn, hasOnFail, currentAttempt) ==
      RetryRun(rest.result, rest.fnCalls + 1,
               (if hasOnFail then [fn(currentAttempt + 1).error] else []) + rest.onFailArgs,
               [currentAttempt + 1] + rest.backoffs)
  {
  }

  /** The errors of one more failed call in front of `n` failed calls. */
  lemma ErrorsOfCons<T, E>(fn: nat -> Outcome<T, E>, from: nat, n: nat)
    requires forall k :: from < k <= from + 1 + n ==> fn(k).Throws?
    ensures ErrorsOf(fn, from, n + 1) == [fn(from + 1).error] + ErrorsOf(fn, from + 1, n)
  {
  }

  /** A failed call before the fifth, followed by a run as described, is itself a run as described. */
  lemma RetryFromExtend<T, E>(fn: nat -> Outcome<T, E>, hasOnFail: bool, currentAttempt: nat, rest: RetryRun<T, E>, run: RetryRun<T, E>)
    requires currentAttempt + 1 < MaxAttempts && fn(currentAttempt + 1).Throws?
    requires IsRetryRunFrom(fn, hasOnFail, currentAttempt + 1, rest)
    requires run == RetryRun(rest.result, rest.fnCalls + 1,
                             (if hasOnFail then [fn(currentAttempt + 1).error] else []) + rest.onFailArgs,
                             [currentAttempt + 1] + rest.backoffs)
    ensures IsRetryRunFrom(fn, hasOnFail, currentAttempt, run)
  {
    assert run.backoffs == seq(run.fnCalls - 1, i => currentAttempt + 1 + i);
    if hasOnFail {
      var n := if rest.result.Returned? then rest.fnCalls - 1 else rest.fnCalls;
      ErrorsOfCons(fn, currentAttempt, n);
    }
  }

  /** The loop of `exponentialBackoffRetry`, from any `currentAttempt` it can hold at the loop head, runs as described. */
  lemma {:induction false} RetryFromFacts<T, E>(fn: nat -> Outcome<T, E>, hasOnFail: bool, currentAttempt: nat)
    requires currentAttempt < MaxAttempts
    ensures IsRetryRunFrom(fn, hasOnFail, currentAttempt, RetryFrom(fn, hasOnFail, currentAttempt))
    decreases MaxAttempts - currentAttempt
  {
    if fn(currentAttempt + 1).Throws? && currentAttempt + 1 < MaxAttempts {
      RetryFromFacts(fn, hasOnFail, currentAttempt + 1);
      RetryThrowStep(fn, hasOnFail, currentAttempt);
      RetryFromExtend(fn, hasOnFail, currentAttempt, RetryFrom(fn, hasOnFail, currentAttempt + 1), RetryFrom(fn, hasOnFail, currentAttempt));
    }
  }

  /** At most one run fits the description: the description fixes the run. */
  lemma RetryRunUnique<T, E>(fn: nat -> Outcome<T, E>, hasOnFail: bool, run: RetryRun<T, E>, other: RetryRun<T, E>)
    requires IsRetryRunFrom(fn, hasOnFail, 0, run) && IsRetryRunFrom(fn, hasOnFail, 0, other)
    ensures run == other
  {
    assert run.fnCalls < other.fnCalls ==> fn(run.fnCalls).Throws?;
    assert other.fnCalls < run.fnCalls ==> fn(other.fnCalls).Throws?;
  }

  /** The final `throw Error("ShouldBeUnreachable")` is never reached. */
  lemma RetryNeverUnreachable<T, E>(fn: nat -> Outcome<T, E>, hasOnFail: bool)
    ensures Retry(fn, hasOnFail).result != Threw(ShouldBeUnreachable)
  {
    RetryFromFacts(fn, hasOnFail, 0);
  }

  /** A `fn` that always throws is called five times, `onFail` sees all five errors, the fifth is rethrown. */
  lemma RetryAlwaysFailing<T, E>(fn: nat -> Outcome<T, E>, hasOnFail: bool)
    requires forall k :: 1 <= k <= MaxAttempts ==> fn(k).Throws?
    ensures var run := Retry(fn, hasOnFail);
      && run.fnCalls == 5
      && run.result == Threw(FnError(fn(5).error))
      && |run.onFailArgs| == (if hasOnFail then 5 else 0)
      && (hasOnFail ==> run.onFailArgs == ErrorsOf(fn, 0, 5))
      && run.backoffs == [1, 2, 3, 4]
  {
    RetryFromFacts(fn, hasOnFail, 0);
    var run := Retry(fn, hasOnFail);
    assert fn(run.fnCalls).Throws?;
    assert run.backoffs == seq(4, i => 1 + i);
  }

  /** When call `j` is the first to return, `fn` runs `j` times, `onFail` `j - 1` times, and call `j`'s value is returned. */
  lemma RetryFirstSuccess<T, E>(fn: nat -> Outcome<T, E>, hasOnFail: bool, j: nat)
    requires 1 <= j <= MaxAttempts
    requires fn(j).Returns?
    requires forall k :: 1 <= k < j ==> fn(k).Throws?
    ensures var run := Retry(fn, hasOnFail);
      && run.fnCalls == j
      && run.result == Returned(fn(j).value)
      && |run.onFailArgs| == (if hasOnFail then j - 1 else 0)
      && |run.backoffs| == j - 1
  {
    RetryFromFacts(fn, hasOnFail, 0);
    var run := Retry(fn, hasOnFail);
    assert run.fnCalls < j ==> fn(run.fnCalls).Throws?;
    assert run.fnCalls > j ==> fn(j).Throws?;
  }

  /**
   * `exponentialBackoffRetry(fn, onFail)`: the `while` loop over
   * `currentAttempt`, with `fn`'s throw caught, handed to `onFail` when one
   * is given, rethrown on the fifth attempt and otherwise followed by a
   * backoff that is not awaited.
   */
  method ExponentialBackoffRetry<T, E>(fn: nat -> Outcome<T, E>, hasOnFail: bool) returns (run: RetryRun<T, E>)
    ensures IsRetryRunFrom(fn, hasOnFail, 0, run)
    ensures run == Retry(fn, hasOnFail)
  {
    var currentAttempt: nat := 0;
    var logged: seq<E> := [];
    var waits: seq<nat> := [];
    while currentAttempt <= MaxAttempts
      invariant currentAttempt < MaxAttempts
      invariant forall k :: 1 <= k <= currentAttempt ==> fn(k).Throws?
      invariant logged == if hasOnFail then ErrorsOf(fn, 0, currentAttempt) else []
      invariant waits == seq(currentAttempt, i => 1 + i)
    {
      currentAttempt := currentAttempt + 1;
      var outcome := fn(currentAttempt);
      if outcome.Returns? {
        run := RetryRun(Returned(outcome.value), currentAttempt, logged, waits);
        RetryFromFacts(fn, hasOnFail, 0);
        RetryRunUnique(fn, hasOnFail, run, Retry(fn, hasOnFail));
        return;
      }
      if hasOnFail {
        logged := logged + [outcome.error];
        assert logged == ErrorsOf(fn, 0, currentAttempt);
      }
      if currentAttempt == MaxAttempts {
        run := RetryRun(Threw(FnError(outcome.error)), currentAttempt, logged, waits);
        RetryFromFacts(fn, hasOnFail, 0);
        RetryRunUnique(fn, hasOnFail, run, Retry(fn, hasOnFail));
        return;
      }
      waits := waits + [currentAttempt];
    }
    assert false;
    run := RetryRun(Threw(ShouldBeUnreachable), currentAttempt, logged, waits);
  }
}

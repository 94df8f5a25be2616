/**
 * The Puppeteer integration: the per-worker metadata file under the
 * recording directory and the device configuration that launches the
 * Replay Chromium build with every content recorded.
 */
module Puppeteer {

  import opened Wrappers
  import opened Builtins
  import opened ReplayUtils

  const MetadataPrefix: string := "PUPPETEER_METADATA_"

  /**
   * `getMetadataFilePath(workerIndex = 0)`: the file
   * `PUPPETEER_METADATA_<workerIndex>` in `getDirectory()`, which is called
   * without options and so reads only the environment.
   */
  function GetMetadataFilePath(env: Env, workerIndex: Option<nat>): (r: Result<string, DirectoryError>)
    ensures r.Ok? <==> GetDirectory(None, env).Ok?
    ensures r.Ok? ==> StartsWith(r.value, GetDirectory(None, env).value)
    ensures r.Ok? ==> r.value == PathJoin(GetDirectory(None, env).value, MetadataPrefix + Decimal(workerIndex.GetOr(0)))
    ensures r.Err? ==> r.error == HomeUndefined
  {
    match GetDirectory(None, env)
    case Err(e) => Err(e)
    case Ok(dir) => Ok(PathJoin(dir, MetadataPrefix + Decimal(workerIndex.GetOr(0))))
  }

  /** Leaving the worker index out is the same as worker 0. */
  lemma DefaultWorkerIsZero(env: Env)
    ensures GetMetadataFilePath(env, None) == GetMetadataFilePath(env, Some(0))
  {
  }

  /** Two workers with different indices never share a metadata file. */
  lemma DistinctWorkersDistinctPaths(env: Env, a: nat, b: nat)
    requires a != b
    ensures GetMetadataFilePath(env, Some(a)) != GetMetadataFilePath(env, Some(b)) || GetDirectory(None, env).Err?
  {
    if GetDirectory(None, env).Ok? {
      var dir := GetDirectory(None, env).value;
      DecimalInjective(a, b);
      var x, y := MetadataPrefix + Decimal(a), MetadataPrefix + Decimal(b);
      assert x[|MetadataPrefix|..] == Decimal(a) && y[|MetadataPrefix|..] == Decimal(b);
      PathJoinInjective(dir, x, y);
    }
  }

  /** A value in the launch environment: the inherited strings and the numeric override. */
  datatype EnvEntry = EnvString(s: string) | EnvNumber(n: int)

  datatype LaunchOptions = LaunchOptions(executablePath: string, env: map<string, EnvEntry>)

  datatype DeviceConfig = DeviceConfig(launchOptions: LaunchOptions, defaultBrowserType: string)

  const BrowserName: string := "chromium"

  /**
   * `getDeviceConfig()`: `process.env` spread into a fresh object with
   * `RECORD_ALL_CONTENT` set to the number 1, and the browser path that
   * `getPuppeteerBrowserPath("chromium")` gives, passed in as `executablePath`.
   */
  function GetDeviceConfig(env: Env, executablePath: string): (r: DeviceConfig)
    ensures r.defaultBrowserType == "chromium"
    ensures r.launchOptions.executablePath == executablePath
    ensures r.launchOptions.env.Keys == env.Keys + {"RECORD_ALL_CONTENT"}
    ensures r.launchOptions.env["RECORD_ALL_CONTENT"] == EnvNumber(1)
    ensures forall k :: k in env && k != "RECORD_ALL_CONTENT" ==> r.launchOptions.env[k] == EnvString(env[k])
  {
    var inherited := map k | k in env :: EnvString(env[k]);
    DeviceConfig(LaunchOptions(executablePath, inherited["RECORD_ALL_CONTENT" := EnvNumber(1)]), BrowserName)
  }
}

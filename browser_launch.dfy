/**
 * Launch-option selection for the serverless PDF route
 * (project/api/utils/browser.ts). One boolean, whether the `VERCEL`
 * variable is set, picks the execution profile; the profile picks the
 * argument list and whether a relocated browser binary is looked up
 * before the single launch.
 */
module BrowserLaunch {
  import opened Wrappers
  import opened Js

  /** The constrained serverless sandbox, or an ordinary host. */
  datatype Profile = Constrained | Unrestricted

  /** `!!process.env.VERCEL`. */
  function ProfileOf(env: Env): (p: Profile)
    ensures p == Constrained <==> EnvSet(env, "VERCEL")
  {
    if EnvSet(env, "VERCEL") then Constrained else Unrestricted
  }

  datatype Viewport = Viewport(width: nat, height: nat)

  /** What the `@sparticuz/chromium` package provides. */
  datatype Chromium = Chromium(args: seq<string>, defaultViewport: Viewport)

  /** How `chromium.executablePath()` settled. */
  datatype PathLookup = Found(path: string) | LookupFailed(message: string)

  datatype LaunchOptions = LaunchOptions(
    args: seq<string>,
    defaultViewport: Viewport,
    headless: bool,
    executablePath: Option<string>)

  /** The calls `launchBrowser` makes into the two libraries. */
  datatype LaunchCall = ResolveExecutablePath | Launch(options: LaunchOptions)

  /** The flags that turn off the browser sandbox; the express server launches with them too. */
  const NoSandboxArgs: seq<string> := ["--no-sandbox", "--disable-setuid-sandbox"]

  /**
   * `launchBrowser`: build the options, add the executable path on the
   * constrained profile when the lookup succeeds (a failed lookup is logged
   * and swallowed), then launch exactly once with the options as built.
   */
  method LaunchBrowser(env: Env, chromium: Chromium, lookup: PathLookup) returns (calls: seq<LaunchCall>)
    ensures |calls| >= 1 && calls[|calls| - 1].Launch?
    ensures forall i :: 0 <= i < |calls| - 1 ==> !calls[i].Launch?
    ensures ProfileOf(env) == Constrained ==> |calls| == 2 && calls[0] == ResolveExecutablePath
    ensures ProfileOf(env) == Unrestricted ==> |calls| == 1
    ensures var options := calls[|calls| - 1].options;
      && options.args == (if ProfileOf(env) == Constrained then chromium.args else NoSandboxArgs)
      && options.headless
      && options.defaultViewport == chromium.defaultViewport
      && (options.executablePath.Some? <==> ProfileOf(env) == Constrained && lookup.Found?)
      && (options.executablePath.Some? ==> options.executablePath.value == lookup.path)
  {
    var isRunningOnVercel := EnvSet(env, "VERCEL");
    var options := LaunchOptions(
      if isRunningOnVercel then chromium.args else NoSandboxArgs,
      chromium.defaultViewport,
      true,
      None);
    calls := [];
    if isRunningOnVercel {
      calls := calls + [ResolveExecutablePath];
      match lookup {
        case Found(path) =>
          options := options.(executablePath := Some(path));
        case LookupFailed(_) =>
      }
    }
    calls := calls + [Launch(options)];
  }
}

/**
 * The `app diff` command: it loads the local app directory, resolves the
 * remote app, and prints the configuration differences, optionally followed
 * by the dependency and the hosting differences, as one report.
 *
 * The diff computations themselves (the remote configuration diff, the
 * dependency archive diff, the hosting asset diff and its hash cache) are
 * external calls here: each is a field of `DiffEnv` that yields either its
 * lines or an error.
 */
module AppDiff {
  import opened Results
  import opened Text

  // The two messages are written as two literals each so that the verifier
  // can look at their characters; the text is unchanged.

  /** Printed when the combined diff is empty. */
  const IdenticalMessage := "Deployed app is identical " + "to proposed version"
  /** The first line of a non-empty report. */
  const ChangesHeader := "The following reflects the " + "proposed changes to your Realm app"

  function NoAppDirectory(localPath: string): string {
    "no app directory found at " + localPath
  }

  /** The command's flags, after `Resolve` has filled in their defaults. */
  datatype DiffInputs = DiffInputs(
    localPath: string,
    remoteApp: string,
    project: string,
    includeDependencies: bool,
    includeHosting: bool)

  /** What the handler uses of a loaded local app: its root directory (empty
      when no app was found) and the remote-app selector `Option()` derives from it. */
  datatype LocalApp = LocalApp(rootDir: string, option: string)

  /** A resolved remote app. */
  datatype AppRef = AppRef(groupId: string, id: string)

  /** A local hosting directory or a remote asset listing, passed through unexamined. */
  type Handle = string

  /** The calls the handler makes, in the source's terms. */
  datatype DiffEnv = DiffEnv(
    loadApp: string -> Result<LocalApp>,                          // local.LoadApp(path)
    resolveApp: (string, string) -> Result<AppRef>,               // cli.ResolveApp(project, remote app)
    realmDiff: (AppRef, LocalApp) -> Result<seq<string>>,         // clients.Realm.Diff
    prepareDependencies: LocalApp -> Result<string>,              // local.PrepareDependencies: upload path
    diffDependencies: (AppRef, string) -> Result<seq<string>>,    // clients.Realm.DiffDependencies(...).Strings()
    findAppHosting: string -> Result<Handle>,                     // local.FindAppHosting(rootDir)
    hostingAssets: AppRef -> Result<Handle>,                      // clients.Realm.HostingAssets
    hostingDiffs: (Handle, string, string, Handle) -> Result<seq<string>>, // hosting.Diffs(cache path, app id, assets).Strings()
    hostingAssetCachePath: string)                                // profile.HostingAssetCachePath()

  /** One call made by the handler, for stating which calls happen. */
  datatype Call =
    | LoadAppCall | ResolveAppCall | RealmDiffCall
    | PrepareDependenciesCall | DiffDependenciesCall
    | FindAppHostingCall | HostingAssetsCall | HostingDiffsCall

  predicate IsRemote(c: Call) {
    c.ResolveAppCall? || c.RealmDiffCall? || c.DiffDependenciesCall? || c.HostingAssetsCall?
  }

  /** The dependency facet: prepare the archive, then diff it remotely. */
  function DependencyFacet(env: DiffEnv, app: LocalApp, target: AppRef): Result<seq<string>> {
    var uploadPath :- env.prepareDependencies(app);
    env.diffDependencies(target, uploadPath)
  }

  /** The hosting facet: find the local hosting files, fetch the remote assets, diff them. */
  function HostingFacet(env: DiffEnv, app: LocalApp, target: AppRef): Result<seq<string>> {
    var hosting :- env.findAppHosting(app.rootDir);
    var assets :- env.hostingAssets(target);
    env.hostingDiffs(hosting, env.hostingAssetCachePath, target.id, assets)
  }

  /** The lines the handler reports, or the first error it meets. */
  function CollectDiffs(inputs: DiffInputs, env: DiffEnv): Result<seq<string>> {
    var app :- env.loadApp(inputs.localPath);
    if app.rootDir == "" then Err(NoAppDirectory(inputs.localPath))
    else
      var target :- env.resolveApp(inputs.project, inputs.remoteApp);
      var config :- env.realmDiff(target, app);
      var dependencies :- if inputs.includeDependencies then DependencyFacet(env, app, target) else Ok([]);
      var hosting :- if inputs.includeHosting then HostingFacet(env, app, target) else Ok([]);
      Ok(config + dependencies + hosting)
  }

  /** The calls of the dependency facet: the archive is diffed only once it is prepared. */
  function DependencyCalls(env: DiffEnv, app: LocalApp): seq<Call> {
    [PrepareDependenciesCall] + (if env.prepareDependencies(app).Ok? then [DiffDependenciesCall] else [])
  }

  /** The calls of the hosting facet, each made only when the one before it succeeded. */
  function HostingCalls(env: DiffEnv, app: LocalApp, target: AppRef): seq<Call> {
    [FindAppHostingCall]
    + if env.findAppHosting(app.rootDir).Err? then []
      else [HostingAssetsCall] + if env.hostingAssets(target).Err? then [] else [HostingDiffsCall]
  }

  /** The calls the handler makes, in order: each only when every call before it succeeded. */
  function DiffCalls(inputs: DiffInputs, env: DiffEnv): seq<Call> {
    var app := env.loadApp(inputs.localPath);
    if app.Err? || app.value.rootDir == "" then [LoadAppCall]
    else
      var target := env.resolveApp(inputs.project, inputs.remoteApp);
      if target.Err? then [LoadAppCall, ResolveAppCall]
      else if env.realmDiff(target.value, app.value).Err? then [LoadAppCall, ResolveAppCall, RealmDiffCall]
      else
        var dependencies := if inputs.includeDependencies then DependencyCalls(env, app.value) else [];
        var dependenciesOk := !inputs.includeDependencies || DependencyFacet(env, app.value, target.value).Ok?;
        var hosting := if inputs.includeHosting && dependenciesOk then HostingCalls(env, app.value, target.value) else [];
        [LoadAppCall, ResolveAppCall, RealmDiffCall] + dependencies + hosting
  }

  /**
   * What the trace shows: loading the app comes first; no remote call is made
   * for an app without a root directory; facets that were not requested make
   * none of their calls; and a successful diff made every requested diff call.
   */
  lemma DiffCallsShape(inputs: DiffInputs, env: DiffEnv)
    ensures var calls := DiffCalls(inputs, env);
            && |calls| >= 1 && calls[0] == LoadAppCall
            && ((exists i :: 0 <= i < |calls| && IsRemote(calls[i])) ==>
                  env.loadApp(inputs.localPath).Ok? && env.loadApp(inputs.localPath).value.rootDir != "")
            && (!inputs.includeDependencies ==> PrepareDependenciesCall !in calls && DiffDependenciesCall !in calls)
            && (!inputs.includeHosting ==>
                  FindAppHostingCall !in calls && HostingAssetsCall !in calls && HostingDiffsCall !in calls)
            && (CollectDiffs(inputs, env).Ok? ==>
                  RealmDiffCall in calls
                  && (inputs.includeDependencies ==> DiffDependenciesCall in calls)
                  && (inputs.includeHosting ==> HostingDiffsCall in calls))
  {
  }

  function ErrorOf<T>(r: Result<T>): Option<string> {
    if r.Err? then Some(r.error) else None
  }

  /**
   * The error the handler meets at call `c`, made with the values the calls
   * before it returned (for LoadApp, the missing root directory counts too);
   * `None` when it succeeds or when those values are missing.
   */
  function CallError(c: Call, inputs: DiffInputs, env: DiffEnv): Option<string> {
    var app := env.loadApp(inputs.localPath);
    var target := env.resolveApp(inputs.project, inputs.remoteApp);
    match c
    case LoadAppCall =>
      if app.Err? then Some(app.error)
      else if app.value.rootDir == "" then Some(NoAppDirectory(inputs.localPath))
      else None
    case ResolveAppCall => ErrorOf(target)
    case RealmDiffCall =>
      if app.Ok? && target.Ok? then ErrorOf(env.realmDiff(target.value, app.value)) else None
    case PrepareDependenciesCall =>
      if app.Ok? then ErrorOf(env.prepareDependencies(app.value)) else None
    case DiffDependenciesCall =>
      if app.Ok? && target.Ok? && env.prepareDependencies(app.value).Ok?
      then ErrorOf(env.diffDependencies(target.value, env.prepareDependencies(app.value).value))
      else None
    case FindAppHostingCall =>
      if app.Ok? then ErrorOf(env.findAppHosting(app.value.rootDir)) else None
    case HostingAssetsCall =>
      if target.Ok? then ErrorOf(env.hostingAssets(target.value)) else None
    case HostingDiffsCall =>
      if app.Ok? && target.Ok? && env.findAppHosting(app.value.rootDir).Ok? && env.hostingAssets(target.value).Ok?
      then ErrorOf(env.hostingDiffs(env.findAppHosting(app.value.rootDir).value, env.hostingAssetCachePath,
                                    target.value.id, env.hostingAssets(target.value).value))
      else None
  }

  /**
   * The handler stops at the first failure: every call but the last succeeded,
   * the diff fails exactly when the last call failed, and then with that call's error.
   */
  lemma StopsAtFirstFailure(inputs: DiffInputs, env: DiffEnv)
    ensures var calls := DiffCalls(inputs, env);
            var r := CollectDiffs(inputs, env);
            var last := CallError(calls[|calls| - 1], inputs, env);
            && |calls| >= 1
            && (forall i :: 0 <= i < |calls| - 1 ==> CallError(calls[i], inputs, env).None?)
            && (r.Err? <==> last.Some?)
            && (r.Err? ==> last == Some(r.error))
  {
    var app := env.loadApp(inputs.localPath);
    if app.Ok? && app.value.rootDir != "" {
      var target := env.resolveApp(inputs.project, inputs.remoteApp);
      if target.Ok? && env.realmDiff(target.value, app.value).Ok? {
        DependencyFacetStops(inputs, env, app.value, target.value);
        HostingFacetStops(inputs, env, app.value, target.value);
      }
    }
  }

  lemma DependencyFacetStops(inputs: DiffInputs, env: DiffEnv, app: LocalApp, target: AppRef)
    requires env.loadApp(inputs.localPath) == Ok(app) && env.resolveApp(inputs.project, inputs.remoteApp) == Ok(target)
    ensures var calls := DependencyCalls(env, app);
            && (forall i :: 0 <= i < |calls| - 1 ==> CallError(calls[i], inputs, env).None?)
            && (DependencyFacet(env, app, target).Err? <==> CallError(calls[|calls| - 1], inputs, env).Some?)
            && (DependencyFacet(env, app, target).Err? ==>
                  CallError(calls[|calls| - 1], inputs, env) == Some(DependencyFacet(env, app, target).error))
  {
  }

  lemma HostingFacetStops(inputs: DiffInputs, env: DiffEnv, app: LocalApp, target: AppRef)
    requires env.loadApp(inputs.localPath) == Ok(app) && env.resolveApp(inputs.project, inputs.remoteApp) == Ok(target)
    ensures var calls := HostingCalls(env, app, target);
            && (forall i :: 0 <= i < |calls| - 1 ==> CallError(calls[i], inputs, env).None?)
            && (HostingFacet(env, app, target).Err? <==> CallError(calls[|calls| - 1], inputs, env).Some?)
            && (HostingFacet(env, app, target).Err? ==>
                  CallError(calls[|calls| - 1], inputs, env) == Some(HostingFacet(env, app, target).error))
  {
  }

  /** The text printed for a successful diff. */
  function Render(diffs: seq<string>): string {
    if |diffs| == 0 then IdenticalMessage
    else ChangesHeader + "\n" + JoinLines(diffs)
  }

  /** The sentinel is printed exactly when there is no difference. */
  lemma IdenticalIffNoDiffs(diffs: seq<string>)
    ensures Render(diffs) == IdenticalMessage <==> diffs == []
  {
    if diffs != [] {
      assert IdenticalMessage[0] == 'D' && ChangesHeader[0] == 'T';
      assert Render(diffs)[0] != IdenticalMessage[0];
    }
  }

  /** The header is a single line. */
  lemma HeaderIsOneLine()
    ensures '\n' !in ChangesHeader
  {
  }

  /** A non-empty report is the header line followed by one line per diff, in order. */
  lemma {:induction false} ReportListsEveryDiff(diffs: seq<string>)
    requires diffs != []
    requires forall i :: 0 <= i < |diffs| ==> '\n' !in diffs[i]
    ensures SplitLines(Render(diffs)) == [ChangesHeader] + diffs
  {
    HeaderIsOneLine();
    var body := JoinLines(diffs);
    var s := Render(diffs);
    assert s == ChangesHeader + "\n" + body;
    assert s[|ChangesHeader|] == '\n';
    var i := FirstNewline(s);
    assert i <= |ChangesHeader|;
    assert i == |ChangesHeader|;
    assert s[..i] == ChangesHeader;
    assert s[i + 1..] == body;
    SplitJoin(diffs);
  }

  /** The configuration facet is always requested and always comes first; the
      facets are concatenated with nothing dropped or merged. */
  lemma ConfigurationComesFirst(inputs: DiffInputs, env: DiffEnv)
    requires CollectDiffs(inputs, env).Ok?
    ensures var app := env.loadApp(inputs.localPath).value;
            var target := env.resolveApp(inputs.project, inputs.remoteApp).value;
            var config := env.realmDiff(target, app).value;
            var diffs := CollectDiffs(inputs, env).value;
            && app.rootDir != ""
            && |config| <= |diffs| && diffs[..|config|] == config
            && |diffs| == |config|
                 + (if inputs.includeDependencies then |DependencyFacet(env, app, target).value| else 0)
                 + (if inputs.includeHosting then |HostingFacet(env, app, target).value| else 0)
  {
  }

  /** Turning the hosting facet on only appends lines: everything reported
      without it is reported, in the same order, as a prefix. */
  lemma HostingOnlyAppends(inputs: DiffInputs, env: DiffEnv)
    requires CollectDiffs(inputs.(includeHosting := true), env).Ok?
    ensures var without := CollectDiffs(inputs.(includeHosting := false), env);
            var with := CollectDiffs(inputs.(includeHosting := true), env).value;
            without.Ok? && |without.value| <= |with| && with[..|without.value|] == without.value
  {
  }

  /** With hosting off, turning the dependency facet on only appends lines after the configuration lines. */
  lemma DependenciesOnlyAppend(inputs: DiffInputs, env: DiffEnv)
    requires !inputs.includeHosting
    requires CollectDiffs(inputs.(includeDependencies := true), env).Ok?
    ensures var without := CollectDiffs(inputs.(includeDependencies := false), env);
            var with := CollectDiffs(inputs.(includeDependencies := true), env).value;
            without.Ok? && |without.value| <= |with| && with[..|without.value|] == without.value
  {
  }

  /** A facet that was not requested has no influence: whatever its calls would return, the outcome is the same. */
  lemma UnrequestedFacetsIgnored(inputs: DiffInputs, env: DiffEnv, other: DiffEnv)
    requires env.loadApp == other.loadApp && env.resolveApp == other.resolveApp && env.realmDiff == other.realmDiff
    requires inputs.includeDependencies ==>
               env.prepareDependencies == other.prepareDependencies && env.diffDependencies == other.diffDependencies
    requires inputs.includeHosting ==>
               && env.findAppHosting == other.findAppHosting && env.hostingAssets == other.hostingAssets
               && env.hostingDiffs == other.hostingDiffs && env.hostingAssetCachePath == other.hostingAssetCachePath
    ensures CollectDiffs(inputs, env) == CollectDiffs(inputs, other)
  {
  }

  /** A failing requested facet fails the whole diff with that facet's error. */
  lemma FacetErrorIsFatal(inputs: DiffInputs, env: DiffEnv)
    requires env.loadApp(inputs.localPath).Ok? && env.loadApp(inputs.localPath).value.rootDir != ""
    requires env.resolveApp(inputs.project, inputs.remoteApp).Ok?
    ensures var app := env.loadApp(inputs.localPath).value;
            var target := env.resolveApp(inputs.project, inputs.remoteApp).value;
            && (env.realmDiff(target, app).Err? ==> CollectDiffs(inputs, env) == Err(env.realmDiff(target, app).error))
            && (env.realmDiff(target, app).Ok? && inputs.includeDependencies && DependencyFacet(env, app, target).Err? ==>
                  CollectDiffs(inputs, env) == Err(DependencyFacet(env, app, target).error))
  {
  }

  /** The `app diff` command; `inputs` is the Go struct the command holds by value. */
  class CommandDiff {
    var inputs: DiffInputs

    constructor (inputs: DiffInputs)
      ensures this.inputs == inputs
    {
      this.inputs := inputs;
    }

    /**
     * Fills in `localPath` and `remoteApp`. `loadAppConfig` is local.LoadAppConfig
     * and `answer` is what the operator types at the "App filepath (local)"
     * prompt. Returns the error, whether the prompt was shown, and the paths
     * that were searched.
     */
    method Resolve(workingDirectory: string, loadAppConfig: string -> Result<LocalApp>, answer: Result<string>)
      returns (err: Option<string>, prompted: bool, searched: seq<string>)
      modifies this
      ensures var searchPath := if old(inputs.localPath) == "" then workingDirectory else old(inputs.localPath);
              var first := loadAppConfig(searchPath);
              && prompted == (old(inputs.localPath) == "" && first.Ok? && first.value.rootDir == "")
              && searched == [searchPath] + (if prompted && answer.Ok? then [answer.value] else [])
              && (first.Err? ==> err == Some(first.error) && inputs == old(inputs))
              && (prompted && answer.Err? ==> err == Some(answer.error) && inputs == old(inputs))
              && (prompted && answer.Ok? && loadAppConfig(answer.value).Err? ==>
                    err == Some(loadAppConfig(answer.value).error) && inputs == old(inputs).(localPath := answer.value))
      // it fails only when a load or the prompt fails
      ensures var searchPath := if old(inputs.localPath) == "" then workingDirectory else old(inputs.localPath);
              var first := loadAppConfig(searchPath);
              err.None? <==> first.Ok? && (prompted ==> answer.Ok? && loadAppConfig(answer.value).Ok?)
      ensures err.None? ==>
                var app := loadAppConfig(searched[|searched| - 1]).value;
                && loadAppConfig(searched[|searched| - 1]).Ok?
                && inputs == old(inputs).(
                     localPath := if app.rootDir != "" then app.rootDir else (if prompted then answer.value else old(inputs.localPath)),
                     remoteApp := if old(inputs.remoteApp) == "" then app.option else old(inputs.remoteApp))
      // a remote app the operator named is never replaced
      ensures old(inputs.remoteApp) != "" ==> inputs.remoteApp == old(inputs.remoteApp)
      // only the two defaulted fields change
      ensures inputs.project == old(inputs.project)
      ensures inputs.includeDependencies == old(inputs.includeDependencies)
      ensures inputs.includeHosting == old(inputs.includeHosting)
    {
      var searchPath := inputs.localPath;
      if searchPath == "" {
        searchPath := workingDirectory;
      }
      searched := [searchPath];
      prompted := false;

      var app := loadAppConfig(searchPath);
      if app.Err? {
        return Some(app.error), prompted, searched;
      }

      if inputs.localPath == "" && app.value.rootDir == "" {
        prompted := true;
        if answer.Err? {
          return Some(answer.error), prompted, searched;
        }
        inputs := inputs.(localPath := answer.value);
        searched := searched + [inputs.localPath];
        app := loadAppConfig(inputs.localPath);
        if app.Err? {
          return Some(app.error), prompted, searched;
        }
      }

      if app.value.rootDir != "" {
        inputs := inputs.(localPath := app.value.rootDir);
      }

      if inputs.remoteApp == "" {
        inputs := inputs.(remoteApp := app.value.option);
      }

      err := None;
    }

    /**
     * Runs the diff. Returns the error (if any), the text printed, and the
     * calls made in order.
     */
    method Handler(env: DiffEnv) returns (err: Option<string>, printed: seq<string>, calls: seq<Call>)
      // the outcome is the collected diff: on any error nothing is printed,
      // otherwise exactly one message is
      ensures var r := CollectDiffs(inputs, env);
              && (r.Err? ==> err == Some(r.error) && printed == [])
              && (r.Ok? ==> err == None && printed == [Render(r.value)])
      // the calls made, in order, stopping at the first that fails
      ensures calls == DiffCalls(inputs, env)
      // an app without a root directory is refused before any other call
      ensures env.loadApp(inputs.localPath).Ok? && env.loadApp(inputs.localPath).value.rootDir == "" ==>
                err == Some(NoAppDirectory(inputs.localPath)) && calls == [LoadAppCall]
    {
      printed := [];
      calls := [LoadAppCall];
      var app := env.loadApp(inputs.localPath);
      if app.Err? {
        return Some(app.error), printed, calls;
      }

      if app.value.rootDir == "" {
        return Some(NoAppDirectory(inputs.localPath)), printed, calls;
      }

      calls := calls + [ResolveAppCall];
      var appToDiff := env.resolveApp(inputs.project, inputs.remoteApp);
      if appToDiff.Err? {
        return Some(appToDiff.error), printed, calls;
      }

      calls := calls + [RealmDiffCall];
      var configDiffs := env.realmDiff(appToDiff.value, app.value);
      if configDiffs.Err? {
        return Some(configDiffs.error), printed, calls;
      }
      var diffs := configDiffs.value;
      ghost var dependencyPart: seq<string>, hostingPart: seq<string> := [], [];

      if inputs.includeDependencies {
        calls := calls + [PrepareDependenciesCall];
        var uploadPath := env.prepareDependencies(app.value);
        if uploadPath.Err? {
          return Some(uploadPath.error), printed, calls;
        }

        calls := calls + [DiffDependenciesCall];
        var dependenciesDiff := env.diffDependencies(appToDiff.value, uploadPath.value);
        if dependenciesDiff.Err? {
          return Some(dependenciesDiff.error), printed, calls;
        }
        assert DependencyFacet(env, app.value, appToDiff.value) == dependenciesDiff;
        assert DependencyCalls(env, app.value) == [PrepareDependenciesCall, DiffDependenciesCall];
        dependencyPart := dependenciesDiff.value;
        diffs := diffs + dependenciesDiff.value;
      }

      if inputs.includeHosting {
        calls := calls + [FindAppHostingCall];
        var hosting := env.findAppHosting(app.value.rootDir);
        if hosting.Err? {
          return Some(hosting.error), printed, calls;
        }

        calls := calls + [HostingAssetsCall];
        var appAssets := env.hostingAssets(appToDiff.value);
        if appAssets.Err? {
          return Some(appAssets.error), printed, calls;
        }

        calls := calls + [HostingDiffsCall];
        var hostingDiffs := env.hostingDiffs(hosting.value, env.hostingAssetCachePath, appToDiff.value.id, appAssets.value);
        if hostingDiffs.Err? {
          return Some(hostingDiffs.error), printed, calls;
        }
        assert HostingFacet(env, app.value, appToDiff.value) == hostingDiffs;
        assert HostingCalls(env, app.value, appToDiff.value) == [FindAppHostingCall, HostingAssetsCall, HostingDiffsCall];
        hostingPart := hostingDiffs.value;
        diffs := diffs + hostingDiffs.value;
      }

      assert (if inputs.includeDependencies then DependencyFacet(env, app.value, appToDiff.value) else Ok([])) == Ok(dependencyPart);
      assert (if inputs.includeHosting then HostingFacet(env, app.value, appToDiff.value) else Ok([])) == Ok(hostingPart);
      assert diffs == configDiffs.value + dependencyPart + hostingPart;
      assert CollectDiffs(inputs, env) == Ok(diffs);
      if |diffs| == 0 {
        printed := [IdenticalMessage];
        return None, printed, calls;
      }

      printed := [ChangesHeader + "\n" + JoinLines(diffs)];
      err := None;
    }
  }
}

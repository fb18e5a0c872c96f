/**
 * Fetching a build artifact from the artifact repository
 * (scripts/utils/artifacts/download_artifact.py): where an artifact lives,
 * what it is saved as, and the fallback chain from the requested branch to
 * the default branch to exiting. The SCP transfer is a parameter: `fetch`
 * says whether copying the remote path to the local path succeeds, and a
 * failure stands for an SCPException or SSHException.
 */
module DownloadArtifact {
  import opened Util
  import opened Paths
  import opened Artifacts

  /** `artifact_path(plan, branch)`: `artifacts/<plan>/<branch>.tar.gz` on the host. */
  function ArtifactPath(plan: string, branch: string): string
  {
    PathJoinAll([REPO_ARTIFACTS_DIR, plan, branch + ARTIFACTS_EXT])
  }

  /** For an ordinary plan name the path is the three parts joined by slashes. */
  lemma ArtifactPathPlain(plan: string, branch: string)
    requires plan != [] && plan[0] != '/' && plan[|plan| - 1] != '/'
    requires branch == [] || branch[0] != '/'
    ensures ArtifactPath(plan, branch) == "artifacts/" + plan + "/" + branch + ".tar.gz"
  {
    var parts := [REPO_ARTIFACTS_DIR, plan, branch + ARTIFACTS_EXT];
    assert parts[..2][..1] == [REPO_ARTIFACTS_DIR];
    assert PathJoinAll(parts[..2]) == "artifacts/" + plan;
    if branch == [] {
      assert (branch + ARTIFACTS_EXT)[0] == '.';
    } else {
      assert (branch + ARTIFACTS_EXT)[0] == branch[0];
    }
  }

  /** `artifact_tar_name(plan)`: the plan with dashes made underscores, plus `.tar.gz`. */
  function ArtifactTarName(plan: string): (r: string)
    ensures |r| == |plan| + 7 && r[|plan|..] == ".tar.gz"
    ensures forall i :: 0 <= i < |plan| ==> r[i] == (if plan[i] == '-' then '_' else plan[i])
    ensures !HasChar(r, '-')
  {
    var u := Underscored(plan);
    var r := u + ARTIFACTS_EXT;
    assert !HasChar(r, '-') by {
      forall i | 0 <= i < |r| ensures r[i] != '-' {
        if i < |u| { assert r[i] == u[i]; }
      }
    }
    r
  }

  /** The connection arguments every download passes on. */
  datatype Target = Target(plan: string, branch: string, hostname: string, port: int,
                           username: string, localPath: string)

  /**
   * The handlers the scripts pass to `download_artifact_safe`:
   * `download_default_artifact` and the builtin `exit`.
   */
  datatype Handler = NoHandler | DefaultArtifact | ExitHandler

  /** How a call ends: a returned value, `exit(code)`, or a raised error. */
  datatype Outcome = Returned(branch: Option<string>) | Exited(code: int) | Raised(error: Error)

  function Rank(h: Handler): nat
  {
    if h == DefaultArtifact then 1 else 0
  }

  /** `download_artifact(ssh, plan, branch, local_path)`: one SCP copy. */
  predicate Downloaded(t: Target, fetch: (string, string) -> bool)
  {
    fetch(ArtifactPath(t.plan, t.branch), PathJoin(t.localPath, ArtifactTarName(t.plan)))
  }

  /**
   * `download_artifact_safe(...)`: the branch when the copy succeeds;
   * otherwise the handler's result, called with the keyword arguments only
   * when some were given, or None without a handler.
   */
  function DownloadArtifactSafe(t: Target, fetch: (string, string) -> bool, handler: Handler,
                                posArgs: seq<int>, kwArgs: Option<Target>): (r: Outcome)
    decreases Rank(handler), 1
    ensures Downloaded(t, fetch) ==> r == Returned(Some(t.branch))
    ensures !Downloaded(t, fetch) && handler == NoHandler ==> r == Returned(None)
  {
    if Downloaded(t, fetch) then Returned(Some(t.branch))
    else if handler == NoHandler then Returned(None)
    else Invoke(handler, posArgs, kwArgs, fetch)
  }

  /**
   * Calling a handler. `download_default_artifact` takes keyword arguments
   * only; `exit` takes at most one positional argument and no keywords; a
   * call that does not fit is a TypeError.
   */
  function Invoke(h: Handler, posArgs: seq<int>, kwArgs: Option<Target>, fetch: (string, string) -> bool): Outcome
    requires h != NoHandler
    decreases Rank(h), 0
  {
    match h
    case ExitHandler =>
      if kwArgs.Some? || |posArgs| > 1 then Raised(TypeError)
      else if posArgs == [] then Exited(0)
      else Exited(posArgs[0])
    case DefaultArtifact =>
      if posArgs != [] || kwArgs.None? then Raised(TypeError)
      else DownloadDefaultArtifact(kwArgs.value, fetch)
  }

  /** `download_default_artifact(...)`: the branch given, or `exit(1)`. */
  function DownloadDefaultArtifact(t: Target, fetch: (string, string) -> bool): (r: Outcome)
    decreases 0, 2
    ensures r == (if Downloaded(t, fetch) then Returned(Some(t.branch)) else Exited(1))
  {
    DownloadArtifactSafe(t, fetch, ExitHandler, [1], None)
  }

  /**
   * `download_specific_or_default(...)`: the requested branch, else the
   * default branch, passed to the handler as keyword arguments.
   */
  function DownloadSpecificOrDefault(t: Target, defaultBranch: string, fetch: (string, string) -> bool): Outcome
  {
    DownloadArtifactSafe(t, fetch, DefaultArtifact, [], Some(t.(branch := defaultBranch)))
  }

  /**
   * The fallback chain: the requested branch if its artifact downloads,
   * else the default branch if that one does, else exit 1; so whenever it
   * returns, it returns one of the two branches, and it never raises.
   */
  lemma SpecificOrDefaultChain(t: Target, defaultBranch: string, fetch: (string, string) -> bool)
    ensures var d := t.(branch := defaultBranch);
            DownloadSpecificOrDefault(t, defaultBranch, fetch) ==
              if Downloaded(t, fetch) then Returned(Some(t.branch))
              else if Downloaded(d, fetch) then Returned(Some(defaultBranch))
              else Exited(1)
  {
  }

  /** When it returns, it returns one of the two branches. */
  lemma SpecificOrDefaultReturnsBranch(t: Target, defaultBranch: string, fetch: (string, string) -> bool)
    ensures var r := DownloadSpecificOrDefault(t, defaultBranch, fetch);
            (r.Returned? ==> r.branch == Some(t.branch) || r.branch == Some(defaultBranch)) &&
            (r.Exited? ==> r.code == 1) && !r.Raised?
  {
    SpecificOrDefaultChain(t, defaultBranch, fetch);
  }

  /**
   * The keyword arguments decide how the handler is called: the
   * keyword-only `download_default_artifact` handler fails with a TypeError
   * when none are given, and `exit` fails when some are.
   */
  lemma KeywordArgumentsPassedIffGiven(t: Target, fetch: (string, string) -> bool, d: Target)
    requires !Downloaded(t, fetch)
    ensures DownloadArtifactSafe(t, fetch, DefaultArtifact, [], None) == Raised(TypeError)
    ensures DownloadArtifactSafe(t, fetch, DefaultArtifact, [], Some(d)) == DownloadDefaultArtifact(d, fetch)
    ensures DownloadArtifactSafe(t, fetch, ExitHandler, [1], Some(d)) == Raised(TypeError)
    ensures DownloadArtifactSafe(t, fetch, ExitHandler, [1], None) == Exited(1)
  {
  }
}

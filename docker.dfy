/**
 * Docker argument vectors (scripts/utils/docker.py): each builder starts
 * from 'docker <subcommand>' and appends flags in a fixed order. Python's
 * `None` for an optional string is the empty string here (both are falsy),
 * and `None` for an optional list is the empty list (both add no tokens).
 */
module Docker {
  import opened Util

  const RUNNING_STATUS: string := "running"

  datatype EnvVar = EnvVar(name: string, value: string)
  /** `Volume(host_path, mount_path, options='')`. */
  datatype Volume = Volume(hostPath: string, mountPath: string, options: string)
  /** `User(user, group='')`; a namedtuple is always truthy, so only `None` leaves the flag out. */
  datatype User = User(user: string, group: string)
  datatype Filter = Filter(key: string, value: string)

  /**
   * An entry-point command: a list, a string, or a value of another type,
   * recorded with its truthiness.
   */
  datatype EntryPoint = List(items: seq<string>) | Str(s: string) | Other(truthy: bool)

  function EnvToken(e: EnvVar): string { e.name + "=" + e.value }
  function VolumeToken(v: Volume): string { v.hostPath + ":" + v.mountPath + ":" + v.options }
  function FilterToken(f: Filter): string { f.key + "=" + f.value }
  function UserToken(u: User): string { u.user + ":" + u.group }

  function EnvTokens(envs: seq<EnvVar>): (r: seq<string>)
    ensures |r| == |envs| && forall i :: 0 <= i < |envs| ==> r[i] == EnvToken(envs[i])
  {
    seq(|envs|, i requires 0 <= i < |envs| => EnvToken(envs[i]))
  }

  function VolumeTokens(vols: seq<Volume>): (r: seq<string>)
    ensures |r| == |vols| && forall i :: 0 <= i < |vols| ==> r[i] == VolumeToken(vols[i])
  {
    seq(|vols|, i requires 0 <= i < |vols| => VolumeToken(vols[i]))
  }

  function FilterTokens(filters: seq<Filter>): (r: seq<string>)
    ensures |r| == |filters| && forall i :: 0 <= i < |filters| ==> r[i] == FilterToken(filters[i])
  {
    seq(|filters|, i requires 0 <= i < |filters| => FilterToken(filters[i]))
  }

  /** The loop shared by the `parse_*` builders: `tokens.extend([flag, v])` for each value. */
  method ExtendPairs(tokens: seq<string>, flag: string, vals: seq<string>) returns (r: seq<string>)
    ensures r == tokens + Pairs(flag, vals)
  {
    r := tokens;
    var i := 0;
    while i < |vals|
      invariant 0 <= i <= |vals|
      invariant r == tokens + Pairs(flag, vals[..i])
    {
      PairsSnoc(flag, vals[..i], vals[i]);
      assert vals[..i + 1] == vals[..i] + [vals[i]];
      r := r + [flag, vals[i]];
      i := i + 1;
    }
    assert vals[..i] == vals;
  }

  /** `parse_env_vars(envs)`: '-e name=value' per variable, in order. */
  method ParseEnvVars(envs: seq<EnvVar>) returns (tokens: seq<string>)
    ensures tokens == Pairs("-e", EnvTokens(envs))
  {
    tokens := ExtendPairs([], "-e", EnvTokens(envs));
  }

  /** `parse_volumes(volumes)`: '-v host:mount:options' per volume, in order. */
  method ParseVolumes(volumes: seq<Volume>) returns (tokens: seq<string>)
    ensures tokens == Pairs("-v", VolumeTokens(volumes))
  {
    tokens := ExtendPairs([], "-v", VolumeTokens(volumes));
  }

  /** `parse_filters(filters)`: '-f key=value' per filter, in order. */
  method ParseFilters(filters: seq<Filter>) returns (tokens: seq<string>)
    ensures tokens == Pairs("-f", FilterTokens(filters))
  {
    tokens := ExtendPairs([], "-f", FilterTokens(filters));
  }

  /** `parse_groups(groups)`: '--group-add group' per group, in order. */
  method ParseGroups(groups: seq<string>) returns (tokens: seq<string>)
    ensures tokens == Pairs("--group-add", groups)
  {
    tokens := ExtendPairs([], "--group-add", groups);
  }

  /** Every variable can be read back, in order, from the '-e' arguments. */
  lemma EnvVarsReadBack(envs: seq<EnvVar>)
    ensures FlagArgs(Pairs("-e", EnvTokens(envs)), "-e") == EnvTokens(envs)
    ensures |Pairs("-e", EnvTokens(envs))| == 2 * |envs|
  {
    FlagArgsOfPairs("-e", EnvTokens(envs));
  }

  /** With the default options '' the volume token ends with ':'. */
  lemma DefaultVolumeOptions(host: string, mount: string)
    ensures VolumeToken(Volume(host, mount, ""))[|VolumeToken(Volume(host, mount, ""))| - 1] == ':'
  {
  }

  /** A user with the default group '' is passed as 'user:'. */
  lemma DefaultUserGroup(user: string)
    ensures UserToken(User(user, "")) == user + ":"
  {
  }

  /** `format_command(entry_point)`: a list as is, a string as one token, anything else a TypeError. */
  function FormatCommand(e: EntryPoint): (r: Result<seq<string>>)
    ensures e.List? ==> r == Ok(e.items)
    ensures e.Str? ==> r == Ok([e.s])
    ensures e.Other? <==> r.Fail?
    ensures r.Fail? ==> r.error == TypeError
  {
    match e
    case List(items) => Ok(items)
    case Str(s) => Ok([s])
    case Other(_) => Fail(TypeError)
  }

  /** `if command:`: an empty list or string adds nothing. */
  predicate Truthy(e: EntryPoint)
  {
    match e
    case List(items) => items != []
    case Str(s) => s != []
    case Other(t) => t
  }

  /** The command tokens `run` and `execute` end with. */
  function CommandTokens(command: Option<EntryPoint>): (r: Result<seq<string>>)
    ensures r.Fail? <==> command.Some? && command.value.Other? && command.value.truthy
    ensures command.Some? && command.value.List? ==> r == Ok(command.value.items)
    ensures command.Some? && command.value.Str? && command.value.s != [] ==> r == Ok([command.value.s])
  {
    if command.Some? && Truthy(command.value) then FormatCommand(command.value) else Ok([])
  }

  /** `ps(all_containers, quiet, filters)`. */
  method Ps(allContainers: bool, quiet: bool, filters: seq<Filter>) returns (cmd: seq<string>)
    ensures cmd == ["docker", "ps"] + (if allContainers then ["--all"] else []) + (if quiet then ["-q"] else [])
                   + Pairs("-f", FilterTokens(filters))
  {
    cmd := ["docker", "ps"];
    if allContainers {
      cmd := cmd + ["--all"];
    }
    if quiet {
      cmd := cmd + ["-q"];
    }
    var tokens := ParseFilters(filters);
    cmd := cmd + tokens;
  }

  /** `rm(container, force)`. */
  method Rm(container: string, force: bool) returns (cmd: seq<string>)
    ensures cmd == ["docker", "rm"] + (if force then ["-f"] else []) + [container]
  {
    cmd := ["docker", "rm"];
    if force {
      cmd := cmd + ["-f"];
    }
    cmd := cmd + [container];
  }

  /** `inspect(container, format_)`. */
  method Inspect(container: string, format: string) returns (cmd: seq<string>)
    ensures cmd == ["docker", "inspect"] + (if format != [] then ["--format", format] else []) + [container]
  {
    cmd := ["docker", "inspect"];
    if format != [] {
      cmd := cmd + ["--format", format];
    }
    cmd := cmd + [container];
  }

  /** `toks` when `b` holds, nothing otherwise: one `if x: cmd.extend(...)`. */
  function When(b: bool, toks: seq<string>): seq<string>
  {
    if b then toks else []
  }

  /** The single-valued options of `docker run`, in the order they are appended. */
  function RunFlags(name: string, workDir: string, user: Option<User>, network: string, tty: bool, detach: bool,
                    interactive: bool): seq<string>
  {
    When(name != [], ["--name", name])
    + When(workDir != [], ["-w", workDir])
    + When(user.Some?, ["-u", if user.Some? then UserToken(user.value) else ""])
    + When(network != [], ["--network", network])
    + When(tty, ["--tty"]) + When(detach, ["-d"]) + When(interactive, ["-i"])
  }

  /** The options of `docker run`, before the image. */
  function RunOptions(name: string, workDir: string, user: Option<User>, network: string, tty: bool, detach: bool,
                      interactive: bool, envs: seq<EnvVar>, volumes: seq<Volume>, groups: seq<string>): seq<string>
  {
    RunFlags(name, workDir, user, network, tty, detach, interactive)
    + Pairs("-e", EnvTokens(envs)) + Pairs("-v", VolumeTokens(volumes)) + Pairs("--group-add", groups)
  }

  method BuildRunFlags(name: string, workDir: string, user: Option<User>, network: string, tty: bool, detach: bool,
                       interactive: bool) returns (cmd: seq<string>)
    ensures cmd == RunFlags(name, workDir, user, network, tty, detach, interactive)
  {
    cmd := When(name != [], ["--name", name]);
    cmd := cmd + When(workDir != [], ["-w", workDir]);
    ghost var userFlag := When(user.Some?, ["-u", if user.Some? then UserToken(user.value) else ""]);
    ghost var before := cmd;
    if user.Some? {
      cmd := cmd + ["-u", UserToken(user.value)];
    } else {
      assert cmd == cmd + [];
    }
    assert cmd == before + userFlag;
    cmd := cmd + When(network != [], ["--network", network]);
    cmd := cmd + When(tty, ["--tty"]) + When(detach, ["-d"]) + When(interactive, ["-i"]);
  }

  /** `run(image, ...)`: the options, the image, then the command tokens; a TypeError for a bad command. */
  method Run(image: string, name: string, workDir: string, user: Option<User>, network: string, tty: bool,
             detach: bool, interactive: bool, envs: seq<EnvVar>, volumes: seq<Volume>, groups: seq<string>,
             command: Option<EntryPoint>) returns (r: Result<seq<string>>)
    ensures r.Fail? <==> CommandTokens(command).Fail?
    ensures r.Ok? ==> r.value == ["docker", "run"]
                                + RunOptions(name, workDir, user, network, tty, detach, interactive, envs, volumes, groups)
                                + [image] + CommandTokens(command).value
  {
    var flags := BuildRunFlags(name, workDir, user, network, tty, detach, interactive);
    var e := ParseEnvVars(envs);
    var v := ParseVolumes(volumes);
    var g := ParseGroups(groups);
    var cmd := ["docker", "run"] + (flags + e + v + g) + [image];
    if command.Some? && Truthy(command.value) {
      var tokens := FormatCommand(command.value);
      if tokens.Fail? {
        return Fail(tokens.error);
      }
      cmd := cmd + tokens.value;
    }
    r := Ok(cmd);
  }

  /** The options of `docker exec`, before the container. */
  function ExecOptions(workDir: string, interactive: bool, tty: bool, user: Option<User>, envs: seq<EnvVar>)
    : seq<string>
  {
    When(interactive, ["-i"]) + When(tty, ["-t"]) + When(workDir != [], ["-w", workDir])
    + When(user.Some?, ["-u", if user.Some? then UserToken(user.value) else ""])
    + Pairs("-e", EnvTokens(envs))
  }

  /** `execute(container, ...)`: the options, the container, then the command tokens. */
  method Execute(container: string, workDir: string, interactive: bool, tty: bool, user: Option<User>,
                 envs: seq<EnvVar>, command: Option<EntryPoint>) returns (r: Result<seq<string>>)
    ensures r.Fail? <==> CommandTokens(command).Fail?
    ensures r.Ok? ==> r.value == ["docker", "exec"] + ExecOptions(workDir, interactive, tty, user, envs)
                                + [container] + CommandTokens(command).value
  {
    var opts := When(interactive, ["-i"]) + When(tty, ["-t"]) + When(workDir != [], ["-w", workDir]);
    if user.Some? {
      opts := opts + ["-u", UserToken(user.value)];
    }
    var e := ParseEnvVars(envs);
    assert opts + e == ExecOptions(workDir, interactive, tty, user, envs);
    var cmd := ["docker", "exec"] + (opts + e) + [container];
    if command.Some? && Truthy(command.value) {
      var tokens := FormatCommand(command.value);
      if tokens.Fail? {
        return Fail(tokens.error);
      }
      cmd := cmd + tokens.value;
    } else {
      assert cmd == cmd + CommandTokens(command).value;
    }
    r := Ok(cmd);
  }

  /**
   * In a successful `run` the image is the token right before the command
   * tokens, and the command tokens end the vector unchanged.
   */
  lemma RunImagePosition(image: string, opts: seq<string>, tokens: seq<string>)
    ensures var cmd := ["docker", "run"] + opts + [image] + tokens;
            cmd[|cmd| - |tokens| - 1] == image && cmd[|cmd| - |tokens|..] == tokens
  {
    var cmd := ["docker", "run"] + opts + [image] + tokens;
    assert cmd == (["docker", "run"] + opts + [image]) + tokens;
  }

  /** `get_container_status`: the inspect command run with the status format. */
  method StatusCmd(container: string) returns (cmd: seq<string>)
    ensures cmd == ["docker", "inspect", "--format", "{{ .State.Status }}", container]
  {
    cmd := Inspect(container, "{{ .State.Status }}");
  }
}

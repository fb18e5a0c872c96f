/**
 * Settling which branch to pull artifacts for (scripts/utils/artifacts/
 * branch_config.py): the loaded branch config, updated in place by the
 * command-line branches. Loading the YAML file is left to the caller.
 */
module BranchConfig {
  import opened Util
  import opened Yaml
  import opened Artifacts

  /**
   * `coalesce_branch_config(path, current_branch, default_branch)` on the
   * loaded config. An absent branch argument is the empty string: the code
   * only tests them for truthiness. Assigning into a non-dict is a
   * TypeError; with no current branch given, reading a missing default is a
   * KeyError.
   */
  method CoalesceBranchConfig(loaded: Value, currentBranch: string, defaultBranch: string)
    returns (r: Result<map<string, Value>>)
    ensures r.Fail? <==> !loaded.VDict? ||
                         (currentBranch == [] && defaultBranch == [] && DEFAULT_BRANCH !in loaded.fields)
    ensures !loaded.VDict? ==> r == Fail(TypeError)
    ensures loaded.VDict? && r.Fail? ==> r == Fail(KeyError(DEFAULT_BRANCH))
    ensures r.Ok? ==> r.value.Keys == loaded.fields.Keys + {CURRENT_BRANCH} + (if defaultBranch != [] then {DEFAULT_BRANCH} else {})
    ensures r.Ok? && defaultBranch != [] ==> r.value[DEFAULT_BRANCH] == VStr(defaultBranch)
    ensures r.Ok? && defaultBranch == [] && DEFAULT_BRANCH in loaded.fields ==>
              r.value[DEFAULT_BRANCH] == loaded.fields[DEFAULT_BRANCH]
    ensures r.Ok? && currentBranch != [] ==> r.value[CURRENT_BRANCH] == VStr(currentBranch)
    ensures r.Ok? && currentBranch == [] ==> r.value[CURRENT_BRANCH] == r.value[DEFAULT_BRANCH]
    ensures r.Ok? ==> forall k :: k in loaded.fields && k != DEFAULT_BRANCH && k != CURRENT_BRANCH ==>
                                  r.value[k] == loaded.fields[k]
  {
    if !loaded.VDict? {
      return Fail(TypeError);
    }
    var config := loaded.fields;
    if defaultBranch != [] {
      config := config[DEFAULT_BRANCH := VStr(defaultBranch)];
    }
    if currentBranch != [] {
      config := config[CURRENT_BRANCH := VStr(currentBranch)];
    } else {
      if DEFAULT_BRANCH !in config {
        return Fail(KeyError(DEFAULT_BRANCH));
      }
      config := config[CURRENT_BRANCH := config[DEFAULT_BRANCH]];
    }
    r := Ok(config);
  }
}

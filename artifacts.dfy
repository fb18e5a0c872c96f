/**
 * The constants of the artifacts package (scripts/utils/artifacts/
 * __init__.py) that the branch config and the download helpers use.
 */
module Artifacts {
  /** Where the artifacts live on the repository host. */
  const REPO_ARTIFACTS_DIR: string := "artifacts"
  const ARTIFACTS_EXT: string := ".tar.gz"
  /** Branch config keys. */
  const DEFAULT_BRANCH: string := "default"
  const CURRENT_BRANCH: string := "current_branch"
}
